/**
 * When a call has to be refused: if the records as they stand do not allow its plan, then no transaction that
 * would answer the call, however it was planned, can be committed.
 */
module Refusals {
  import opened Basics
  import opened Inventory
  import opened Ordering
  import opened Records
  import opened Orders
  import opened Plans
  import opened Ledger
  import opened Protocol
  import opened Parts
  import opened Operations
  import opened Runs
  import opened Idempotency
  import opened Progress
  import opened Calls

  /** The same records under the same conditions. */
  predicate SameConditions(ws: Writes, vs: Writes) {
    ws.Keys == vs.Keys && forall k :: k in ws ==> ws[k].condition == vs[k].condition
  }

  lemma HoldsAlike(t: Tables, ws: Writes, vs: Writes)
    requires SameConditions(ws, vs) && Holds(t, ws)
    ensures Holds(t, vs)
  {
    forall k | k in vs ensures Satisfied(vs[k].condition, Lookup(t, k)) {
      assert k in ws && vs[k].condition == ws[k].condition;
    }
  }

  lemma ReadWas(w: World, op: Op, k: Key, v: Item)
    requires WorldInv(w) && Commits(w, op) && (k, v) in ReadsOf(op)
    ensures Was(w.tables, k, v)
  {
    assert (k, v) in w.seen;
  }

  // ----- adjust -----

  /** A stock record as a read would return it. */
  function StockNow(t: Tables, k: Key): Option<StockRec> {
    if k in t && t[k].StockItem? then Some(t[k].stock) else None
  }

  lemma AdjustServes(op: Op, scope: Scope, stock: Id, location: Id, delta: int, revision: nat, key: string)
    requires Serves(op, AdjustCall(scope, stock, location, delta, revision, key))
    ensures op.AdjustOp? && op.scope == scope && op.key == key
    ensures op.stock == stock && op.location == location && op.delta == delta && op.expectedRevision == revision
  {
  }

  /** A committing adjustment was planned from the stock as it stands. */
  lemma AdjustIsCurrent(w: World, op: Op)
    requires WorldInv(w) && op.AdjustOp? && Commits(w, op)
    ensures op.current == StockNow(w.tables, StockKey(op.scope.Pk(), op.location, op.stock))
  {
    var pk, k := op.scope.Pk(), StockKey(op.scope.Pk(), op.location, op.stock);
    var c := AdjustChange(op.scope, op.stock, op.location, op.delta, op.expectedRevision, op.now, op.current).value;
    var ws := PlanOf(op).value;
    assert ws[k] == StockWrite(c) by {
      StockWritesAt(pk, op.key, [c]);
      assert WritesChange(StockWrites(pk, op.key, [c]), pk, op.key, [c][0]);
    }
    assert Satisfied(ws[k].condition, Lookup(w.tables, k));
    if op.current.Some? {
      ReadWas(w, op, k, StockItem(op.current.value));
      StockReadIsCurrent(w.tables, k, op.current.value);
    }
  }

  lemma AdjustRefused(w: World, scope: Scope, stock: Id, location: Id, delta: int, revision: nat, key: string, now: nat)
    requires WorldInv(w)
    requires var k := StockKey(scope.Pk(), location, stock);
      AdjustChange(scope, stock, location, delta, revision, now, StockNow(w.tables, k)).Err?
    ensures Hopeless(AdjustCall(scope, stock, location, delta, revision, key), w)
  {
    forall op | Serves(op, AdjustCall(scope, stock, location, delta, revision, key)) ensures !Commits(w, op) {
      AdjustServes(op, scope, stock, location, delta, revision, key);
      if Commits(w, op) { AdjustIsCurrent(w, op); }
    }
  }

  lemma AdjustDecides(w: World, scope: Scope, stock: Id, location: Id, delta: int, revision: nat, key: string, now: nat)
    requires WorldInv(w)
    requires var current := StockNow(w.tables, StockKey(scope.Pk(), location, stock));
      !Commits(w, AdjustOp(scope, now, key, stock, location, delta, revision, current))
    ensures Hopeless(AdjustCall(scope, stock, location, delta, revision, key), w)
  {
    forall op | Serves(op, AdjustCall(scope, stock, location, delta, revision, key)) ensures !Commits(w, op) {
      AdjustServes(op, scope, stock, location, delta, revision, key);
      if Commits(w, op) {
        AdjustIsCurrent(w, op);
        AdjustAnyTime(w, op, now);
      }
    }
  }

  /** The same adjustment at another time. */
  function AdjustedAt(op: Op, now: nat): Op
    requires op.AdjustOp?
  {
    AdjustOp(op.scope, now, op.key, op.stock, op.location, op.delta, op.expectedRevision, op.current)
  }

  /** The clock does not enter an adjustment's conditions. */
  lemma AdjustAnyTime(w: World, op: Op, now: nat)
    requires op.AdjustOp? && Commits(w, op)
    ensures Commits(w, AdjustedAt(op, now))
  {
    AdjustSame(op, now);
    HoldsAlike(w.tables, PlanOf(op).value, PlanOf(AdjustedAt(op, now)).value);
  }

  lemma AdjustSame(op: Op, now: nat)
    requires op.AdjustOp? && PlanOf(op).Ok?
    ensures PlanOf(AdjustedAt(op, now)).Ok? && SameConditions(PlanOf(op).value, PlanOf(AdjustedAt(op, now)).value)
    ensures ReadsOf(AdjustedAt(op, now)) == ReadsOf(op)
  {
    var pk, r := op.scope.Pk(), AdjustRequest(op.stock, op.location, op.delta, op.expectedRevision);
    var c := AdjustChange(op.scope, op.stock, op.location, op.delta, op.expectedRevision, op.now, op.current).value;
    var d := AdjustChange(op.scope, op.stock, op.location, op.delta, op.expectedRevision, now, op.current).value;
    PairAlike(pk, op.key, c, d);
    assert SameConditions(ReceiptWrites(op.scope, op.key, r, StockResult(c), op.now), ReceiptWrites(op.scope, op.key, r, StockResult(d), now));
  }

  lemma PairAlike(pk: Partition, key: string, c: Change, d: Change)
    requires c.location == d.location && c.stock == d.stock && c.before == d.before && c.movement.kind == d.movement.kind
    ensures SameConditions(StockWrites(pk, key, [c]), StockWrites(pk, key, [d]))
  {
    OneChange(pk, key, c);
    OneChange(pk, key, d);
  }

  lemma OneChange(pk: Partition, key: string, c: Change)
    ensures StockWrites(pk, key, [c])
         == map[StockKey(pk, c.location, c.stock) := StockWrite(c), MoveKey(pk, key, c) := Put(MovementItem(c.movement), Absent)]
  {
    assert [c][..0] == [];
    assert StockWrites(pk, key, [c][..0]) == map[];
  }

  // ----- defer -----

  lemma DeferServes(op: Op, scope: Scope, rid: Id, next: nat, key: string)
    requires Serves(op, DeferCall(scope, rid, next, key))
    ensures op.DeferOp? && op.scope == scope && op.key == key && op.id == rid && op.next == next
  {
  }

  /** A committing deferral was planned from the reservation as it stands. */
  lemma DeferIsCurrent(w: World, op: Op)
    requires WorldInv(w) && op.DeferOp? && Commits(w, op)
    ensures var rk := ReservationKey(op.scope.Pk(), op.id); rk in w.tables && w.tables[rk] == ReservationItem(op.reservation)
  {
    var rk, ws := ReservationKey(op.scope.Pk(), op.id), PlanOf(op).value;
    assert ws[rk].condition == ReservedDueIs(op.reservation.revision, op.reservation.dueEpoch);
    assert Satisfied(ws[rk].condition, Lookup(w.tables, rk));
    assert (rk, ReservationItem(op.reservation)) in ReadsOf(op);
    ReadWas(w, op, rk, ReservationItem(op.reservation));
  }

  lemma DeferDecides(w: World, scope: Scope, rid: Id, next: nat, key: string, now: nat)
    requires WorldInv(w) && next == now + RECONCILER_INTERVAL_SECONDS
    requires var rk := ReservationKey(scope.Pk(), rid);
      rk in w.tables && w.tables[rk].ReservationItem? ==> !Commits(w, DeferOp(scope, now, key, rid, next, w.tables[rk].reservation))
    ensures Hopeless(DeferCall(scope, rid, next, key), w)
  {
    forall op | Serves(op, DeferCall(scope, rid, next, key)) ensures !Commits(w, op) {
      DeferServes(op, scope, rid, next, key);
      if Commits(w, op) {
        DeferIsCurrent(w, op);
        DeferIsNow(op, now);
      }
    }
  }

  /** The time of a deferral is the one that its next time follows by five minutes. */
  lemma DeferIsNow(op: Op, now: nat)
    requires op.DeferOp? && PlanOf(op).Ok? && op.next == now + RECONCILER_INTERVAL_SECONDS
    ensures op == DeferOp(op.scope, now, op.key, op.id, op.next, op.reservation)
  {
  }

  // ----- commit, release and payment events -----

  lemma FinishServed(op: Op, scope: Scope, f: Finish)
    requires Serves(op, FinishCall(scope, f))
    ensures (op.FinishOp? || op.AcknowledgeOp?) && op.scope == scope && op.finish == f
  {
  }

  /** Conditions judged together hold for each part. */
  lemma PartsHold(t: Tables, a: Writes, b: Writes, c: Writes, d: Writes)
    requires a.Keys !! b.Keys !! c.Keys !! d.Keys && Holds(t, a + (b + c) + d)
    ensures Holds(t, a) && Holds(t, b) && Holds(t, c) && Holds(t, d)
  {
    var all := a + (b + c) + d;
    forall k | k in a ensures Satisfied(a[k].condition, Lookup(t, k)) { assert all[k] == a[k]; }
    forall k | k in b ensures Satisfied(b[k].condition, Lookup(t, k)) { assert all[k] == b[k]; }
    forall k | k in c ensures Satisfied(c[k].condition, Lookup(t, k)) { assert all[k] == c[k]; }
    forall k | k in d ensures Satisfied(d[k].condition, Lookup(t, k)) { assert all[k] == d[k]; }
  }

  /** What a committing completion found: its reservation as it stands, and its records' conditions. */
  lemma FinishIsCurrent(w: World, op: Op)
    requires WorldInv(w) && op.FinishOp? && Commits(w, op)
    ensures Live(w.tables, op.scope, op.finish.reservation) && ReasonFits(op.finish.status, op.finish.reason)
    ensures w.tables[ReservationKey(op.scope.Pk(), op.finish.reservation)] == ReservationItem(op.reservation)
    ensures Holds(w.tables, FinishRecords(op.scope, op.finish, op.now, op.reservation, op.order))
  {
    var scope, f, r := op.scope, op.finish, op.reservation;
    FinishIsCompletion(scope, f, op.now, r, op.order, op.before, op.access);
    var c := FinishCompletion(scope, f, op.now, r, op.order, op.before);
    var claims := OptionalAccessWrites(scope, f.event, r.order, op.now, op.access).value;
    FinishPartsApart(op, c, claims);
    PartsHold(w.tables, FinishRecords(scope, f, op.now, r, op.order), c.Stock(), c.Core(), claims);
    assert (ReservationKey(scope.Pk(), f.reservation), ReservationItem(r)) in ReadsOf(op);
    assert (OrderKey(scope.Pk(), r.order), OrderItem(op.order)) in ReadsOf(op);
    ReadWas(w, op, ReservationKey(scope.Pk(), f.reservation), ReservationItem(r));
    ReadWas(w, op, OrderKey(scope.Pk(), r.order), OrderItem(op.order));
    CompletionIsCurrent(c, w.tables);
  }

  lemma FinishPartsApart(op: Op, c: Completion, claims: Writes)
    requires op.FinishOp? && |op.before| == |op.reservation.allocations|
    requires ReservationReadable(op.reservation, op.scope.domain)
    requires ChangesOf(op.scope.domain, op.finish.reservation, MoveFor(op.finish.status), Some(op.finish.reason), op.now,
                       op.reservation.allocations, op.before).Ok?
    requires c == FinishCompletion(op.scope, op.finish, op.now, op.reservation, op.order, op.before)
    requires ClaimsFit(c, claims, KindOf(op.finish.event), op.access)
    ensures FinishRecords(op.scope, op.finish, op.now, op.reservation, op.order).Keys !! c.Stock().Keys !! c.Core().Keys !! claims.Keys
  {
    var f, r := op.finish, op.reservation;
    ClaimsGroup(c, claims, KindOf(f.event), op.access);
    NoReceipt(op.scope, f.event, r.order, op.order, FinishResult(f.reservation, r, f.status, op.now, f.reason), op.now);
    ChangesDistinct(op.scope.domain, f.reservation, MoveFor(f.status), Some(f.reason), op.now, r.allocations, op.before);
    StockGroup(op.scope.Pk(), f.key, c.changes);
    CoreGroup(c);
    Apart(FinishRecords(op.scope, f, op.now, r, op.order), c.Stock(), c.Core(), claims);
  }

  /** A binding check that succeeds binds the event to the reservation's own order and attempt. */
  lemma BindingBinds(t: Tables, scope: Scope, e: PaymentEvent)
    requires Inv(t) && Holds(t, BindingCheck(scope, e))
    ensures var rk := ReservationKey(scope.Pk(), e.reservation);
      && rk in t && t[rk].ReservationItem?
      && t[rk].reservation.order == e.order && t[rk].reservation.attempt == e.attempt
  {
    var bk := BindingKey(scope.Pk(), e.attempt);
    assert bk in BindingCheck(scope, e) && Satisfied(BindingCheck(scope, e)[bk].condition, Lookup(t, bk));
    assert Sound(t, bk);
  }

  /** Nobody has used the event's id, be it for a payment, a refund or a subscription. */
  predicate EventUnused(t: Tables, scope: Scope, f: Finish) {
    f.event.Some? ==> InboxKey(scope.Pk(), f.event.value.event) !in t
  }

  /** The conditions of a payment event's records hold only under a new event id and the event's own binding. */
  lemma NoticesNeed(t: Tables, scope: Scope, e: PaymentEvent, others: Writes, oid: Id, order: OrderRec, result: Outcome, now: nat)
    requires Holds(t, others + EventWrites(scope, e, oid, order, result, now))
    ensures InboxKey(scope.Pk(), e.event) !in t && Holds(t, BindingCheck(scope, e))
  {
    var ws, bk, ik := others + EventWrites(scope, e, oid, order, result, now), BindingKey(scope.Pk(), e.attempt), InboxKey(scope.Pk(), e.event);
    assert bk in ws && ws[bk] == BindingCheck(scope, e)[bk] && Satisfied(ws[bk].condition, Lookup(t, bk));
    assert ik in ws && ws[ik].condition == Absent && Satisfied(ws[ik].condition, Lookup(t, ik));
  }

  lemma EventsBind(t: Tables, scope: Scope, f: Finish, receipt: Writes, oid: Id, order: OrderRec, result: Outcome, now: nat)
    requires Inv(t) && FinishArgs(f) && Holds(t, receipt + OptionalEventWrites(scope, f.event, oid, order, result, now))
    requires var rk := ReservationKey(scope.Pk(), f.reservation); rk in t && t[rk].ReservationItem?
    ensures EventBinds(f, t[ReservationKey(scope.Pk(), f.reservation)].reservation) && EventUnused(t, scope, f)
  {
    if f.event.Some? {
      NoticesNeed(t, scope, f.event.value, receipt, oid, order, result, now);
      BindingBinds(t, scope, f.event.value);
    }
  }

  lemma FinishBinds(w: World, op: Op)
    requires WorldInv(w) && op.FinishOp? && Commits(w, op)
    ensures Live(w.tables, op.scope, op.finish.reservation) && EventUnused(w.tables, op.scope, op.finish)
    ensures EventBinds(op.finish, w.tables[ReservationKey(op.scope.Pk(), op.finish.reservation)].reservation)
  {
    var f, r := op.finish, op.reservation;
    FinishIsCurrent(w, op);
    var result := FinishResult(f.reservation, r, f.status, op.now, f.reason);
    EventsBind(w.tables, op.scope, f, ReceiptWrites(op.scope, f.key, f.Request(op.scope), result, op.now), r.order, op.order, result, op.now);
  }

  /** What a committing acknowledgement found: a reservation that has ended as the event says. */
  predicate Ended(t: Tables, scope: Scope, f: Finish) {
    var rk := ReservationKey(scope.Pk(), f.reservation);
    && rk in t && t[rk].ReservationItem? && t[rk].reservation.domain == scope.domain
    && t[rk].reservation.status == f.status && t[rk].reservation.reason == Some(f.reason)
  }

  lemma AcknowledgeIsCurrent(w: World, op: Op)
    requires WorldInv(w) && op.AcknowledgeOp? && Commits(w, op)
    ensures Ended(w.tables, op.scope, op.finish) && ReasonFits(op.finish.status, op.finish.reason)
    ensures EventUnused(w.tables, op.scope, op.finish)
    ensures EventBinds(op.finish, w.tables[ReservationKey(op.scope.Pk(), op.finish.reservation)].reservation)
  {
    AcknowledgeWasRead(op);
    ReadWas(w, op, ReservationKey(op.scope.Pk(), op.finish.reservation), ReservationItem(op.reservation));
    AcknowledgeBinds(w.tables, op);
  }

  lemma AcknowledgeBinds(t: Tables, op: Op)
    requires Inv(t) && op.AcknowledgeOp? && PlanOf(op).Ok? && Holds(t, PlanOf(op).value)
    requires var rk := ReservationKey(op.scope.Pk(), op.finish.reservation); rk in t && t[rk].ReservationItem?
    ensures EventBinds(op.finish, t[ReservationKey(op.scope.Pk(), op.finish.reservation)].reservation)
    ensures EventUnused(t, op.scope, op.finish)
  {
    var scope, f, r := op.scope, op.finish, op.reservation;
    var result := TerminalResult(f.reservation, r);
    var records := ReceiptWrites(scope, f.key, f.Request(scope), result, op.now)
                   + EventWrites(scope, f.event.value, r.order, op.order, result, op.now);
    AccessGroup(scope, r.order, f.event.value.kind, op.now, op.access);
    FirstHolds(t, records, AccessWrites(scope, r.order, f.event.value.kind, op.now, op.access).value);
    NoticesNeed(t, scope, f.event.value, ReceiptWrites(scope, f.key, f.Request(scope), result, op.now), r.order, op.order, result, op.now);
    BindingBinds(t, scope, f.event.value);
  }

  lemma FirstHolds(t: Tables, a: Writes, b: Writes)
    requires a.Keys !! b.Keys && Holds(t, a + b)
    ensures Holds(t, a)
  {
    forall k | k in a ensures Satisfied(a[k].condition, Lookup(t, k)) { assert (a + b)[k] == a[k]; }
  }

  /** A call that finds no reservation to finish, or one that ended otherwise, cannot be answered. */
  lemma FinishNeedsReservation(w: World, scope: Scope, f: Finish)
    requires WorldInv(w) && !Live(w.tables, scope, f.reservation) && (f.event.None? || !Ended(w.tables, scope, f))
    ensures Hopeless(FinishCall(scope, f), w)
  {
    forall op | Serves(op, FinishCall(scope, f)) ensures !Commits(w, op) {
      FinishServed(op, scope, f);
      if Commits(w, op) {
        if op.FinishOp? { FinishIsCurrent(w, op); } else { AcknowledgeIsCurrent(w, op); }
      }
    }
  }

  /** What stands between a held reservation and the end that a call asks for: used ids, or a binding not its own. */
  predicate Endable(t: Tables, scope: Scope, f: Finish)
    requires Live(t, scope, f.reservation)
  {
    Unused(t, scope, f) && EventBinds(f, t[ReservationKey(scope.Pk(), f.reservation)].reservation)
  }

  lemma CommitsEndable(w: World, op: Op)
    requires WorldInv(w) && Commits(w, op) && (op.FinishOp? || op.AcknowledgeOp?) && Live(w.tables, op.scope, op.finish.reservation)
    requires TicketOf(op).Some? && TicketOf(op).value.key == op.finish.key && TicketOf(op).value.pk == op.scope.Pk()
    ensures Endable(w.tables, op.scope, op.finish)
  {
    ReceiptAppears(w, op);
    if op.FinishOp? { FinishBinds(w, op); } else { AcknowledgeIsCurrent(w, op); }
  }

  /** For a held reservation everything depends on the operation planned from the records as they stand. */
  lemma FinishDecides(w: World, scope: Scope, f: Finish, now: nat)
    requires WorldInv(w) && Live(w.tables, scope, f.reservation) && FinishArgs(f) && ReasonFits(f.status, f.reason)
    ensures Sound(w.tables, ReservationKey(scope.Pk(), f.reservation))
    ensures Commits(w, FinishNow(w.tables, scope, f, now)) <==> Endable(w.tables, scope, f)
    ensures !Endable(w.tables, scope, f) ==> Hopeless(FinishCall(scope, f), w)
  {
    assert Sound(w.tables, ReservationKey(scope.Pk(), f.reservation));
    if Endable(w.tables, scope, f) {
      FinishNowCommits(w, scope, f, now);
    } else {
      forall op | Serves(op, FinishCall(scope, f)) ensures !Commits(w, op) {
        FinishServed(op, scope, f);
        if Commits(w, op) { CommitsEndable(w, op); }
      }
      FinishNowServes(w.tables, scope, f, now);
    }
  }

  lemma FinishNowServes(t: Tables, scope: Scope, f: Finish, now: nat)
    requires Live(t, scope, f.reservation) && Sound(t, ReservationKey(scope.Pk(), f.reservation))
    ensures Serves(FinishNow(t, scope, f, now), FinishCall(scope, f))
  {
  }

  /**
   * No stranded stock: in every reachable state, a commit, a release or a payment event for a held reservation,
   * undisturbed between its reads and its transaction, goes through exactly if its idempotency key and its event id
   * are unused and its event names the reservation's own order and attempt; and then it ends the reservation as asked.
   */
  lemma NoStrandedStock(ops: seq<Op>, scope: Scope, f: Finish, now: nat)
    requires Live(Run(ops).tables, scope, f.reservation) && ReasonFits(f.status, f.reason) && FinishArgs(f)
    ensures Sound(Run(ops).tables, ReservationKey(scope.Pk(), f.reservation))
    ensures Commits(Run(ops), FinishNow(Run(ops).tables, scope, f, now)) <==> Endable(Run(ops).tables, scope, f)
    ensures Endable(Run(ops).tables, scope, f) ==>
      var u, rk := Run(ops + [FinishNow(Run(ops).tables, scope, f, now)]).tables, ReservationKey(scope.Pk(), f.reservation);
      && rk in u && u[rk].ReservationItem?
      && u[rk].reservation.status == f.status && u[rk].reservation.reason == Some(f.reason)
  {
    RunKeeps(ops);
    FinishDecides(Run(ops), scope, f, now);
    if Endable(Run(ops).tables, scope, f) {
      var op := FinishNow(Run(ops).tables, scope, f, now);
      RunStep(ops, op);
      FinishEffect(Run(ops).tables, scope, f, now, op.reservation, op.order, op.before, op.access);
    }
  }

  /** The records that a held reservation needs are all there and in order. */
  lemma NothingBlocks(t: Tables, scope: Scope, f: Finish, now: nat)
    requires Inv(t) && Live(t, scope, f.reservation) && FinishArgs(f) && ReasonFits(f.status, f.reason)
    ensures var pk := scope.Pk();
      var r := t[ReservationKey(pk, f.reservation)].reservation;
      && ReservationReadable(r, scope.domain)
      && OrderKey(pk, r.order) in t && t[OrderKey(pk, r.order)].OrderItem?
      && OrderReadable(t[OrderKey(pk, r.order)].order, scope.domain, f.reservation, r, PendingCheckout)
      && (forall i :: 0 <= i < |r.allocations| ==> StockReady(t, scope, f.reservation, MoveFor(f.status), Some(f.reason), now, r.allocations[i]))
      && AccessMoves(t, scope, f.event, r.order, now)
  {
    var pk := scope.Pk();
    var rk := ReservationKey(pk, f.reservation);
    assert Sound(t, rk) && Sound(t, OrderKey(pk, t[rk].reservation.order));
    var r := t[rk].reservation;
    forall i | 0 <= i < |r.allocations|
      ensures StockReady(t, scope, f.reservation, MoveFor(f.status), Some(f.reason), now, r.allocations[i])
    {
      EnoughReserved(t, pk, f.reservation, i);
      assert Sound(t, StockKey(pk, r.allocations[i].location, r.allocations[i].stock));
    }
    AccessPossible(t, scope, f, now);
    assert Sound(t, AccessKey(pk, r.order));
  }

  /** The stock of one allocation is there and can make the movement. */
  predicate StockReady(t: Tables, scope: Scope, rid: Id, kind: MovementKind, reason: Option<Reason>, now: nat, a: Allocation) {
    var k := StockKey(scope.Pk(), a.location, a.stock);
    k in t && t[k].StockItem? && ChangeOf(scope.domain, rid, kind, reason, now, a, t[k].stock).Ok?
  }

  /** The fiscal access, if there is one, can make the transition that the event asks for. */
  predicate AccessMoves(t: Tables, scope: Scope, event: Option<PaymentEvent>, orderId: Id, now: nat) {
    var k := AccessKey(scope.Pk(), orderId);
    && (event.Some? && k in t ==> t[k].AccessItem?)
    && OptionalAccessWrites(scope, event, orderId, now, CurrentAccess(t, scope.Pk(), orderId)).Ok?
  }

  // ----- repeated payment events -----

  /** The acknowledgement planned from the records as they stand. */
  function AcknowledgeNow(t: Tables, scope: Scope, f: Finish, now: nat): Op
    requires Ended(t, scope, f) && f.status != Reserved && Sound(t, ReservationKey(scope.Pk(), f.reservation))
  {
    var r := t[ReservationKey(scope.Pk(), f.reservation)].reservation;
    AcknowledgeOp(scope, now, f, r, t[OrderKey(scope.Pk(), r.order)].order, CurrentAccess(t, scope.Pk(), r.order))
  }

  lemma NothingBlocksEnded(t: Tables, scope: Scope, f: Finish, now: nat)
    requires Inv(t) && Ended(t, scope, f) && f.event.Some? && FinishArgs(f) && ReasonFits(f.status, f.reason)
    ensures var pk := scope.Pk();
      var r := t[ReservationKey(pk, f.reservation)].reservation;
      && ReservationReadable(r, scope.domain)
      && OrderKey(pk, r.order) in t && t[OrderKey(pk, r.order)].OrderItem?
      && (var order := t[OrderKey(pk, r.order)].order;
          OrderReadable(order, scope.domain, f.reservation, r, AcknowledgedStatus(f.status, order)))
      && AccessMoves(t, scope, f.event, r.order, now)
  {
    var pk := scope.Pk();
    var rk := ReservationKey(pk, f.reservation);
    assert Sound(t, rk);
    assert Sound(t, OrderKey(pk, t[rk].reservation.order)) && Sound(t, AccessKey(pk, t[rk].reservation.order));
  }

  lemma AcknowledgePlanned(t: Tables, scope: Scope, f: Finish, now: nat)
    requires Inv(t) && Ended(t, scope, f) && f.event.Some? && FinishArgs(f) && ReasonFits(f.status, f.reason)
    ensures Sound(t, ReservationKey(scope.Pk(), f.reservation)) && PlanOf(AcknowledgeNow(t, scope, f, now)).Ok?
  {
    assert Sound(t, ReservationKey(scope.Pk(), f.reservation));
    NothingBlocksEnded(t, scope, f, now);
  }

  lemma AcknowledgeHolds(t: Tables, scope: Scope, f: Finish, now: nat)
    requires Inv(t) && Ended(t, scope, f) && f.event.Some? && FinishArgs(f) && ReasonFits(f.status, f.reason)
    requires Sound(t, ReservationKey(scope.Pk(), f.reservation)) && PlanOf(AcknowledgeNow(t, scope, f, now)).Ok?
    requires Unused(t, scope, f) && EventBinds(f, t[ReservationKey(scope.Pk(), f.reservation)].reservation)
    ensures Holds(t, PlanOf(AcknowledgeNow(t, scope, f, now)).value)
  {
    var op := AcknowledgeNow(t, scope, f, now);
    var r, order := op.reservation, op.order;
    var result := TerminalResult(f.reservation, r);
    var receipt := ReceiptWrites(scope, f.key, f.Request(scope), result, now);
    var events := EventWrites(scope, f.event.value, r.order, order, result, now);
    NoticesHold(t, scope, f.event.value, r.order, order, result, now);
    ClaimsHold(t, scope, f, r.order, now);
    HoldsUnion(t, receipt, events);
    HoldsUnion(t, receipt + events, AccessWrites(scope, r.order, f.event.value.kind, now, op.access).value);
  }

  lemma AcknowledgeReadsStored(w: World, scope: Scope, f: Finish, now: nat)
    requires WorldInv(w) && Ended(w.tables, scope, f) && f.status != Reserved
    ensures Sound(w.tables, ReservationKey(scope.Pk(), f.reservation))
    ensures ReadsOf(AcknowledgeNow(w.tables, scope, f, now)) <= w.seen
  {
    var pk := scope.Pk();
    assert Sound(w.tables, ReservationKey(pk, f.reservation));
    var op := AcknowledgeNow(w.tables, scope, f, now);
    WasSeen(w, ReservationKey(pk, f.reservation), ReservationItem(op.reservation));
    WasSeen(w, OrderKey(pk, op.reservation.order), OrderItem(op.order));
    if op.access.Some? { WasSeen(w, AccessKey(pk, op.reservation.order), AccessItem(op.access.value)); }
    AcknowledgeReadsSeen(op, w.seen);
  }

  lemma AcknowledgeReadsSeen(op: Op, seen: set<(Key, Item)>)
    requires op.AcknowledgeOp? && (ReservationKey(op.scope.Pk(), op.finish.reservation), ReservationItem(op.reservation)) in seen
    requires (OrderKey(op.scope.Pk(), op.reservation.order), OrderItem(op.order)) in seen
    requires op.access.Some? ==> (AccessKey(op.scope.Pk(), op.reservation.order), AccessItem(op.access.value)) in seen
    ensures ReadsOf(op) <= seen
  {
  }

  lemma AcknowledgeDecides(w: World, scope: Scope, f: Finish, now: nat)
    requires WorldInv(w) && Ended(w.tables, scope, f) && f.event.Some? && FinishArgs(f) && ReasonFits(f.status, f.reason)
    ensures Sound(w.tables, ReservationKey(scope.Pk(), f.reservation))
    ensures Commits(w, AcknowledgeNow(w.tables, scope, f, now)) || Hopeless(FinishCall(scope, f), w)
  {
    assert Sound(w.tables, ReservationKey(scope.Pk(), f.reservation));
    if Unused(w.tables, scope, f) && EventBinds(f, w.tables[ReservationKey(scope.Pk(), f.reservation)].reservation) {
      AcknowledgePlanned(w.tables, scope, f, now);
      AcknowledgeHolds(w.tables, scope, f, now);
      AcknowledgeReadsStored(w, scope, f, now);
    } else {
      forall op | Serves(op, FinishCall(scope, f)) ensures !Commits(w, op) {
        FinishServed(op, scope, f);
        if Commits(w, op) {
          ReceiptAppears(w, op);
          if op.FinishOp? { FinishIsCurrent(w, op); } else { AcknowledgeIsCurrent(w, op); }
        }
      }
    }
  }

  // ----- checkout -----

  /** The allocations of an order are determined by its lines. */
  lemma AggregatesUnique(a: seq<Allocation>, b: seq<Allocation>, lines: seq<Line>, location: Id)
    requires Aggregates(a, lines, location) && Aggregates(b, lines, location)
    ensures a == b
  {
    var x, y := seq(|a|, i requires 0 <= i < |a| => a[i].stock), seq(|b|, i requires 0 <= i < |b| => b[i].stock);
    SameStocks(a, b, lines, location);
    SameStocks(b, a, lines, location);
    IncreasingUnique(x, y);
    forall i | 0 <= i < |a| ensures a[i] == b[i] {
      assert x[i] == y[i];
      assert AllocationFor(a[i], lines, location) && AllocationFor(b[i], lines, location);
      var p, q := set l | l in a[i].lines, set l | l in b[i].lines;
      assert p == LinesOf(lines, a[i].stock) == q;
      forall l ensures l in a[i].lines <==> l in b[i].lines {
        assert l in p <==> l in q;
      }
      IncreasingUnique(a[i].lines, b[i].lines);
    }
  }

  lemma SameStocks(a: seq<Allocation>, b: seq<Allocation>, lines: seq<Line>, location: Id)
    requires Aggregates(a, lines, location) && Aggregates(b, lines, location)
    ensures var x, y := seq(|a|, i requires 0 <= i < |a| => a[i].stock), seq(|b|, i requires 0 <= i < |b| => b[i].stock);
      forall v :: v in x ==> v in y
  {
    var x, y := seq(|a|, i requires 0 <= i < |a| => a[i].stock), seq(|b|, i requires 0 <= i < |b| => b[i].stock);
    forall v | v in x ensures v in y {
      var i :| 0 <= i < |x| && x[i] == v;
      assert AllocationFor(a[i], lines, location) && v in StocksOf(lines);
      var j :| 0 <= j < |b| && b[j].stock == v;
      assert y[j] == v;
    }
  }

  lemma ReserveServed(op: Op, scope: Scope, c: Checkout, key: string)
    requires Serves(op, CheckoutCall(scope, c, key))
    ensures op.ReserveOp? && op.scope == scope && op.key == key
    ensures op.checkout.order == c.order && op.checkout.reservation == c.reservation && op.checkout.location == c.location
    ensures op.checkout.notify == c.notify && op.checkout.fiscal.Some? == c.fiscal.Some?
  {
  }

  /** A committing checkout was planned from its stocks as they stand. */
  lemma ReserveIsCurrent(w: World, op: Op, i: nat)
    requires WorldInv(w) && op.ReserveOp? && Commits(w, op) && i < |op.allocations|
    ensures |op.before| == |op.allocations|
    ensures var a := op.allocations[i];
      StockReady(w.tables, op.scope, op.checkout.reservation, ReserveMove, None, op.now, a)
      && w.tables[StockKey(op.scope.Pk(), a.location, a.stock)] == StockItem(op.before[i])
  {
    var scope, c, pk := op.scope, op.checkout, op.scope.Pk();
    var changes := ChangesOf(scope.domain, c.reservation, ReserveMove, None, op.now, op.allocations, op.before).value;
    AggregatesValid(op.allocations, c.order, c.location);
    ReserveApart(scope, c, op.key, op.now, op.allocations, op.before, changes);
    PartsHold(w.tables, ReceiptWrites(scope, op.key, c.Request(), c.Result(op.now), op.now), StockWrites(pk, op.key, changes),
              CheckoutWrites(scope, c, op.allocations, op.now), NewAccessWrites(scope, c, op.now));
    forall k, v | (k, v) in ReadsOf(op) ensures Was(w.tables, k, v) { ReadWas(w, op, k, v); }
    StocksWere(w.tables, pk, op.allocations, op.before);
    StocksAreCurrent(w.tables, pk, op.key, scope.domain, c.reservation, ReserveMove, None, op.now, op.allocations, op.before, i);
  }

  /** Stock writes whose conditions hold were planned from the stocks as they stand. */
  lemma StocksAreCurrent(t: Tables, pk: Partition, key: string, domain: string, rid: Id, kind: MovementKind, reason: Option<Reason>,
                         now: nat, allocations: seq<Allocation>, before: seq<StockRec>, i: nat)
    requires |allocations| == |before| && AllocationsValid(allocations) && i < |allocations|
    requires ChangesOf(domain, rid, kind, reason, now, allocations, before).Ok? && StocksSeen(t, pk, allocations, before)
    requires Holds(t, StockWrites(pk, key, ChangesOf(domain, rid, kind, reason, now, allocations, before).value))
    ensures var k := StockKey(pk, allocations[i].location, allocations[i].stock);
      k in t && t[k] == StockItem(before[i]) && ChangeOf(domain, rid, kind, reason, now, allocations[i], before[i]).Ok?
  {
    var changes := ChangesOf(domain, rid, kind, reason, now, allocations, before).value;
    var ws, k := StockWrites(pk, key, changes), StockKey(pk, allocations[i].location, allocations[i].stock);
    ChangesAt(domain, rid, kind, reason, now, allocations, before);
    ChangesDistinct(domain, rid, kind, reason, now, allocations, before);
    StockWritesAt(pk, key, changes);
    assert ChangeOf(domain, rid, kind, reason, now, allocations[i], before[i]) == Ok(changes[i]);
    assert WritesChange(ws, pk, key, changes[i]);
    assert Satisfied(ws[k].condition, Lookup(t, k));
    StockReadIsCurrent(t, k, before[i]);
  }

  /** The checkout planned from the stocks as they stand. */
  function ReserveNow(t: Tables, scope: Scope, c: Checkout, key: string, now: nat, allocations: seq<Allocation>): Op
    requires AllStocksReady(t, scope, c, now, allocations)
  {
    ReserveOp(scope, now, key, c, allocations,
              seq(|allocations|, i requires 0 <= i < |allocations| => StockBefore(t, scope, allocations[i])))
  }

  function StockBefore(t: Tables, scope: Scope, a: Allocation): StockRec {
    var k := StockKey(scope.Pk(), a.location, a.stock);
    if k in t && t[k].StockItem? then t[k].stock else StockRec("", StockState(true, 0, 0, 1), 0)
  }

  predicate AllStocksReady(t: Tables, scope: Scope, c: Checkout, now: nat, allocations: seq<Allocation>) {
    forall i :: 0 <= i < |allocations| ==> StockReady(t, scope, c.reservation, ReserveMove, None, now, allocations[i])
  }

  /** A checkout whose stocks cannot all make the movement, or whose total is too large, cannot be answered. */
  lemma ReserveNeedsStock(w: World, scope: Scope, c: Checkout, key: string, now: nat, allocations: seq<Allocation>)
    requires WorldInv(w) && Aggregates(allocations, c.order.lines, c.location)
    requires !AllStocksReady(w.tables, scope, c, now, allocations) || OrderTotal(c.order.lines) > MAX_AMOUNT_MINOR
    ensures Hopeless(CheckoutCall(scope, c, key), w)
  {
    forall op | Serves(op, CheckoutCall(scope, c, key)) ensures !Commits(w, op) {
      ReserveServed(op, scope, c, key);
      if Commits(w, op) {
        AggregatesUnique(allocations, op.allocations, c.order.lines, c.location);
        forall i | 0 <= i < |allocations| ensures StockReady(w.tables, scope, c.reservation, ReserveMove, None, now, allocations[i]) {
          ReserveIsCurrent(w, op, i);
        }
      }
    }
  }

  /** The conditions of a checkout beside its stock: nobody has used its ids or its key. */
  predicate CheckoutFresh(t: Tables, scope: Scope, c: Checkout, key: string) {
    var pk := scope.Pk();
    && ReceiptKey(pk, key) !in t && ReservationKey(pk, c.reservation) !in t && OrderKey(pk, c.order.order) !in t
    && BindingKey(pk, c.order.attempt) !in t && (c.fiscal.Some? ==> AccessKey(pk, c.order.order) !in t)
  }

  lemma ReserveWasFresh(w: World, op: Op)
    requires WorldInv(w) && op.ReserveOp? && Commits(w, op)
    ensures CheckoutFresh(w.tables, op.scope, op.checkout, op.key)
  {
    ReserveFresh(w.tables, op.scope, op.checkout, op.key, op.now, op.allocations, op.before);
  }

  lemma ReserveFresh(t: Tables, scope: Scope, c: Checkout, key: string, now: nat, allocations: seq<Allocation>, before: seq<StockRec>)
    requires |allocations| == |before| && Aggregates(allocations, c.order.lines, c.location)
    requires ReservePlan(scope, c, key, now, allocations, before).Ok? && Holds(t, ReservePlan(scope, c, key, now, allocations, before).value)
    ensures CheckoutFresh(t, scope, c, key)
  {
    var pk := scope.Pk();
    var changes := ChangesOf(scope.domain, c.reservation, ReserveMove, None, now, allocations, before).value;
    AggregatesValid(allocations, c.order, c.location);
    ReserveApart(scope, c, key, now, allocations, before, changes);
    var receipt, records := ReceiptWrites(scope, key, c.Request(), c.Result(now), now), CheckoutWrites(scope, c, allocations, now);
    var access := NewAccessWrites(scope, c, now);
    PartsHold(t, receipt, StockWrites(pk, key, changes), records, access);
    AbsentIn(t, receipt, ReceiptKey(pk, key));
    AbsentIn(t, records, ReservationKey(pk, c.reservation));
    AbsentIn(t, records, OrderKey(pk, c.order.order));
    AbsentIn(t, records, BindingKey(pk, c.order.attempt));
    if c.fiscal.Some? { AbsentIn(t, access, AccessKey(pk, c.order.order)); }
  }

  lemma AbsentIn(t: Tables, ws: Writes, k: Key)
    requires Holds(t, ws) && k in ws && ws[k].condition == Absent
    ensures k !in t
  {
    assert Satisfied(ws[k].condition, Lookup(t, k));
  }

  lemma FreshHolds(t: Tables, scope: Scope, c: Checkout, key: string, now: nat, allocations: seq<Allocation>)
    requires Inv(t) && CheckoutFresh(t, scope, c, key)
    ensures Holds(t, ReceiptWrites(scope, key, c.Request(), c.Result(now), now))
    ensures Holds(t, CheckoutWrites(scope, c, allocations, now)) && Holds(t, NewAccessWrites(scope, c, now))
  {
    assert Sound(t, DueKey(scope.Pk(), ReservationTiming(now).reconcileAfter, c.reservation));
  }

  lemma ReservePlanned(t: Tables, scope: Scope, c: Checkout, key: string, now: nat, allocations: seq<Allocation>)
    requires CheckoutValid(c) && Aggregates(allocations, c.order.lines, c.location)
    requires AllStocksReady(t, scope, c, now, allocations) && OrderTotal(c.order.lines) <= MAX_AMOUNT_MINOR
    ensures PlanOf(ReserveNow(t, scope, c, key, now, allocations)).Ok?
  {
    var before := ReserveNow(t, scope, c, key, now, allocations).before;
    forall i | 0 <= i < |allocations|
      ensures ChangeOf(scope.domain, c.reservation, ReserveMove, None, now, allocations[i], before[i]).Ok?
    {
      assert StockReady(t, scope, c.reservation, ReserveMove, None, now, allocations[i]);
    }
    EveryChange(scope.domain, c.reservation, ReserveMove, None, now, allocations, before);
  }

  lemma ReserveHolds(t: Tables, scope: Scope, c: Checkout, key: string, now: nat, allocations: seq<Allocation>)
    requires Inv(t) && CheckoutValid(c) && Aggregates(allocations, c.order.lines, c.location)
    requires AllStocksReady(t, scope, c, now, allocations) && PlanOf(ReserveNow(t, scope, c, key, now, allocations)).Ok?
    requires CheckoutFresh(t, scope, c, key)
    ensures Holds(t, PlanOf(ReserveNow(t, scope, c, key, now, allocations)).value)
  {
    var pk, before := scope.Pk(), ReserveNow(t, scope, c, key, now, allocations).before;
    AggregatesValid(allocations, c.order, c.location);
    forall i | 0 <= i < |allocations|
      ensures var k := StockKey(pk, allocations[i].location, allocations[i].stock); k in t && t[k] == StockItem(before[i])
    {
      assert StockReady(t, scope, c.reservation, ReserveMove, None, now, allocations[i]);
    }
    StockHolds(t, pk, key, scope.domain, c.reservation, ReserveMove, None, now, allocations, before);
    FreshHolds(t, scope, c, key, now, allocations);
    var stock := StockWrites(pk, key, ChangesOf(scope.domain, c.reservation, ReserveMove, None, now, allocations, before).value);
    var receipt, records := ReceiptWrites(scope, key, c.Request(), c.Result(now), now), CheckoutWrites(scope, c, allocations, now);
    HoldsUnion(t, stock, records);
    HoldsUnion(t, receipt, stock + records);
    HoldsUnion(t, receipt + (stock + records), NewAccessWrites(scope, c, now));
  }

  lemma ReserveDecides(w: World, scope: Scope, c: Checkout, key: string, now: nat, allocations: seq<Allocation>)
    requires WorldInv(w) && CheckoutValid(c) && Aggregates(allocations, c.order.lines, c.location)
    requires AllStocksReady(w.tables, scope, c, now, allocations) && OrderTotal(c.order.lines) <= MAX_AMOUNT_MINOR
    ensures Commits(w, ReserveNow(w.tables, scope, c, key, now, allocations)) || Hopeless(CheckoutCall(scope, c, key), w)
  {
    if CheckoutFresh(w.tables, scope, c, key) {
      ReservePlanned(w.tables, scope, c, key, now, allocations);
      ReserveHolds(w.tables, scope, c, key, now, allocations);
      ReserveReadsStored(w, scope, c, key, now, allocations);
    } else {
      forall op | Serves(op, CheckoutCall(scope, c, key)) ensures !Commits(w, op) {
        ReserveServed(op, scope, c, key);
        if Commits(w, op) { ReserveWasFresh(w, op); }
      }
    }
  }

  lemma ReserveReadsStored(w: World, scope: Scope, c: Checkout, key: string, now: nat, allocations: seq<Allocation>)
    requires WorldInv(w) && AllStocksReady(w.tables, scope, c, now, allocations)
    ensures ReadsOf(ReserveNow(w.tables, scope, c, key, now, allocations)) <= w.seen
  {
    forall k, v | (k, v) in ReadsOf(ReserveNow(w.tables, scope, c, key, now, allocations)) ensures (k, v) in w.seen {
      var i :| 0 <= i < |allocations|
        && (k, v) == (StockKey(scope.Pk(), allocations[i].location, allocations[i].stock), StockItem(StockBefore(w.tables, scope, allocations[i])));
      assert StockReady(w.tables, scope, c.reservation, ReserveMove, None, now, allocations[i]);
    }
  }

  // ----- refunds -----

  lemma RefundServed(op: Op, scope: Scope, x: Refund)
    requires Serves(op, EventCall(scope, RefundHash(x, scope)))
    ensures (op.RefundPaidOp? || op.RefundPendingOp?) && op.scope == scope && op.refund == x
  {
  }

  /** An order as a read would return it, when the refund may be made of it. */
  predicate RefundableOrder(t: Tables, scope: Scope, x: Refund) {
    var k := OrderKey(scope.Pk(), x.order);
    k in t && t[k].OrderItem? && RefundBinding(x, t[k].order, scope.domain)
  }

  /** A committing refund was planned from its order as it stands, and under ids nobody used. */
  lemma RefundIsCurrent(w: World, op: Op)
    requires WorldInv(w) && (op.RefundPaidOp? || op.RefundPendingOp?) && Commits(w, op)
    ensures var k := OrderKey(op.scope.Pk(), op.refund.order);
      && RefundInputOk(op.refund) && RefundableOrder(w.tables, op.scope, op.refund) && w.tables[k] == OrderItem(op.order)
      && (op.order.status == Paid <==> op.RefundPaidOp?)
    ensures RefundKey(op.scope.Pk(), op.refund.refund) !in w.tables && InboxKey(op.scope.Pk(), op.refund.event) !in w.tables
  {
    var k, fk, ws := OrderKey(op.scope.Pk(), op.refund.order), RefundKey(op.scope.Pk(), op.refund.refund), PlanOf(op).value;
    var ik := InboxKey(op.scope.Pk(), op.refund.event);
    RefundConditions(op);
    RefundReadsOrder(op);
    assert Satisfied(ws[k].condition, Lookup(w.tables, k)) && Satisfied(ws[fk].condition, Lookup(w.tables, fk));
    assert Satisfied(ws[ik].condition, Lookup(w.tables, ik));
    ReadWas(w, op, k, OrderItem(op.order));
  }

  lemma RefundReadsOrder(op: Op)
    requires (op.RefundPaidOp? || op.RefundPendingOp?) && PlanOf(op).Ok?
    ensures (OrderKey(op.scope.Pk(), op.refund.order), OrderItem(op.order)) in ReadsOf(op)
    ensures RefundInputOk(op.refund) && RefundBinding(op.refund, op.order, op.scope.domain) && (op.order.status == Paid <==> op.RefundPaidOp?)
  {
  }

  /** The conditions of a refund on its order, on its refund record and on its event's inbox record. */
  predicate RefundAsks(ws: Writes, scope: Scope, x: Refund, order: Condition) {
    var k, fk, ik := OrderKey(scope.Pk(), x.order), RefundKey(scope.Pk(), x.refund), InboxKey(scope.Pk(), x.event);
    && k in ws && fk in ws && ik in ws && ws[fk].condition == Absent && ws[ik].condition == Absent && ws[k].condition == order
  }

  lemma RefundConditions(op: Op)
    requires (op.RefundPaidOp? || op.RefundPendingOp?) && PlanOf(op).Ok?
    ensures RefundAsks(PlanOf(op).value, op.scope, op.refund,
                       if op.RefundPaidOp? then PaidOrderIs(op.refund.currency, op.order.amountMinor, op.order.revision)
                       else PendingOrderIs(op.order.reservation, op.order.attempt, op.order.revision))
  {
    var scope, x, order := op.scope, op.refund, op.order;
    if op.RefundPaidOp? {
      RefundPaidAsks(scope, x, op.now, order);
    } else {
      RefundIsCompletion(scope, x, op.now, order, op.reservation, op.before, op.access);
      var c := RefundCompletion(scope, x, op.now, order, op.reservation, op.before);
      AccessGroup(scope, x.order, Succeeded, op.now, op.access);
      RefundPendingAsks(scope, x, op.now, c, AccessWrites(scope, x.order, Succeeded, op.now, op.access).value);
    }
  }

  lemma RefundPaidAsks(scope: Scope, x: Refund, now: nat, order: OrderRec)
    requires RefundPaidPlan(scope, x, now, order).Ok?
    ensures RefundAsks(RefundPaidPlan(scope, x, now, order).value, scope, x, PaidOrderIs(x.currency, order.amountMinor, order.revision))
  {
  }

  lemma StockIsLog(c: Completion)
    ensures InGroup(c.Stock(), Log)
  {
    forall k | k in c.Stock() ensures GroupOf(k) == Log {
      var i := StockWriteSource(c.scope.Pk(), c.key, c.changes, k);
    }
  }

  lemma RefundPendingAsks(scope: Scope, x: Refund, now: nat, c: Completion, claims: Writes)
    requires c.scope == scope && c.r.order == x.order && c.rid == c.order.reservation && c.r.attempt == c.order.attempt
    requires c.refund == Some(RefundRec(scope.domain, RefundResult(x))) && InGroup(claims, Claims)
    ensures RefundAsks(RefundPendingRecords(scope, x, now, c.order) + (c.Stock() + c.Core()) + claims, scope, x,
                       PendingOrderIs(c.order.reservation, c.order.attempt, c.order.revision))
  {
    var records, core := RefundPendingRecords(scope, x, now, c.order), c.Core();
    StockIsLog(c);
    CoreGroup(c);
    RefundRecordsGroup(scope, x, now, c.order);
    PartsInPlan(records, c.Stock(), core, claims);
    RefundPartsAsk(scope, x, now, c);
  }

  lemma RefundPartsAsk(scope: Scope, x: Refund, now: nat, c: Completion)
    requires c.scope == scope && c.r.order == x.order && c.rid == c.order.reservation && c.r.attempt == c.order.attempt
    requires c.refund == Some(RefundRec(scope.domain, RefundResult(x)))
    ensures var records, core := RefundPendingRecords(scope, x, now, c.order), c.Core();
      var k, fk, ik := OrderKey(scope.Pk(), x.order), RefundKey(scope.Pk(), x.refund), InboxKey(scope.Pk(), x.event);
      && ik in records && records[ik].condition == Absent && k in core && fk in core && core[fk].condition == Absent
      && core[k].condition == PendingOrderIs(c.order.reservation, c.order.attempt, c.order.revision)
  {
  }

  lemma RefundNeedsOrder(w: World, scope: Scope, x: Refund)
    requires WorldInv(w) && !RefundableOrder(w.tables, scope, x)
    ensures Hopeless(EventCall(scope, RefundHash(x, scope)), w)
  {
    forall op | Serves(op, EventCall(scope, RefundHash(x, scope))) ensures !Commits(w, op) {
      RefundServed(op, scope, x);
      if Commits(w, op) { RefundIsCurrent(w, op); }
    }
  }

  /** Neither the refund's event nor its id has been used, the event's by a subscription included. */
  predicate RefundFresh(t: Tables, scope: Scope, x: Refund) {
    && ReceiptKey(scope.Pk(), IntegrationKey(x.event)) !in t && RefundKey(scope.Pk(), x.refund) !in t
    && InboxKey(scope.Pk(), x.event) !in t
  }

  lemma RefundStale(w: World, scope: Scope, x: Refund)
    requires WorldInv(w) && !RefundFresh(w.tables, scope, x)
    ensures Hopeless(EventCall(scope, RefundHash(x, scope)), w)
  {
    forall op | Serves(op, EventCall(scope, RefundHash(x, scope))) ensures !Commits(w, op) {
      RefundServed(op, scope, x);
      if Commits(w, op) {
        ReceiptAppears(w, op);
        RefundIsCurrent(w, op);
      }
    }
  }

  lemma RefundRecordsHold(t: Tables, scope: Scope, x: Refund, now: nat)
    requires RefundFresh(t, scope, x)
    ensures Holds(t, RefundRecordWrites(scope, x, now)) && Holds(t, RefundedOrderWrites(scope, x))
  {
    HoldsUnion(t, ReceiptWrites(scope, IntegrationKey(x.event), RefundRequest(x), RefundResult(x), now),
               InboxWrites(scope, x.event, RefundHash(x, scope), RefundResult(x), now));
  }

  lemma RefundPaidDecides(w: World, scope: Scope, x: Refund, now: nat)
    requires WorldInv(w) && RefundInputOk(x) && RefundableOrder(w.tables, scope, x)
    requires w.tables[OrderKey(scope.Pk(), x.order)].order.status == Paid
    ensures Commits(w, RefundPaidOp(scope, now, x, w.tables[OrderKey(scope.Pk(), x.order)].order))
         || Hopeless(EventCall(scope, RefundHash(x, scope)), w)
  {
    if RefundFresh(w.tables, scope, x) {
      RefundPaidHolds(w.tables, scope, x, now);
      RefundPaidReady(w, scope, x, now, w.tables[OrderKey(scope.Pk(), x.order)].order);
    } else {
      RefundStale(w, scope, x);
    }
  }

  lemma RefundPaidHolds(t: Tables, scope: Scope, x: Refund, now: nat)
    requires RefundFresh(t, scope, x) && RefundInputOk(x) && RefundableOrder(t, scope, x)
    requires t[OrderKey(scope.Pk(), x.order)].order.status == Paid
    ensures var order := t[OrderKey(scope.Pk(), x.order)].order;
      RefundPaidPlan(scope, x, now, order).Ok? && Holds(t, RefundPaidPlan(scope, x, now, order).value)
  {
    var order := t[OrderKey(scope.Pk(), x.order)].order;
    var put: Writes := map[OrderKey(scope.Pk(), x.order) :=
      Put(OrderItem(RefundedOrder(x, order, now)), PaidOrderIs(x.currency, order.amountMinor, order.revision))];
    RefundRecordsHold(t, scope, x, now);
    HoldsUnion(t, put, RefundedOrderWrites(scope, x));
    HoldsUnion(t, RefundRecordWrites(scope, x, now), put + RefundedOrderWrites(scope, x));
  }

  lemma RefundPaidReady(w: World, scope: Scope, x: Refund, now: nat, order: OrderRec)
    requires WorldInv(w) && OrderKey(scope.Pk(), x.order) in w.tables && w.tables[OrderKey(scope.Pk(), x.order)] == OrderItem(order)
    requires RefundPaidPlan(scope, x, now, order).Ok? && Holds(w.tables, RefundPaidPlan(scope, x, now, order).value)
    ensures Commits(w, RefundPaidOp(scope, now, x, order))
  {
    WasSeen(w, OrderKey(scope.Pk(), x.order), OrderItem(order));
  }

  // ----- refunds that overtake their payment -----

  /** The completion that a pending refund amounts to. */
  function RefundFinish(x: Refund, order: OrderRec): Finish {
    EventFinish(PaymentEvent(x.event, Succeeded, x.occurredAt, order.reservation, x.order, order.attempt))
  }

  /** A pending order's reservation is held, and is the one that the refund would finish. */
  lemma PendingIsLive(t: Tables, scope: Scope, x: Refund)
    requires Inv(t) && RefundableOrder(t, scope, x) && t[OrderKey(scope.Pk(), x.order)].order.status == PendingCheckout
    ensures var order := t[OrderKey(scope.Pk(), x.order)].order;
      && Live(t, scope, order.reservation)
      && t[ReservationKey(scope.Pk(), order.reservation)].reservation.order == x.order
      && t[ReservationKey(scope.Pk(), order.reservation)].reservation.attempt == order.attempt
  {
    var k := OrderKey(scope.Pk(), x.order);
    assert Sound(t, k) && Sound(t, ReservationKey(scope.Pk(), t[k].order.reservation));
  }

  /** The refund planned from the records as they stand. */
  function RefundPendingNow(t: Tables, scope: Scope, x: Refund, now: nat): Op
    requires RefundableOrder(t, scope, x) && Live(t, scope, t[OrderKey(scope.Pk(), x.order)].order.reservation)
    requires Sound(t, ReservationKey(scope.Pk(), t[OrderKey(scope.Pk(), x.order)].order.reservation))
  {
    var pk, order := scope.Pk(), t[OrderKey(scope.Pk(), x.order)].order;
    var r := t[ReservationKey(pk, order.reservation)].reservation;
    RefundPendingOp(scope, now, x, order, r, CurrentStocks(t, pk, r), CurrentAccess(t, pk, x.order))
  }

  lemma RefundPendingPlanned(t: Tables, scope: Scope, x: Refund, now: nat)
    requires Inv(t) && RefundInputOk(x) && RefundableOrder(t, scope, x)
    requires t[OrderKey(scope.Pk(), x.order)].order.status == PendingCheckout
    ensures Live(t, scope, t[OrderKey(scope.Pk(), x.order)].order.reservation)
    ensures Sound(t, ReservationKey(scope.Pk(), t[OrderKey(scope.Pk(), x.order)].order.reservation))
    ensures PlanOf(RefundPendingNow(t, scope, x, now)).Ok?
  {
    var order := t[OrderKey(scope.Pk(), x.order)].order;
    PendingIsLive(t, scope, x);
    assert Sound(t, ReservationKey(scope.Pk(), order.reservation));
    NothingBlocks(t, scope, RefundFinish(x, order), now);
    ChangesPossible(t, scope, RefundFinish(x, order), now);
  }

  lemma RefundPendingHolds(t: Tables, scope: Scope, x: Refund, now: nat)
    requires Inv(t) && RefundInputOk(x) && RefundableOrder(t, scope, x) && RefundFresh(t, scope, x)
    requires t[OrderKey(scope.Pk(), x.order)].order.status == PendingCheckout
    requires Live(t, scope, t[OrderKey(scope.Pk(), x.order)].order.reservation)
    requires Sound(t, ReservationKey(scope.Pk(), t[OrderKey(scope.Pk(), x.order)].order.reservation))
    requires PlanOf(RefundPendingNow(t, scope, x, now)).Ok?
    ensures Holds(t, PlanOf(RefundPendingNow(t, scope, x, now)).value)
  {
    var op := RefundPendingNow(t, scope, x, now);
    RefundIsCompletion(scope, x, now, op.order, op.reservation, op.before, op.access);
    var c := RefundCompletion(scope, x, now, op.order, op.reservation, op.before);
    PendingIsLive(t, scope, x);
    StockHolds(t, scope.Pk(), c.key, scope.domain, c.rid, CommitMove, Some(CanonicalPaid), now, op.reservation.allocations, op.before);
    RefundPendingRecordsHold(t, scope, x, now, op.order);
    RefundCoreHolds(t, scope, x, now, c);
    ClaimsHold(t, scope, RefundFinish(x, op.order), x.order, now);
    FourHold(t, RefundPendingRecords(scope, x, now, op.order), c.Stock(), c.Core(),
             AccessWrites(scope, x.order, Succeeded, now, op.access).value);
  }

  lemma RefundPendingRecordsHold(t: Tables, scope: Scope, x: Refund, now: nat, order: OrderRec)
    requires Inv(t) && RefundFresh(t, scope, x) && Live(t, scope, order.reservation)
    requires var r := t[ReservationKey(scope.Pk(), order.reservation)].reservation; r.order == x.order && r.attempt == order.attempt
    ensures Holds(t, RefundPendingRecords(scope, x, now, order))
  {
    assert Sound(t, ReservationKey(scope.Pk(), order.reservation));
    RefundRecordsHold(t, scope, x, now);
    HoldsUnion(t, RefundRecordWrites(scope, x, now), BindingCheck(scope, RefundFinish(x, order).event.value));
  }

  lemma RefundCoreHolds(t: Tables, scope: Scope, x: Refund, now: nat, c: Completion)
    requires Inv(t) && RefundFresh(t, scope, x) && Live(t, scope, c.order.reservation)
    requires c.scope == scope && c.rid == c.order.reservation && c.status == Committed && c.reason == CanonicalPaid
    requires c.key == IntegrationKey(x.event) && c.refund == Some(RefundRec(scope.domain, RefundResult(x))) && c.now == now
    requires var r := t[ReservationKey(scope.Pk(), c.rid)].reservation;
      r == c.r && OrderKey(scope.Pk(), r.order) in t && t[OrderKey(scope.Pk(), r.order)] == OrderItem(c.order)
    ensures Holds(t, c.Core())
  {
    CoreHolds(t, scope, RefundFinish(x, c.order), now, c.done);
    RefundRecordsHold(t, scope, x, now);
    HoldsUnion(t, CompletionWrites(scope.Pk(), c.key, c.rid, c.r, c.order, Committed, CanonicalPaid, now, c.done),
               RefundedOrderWrites(scope, x));
  }

  lemma FourHold(t: Tables, a: Writes, b: Writes, c: Writes, d: Writes)
    requires Holds(t, a) && Holds(t, b) && Holds(t, c) && Holds(t, d)
    ensures Holds(t, a + (b + c) + d)
  {
    HoldsUnion(t, b, c);
    HoldsUnion(t, a, b + c);
    HoldsUnion(t, a + (b + c), d);
  }

  lemma RefundPendingReadsStored(w: World, scope: Scope, x: Refund, now: nat)
    requires WorldInv(w) && RefundableOrder(w.tables, scope, x)
    requires Live(w.tables, scope, w.tables[OrderKey(scope.Pk(), x.order)].order.reservation)
    requires Sound(w.tables, ReservationKey(scope.Pk(), w.tables[OrderKey(scope.Pk(), x.order)].order.reservation))
    ensures ReadsOf(RefundPendingNow(w.tables, scope, x, now)) <= w.seen
  {
    var op, pk := RefundPendingNow(w.tables, scope, x, now), scope.Pk();
    StocksStored(w, pk, op.reservation.allocations, op.before);
    WasSeen(w, OrderKey(pk, x.order), OrderItem(op.order));
    WasSeen(w, ReservationKey(pk, op.order.reservation), ReservationItem(op.reservation));
    if op.access.Some? { WasSeen(w, AccessKey(pk, x.order), AccessItem(op.access.value)); }
    RefundReadsSeen(op, w.seen);
  }

  lemma RefundReadsSeen(op: Op, seen: set<(Key, Item)>)
    requires op.RefundPendingOp? && StockReads(op.scope.Pk(), op.reservation.allocations, op.before) <= seen
    requires (OrderKey(op.scope.Pk(), op.refund.order), OrderItem(op.order)) in seen
    requires (ReservationKey(op.scope.Pk(), op.order.reservation), ReservationItem(op.reservation)) in seen
    requires op.access.Some? ==> (AccessKey(op.scope.Pk(), op.refund.order), AccessItem(op.access.value)) in seen
    ensures ReadsOf(op) <= seen
  {
  }

  lemma RefundPendingDecides(w: World, scope: Scope, x: Refund, now: nat)
    requires WorldInv(w) && RefundInputOk(x) && RefundableOrder(w.tables, scope, x)
    requires w.tables[OrderKey(scope.Pk(), x.order)].order.status == PendingCheckout
    ensures Live(w.tables, scope, w.tables[OrderKey(scope.Pk(), x.order)].order.reservation)
    ensures Sound(w.tables, ReservationKey(scope.Pk(), w.tables[OrderKey(scope.Pk(), x.order)].order.reservation))
    ensures Commits(w, RefundPendingNow(w.tables, scope, x, now)) || Hopeless(EventCall(scope, RefundHash(x, scope)), w)
  {
    RefundPendingPlanned(w.tables, scope, x, now);
    if RefundFresh(w.tables, scope, x) {
      PendingCommits(w, scope, x, now);
    } else {
      RefundStale(w, scope, x);
    }
  }

  /** The order is there, paid or still pending, and costs at least the refund, in its currency; the refund's ids are new. */
  predicate Coverable(t: Tables, scope: Scope, x: Refund) {
    var k := OrderKey(scope.Pk(), x.order);
    && k in t && t[k].OrderItem? && t[k].order.domain == scope.domain && (t[k].order.status == PendingCheckout || t[k].order.status == Paid)
    && 0 < x.amountMinor <= t[k].order.amountMinor && t[k].order.currency == x.currency
    && ReceiptKey(scope.Pk(), "integration:" + x.event) !in t && RefundKey(scope.Pk(), x.refund) !in t && InboxKey(scope.Pk(), x.event) !in t
  }

  lemma OnlyCoverable(w: World, op: Op)
    requires WorldInv(w) && (op.RefundPaidOp? || op.RefundPendingOp?) && Commits(w, op)
    ensures Coverable(w.tables, op.scope, op.refund)
  {
    ReceiptAppears(w, op);
    RefundIsCurrent(w, op);
  }

  lemma PaidCovers(w: World, scope: Scope, x: Refund, now: nat) returns (op: Op)
    requires WorldInv(w) && Coverable(w.tables, scope, x) && w.tables[OrderKey(scope.Pk(), x.order)].order.status == Paid
    ensures Serves(op, EventCall(scope, RefundHash(x, scope))) && Commits(w, op)
  {
    var order := w.tables[OrderKey(scope.Pk(), x.order)].order;
    RefundPaidHolds(w.tables, scope, x, now);
    RefundPaidReady(w, scope, x, now, order);
    op := RefundPaidOp(scope, now, x, order);
  }

  lemma PendingCovers(w: World, scope: Scope, x: Refund, now: nat) returns (op: Op)
    requires WorldInv(w) && Coverable(w.tables, scope, x) && w.tables[OrderKey(scope.Pk(), x.order)].order.status == PendingCheckout
    ensures Serves(op, EventCall(scope, RefundHash(x, scope))) && Commits(w, op)
  {
    PendingIsLive(w.tables, scope, x);
    assert Sound(w.tables, ReservationKey(scope.Pk(), w.tables[OrderKey(scope.Pk(), x.order)].order.reservation));
    op := RefundPendingNow(w.tables, scope, x, now);
    PendingServes(op, scope, x);
    PendingCommits(w, scope, x, now);
  }

  lemma PendingServes(op: Op, scope: Scope, x: Refund)
    requires op.RefundPendingOp? && op.scope == scope && op.refund == x
    ensures Serves(op, EventCall(scope, RefundHash(x, scope)))
  {
  }

  lemma PendingCommits(w: World, scope: Scope, x: Refund, now: nat)
    requires WorldInv(w) && RefundInputOk(x) && RefundableOrder(w.tables, scope, x) && RefundFresh(w.tables, scope, x)
    requires w.tables[OrderKey(scope.Pk(), x.order)].order.status == PendingCheckout
    ensures Live(w.tables, scope, w.tables[OrderKey(scope.Pk(), x.order)].order.reservation)
    ensures Sound(w.tables, ReservationKey(scope.Pk(), w.tables[OrderKey(scope.Pk(), x.order)].order.reservation))
    ensures Commits(w, RefundPendingNow(w.tables, scope, x, now))
  {
    RefundPendingPlanned(w.tables, scope, x, now);
    RefundPendingHolds(w.tables, scope, x, now);
    RefundPendingReadsStored(w, scope, x, now);
  }

  /** A refund event can be committed exactly while its order covers it: never for more than the order costs. */
  lemma RefundsExactlyCovered(w: World, scope: Scope, x: Refund)
    requires WorldInv(w)
    ensures Hopeless(EventCall(scope, RefundHash(x, scope)), w) <==> !Coverable(w.tables, scope, x)
  {
    if Coverable(w.tables, scope, x) {
      var op;
      if w.tables[OrderKey(scope.Pk(), x.order)].order.status == Paid { op := PaidCovers(w, scope, x, 0); }
      else { op := PendingCovers(w, scope, x, 0); }
    } else {
      forall op | Serves(op, EventCall(scope, RefundHash(x, scope))) ensures !Commits(w, op) {
        RefundServed(op, scope, x);
        if Commits(w, op) { OnlyCoverable(w, op); }
      }
    }
  }
}
