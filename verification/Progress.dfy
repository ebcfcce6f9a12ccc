/**
 * Towards no stranded stock: what a completion of a held reservation needs is always there, so that only used ids
 * or a foreign payment binding can stop it.
 */
module Progress {
  import opened Basics
  import opened Inventory
  import opened Records
  import opened Orders
  import opened Plans
  import opened Ledger
  import opened Protocol
  import opened Parts
  import opened Operations
  import opened Runs

  // ----- enough is always reserved -----

  lemma {:induction false} QtyAtLeast(allocations: seq<Allocation>, i: nat)
    requires forall j :: 0 <= j < |allocations| ==> allocations[j].quantity > 0
    requires i < |allocations|
    ensures QtyAt(allocations, allocations[i].location, allocations[i].stock) >= allocations[i].quantity
  {
    var n, a := |allocations| - 1, allocations[i];
    QtyPositive(allocations[..n], a.location, a.stock);
    if i < n { QtyAtLeast(allocations[..n], i); }
  }

  lemma {:induction false} QtyPositive(allocations: seq<Allocation>, location: Id, stock: Id)
    requires forall j :: 0 <= j < |allocations| ==> allocations[j].quantity > 0
    ensures QtyAt(allocations, location, stock) >= 0
  {
    if allocations != [] { QtyPositive(allocations[..|allocations| - 1], location, stock); }
  }

  lemma {:induction false} TotalPositive(m: Measure, t: Tables)
    requires forall k :: ValueIn(m, t, k) >= 0
    ensures Total(m, t) >= 0
    decreases |t|
  {
    if t != map[] {
      var k :| k in t;
      TotalWithout(m, t, k);
      forall j ensures ValueIn(m, t - {k}, j) >= 0 {
        assert ValueIn(m, t, j) >= 0;
      }
      TotalPositive(m, t - {k});
    }
  }

  lemma TotalAtLeast(m: Measure, t: Tables, k: Key)
    requires forall j :: ValueIn(m, t, j) >= 0
    ensures Total(m, t) >= ValueIn(m, t, k)
  {
    TotalWithout(m, t, k);
    forall j ensures ValueIn(m, t - {k}, j) >= 0 {
      assert ValueIn(m, t, j) >= 0;
    }
    TotalPositive(m, t - {k});
  }

  lemma AllocatedPositive(t: Tables, x: Target, k: Key)
    requires Tidy(t) && Sound(t, k)
    ensures ValueIn(Allocated(x), t, k) >= 0
  {
    HeldAt(x, t, k);
    QtyPositive(Held(t, k), x.location, x.stock);
  }

  /** The reserved count of a stock covers every live reservation's share of it. */
  lemma EnoughReserved(t: Tables, pk: Partition, rid: Id, i: nat)
    requires Inv(t) && ReservationKey(pk, rid) in t
    requires var r := t[ReservationKey(pk, rid)]; r.ReservationItem? && r.reservation.status == Reserved && i < |r.reservation.allocations|
    ensures var a := t[ReservationKey(pk, rid)].reservation.allocations[i];
      0 < a.quantity <= ReservedAt(t, Target(pk, a.location, a.stock))
  {
    var rk := ReservationKey(pk, rid);
    var allocations := t[rk].reservation.allocations;
    var x := Target(pk, allocations[i].location, allocations[i].stock);
    InvIsTidy(t);
    assert Sound(t, rk) && LedgerAt(t, x);
    forall k ensures ValueIn(Allocated(x), t, k) >= 0 {
      assert Sound(t, k);
      AllocatedPositive(t, x, k);
    }
    TotalAtLeast(Allocated(x), t, rk);
    HeldAt(x, t, rk);
    QtyAtLeast(allocations, i);
  }

  // ----- a finish planned from current records -----

  predicate Live(t: Tables, scope: Scope, rid: Id) {
    var rk := ReservationKey(scope.Pk(), rid);
    && rk in t && t[rk].ReservationItem? && t[rk].reservation.status == Reserved && t[rk].reservation.domain == scope.domain
  }

  function CurrentStocks(t: Tables, pk: Partition, r: ReservationRec): (s: seq<StockRec>)
    requires AllocationsStocked(t, pk, r)
    ensures |s| == |r.allocations|
    ensures forall i :: 0 <= i < |s| ==> t[StockKey(pk, r.allocations[i].location, r.allocations[i].stock)] == StockItem(s[i])
  {
    seq(|r.allocations|, i requires 0 <= i < |r.allocations| =>
      assert i < |r.allocations| ==> StockKey(pk, r.allocations[i].location, r.allocations[i].stock) in t;
      t[StockKey(pk, r.allocations[i].location, r.allocations[i].stock)].stock)
  }

  function CurrentAccess(t: Tables, pk: Partition, oid: Id): Option<AccessRec> {
    var k := AccessKey(pk, oid);
    if k in t && t[k].AccessItem? then Some(t[k].access) else None
  }

  /** The operation as it is when nobody interferes between its reads and its transaction. */
  function FinishNow(t: Tables, scope: Scope, f: Finish, now: nat): Op
    requires Live(t, scope, f.reservation) && Sound(t, ReservationKey(scope.Pk(), f.reservation))
  {
    var pk := scope.Pk();
    var r := t[ReservationKey(pk, f.reservation)].reservation;
    FinishOp(scope, now, f, r, t[OrderKey(pk, r.order)].order, CurrentStocks(t, pk, r),
             if f.event.None? then None else CurrentAccess(t, pk, r.order))
  }

  /** The event, if there is one, names the reservation's own order and payment attempt. */
  predicate EventBinds(f: Finish, r: ReservationRec) {
    f.event.Some? ==> f.event.value.order == r.order && f.event.value.attempt == r.attempt
  }

  lemma {:induction false} EveryChange(domain: string, rid: Id, kind: MovementKind, reason: Option<Reason>, now: nat,
                                       allocations: seq<Allocation>, before: seq<StockRec>)
    requires |allocations| == |before|
    requires forall i :: 0 <= i < |allocations| ==> ChangeOf(domain, rid, kind, reason, now, allocations[i], before[i]).Ok?
    ensures ChangesOf(domain, rid, kind, reason, now, allocations, before).Ok?
  {
    if allocations != [] {
      EveryChange(domain, rid, kind, reason, now, allocations[..|allocations| - 1], before[..|allocations| - 1]);
    }
  }

  lemma ChangesPossible(t: Tables, scope: Scope, f: Finish, now: nat)
    requires Inv(t) && Live(t, scope, f.reservation)
    ensures Sound(t, ReservationKey(scope.Pk(), f.reservation))
    ensures var r := t[ReservationKey(scope.Pk(), f.reservation)].reservation;
      ChangesOf(scope.domain, f.reservation, MoveFor(f.status), Some(f.reason), now, r.allocations, CurrentStocks(t, scope.Pk(), r)).Ok?
  {
    var pk := scope.Pk();
    assert Sound(t, ReservationKey(pk, f.reservation));
    var r := t[ReservationKey(pk, f.reservation)].reservation;
    var before := CurrentStocks(t, pk, r);
    forall i | 0 <= i < |r.allocations|
      ensures ChangeOf(scope.domain, f.reservation, MoveFor(f.status), Some(f.reason), now, r.allocations[i], before[i]).Ok?
    {
      EnoughReserved(t, pk, f.reservation, i);
      assert Sound(t, StockKey(pk, r.allocations[i].location, r.allocations[i].stock));
    }
    EveryChange(scope.domain, f.reservation, MoveFor(f.status), Some(f.reason), now, r.allocations, before);
  }

  lemma AccessPossible(t: Tables, scope: Scope, f: Finish, now: nat)
    requires Inv(t) && Live(t, scope, f.reservation)
    ensures var r := t[ReservationKey(scope.Pk(), f.reservation)].reservation;
      OptionalAccessWrites(scope, f.event, r.order, now, CurrentAccess(t, scope.Pk(), r.order)).Ok?
  {
    var pk, rk := scope.Pk(), ReservationKey(scope.Pk(), f.reservation);
    assert Sound(t, rk) && Sound(t, AccessKey(pk, t[rk].reservation.order));
  }

  lemma FinishPlanned(t: Tables, scope: Scope, f: Finish, now: nat)
    requires Inv(t) && Live(t, scope, f.reservation) && ReasonFits(f.status, f.reason) && FinishArgs(f)
    ensures Sound(t, ReservationKey(scope.Pk(), f.reservation)) && PlanOf(FinishNow(t, scope, f, now)).Ok?
  {
    var pk, rk := scope.Pk(), ReservationKey(scope.Pk(), f.reservation);
    assert Sound(t, rk) && Sound(t, OrderKey(pk, t[rk].reservation.order));
    ChangesPossible(t, scope, f, now);
    AccessPossible(t, scope, f, now);
  }

  // ----- and its conditions hold -----

  lemma HoldsUnion(t: Tables, a: Writes, b: Writes)
    requires Holds(t, a) && Holds(t, b)
    ensures Holds(t, a + b)
  {
  }

  lemma StockHolds(t: Tables, pk: Partition, key: string, domain: string, rid: Id, kind: MovementKind, reason: Option<Reason>,
                   now: nat, allocations: seq<Allocation>, before: seq<StockRec>)
    requires Inv(t) && |allocations| == |before| && AllocationsValid(allocations) && ReceiptKey(pk, key) !in t
    requires ChangesOf(domain, rid, kind, reason, now, allocations, before).Ok?
    requires forall i :: 0 <= i < |allocations| ==>
      && var k := StockKey(pk, allocations[i].location, allocations[i].stock); k in t && t[k] == StockItem(before[i])
    ensures Holds(t, StockWrites(pk, key, ChangesOf(domain, rid, kind, reason, now, allocations, before).value))
  {
    var changes := ChangesOf(domain, rid, kind, reason, now, allocations, before).value;
    var ws := StockWrites(pk, key, changes);
    ChangesAt(domain, rid, kind, reason, now, allocations, before);
    ChangesDistinct(domain, rid, kind, reason, now, allocations, before);
    StockWritesAt(pk, key, changes);
    forall k | k in ws ensures Satisfied(ws[k].condition, Lookup(t, k)) {
      var i := StockWriteSource(pk, key, changes, k);
      assert WritesChange(ws, pk, key, changes[i]);
      assert ChangeOf(domain, rid, kind, reason, now, allocations[i], before[i]) == Ok(changes[i]);
      assert Sound(t, k);
    }
  }

  lemma CoreHolds(t: Tables, scope: Scope, f: Finish, now: nat, done: OrderRec)
    requires Inv(t) && Live(t, scope, f.reservation)
    ensures var pk := scope.Pk();
      var r := t[ReservationKey(pk, f.reservation)].reservation;
      && OrderKey(pk, r.order) in t && t[OrderKey(pk, r.order)].OrderItem?
      && Holds(t, CompletionWrites(pk, f.key, f.reservation, r, t[OrderKey(pk, r.order)].order, f.status, f.reason, now, done))
  {
    var pk, rk := scope.Pk(), ReservationKey(scope.Pk(), f.reservation);
    var r := t[rk].reservation;
    assert Sound(t, rk) && Sound(t, DueKey(pk, r.dueEpoch, f.reservation));
  }

  /** Nobody has used the idempotency key; nor the event's id, which subscription events share with payments. */
  predicate Unused(t: Tables, scope: Scope, f: Finish) {
    ReceiptKey(scope.Pk(), f.key) !in t && (f.event.Some? ==> InboxKey(scope.Pk(), f.event.value.event) !in t)
  }

  /** An event id nobody used means that the event's outbox record is new too. */
  lemma NoticesHold(t: Tables, scope: Scope, e: PaymentEvent, oid: Id, order: OrderRec, result: Outcome, now: nat)
    requires Inv(t) && InboxKey(scope.Pk(), e.event) !in t
    requires Satisfied(BindingIs(scope.domain, e.reservation, e.order), Lookup(t, BindingKey(scope.Pk(), e.attempt)))
    ensures Holds(t, EventWrites(scope, e, oid, order, result, now))
  {
    var message := OutboxOf(scope, e.event, e.kind, oid, order);
    if message.Some? { assert Sound(t, OutboxKey(scope.Pk(), message.value)); }
    HoldsUnion(t, InboxWrites(scope, e.event, PaymentHash(e, scope), result, now), OutboxWrites(scope, message, now));
    HoldsUnion(t, InboxWrites(scope, e.event, PaymentHash(e, scope), result, now) + OutboxWrites(scope, message, now),
               BindingCheck(scope, e));
  }

  lemma EventHolds(t: Tables, scope: Scope, f: Finish, order: OrderRec, result: Outcome, now: nat)
    requires Inv(t) && Live(t, scope, f.reservation) && FinishArgs(f) && Unused(t, scope, f)
    requires EventBinds(f, t[ReservationKey(scope.Pk(), f.reservation)].reservation)
    ensures var r := t[ReservationKey(scope.Pk(), f.reservation)].reservation;
      Holds(t, OptionalEventWrites(scope, f.event, r.order, order, result, now))
  {
    var rk := ReservationKey(scope.Pk(), f.reservation);
    assert Sound(t, rk);
    if f.event.Some? { NoticesHold(t, scope, f.event.value, t[rk].reservation.order, order, result, now); }
  }

  lemma ClaimsHold(t: Tables, scope: Scope, f: Finish, oid: Id, now: nat)
    requires Inv(t) && OptionalAccessWrites(scope, f.event, oid, now, CurrentAccess(t, scope.Pk(), oid)).Ok?
    ensures Holds(t, OptionalAccessWrites(scope, f.event, oid, now, CurrentAccess(t, scope.Pk(), oid)).value)
  {
  }

  lemma FinishHolds(t: Tables, scope: Scope, f: Finish, now: nat)
    requires Inv(t) && Live(t, scope, f.reservation) && ReasonFits(f.status, f.reason) && FinishArgs(f)
    requires Unused(t, scope, f) && EventBinds(f, t[ReservationKey(scope.Pk(), f.reservation)].reservation)
    requires Sound(t, ReservationKey(scope.Pk(), f.reservation)) && PlanOf(FinishNow(t, scope, f, now)).Ok?
    ensures Holds(t, PlanOf(FinishNow(t, scope, f, now)).value)
  {
    var pk, op := scope.Pk(), FinishNow(t, scope, f, now);
    var r, order := op.reservation, op.order;
    FinishIsCompletion(scope, f, now, r, order, op.before, op.access);
    var c := FinishCompletion(scope, f, now, r, order, op.before);
    var result := FinishResult(f.reservation, r, f.status, now, f.reason);
    var claims := OptionalAccessWrites(scope, f.event, r.order, now, op.access).value;
    StockHolds(t, pk, f.key, scope.domain, f.reservation, MoveFor(f.status), Some(f.reason), now, r.allocations, op.before);
    CoreHolds(t, scope, f, now, c.done);
    EventHolds(t, scope, f, order, result, now);
    ClaimsHold(t, scope, f, r.order, now);
    FinishUnion(t, scope, f, now, r, order, c, claims);
  }

  lemma FinishUnion(t: Tables, scope: Scope, f: Finish, now: nat, r: ReservationRec, order: OrderRec, c: Completion, claims: Writes)
    requires ReceiptKey(scope.Pk(), f.key) !in t
    requires Holds(t, OptionalEventWrites(scope, f.event, r.order, order, FinishResult(f.reservation, r, f.status, now, f.reason), now))
    requires Holds(t, c.Stock()) && Holds(t, c.Core()) && Holds(t, claims)
    ensures Holds(t, FinishRecords(scope, f, now, r, order) + (c.Stock() + c.Core()) + claims)
  {
    var result := FinishResult(f.reservation, r, f.status, now, f.reason);
    HoldsUnion(t, ReceiptWrites(scope, f.key, f.Request(scope), result, now), OptionalEventWrites(scope, f.event, r.order, order, result, now));
    HoldsUnion(t, c.Stock(), c.Core());
    HoldsUnion(t, FinishRecords(scope, f, now, r, order), c.Stock() + c.Core());
    HoldsUnion(t, FinishRecords(scope, f, now, r, order) + (c.Stock() + c.Core()), claims);
  }

  lemma ReadsStored(w: World, op: Op)
    requires WorldInv(w) && op.FinishOp? && |op.before| == |op.reservation.allocations|
    requires var pk, r := op.scope.Pk(), op.reservation;
      && ReservationKey(pk, op.finish.reservation) in w.tables && w.tables[ReservationKey(pk, op.finish.reservation)] == ReservationItem(r)
      && OrderKey(pk, r.order) in w.tables && w.tables[OrderKey(pk, r.order)] == OrderItem(op.order)
      && (forall i :: 0 <= i < |r.allocations| ==>
            && var k := StockKey(pk, r.allocations[i].location, r.allocations[i].stock);
               k in w.tables && w.tables[k] == StockItem(op.before[i]))
      && (op.access.Some? ==> AccessKey(pk, r.order) in w.tables && w.tables[AccessKey(pk, r.order)] == AccessItem(op.access.value))
    ensures ReadsOf(op) <= w.seen
  {
    var pk, r := op.scope.Pk(), op.reservation;
    StocksStored(w, pk, r.allocations, op.before);
    WasSeen(w, ReservationKey(pk, op.finish.reservation), ReservationItem(r));
    WasSeen(w, OrderKey(pk, r.order), OrderItem(op.order));
    if op.access.Some? { WasSeen(w, AccessKey(pk, r.order), AccessItem(op.access.value)); }
    FinishReadsSeen(op, w.seen);
  }

  lemma FinishReadsSeen(op: Op, seen: set<(Key, Item)>)
    requires op.FinishOp? && StockReads(op.scope.Pk(), op.reservation.allocations, op.before) <= seen
    requires (ReservationKey(op.scope.Pk(), op.finish.reservation), ReservationItem(op.reservation)) in seen
    requires (OrderKey(op.scope.Pk(), op.reservation.order), OrderItem(op.order)) in seen
    requires op.access.Some? ==> (AccessKey(op.scope.Pk(), op.reservation.order), AccessItem(op.access.value)) in seen
    ensures ReadsOf(op) <= seen
  {
  }

  lemma WasSeen(w: World, k: Key, item: Item)
    requires WorldInv(w) && k in w.tables && w.tables[k] == item
    ensures (k, item) in w.seen
  {
  }

  lemma StocksStored(w: World, pk: Partition, allocations: seq<Allocation>, before: seq<StockRec>)
    requires WorldInv(w) && |before| == |allocations|
    requires forall i :: 0 <= i < |allocations| ==>
      && var k := StockKey(pk, allocations[i].location, allocations[i].stock); k in w.tables && w.tables[k] == StockItem(before[i])
    ensures StockReads(pk, allocations, before) <= w.seen
  {
  }

  /** What a finish leaves of the reservation it finished. */
  lemma FinishEffect(t: Tables, scope: Scope, f: Finish, now: nat, r: ReservationRec, order: OrderRec, before: seq<StockRec>,
                     access: Option<AccessRec>)
    requires |before| == |r.allocations| && FinishArgs(f) && FinishPlan(scope, f, now, r, order, before, access).Ok?
    ensures var u, rk := Apply(t, FinishPlan(scope, f, now, r, order, before, access).value), ReservationKey(scope.Pk(), f.reservation);
      rk in u && u[rk] == ReservationItem(FinishedReservation(r, f.status, f.reason, now))
  {
    FinishIsCompletion(scope, f, now, r, order, before, access);
    var c := FinishCompletion(scope, f, now, r, order, before);
    ClaimsGroup(c, OptionalAccessWrites(scope, f.event, r.order, now, access).value, KindOf(f.event), access);
    assert c.Core()[ReservationKey(scope.Pk(), f.reservation)].Put?;
  }

  /** An undisturbed finish of a held reservation under unused ids commits. */
  lemma FinishNowCommits(w: World, scope: Scope, f: Finish, now: nat)
    requires WorldInv(w) && Live(w.tables, scope, f.reservation) && ReasonFits(f.status, f.reason) && FinishArgs(f)
    requires Unused(w.tables, scope, f) && EventBinds(f, w.tables[ReservationKey(scope.Pk(), f.reservation)].reservation)
    ensures Sound(w.tables, ReservationKey(scope.Pk(), f.reservation))
    ensures Commits(w, FinishNow(w.tables, scope, f, now))
  {
    FinishPlanned(w.tables, scope, f, now);
    FinishHolds(w.tables, scope, f, now);
    CurrentReads(w, scope, f, now);
  }

  lemma CurrentReads(w: World, scope: Scope, f: Finish, now: nat)
    requires WorldInv(w) && Live(w.tables, scope, f.reservation)
    ensures Sound(w.tables, ReservationKey(scope.Pk(), f.reservation))
    ensures ReadsOf(FinishNow(w.tables, scope, f, now)) <= w.seen
  {
    assert Sound(w.tables, ReservationKey(scope.Pk(), f.reservation));
    ReadsStored(w, FinishNow(w.tables, scope, f, now));
  }
}
