/**
 * Exactly when an operation can be committed and what it leaves, in terms of the records as they stand: stock adjustments,
 * checkouts, deferrals, proof rotations and notifications.
 */
module Exactness {
  import opened Basics
  import opened Inventory
  import opened Records
  import opened Orders
  import opened Plans
  import opened Protocol
  import opened Operations
  import opened Runs
  import opened Idempotency
  import opened Progress
  import opened Calls
  import opened Refusals

  // ----- stock adjustments -----

  /** The first stock of a kind comes in at revision zero; later ones name the revision, and leave what is reserved. */
  predicate Adjustable(t: Tables, scope: Scope, stock: Id, location: Id, delta: int, revision: nat, key: string) {
    && delta != 0 && ReceiptKey(scope.Pk(), key) !in t
    && var k := StockKey(scope.Pk(), location, stock);
       if k !in t then revision == 0 && delta > 0
       else
         && t[k].StockItem? && t[k].stock.domain == scope.domain && revision > 0 && t[k].stock.state.revision == revision
         && t[k].stock.state.onHand + delta >= t[k].stock.state.reserved
  }

  lemma AdjustmentPlanned(t: Tables, scope: Scope, stock: Id, location: Id, delta: int, revision: nat, key: string, now: nat)
    requires Sound(t, StockKey(scope.Pk(), location, stock)) && ReceiptKey(scope.Pk(), key) !in t
    ensures AdjustChange(scope, stock, location, delta, revision, now, StockNow(t, StockKey(scope.Pk(), location, stock))).Ok?
        <==> Adjustable(t, scope, stock, location, delta, revision, key)
  {
  }

  lemma AdjustmentHolds(t: Tables, scope: Scope, stock: Id, location: Id, delta: int, revision: nat, key: string, now: nat)
    requires Inv(t) && Adjustable(t, scope, stock, location, delta, revision, key)
    ensures var plan := AdjustPlan(scope, stock, location, delta, revision, key, now, StockNow(t, StockKey(scope.Pk(), location, stock)));
      plan.Ok? && Holds(t, plan.value)
  {
    var pk, k := scope.Pk(), StockKey(scope.Pk(), location, stock);
    assert Sound(t, k);
    AdjustmentPlanned(t, scope, stock, location, delta, revision, key, now);
    var c := AdjustChange(scope, stock, location, delta, revision, now, StockNow(t, k)).value;
    assert Sound(t, MoveKey(pk, key, c));
    OneChange(pk, key, c);
    HoldsUnion(t, ReceiptWrites(scope, key, AdjustRequest(stock, location, delta, revision), StockResult(c), now), StockWrites(pk, key, [c]));
  }

  lemma AdjustmentCommits(w: World, scope: Scope, stock: Id, location: Id, delta: int, revision: nat, key: string, now: nat) returns (op: Op)
    requires WorldInv(w) && Adjustable(w.tables, scope, stock, location, delta, revision, key)
    ensures Serves(op, AdjustCall(scope, stock, location, delta, revision, key)) && Commits(w, op)
  {
    AdjustmentHolds(w.tables, scope, stock, location, delta, revision, key, now);
    op := AdjustOp(scope, now, key, stock, location, delta, revision, StockNow(w.tables, StockKey(scope.Pk(), location, stock)));
  }

  /** An adjustment can be committed exactly while the stock as it stands allows it. */
  lemma AdjustsExactly(w: World, scope: Scope, stock: Id, location: Id, delta: int, revision: nat, key: string)
    requires WorldInv(w)
    ensures Hopeless(AdjustCall(scope, stock, location, delta, revision, key), w)
        <==> !Adjustable(w.tables, scope, stock, location, delta, revision, key)
  {
    if Adjustable(w.tables, scope, stock, location, delta, revision, key) {
      var op := AdjustmentCommits(w, scope, stock, location, delta, revision, key, 0);
    } else {
      forall op | Serves(op, AdjustCall(scope, stock, location, delta, revision, key)) ensures !Commits(w, op) {
        AdjustServes(op, scope, stock, location, delta, revision, key);
        if Commits(w, op) { AdjustedWasPossible(w, op); }
      }
    }
  }

  lemma AdjustedWasPossible(w: World, op: Op)
    requires WorldInv(w) && op.AdjustOp? && Commits(w, op) && TicketOf(op).Some?
    ensures Adjustable(w.tables, op.scope, op.stock, op.location, op.delta, op.expectedRevision, op.key)
  {
    ReceiptAppears(w, op);
    AdjustIsCurrent(w, op);
    assert Sound(w.tables, StockKey(op.scope.Pk(), op.location, op.stock));
    AdjustmentPlanned(w.tables, op.scope, op.stock, op.location, op.delta, op.expectedRevision, op.key, op.now);
  }

  /** A committed adjustment moves the units on hand by its delta, touches nothing reserved, and tells the new counts. */
  lemma AdjustLeaves(w: World, op: Op)
    requires WorldInv(w) && op.AdjustOp? && Commits(w, op) && TicketOf(op).Some?
    ensures var u, k := Exec(w, op).tables, StockKey(op.scope.Pk(), op.location, op.stock);
      && k in u && u[k].StockItem?
      && var was, s := StockNow(w.tables, k), u[k].stock;
      && s.state.onHand == (if was.None? then op.delta else was.value.state.onHand + op.delta)
      && s.state.reserved == (if was.None? then 0 else was.value.state.reserved)
      && s.state.revision == op.expectedRevision + 1 && s.available == s.state.onHand - s.state.reserved
      && TicketOf(op).value.receipt.result
         == StockOutcome(op.location, op.stock, s.state.onHand, s.state.reserved, s.available, s.state.revision)
  {
    AdjustIsCurrent(w, op);
    var c := AdjustChange(op.scope, op.stock, op.location, op.delta, op.expectedRevision, op.now, op.current).value;
    OneChange(op.scope.Pk(), op.key, c);
    assert Sound(w.tables, StockKey(op.scope.Pk(), op.location, op.stock));
  }

  // ----- checkouts -----

  /** Every stock that the lines ask for has that many units left. */
  predicate Stocked(t: Tables, scope: Scope, allocations: seq<Allocation>) {
    forall i :: 0 <= i < |allocations| ==>
      && var k := StockKey(scope.Pk(), allocations[i].location, allocations[i].stock);
      && k in t && t[k].StockItem? && t[k].stock.domain == scope.domain
      && t[k].stock.state.onHand - t[k].stock.state.reserved >= allocations[i].quantity
  }

  lemma StockedIsReady(t: Tables, scope: Scope, c: Checkout, now: nat, allocations: seq<Allocation>)
    requires Inv(t) && AllocationsValid(allocations)
    ensures Stocked(t, scope, allocations) <==> AllStocksReady(t, scope, c, now, allocations)
  {
    forall i | 0 <= i < |allocations|
      ensures StockReady(t, scope, c.reservation, ReserveMove, None, now, allocations[i])
          <==> && var k := StockKey(scope.Pk(), allocations[i].location, allocations[i].stock);
               && k in t && t[k].StockItem? && t[k].stock.domain == scope.domain
               && t[k].stock.state.onHand - t[k].stock.state.reserved >= allocations[i].quantity
    {
      assert Sound(t, StockKey(scope.Pk(), allocations[i].location, allocations[i].stock));
      OneIsReady(t, scope, c.reservation, now, allocations[i]);
    }
  }

  lemma OneIsReady(t: Tables, scope: Scope, rid: Id, now: nat, a: Allocation)
    requires Sound(t, StockKey(scope.Pk(), a.location, a.stock)) && a.quantity > 0
    ensures var k := StockKey(scope.Pk(), a.location, a.stock);
      StockReady(t, scope, rid, ReserveMove, None, now, a)
      <==> k in t && t[k].stock.domain == scope.domain && t[k].stock.state.onHand - t[k].stock.state.reserved >= a.quantity
  {
  }

  /** A valid checkout can be committed exactly while there is stock for it, its total is in bounds, and its ids and key are new. */
  lemma ChecksOutExactly(w: World, scope: Scope, c: Checkout, key: string, allocations: seq<Allocation>)
    requires WorldInv(w) && CheckoutValid(c) && Aggregates(allocations, c.order.lines, c.location)
    ensures Hopeless(CheckoutCall(scope, c, key), w)
        <==> !(Stocked(w.tables, scope, allocations) && OrderTotal(c.order.lines) <= MAX_AMOUNT_MINOR && CheckoutFresh(w.tables, scope, c, key))
  {
    AggregatesValid(allocations, c.order, c.location);
    StockedIsReady(w.tables, scope, c, 0, allocations);
    if !AllStocksReady(w.tables, scope, c, 0, allocations) || OrderTotal(c.order.lines) > MAX_AMOUNT_MINOR {
      ReserveNeedsStock(w, scope, c, key, 0, allocations);
    } else if !CheckoutFresh(w.tables, scope, c, key) {
      ReserveNeedsFresh(w, scope, c, key);
    } else {
      ReservePlanned(w.tables, scope, c, key, 0, allocations);
      ReserveHolds(w.tables, scope, c, key, 0, allocations);
      ReserveReadsStored(w, scope, c, key, 0, allocations);
      assert Serves(ReserveNow(w.tables, scope, c, key, 0, allocations), CheckoutCall(scope, c, key));
    }
  }

  lemma ReserveNeedsFresh(w: World, scope: Scope, c: Checkout, key: string)
    requires WorldInv(w) && !CheckoutFresh(w.tables, scope, c, key)
    ensures Hopeless(CheckoutCall(scope, c, key), w)
  {
    forall op | Serves(op, CheckoutCall(scope, c, key)) ensures !Commits(w, op) {
      ReserveServed(op, scope, c, key);
      if Commits(w, op) { ReserveWasFresh(w, op); }
    }
  }

  /** With a checkout that asks for one, a fiscal access begins: the caller's proof, no attempt, waiting for the payment. */
  predicate AccessBegins(t: Tables, k: Key, g: Grant, domain: string, now: nat) {
    && k in t && t[k].AccessItem?
    && var a := t[k].access;
    && a.domain == domain && a.proof == g.proof && a.window == g.window && a.state == PendingPayment && a.attempts == 0 && a.createdAt == now
    && a.request.None? && a.expiresAt == now + CHECKOUT_EXPIRY_SECONDS + RECONCILIATION_GRACE_SECONDS + g.window
  }

  lemma CheckoutLeavesAccess(w: World, op: Op)
    requires Commits(w, op) && op.ReserveOp? && op.checkout.fiscal.Some?
    ensures AccessBegins(Exec(w, op).tables, AccessKey(op.scope.Pk(), op.checkout.order.order), op.checkout.fiscal.value, op.scope.domain, op.now)
  {
    var ws, k := NewAccessWrites(op.scope, op.checkout, op.now), AccessKey(op.scope.Pk(), op.checkout.order.order);
    assert k in ws && PlanOf(op).value[k] == ws[k];
  }

  // ----- deferrals -----

  /** The reservation is still held, it is due at the time of the call, and its key is new. */
  predicate Deferrable(t: Tables, scope: Scope, rid: Id, next: nat, key: string) {
    var rk := ReservationKey(scope.Pk(), rid);
    && rk in t && t[rk].ReservationItem? && t[rk].reservation.domain == scope.domain && t[rk].reservation.status == Reserved
    && next >= t[rk].reservation.reconcileAfter + RECONCILER_INTERVAL_SECONDS && ReceiptKey(scope.Pk(), key) !in t
  }

  lemma DeferralHolds(t: Tables, scope: Scope, rid: Id, next: nat, key: string, now: nat, r: ReservationRec)
    requires Inv(t) && Deferrable(t, scope, rid, next, key) && next == now + RECONCILER_INTERVAL_SECONDS
    requires t[ReservationKey(scope.Pk(), rid)] == ReservationItem(r)
    ensures DeferPlan(scope, rid, next, key, now, r).Ok? && Holds(t, DeferPlan(scope, rid, next, key, now, r).value)
  {
    assert Sound(t, ReservationKey(scope.Pk(), rid)) && Sound(t, DueKey(scope.Pk(), next, rid));
    assert Sound(t, DueKey(scope.Pk(), r.dueEpoch, rid));
    HoldsUnion(t, ReceiptWrites(scope, key, DeferRequest(rid, next), DeferredOutcome(rid, next), now), DeferWrites(scope, rid, r, next, now));
  }

  lemma DeferralCommits(w: World, scope: Scope, rid: Id, next: nat, key: string) returns (op: Op)
    requires WorldInv(w) && Deferrable(w.tables, scope, rid, next, key)
    ensures Serves(op, DeferCall(scope, rid, next, key)) && Commits(w, op)
  {
    var r := w.tables[ReservationKey(scope.Pk(), rid)].reservation;
    op := DeferOp(scope, next - RECONCILER_INTERVAL_SECONDS, key, rid, next, r);
    DeferralHolds(w.tables, scope, rid, next, key, op.now, r);
    WasSeen(w, ReservationKey(scope.Pk(), rid), ReservationItem(r));
    DeferralServes(op);
  }

  lemma DeferralServes(op: Op)
    requires op.DeferOp?
    ensures Serves(op, DeferCall(op.scope, op.id, op.next, op.key))
    ensures ReadsOf(op) == {(ReservationKey(op.scope.Pk(), op.id), ReservationItem(op.reservation))}
  {
  }

  lemma DeferredWasDue(w: World, op: Op)
    requires WorldInv(w) && op.DeferOp? && Commits(w, op)
    ensures Deferrable(w.tables, op.scope, op.id, op.next, op.key) && op.next == op.now + RECONCILER_INTERVAL_SECONDS
  {
    ReceiptAppears(w, op);
    DeferIsCurrent(w, op);
  }

  /** A deferral can be committed exactly while its reservation is held and due, five minutes before the time it names. */
  lemma DefersExactly(w: World, scope: Scope, rid: Id, next: nat, key: string)
    requires WorldInv(w)
    ensures Hopeless(DeferCall(scope, rid, next, key), w) <==> !Deferrable(w.tables, scope, rid, next, key)
  {
    if Deferrable(w.tables, scope, rid, next, key) {
      var op := DeferralCommits(w, scope, rid, next, key);
    } else {
      forall op | Serves(op, DeferCall(scope, rid, next, key)) ensures !Commits(w, op) {
        DeferServes(op, scope, rid, next, key);
        if Commits(w, op) { DeferredWasDue(w, op); }
      }
    }
  }

  // ----- rotations of a proof -----

  /** The rotation may be made of this access. */
  predicate Rotatable(a: AccessRec, op: Op)
    requires op.RotateOp?
  {
    a.domain == op.scope.domain && a.state == PendingPayment && op.now < a.expiresAt && op.proof != a.proof
  }

  lemma RotationPlanned(op: Op)
    requires op.RotateOp?
    ensures PlanOf(op).Ok? <==> AccessReadable(op.held, op.held.domain) && Rotatable(op.held, op)
    ensures var k := AccessKey(op.scope.Pk(), op.orderId);
      && ReadsOf(op) == {(k, AccessItem(op.held))}
      && (PlanOf(op).Ok? ==> PlanOf(op).value.Keys == {k} && PlanOf(op).value[k].condition == AccessCondition(op.held))
  {
  }

  lemma RotationIsCurrent(w: World, op: Op)
    requires WorldInv(w) && op.RotateOp? && Commits(w, op)
    ensures var k := AccessKey(op.scope.Pk(), op.orderId); k in w.tables && w.tables[k] == AccessItem(op.held)
  {
    var k := AccessKey(op.scope.Pk(), op.orderId);
    RotationPlanned(op);
    assert Satisfied(PlanOf(op).value[k].condition, Lookup(w.tables, k));
    ReadWas(w, op, k, AccessItem(op.held));
  }

  lemma RotationCommits(w: World, op: Op)
    requires WorldInv(w) && op.RotateOp? && Rotatable(op.held, op)
    requires var k := AccessKey(op.scope.Pk(), op.orderId); k in w.tables && w.tables[k] == AccessItem(op.held)
    ensures Commits(w, op)
  {
    var k := AccessKey(op.scope.Pk(), op.orderId);
    AccessIsReadable(w.tables, k);
    WasSeen(w, k, AccessItem(op.held));
    RotationPlanned(op);
  }

  lemma AccessIsReadable(t: Tables, k: Key)
    requires Inv(t) && k.AccessKey? && k in t
    ensures t[k].AccessItem? && AccessReadable(t[k].access, t[k].access.domain)
  {
    assert Sound(t, k);
  }

  /** A proof is replaced exactly in the access as it stands, by another one, while payment is pending and before it expires. */
  lemma RotatesExactly(w: World, op: Op)
    requires WorldInv(w) && op.RotateOp?
    ensures var k := AccessKey(op.scope.Pk(), op.orderId);
      Commits(w, op) <==>
        && k in w.tables && w.tables[k] == AccessItem(op.held) && op.held.domain == op.scope.domain
        && op.held.state == PendingPayment && op.now < op.held.expiresAt && op.proof != op.held.proof
  {
    if Commits(w, op) {
      RotationIsCurrent(w, op);
      RotationPlanned(op);
    } else if Rotatable(op.held, op) {
      var k := AccessKey(op.scope.Pk(), op.orderId);
      if k in w.tables && w.tables[k] == AccessItem(op.held) { RotationCommits(w, op); }
    }
  }

  // ----- notifications -----

  /** The order asks to hear of a payment outcome of this kind; of a success no more once it is refunded. */
  predicate Wanted(o: OrderRec, kind: PaymentKind) {
    && o.notify.Some?
    && match kind
       case Succeeded => o.notify.value.onSuccess && o.status != Refunded
       case TerminalUnpaid => o.notify.value.onFailure
  }

  /** The message of the event, if the order that was read asks for one, and no other message of the event. */
  ghost predicate MessageSent(t: Tables, scope: Scope, e: PaymentEvent, oid: Id, o: OrderRec) {
    && (Wanted(o, e.kind) ==>
          OutboxKey(scope.Pk(), OutboxId(scope, e.event, e.kind, o.notify.value, oid, o.amountMinor, o.currency)) in t)
    && (!Wanted(o, e.kind) ==> forall m: OutboxId :: m.event == e.event ==> OutboxKey(scope.Pk(), m) !in t)
  }

  ghost predicate SendsMessage(ws: Writes, scope: Scope, e: PaymentEvent, oid: Id, o: OrderRec) {
    && (Wanted(o, e.kind) ==>
          var k := OutboxKey(scope.Pk(), OutboxId(scope, e.event, e.kind, o.notify.value, oid, o.amountMinor, o.currency)); k in ws && ws[k].Put?)
    && (!Wanted(o, e.kind) ==> forall m: OutboxId :: OutboxKey(scope.Pk(), m) !in ws)
  }

  lemma NoticeSends(scope: Scope, e: PaymentEvent, oid: Id, o: OrderRec, result: Outcome, now: nat)
    ensures SendsMessage(EventWrites(scope, e, oid, o, result, now), scope, e, oid, o)
  {
  }

  lemma SendsInPlan(records: Writes, rest: Writes, scope: Scope, e: PaymentEvent, oid: Id, o: OrderRec)
    requires SendsMessage(records, scope, e, oid, o) && forall m: OutboxId :: OutboxKey(scope.Pk(), m) !in rest
    ensures SendsMessage(records + rest, scope, e, oid, o) && SendsMessage(rest + records, scope, e, oid, o)
  {
  }

  lemma NoMessages(ws: Writes, g: Group, pk: Partition)
    requires InGroup(ws, g) && g != Records
    ensures forall m: OutboxId :: OutboxKey(pk, m) !in ws
  {
    forall m: OutboxId ensures OutboxKey(pk, m) !in ws {
      assert GroupOf(OutboxKey(pk, m)) == Records;
    }
  }

  lemma FinishSendsMessage(op: Op)
    requires op.FinishOp? && PlanOf(op).Ok? && op.finish.event.Some?
    ensures SendsMessage(PlanOf(op).value, op.scope, op.finish.event.value, op.reservation.order, op.order)
  {
    var scope, f, now, r := op.scope, op.finish, op.now, op.reservation;
    FinishIsCompletion(scope, f, now, r, op.order, op.before, op.access);
    var c := FinishCompletion(scope, f, now, r, op.order, op.before);
    var claims := OptionalAccessWrites(scope, f.event, r.order, now, op.access).value;
    var result := FinishResult(f.reservation, r, f.status, now, f.reason);
    NoticeSends(scope, f.event.value, r.order, op.order, result, now);
    SendsInPlan(EventWrites(scope, f.event.value, r.order, op.order, result, now),
                ReceiptWrites(scope, f.key, f.Request(scope), result, now), scope, f.event.value, r.order, op.order);
    ClaimsGroup(c, claims, KindOf(f.event), op.access);
    ChangesDistinct(scope.domain, f.reservation, MoveFor(f.status), Some(f.reason), now, r.allocations, op.before);
    StockGroup(scope.Pk(), f.key, c.changes);
    CoreGroup(c);
    NoMessages(c.Stock(), Log, scope.Pk());
    NoMessages(c.Core(), Core, scope.Pk());
    NoMessages(claims, Claims, scope.Pk());
    SendsInPlan(FinishRecords(scope, f, now, r, op.order), c.Stock() + c.Core(), scope, f.event.value, r.order, op.order);
    SendsInPlan(FinishRecords(scope, f, now, r, op.order) + (c.Stock() + c.Core()), claims, scope, f.event.value, r.order, op.order);
  }

  lemma AcknowledgeSendsMessage(op: Op)
    requires op.AcknowledgeOp? && PlanOf(op).Ok?
    ensures SendsMessage(PlanOf(op).value, op.scope, op.finish.event.value, op.reservation.order, op.order)
  {
    var scope, f, now, r := op.scope, op.finish, op.now, op.reservation;
    var result := TerminalResult(f.reservation, r);
    var receipt := ReceiptWrites(scope, f.key, f.Request(scope), result, now);
    var events := EventWrites(scope, f.event.value, r.order, op.order, result, now);
    NoticeSends(scope, f.event.value, r.order, op.order, result, now);
    SendsInPlan(events, receipt, scope, f.event.value, r.order, op.order);
    AccessGroup(scope, r.order, f.event.value.kind, now, op.access);
    NoMessages(AccessWrites(scope, r.order, f.event.value.kind, now, op.access).value, Claims, scope.Pk());
    SendsInPlan(receipt + events, AccessWrites(scope, r.order, f.event.value.kind, now, op.access).value, scope, f.event.value, r.order, op.order);
  }

  /** Before an event is recorded there is no message of it. */
  lemma NoMessageYet(t: Tables, scope: Scope, e: PaymentEvent)
    requires Inv(t) && InboxKey(scope.Pk(), e.event) !in t
    ensures forall m: OutboxId :: m.event == e.event ==> OutboxKey(scope.Pk(), m) !in t
  {
    forall m: OutboxId | m.event == e.event ensures OutboxKey(scope.Pk(), m) !in t {
      assert Sound(t, OutboxKey(scope.Pk(), m));
    }
  }

  lemma SentWhenApplied(t: Tables, ws: Writes, scope: Scope, e: PaymentEvent, oid: Id, o: OrderRec)
    requires SendsMessage(ws, scope, e, oid, o) && forall m: OutboxId :: m.event == e.event ==> OutboxKey(scope.Pk(), m) !in t
    ensures MessageSent(Apply(t, ws), scope, e, oid, o)
  {
  }

  /** A recorded payment event leaves its notification in the outbox exactly if the order asks for it. */
  lemma MessageIsSent(w: World, op: Op)
    requires WorldInv(w) && Commits(w, op) && (op.FinishOp? || op.AcknowledgeOp?) && op.finish.event.Some?
    ensures MessageSent(Exec(w, op).tables, op.scope, op.finish.event.value, op.reservation.order, op.order)
    ensures (OrderKey(op.scope.Pk(), op.reservation.order), OrderItem(op.order)) in w.seen
  {
    assert (OrderKey(op.scope.Pk(), op.reservation.order), OrderItem(op.order)) in ReadsOf(op);
    if op.FinishOp? {
      FinishBinds(w, op);
      FinishSendsMessage(op);
    } else {
      AcknowledgeIsCurrent(w, op);
      AcknowledgeSendsMessage(op);
    }
    NoMessageYet(w.tables, op.scope, op.finish.event.value);
    SentWhenApplied(w.tables, PlanOf(op).value, op.scope, op.finish.event.value, op.reservation.order, op.order);
  }
}
