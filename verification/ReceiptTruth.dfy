/** What a receipt says is so: the answer to a repeated call still describes the records it is about. */
module ReceiptTruth {
  import opened Basics
  import opened Inventory
  import opened Records
  import opened Orders
  import opened Plans
  import opened Ledger
  import opened Protocol
  import opened Parts
  import opened Operations
  import opened Runs
  import opened HeldOrders
  import opened Idempotency
  import opened Progress
  import opened Backends
  import opened Calls
  import opened Refusals

  /** The reservation has ended as the request asked, and the result is what the reservation itself says. */
  predicate EndIsSo(t: Tables, pk: Partition, x: ReceiptRec)
    requires x.request.FinishRequest?
  {
    var rk := ReservationKey(pk, x.request.reservation);
    && rk in t && t[rk].ReservationItem?
    && var r := t[rk].reservation;
    && r.status == x.request.status && r.status != Reserved && r.reason == Some(x.request.reason) && r.domain == x.domain
    && SaysEnd(x.result, x.request.reservation, r) && (x.request.event.Some? ==> EventFits(x.request.event.value, x.request.reservation, r))
  }

  /** The payment event behind an end names that reservation, its order and its attempt. */
  predicate EventFits(hash: EventHash, rid: Id, r: ReservationRec) {
    hash.PaymentHash? && hash.payment.reservation == rid && hash.payment.order == r.order && hash.payment.attempt == r.attempt
  }

  /** The result repeats the reservation, field by field. */
  predicate SaysEnd(v: Outcome, rid: Id, r: ReservationRec) {
    && v.FinishedOutcome? && v.reservation == rid && v.order == r.order && v.attempt == r.attempt && v.status == r.status
    && v.createdAt == r.createdAt && v.checkoutExpiresAt == r.checkoutExpiresAt && v.reconcileAfter == r.reconcileAfter
    && v.completedAt == r.completedAt && v.reason == r.reason
  }

  /**
   * The result tells the times of the reservation and of its order: made when the receipt was, expiring thirty-five minutes
   * later, to be looked at another five minutes later.
   */
  predicate SaysTimes(v: Outcome, r: ReservationRec, o: OrderRec)
    requires v.ReservedOutcome?
  {
    && v.timing.createdAt == r.createdAt == o.createdAt
    && v.timing.checkoutExpiresAt == r.checkoutExpiresAt == o.checkoutExpiresAt == r.createdAt + CHECKOUT_EXPIRY_SECONDS
    && v.timing.reconcileAfter == r.initialReconcileAfter == r.createdAt + CHECKOUT_EXPIRY_SECONDS + RECONCILIATION_GRACE_SECONDS
  }

  /** The reservation and the order of the request exist, with what it pins, and with a fiscal access if it asked for one. */
  predicate CheckoutIsSo(t: Tables, pk: Partition, x: ReceiptRec)
    requires x.request.ReserveRequest?
  {
    var rk, ok := ReservationKey(pk, x.request.reservation), OrderKey(pk, x.request.order.order);
    && rk in t && t[rk].ReservationItem? && ok in t && t[ok].OrderItem?
    && var r, o := t[rk].reservation, t[ok].order;
    && r.order == x.request.order.order && r.attempt == x.request.order.attempt && r.domain == x.domain
    && o.reservation == x.request.reservation && o.lines == x.request.order.lines && o.currency == x.request.order.currency
    && o.notify == x.request.notify && r.createdAt == x.createdAt
    && x.result.ReservedOutcome? && (x.result.proof.Some? <==> x.request.fiscal)
    && x.result.reservation == x.request.reservation && x.result.order == r.order && x.result.attempt == r.attempt
    && SaysTimes(x.result, r, o) && (x.request.fiscal ==> AccessKey(pk, x.request.order.order) in t)
  }

  predicate RefundIsSo(t: Tables, pk: Partition, x: ReceiptRec)
    requires x.request.RefundRequest?
  {
    var refund := x.request.refund;
    var fk := RefundKey(pk, refund.refund);
    && x.result == RefundOutcome(refund.refund, refund.order, refund.amountMinor, refund.currency, refund.occurredAt)
    && fk in t && t[fk] == RefundItem(RefundRec(x.domain, x.result))
  }

  predicate DeferralIsSo(t: Tables, pk: Partition, x: ReceiptRec)
    requires x.request.DeferRequest?
  {
    var rk := ReservationKey(pk, x.request.reservation);
    && x.result == DeferredOutcome(x.request.reservation, x.request.next)
    && x.request.next == x.createdAt + RECONCILER_INTERVAL_SECONDS
    && rk in t && t[rk].ReservationItem? && x.request.next <= t[rk].reservation.reconcileAfter
  }

  /**
   * The movement of the adjustment is in the log, and the stock has come at least as far as the result says; while it is
   * still at the told revision, its counts are the told ones.
   */
  predicate AdjustmentIsSo(t: Tables, pk: Partition, key: string, x: ReceiptRec)
    requires x.request.AdjustRequest?
  {
    var sk := StockKey(pk, x.request.location, x.request.stock);
    var mk := MovementKey(pk, x.request.stock, key, AdjustMove, x.request.location);
    && x.result.StockOutcome? && x.result.stock == x.request.stock && x.result.location == x.request.location
    && x.result.revision == x.request.expectedRevision + 1
    && 0 <= x.result.reserved <= x.result.onHand && x.result.available == x.result.onHand - x.result.reserved
    && sk in t && t[sk].StockItem? && x.result.revision <= t[sk].stock.state.revision
    && (x.result.revision == t[sk].stock.state.revision ==>
          t[sk].stock.state == StockState(true, x.result.onHand, x.result.reserved, x.result.revision))
    && mk in t && t[mk].MovementItem?
    && var m := t[mk].movement;
       m.deltas == Deltas(x.request.delta, 0, x.request.delta) && m.occurredAt == x.createdAt && m.reservation.None?
  }

  predicate IsSo(t: Tables, pk: Partition, key: string, x: ReceiptRec) {
    match x.request
    case FinishRequest(_, _, _, _) => EndIsSo(t, pk, x)
    case ReserveRequest(_, _, _, _, _) => CheckoutIsSo(t, pk, x)
    case RefundRequest(_) => RefundIsSo(t, pk, x)
    case DeferRequest(_, _) => DeferralIsSo(t, pk, x)
    case AdjustRequest(_, _, _, _) => AdjustmentIsSo(t, pk, key, x)
    case CatalogRequest(_) => true
  }

  // ----- once true, always true -----

  lemma TruthStays(t: Tables, u: Tables, pk: Partition, key: string, x: ReceiptRec)
    requires IsSo(t, pk, key, x) && Advances(t, u)
    ensures IsSo(u, pk, key, x)
  {
    match x.request
    case FinishRequest(_, rid, _, _) => assert Stays(t[ReservationKey(pk, rid)], u[ReservationKey(pk, rid)]);
    case ReserveRequest(rid, order, _, _, _) =>
      assert Stays(t[ReservationKey(pk, rid)], u[ReservationKey(pk, rid)]);
      assert Stays(t[OrderKey(pk, order.order)], u[OrderKey(pk, order.order)]);
    case RefundRequest(refund) => assert Stays(t[RefundKey(pk, refund.refund)], u[RefundKey(pk, refund.refund)]);
    case DeferRequest(rid, _) => assert Stays(t[ReservationKey(pk, rid)], u[ReservationKey(pk, rid)]);
    case AdjustRequest(stock, location, _, _) =>
      assert Stays(t[StockKey(pk, location, stock)], u[StockKey(pk, location, stock)]);
      var mk := MovementKey(pk, stock, key, AdjustMove, location);
      assert Stays(t[mk], u[mk]);
    case CatalogRequest(_) =>
  }

  // ----- true when it is written -----

  lemma FinishIsTrue(t: Tables, scope: Scope, f: Finish, now: nat, r: ReservationRec, order: OrderRec, before: seq<StockRec>,
                     access: Option<AccessRec>)
    requires |before| == |r.allocations| && FinishArgs(f) && FinishPlan(scope, f, now, r, order, before, access).Ok? && EventBinds(f, r)
    ensures EndIsSo(Apply(t, FinishPlan(scope, f, now, r, order, before, access).value), scope.Pk(),
                  ReceiptRec(scope.domain, f.Request(scope), FinishResult(f.reservation, r, f.status, now, f.reason), now))
  {
    FinishEffect(t, scope, f, now, r, order, before, access);
  }

  /** A repeated event was planned from a reservation that had ended, and still stands so. */
  lemma AcknowledgeIsTrue(w: World, op: Op)
    requires WorldInv(w) && Commits(w, op) && op.AcknowledgeOp?
    ensures EndIsSo(w.tables, op.scope.Pk(), TicketOf(op).value.receipt)
  {
    AcknowledgeWasRead(op);
    assert (ReservationKey(op.scope.Pk(), op.finish.reservation), ReservationItem(op.reservation)) in w.seen;
    AcknowledgeIsCurrent(w, op);
    EndStands(w.tables, op);
  }

  lemma EndStands(t: Tables, op: Op)
    requires op.AcknowledgeOp? && FinishArgs(op.finish)
    requires Was(t, ReservationKey(op.scope.Pk(), op.finish.reservation), ReservationItem(op.reservation))
    requires var f, r := op.finish, op.reservation;
      r.domain == op.scope.domain && r.status == f.status && r.status != Reserved && r.reason == Some(f.reason) && EventBinds(f, r)
    ensures EndIsSo(t, op.scope.Pk(), TicketOf(op).value.receipt)
  {
  }

  lemma ReserveIsTrue(t: Tables, scope: Scope, c: Checkout, key: string, now: nat, allocations: seq<Allocation>, before: seq<StockRec>)
    requires |allocations| == |before| && Aggregates(allocations, c.order.lines, c.location)
    requires ReservePlan(scope, c, key, now, allocations, before).Ok?
    ensures CheckoutIsSo(Apply(t, ReservePlan(scope, c, key, now, allocations, before).value), scope.Pk(),
                   ReceiptRec(scope.domain, c.Request(), c.Result(now), now))
  {
    var plan, ws := ReservePlan(scope, c, key, now, allocations, before).value, CheckoutWrites(scope, c, allocations, now);
    CheckoutInPlan(scope, c, key, now, allocations, before);
    assert ReservationKey(scope.Pk(), c.reservation) in ws && OrderKey(scope.Pk(), c.order.order) in ws;
  }

  lemma DeferIsTrue(t: Tables, scope: Scope, rid: Id, next: nat, key: string, now: nat, r: ReservationRec)
    requires DeferPlan(scope, rid, next, key, now, r).Ok?
    ensures DeferralIsSo(Apply(t, DeferPlan(scope, rid, next, key, now, r).value), scope.Pk(),
                     ReceiptRec(scope.domain, DeferRequest(rid, next), DeferredOutcome(rid, next), now))
  {
  }

  lemma AdjustIsTrue(t: Tables, scope: Scope, stock: Id, location: Id, delta: int, revision: nat, key: string, now: nat, current: Option<StockRec>)
    requires AdjustPlan(scope, stock, location, delta, revision, key, now, current).Ok?
    ensures var c := AdjustChange(scope, stock, location, delta, revision, now, current).value;
      AdjustmentIsSo(Apply(t, AdjustPlan(scope, stock, location, delta, revision, key, now, current).value), scope.Pk(), key,
               ReceiptRec(scope.domain, AdjustRequest(stock, location, delta, revision), StockResult(c), now))
  {
    var c := AdjustChange(scope, stock, location, delta, revision, now, current).value;
    StockWritesAt(scope.Pk(), key, [c]);
    assert WritesChange(StockWrites(scope.Pk(), key, [c]), scope.Pk(), key, [c][0]);
  }

  lemma RefundPaidIsTrue(t: Tables, scope: Scope, x: Refund, now: nat, order: OrderRec)
    requires RefundPaidPlan(scope, x, now, order).Ok?
    ensures RefundIsSo(Apply(t, RefundPaidPlan(scope, x, now, order).value), scope.Pk(),
                     ReceiptRec(scope.domain, RefundRequest(x), RefundResult(x), now))
  {
  }

  lemma RefundPendingIsTrue(t: Tables, scope: Scope, x: Refund, now: nat, order: OrderRec, r: ReservationRec, before: seq<StockRec>,
                            access: Option<AccessRec>)
    requires |before| == |r.allocations| && RefundPendingPlan(scope, x, now, order, r, before, access).Ok? && r.status == Reserved
    ensures RefundIsSo(Apply(t, RefundPendingPlan(scope, x, now, order, r, before, access).value), scope.Pk(),
                     ReceiptRec(scope.domain, RefundRequest(x), RefundResult(x), now))
  {
    RefundIsCompletion(scope, x, now, order, r, before, access);
    var c, claims := RefundCompletion(scope, x, now, order, r, before), AccessWrites(scope, x.order, Succeeded, now, access).value;
    CompletionGroups(c);
    AccessGroup(scope, x.order, Succeeded, now, access);
    RefundRecordsGroup(scope, x, now, order);
    PartsInPlan(RefundPendingRecords(scope, x, now, order), c.Stock(), c.Core(), claims);
    assert RefundKey(scope.Pk(), x.refund) in c.Core();
  }

  lemma AcknowledgedIsTrue(w: World, op: Op)
    requires WorldInv(w) && Commits(w, op) && op.AcknowledgeOp?
    ensures EndIsSo(Exec(w, op).tables, op.scope.Pk(), TicketOf(op).value.receipt)
  {
    AcknowledgeIsTrue(w, op);
    ExecKeeps(w, op);
    TruthStays(w.tables, Exec(w, op).tables, op.scope.Pk(), TicketOf(op).value.key, TicketOf(op).value.receipt);
  }

  lemma PendingRefundIsTrue(w: World, op: Op)
    requires WorldInv(w) && Commits(w, op) && op.RefundPendingOp?
    ensures RefundIsSo(Exec(w, op).tables, op.scope.Pk(), TicketOf(op).value.receipt)
  {
    var rk := ReservationKey(op.scope.Pk(), op.order.reservation);
    assert (rk, ReservationItem(op.reservation)) in ReadsOf(op);
    assert Was(w.tables, rk, ReservationItem(op.reservation));
    RefundReadsReserved(w.tables, op.scope, op.refund, op.now, op.order, op.reservation, op.before, op.access);
    RefundPendingIsTrue(w.tables, op.scope, op.refund, op.now, op.order, op.reservation, op.before, op.access);
  }

  /** What the operation's own receipt says is so once the operation is committed. */
  ghost predicate Told(w: World, op: Op)
    requires TicketOf(op).Some?
  {
    IsSo(Exec(w, op).tables, TicketOf(op).value.pk, TicketOf(op).value.key, TicketOf(op).value.receipt)
  }

  lemma AdjustTold(w: World, op: Op)
    requires Commits(w, op) && op.AdjustOp? && TicketOf(op).Some?
    ensures Told(w, op)
  {
    AdjustIsTrue(w.tables, op.scope, op.stock, op.location, op.delta, op.expectedRevision, op.key, op.now, op.current);
  }

  lemma ReserveTold(w: World, op: Op)
    requires Commits(w, op) && op.ReserveOp?
    ensures Told(w, op)
  {
    ReserveIsTrue(w.tables, op.scope, op.checkout, op.key, op.now, op.allocations, op.before);
  }

  lemma FinishTold(w: World, op: Op)
    requires WorldInv(w) && Commits(w, op) && op.FinishOp?
    ensures Told(w, op)
  {
    FinishIsCurrent(w, op);
    FinishBinds(w, op);
    FinishIsTrue(w.tables, op.scope, op.finish, op.now, op.reservation, op.order, op.before, op.access);
  }

  lemma AcknowledgeTold(w: World, op: Op)
    requires WorldInv(w) && Commits(w, op) && op.AcknowledgeOp?
    ensures Told(w, op)
  {
    AcknowledgedIsTrue(w, op);
  }

  lemma RefundTold(w: World, op: Op)
    requires WorldInv(w) && Commits(w, op) && (op.RefundPaidOp? || op.RefundPendingOp?)
    ensures Told(w, op)
  {
    if op.RefundPaidOp? { RefundPaidIsTrue(w.tables, op.scope, op.refund, op.now, op.order); }
    else { PendingRefundIsTrue(w, op); }
  }

  lemma DeferTold(w: World, op: Op)
    requires Commits(w, op) && op.DeferOp?
    ensures Told(w, op)
  {
    DeferIsTrue(w.tables, op.scope, op.id, op.next, op.key, op.now, op.reservation);
  }

  lemma CatalogTold(w: World, op: Op)
    requires op.CatalogOp?
    ensures Told(w, op)
  {
  }

  lemma TicketIsTrue(w: World, op: Op)
    requires WorldInv(w) && Commits(w, op) && TicketOf(op).Some?
    ensures Told(w, op)
  {
    if op.AdjustOp? { AdjustTold(w, op); }
    else if op.ReserveOp? { ReserveTold(w, op); }
    else if op.FinishOp? { FinishTold(w, op); }
    else if op.AcknowledgeOp? { AcknowledgeTold(w, op); }
    else if op.DeferOp? { DeferTold(w, op); }
    else if op.CatalogOp? { CatalogTold(w, op); }
    else { RefundTold(w, op); }
  }

  // ----- nobody writes another call's receipt -----

  ghost predicate Only(ws: Writes, own: Key) {
    forall k :: k in ws && k.ReceiptKey? ==> k == own
  }

  lemma OnlyInUnion(a: Writes, b: Writes, own: Key)
    requires Only(a, own) && Only(b, own)
    ensures Only(a + b, own)
  {
  }

  lemma NoneIsOnly(ws: Writes, own: Key)
    requires NoReceiptIn(ws)
    ensures Only(ws, own)
  {
  }

  lemma CompletionOnly(records: Writes, c: Completion, claims: Writes, own: Key)
    requires Only(records, own) && InGroup(claims, Claims)
    ensures Only(records + (c.Stock() + c.Core()) + claims, own)
  {
    StockHasNoReceipt(c.scope.Pk(), c.key, c.changes);
    CoreGroup(c);
    NoneIsOnly(c.Stock(), own);
    NoneIsOnly(c.Core(), own);
    NoneIsOnly(claims, own);
    OnlyInUnion(c.Stock(), c.Core(), own);
    OnlyInUnion(records, c.Stock() + c.Core(), own);
    OnlyInUnion(records + (c.Stock() + c.Core()), claims, own);
  }

  lemma FinishOnly(scope: Scope, f: Finish, now: nat, r: ReservationRec, order: OrderRec, before: seq<StockRec>, access: Option<AccessRec>)
    requires |before| == |r.allocations| && FinishArgs(f) && FinishPlan(scope, f, now, r, order, before, access).Ok?
    ensures Only(FinishPlan(scope, f, now, r, order, before, access).value, ReceiptKey(scope.Pk(), f.key))
  {
    var own := ReceiptKey(scope.Pk(), f.key);
    FinishIsCompletion(scope, f, now, r, order, before, access);
    var c, claims := FinishCompletion(scope, f, now, r, order, before), OptionalAccessWrites(scope, f.event, r.order, now, access).value;
    ClaimsGroup(c, claims, KindOf(f.event), access);
    var result := FinishResult(f.reservation, r, f.status, now, f.reason);
    NoReceipt(scope, f.event, r.order, order, result, now);
    OnlyInUnion(ReceiptWrites(scope, f.key, f.Request(scope), result, now), OptionalEventWrites(scope, f.event, r.order, order, result, now), own);
    CompletionOnly(FinishRecords(scope, f, now, r, order), c, claims, own);
  }

  lemma AcknowledgeOnly(scope: Scope, f: Finish, now: nat, r: ReservationRec, order: OrderRec, access: Option<AccessRec>)
    requires f.event.Some? && AcknowledgePlan(scope, f, now, r, order, access).Ok?
    ensures Only(AcknowledgePlan(scope, f, now, r, order, access).value, ReceiptKey(scope.Pk(), f.key))
  {
    NoReceipt(scope, f.event, r.order, order, TerminalResult(f.reservation, r), now);
    AccessGroup(scope, r.order, f.event.value.kind, now, access);
  }

  lemma RefundRecordsOnly(scope: Scope, x: Refund, now: nat, order: OrderRec)
    ensures Only(RefundPendingRecords(scope, x, now, order), ReceiptKey(scope.Pk(), IntegrationKey(x.event)))
  {
  }

  lemma RefundOnly(scope: Scope, x: Refund, now: nat, order: OrderRec, r: ReservationRec, before: seq<StockRec>, access: Option<AccessRec>)
    requires |before| == |r.allocations| && RefundPendingPlan(scope, x, now, order, r, before, access).Ok?
    ensures Only(RefundPendingPlan(scope, x, now, order, r, before, access).value, ReceiptKey(scope.Pk(), IntegrationKey(x.event)))
  {
    var own := ReceiptKey(scope.Pk(), IntegrationKey(x.event));
    RefundIsCompletion(scope, x, now, order, r, before, access);
    AccessGroup(scope, x.order, Succeeded, now, access);
    RefundRecordsOnly(scope, x, now, order);
    CompletionOnly(RefundPendingRecords(scope, x, now, order), RefundCompletion(scope, x, now, order, r, before),
                   AccessWrites(scope, x.order, Succeeded, now, access).value, own);
  }

  lemma ReserveOnly(scope: Scope, c: Checkout, key: string, now: nat, allocations: seq<Allocation>, before: seq<StockRec>)
    requires |allocations| == |before| && ReservePlan(scope, c, key, now, allocations, before).Ok?
    ensures Only(ReservePlan(scope, c, key, now, allocations, before).value, ReceiptKey(scope.Pk(), key))
  {
    StockHasNoReceipt(scope.Pk(), key, ChangesOf(scope.domain, c.reservation, ReserveMove, None, now, allocations, before).value);
  }

  lemma AdjustOnly(scope: Scope, stock: Id, location: Id, delta: int, revision: nat, key: string, now: nat, current: Option<StockRec>)
    requires AdjustPlan(scope, stock, location, delta, revision, key, now, current).Ok?
    ensures Only(AdjustPlan(scope, stock, location, delta, revision, key, now, current).value, ReceiptKey(scope.Pk(), key))
  {
    StockHasNoReceipt(scope.Pk(), key, [AdjustChange(scope, stock, location, delta, revision, now, current).value]);
  }

  ghost predicate OwnOnly(op: Op)
    requires PlanOf(op).Ok?
  {
    forall k :: k in PlanOf(op).value && k.ReceiptKey? ==>
      TicketOf(op).Some? && k == ReceiptKey(TicketOf(op).value.pk, TicketOf(op).value.key)
  }

  lemma StockReceiptOnly(op: Op)
    requires PlanOf(op).Ok? && (op.AdjustOp? || op.ReserveOp?)
    ensures OwnOnly(op)
  {
    if op.AdjustOp? { AdjustOnly(op.scope, op.stock, op.location, op.delta, op.expectedRevision, op.key, op.now, op.current); }
    else { ReserveOnly(op.scope, op.checkout, op.key, op.now, op.allocations, op.before); }
  }

  lemma EndReceiptOnly(op: Op)
    requires PlanOf(op).Ok? && (op.FinishOp? || op.AcknowledgeOp? || op.RefundPendingOp?)
    ensures OwnOnly(op)
  {
    if op.FinishOp? { FinishOnly(op.scope, op.finish, op.now, op.reservation, op.order, op.before, op.access); }
    else if op.AcknowledgeOp? { AcknowledgeOnly(op.scope, op.finish, op.now, op.reservation, op.order, op.access); }
    else { RefundOnly(op.scope, op.refund, op.now, op.order, op.reservation, op.before, op.access); }
  }

  lemma OneReceiptOnly(op: Op)
    requires PlanOf(op).Ok?
    requires !(op.AdjustOp? || op.ReserveOp? || op.FinishOp? || op.AcknowledgeOp? || op.RefundPendingOp?)
    ensures OwnOnly(op)
  {
  }

  lemma OwnReceiptOnly(op: Op)
    requires PlanOf(op).Ok?
    ensures OwnOnly(op)
  {
    if op.AdjustOp? || op.ReserveOp? { StockReceiptOnly(op); }
    else if op.FinishOp? || op.AcknowledgeOp? || op.RefundPendingOp? { EndReceiptOnly(op); }
    else { OneReceiptOnly(op); }
  }

  // ----- whole runs -----

  ghost predicate TrueAt(t: Tables, k: Key)
    requires k.ReceiptKey?
  {
    k in t && t[k].ReceiptItem? && IsSo(t, k.pk, k.idempotencyKey, t[k].receipt)
  }

  lemma OldStaysTrue(t: Tables, u: Tables, k: Key)
    requires k.ReceiptKey? && TrueAt(t, k) && Advances(t, u)
    ensures TrueAt(u, k)
  {
    TruthStays(t, u, k.pk, k.idempotencyKey, t[k].receipt);
    assert Stays(t[k], u[k]);
  }

  lemma NewIsOwn(w: World, op: Op, k: Key)
    requires k.ReceiptKey? && k in Exec(w, op).tables && k !in w.tables
    ensures Commits(w, op) && TicketOf(op).Some? && k == ReceiptKey(TicketOf(op).value.pk, TicketOf(op).value.key)
  {
    OwnReceiptOnly(op);
  }

  lemma NewIsTrue(w: World, op: Op, k: Key)
    requires WorldInv(w) && k.ReceiptKey? && k in Exec(w, op).tables && k !in w.tables
    ensures TrueAt(Exec(w, op).tables, k)
  {
    NewIsOwn(w, op, k);
    TicketIsTrue(w, op);
    ReceiptAppears(w, op);
  }

  lemma ExecIsTrue(w: World, op: Op, k: Key)
    requires WorldInv(w) && k.ReceiptKey? && k in Exec(w, op).tables && (k in w.tables ==> TrueAt(w.tables, k))
    ensures TrueAt(Exec(w, op).tables, k)
  {
    if k in w.tables {
      ExecKeeps(w, op);
      OldStaysTrue(w.tables, Exec(w, op).tables, k);
    } else {
      NewIsTrue(w, op, k);
    }
  }

  /**
   * In every reachable state every receipt tells the truth: a finish is on the reservation as recorded, a checkout's
   * reservation and order exist, a refund is recorded, a deferral has moved the reservation at least that far, and an
   * adjustment is in the movement log.
   */
  lemma {:induction false} ReceiptsAreTrue(ops: seq<Op>, k: Key)
    requires k.ReceiptKey? && k in Run(ops).tables
    ensures TrueAt(Run(ops).tables, k)
  {
    var init, op := ops[..|ops| - 1], ops[|ops| - 1];
    if k in Run(init).tables { ReceiptsAreTrue(init, k); }
    RunKeeps(init);
    ExecIsTrue(Run(init), op, k);
  }

  // ----- what an answer means -----

  /** The reservation has ended as the call asked, and the answer repeats it. */
  predicate EndedSo(t: Tables, scope: Scope, f: Finish, v: Outcome) {
    var rk := ReservationKey(scope.Pk(), f.reservation);
    && rk in t && t[rk].ReservationItem? && t[rk].reservation.status == f.status && t[rk].reservation.reason == Some(f.reason)
    && SaysEnd(v, f.reservation, t[rk].reservation)
    && var ok := OrderKey(scope.Pk(), t[rk].reservation.order);
    && ok in t && t[ok].OrderItem?
    && var o := t[ok].order;
    && o.status in (if f.status == Committed then {Paid, Refunded} else {PaymentNotCompleted})
    && v.completedAt.Some? && o.completedAt == v.completedAt && o.reason == Some(f.reason)
  }

  /** Whoever is told that a reservation was ended finds it and its order ended, for that reason, and will ever after. */
  lemma EndedAsTold(log: seq<Entry>, later: seq<Entry>, scope: Scope, f: Finish, v: Outcome)
    requires Recorded(FinishCall(scope, f), TablesAt(log), v) && log <= later
    ensures EndedSo(TablesAt(later), scope, f, v)
  {
    ReceiptStays(log, later, FinishCall(scope, f).Receipt());
    ReceiptsAreTrue(OpsOf(later), FinishCall(scope, f).Receipt());
    SoundAt(OpsOf(later), ReservationKey(scope.Pk(), f.reservation));
  }

  /** A reservation that is found ended as asked is one that anybody would be told of. */
  lemma EndedAlready(log: seq<Entry>, scope: Scope, f: Finish, r: ReservationRec)
    requires var rk := ReservationKey(scope.Pk(), f.reservation); rk in TablesAt(log) && TablesAt(log)[rk] == ReservationItem(r)
    requires r.status == f.status && r.reason == Some(f.reason) && r.status != Reserved
    ensures EndedSo(TablesAt(log), scope, f, TerminalResult(f.reservation, r))
  {
    SoundAt(OpsOf(log), ReservationKey(scope.Pk(), f.reservation));
  }

  /** A payment outcome has ended the reservation, order and attempt that it names: paid when it succeeded, and not otherwise. */
  predicate OutcomeSo(t: Tables, scope: Scope, e: PaymentEvent, v: Outcome) {
    var rk, ok := ReservationKey(scope.Pk(), e.reservation), OrderKey(scope.Pk(), e.order);
    && rk in t && t[rk].ReservationItem? && ok in t && t[ok].OrderItem?
    && var r, o := t[rk].reservation, t[ok].order;
    && r.order == e.order && r.attempt == e.attempt && SaysEnd(v, e.reservation, r)
    && match e.kind
       case Succeeded => r.status == Committed && r.reason == Some(CanonicalPaid) && o.status in {Paid, Refunded}
       case TerminalUnpaid => r.status == Released && r.reason == Some(CanonicalTerminalUnpaid) && o.status == PaymentNotCompleted
  }

  lemma OutcomeAsTold(log: seq<Entry>, later: seq<Entry>, scope: Scope, e: PaymentEvent, v: Outcome)
    requires Recorded(EventCall(scope, PaymentHash(e, scope)), TablesAt(log), v) && log <= later
    ensures OutcomeSo(TablesAt(later), scope, e, v)
  {
    var call := EventCall(scope, PaymentHash(e, scope));
    ReceiptStays(log, later, call.Receipt());
    ReceiptsAreTrue(OpsOf(later), call.Receipt());
    SoundAt(OpsOf(later), ReservationKey(scope.Pk(), e.reservation));
  }

  /** The checkout's reservation and order exist, with what it pins, and the answer tells their times. */
  ghost predicate OpenedSo(t: Tables, scope: Scope, c: Checkout, v: Outcome) {
    var rk, ok := ReservationKey(scope.Pk(), c.reservation), OrderKey(scope.Pk(), c.order.order);
    && rk in t && t[rk].ReservationItem? && ok in t && t[ok].OrderItem?
    && var r, o := t[rk].reservation, t[ok].order;
    && o.lines == c.order.lines && o.currency == c.order.currency && o.notify == c.notify && FromLines(r, o)
    && v.ReservedOutcome? && v.reservation == c.reservation && v.order == c.order.order && v.attempt == c.order.attempt
    && SaysTimes(v, r, o) && (v.proof.Some? <==> c.fiscal.Some?) && (c.fiscal.Some? ==> AccessKey(scope.Pk(), c.order.order) in t)
  }

  /** Whoever is told of a checkout finds its reservation and its order, opened at the recorded time. */
  lemma OpenedAsTold(log: seq<Entry>, later: seq<Entry>, scope: Scope, c: Checkout, key: string, v: Outcome)
    requires Recorded(CheckoutCall(scope, c, key), TablesAt(log), v) && log <= later
    ensures OpenedSo(TablesAt(later), scope, c, v)
  {
    ReceiptStays(log, later, CheckoutCall(scope, c, key).Receipt());
    ReceiptsAreTrue(OpsOf(later), CheckoutCall(scope, c, key).Receipt());
    HeldIsOrdered(OpsOf(later), scope.Pk(), c.reservation);
  }

  /** The order is refunded, by this refund, of at most what it costs and in its currency. */
  predicate RefundedSo(t: Tables, scope: Scope, x: Refund, v: Outcome) {
    var ok := OrderKey(scope.Pk(), x.order);
    && v == RefundOutcome(x.refund, x.order, x.amountMinor, x.currency, x.occurredAt)
    && ok in t && t[ok].OrderItem? && t[ok].order.status == Refunded && t[ok].order.refund == Some(x.refund)
    && 0 < x.amountMinor <= t[ok].order.amountMinor && x.currency == t[ok].order.currency
  }

  /** Whoever is told of a refund finds its order refunded by it, within its amount. */
  lemma RefundedAsTold(log: seq<Entry>, later: seq<Entry>, scope: Scope, x: Refund, v: Outcome)
    requires Recorded(EventCall(scope, RefundHash(x, scope)), TablesAt(log), v) && log <= later
    ensures RefundedSo(TablesAt(later), scope, x, v)
  {
    var call := EventCall(scope, RefundHash(x, scope));
    ReceiptStays(log, later, call.Receipt());
    ReceiptsAreTrue(OpsOf(later), call.Receipt());
    SoundAt(OpsOf(later), RefundKey(scope.Pk(), x.refund));
    SoundAt(OpsOf(later), OrderKey(scope.Pk(), x.order));
  }

  /** The stock came to the told counts by the told movement, and has kept them if nothing moved it since. */
  predicate AdjustedSo(t: Tables, scope: Scope, stock: Id, location: Id, delta: int, revision: nat, v: Outcome) {
    var sk := StockKey(scope.Pk(), location, stock);
    && v.StockOutcome? && v.stock == stock && v.location == location && v.revision == revision + 1
    && 0 <= v.reserved <= v.onHand && v.available == v.onHand - v.reserved
    && sk in t && t[sk].StockItem? && v.revision <= t[sk].stock.state.revision
    && (v.revision == t[sk].stock.state.revision ==> t[sk].stock.state == StockState(true, v.onHand, v.reserved, v.revision))
  }

  lemma AdjustedAsTold(log: seq<Entry>, later: seq<Entry>, scope: Scope, stock: Id, location: Id, delta: int, revision: nat, key: string, v: Outcome)
    requires Recorded(AdjustCall(scope, stock, location, delta, revision, key), TablesAt(log), v) && log <= later
    ensures AdjustedSo(TablesAt(later), scope, stock, location, delta, revision, v)
  {
    ReceiptStays(log, later, AdjustCall(scope, stock, location, delta, revision, key).Receipt());
    ReceiptsAreTrue(OpsOf(later), AdjustCall(scope, stock, location, delta, revision, key).Receipt());
  }
}
