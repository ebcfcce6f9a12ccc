/** Where a stored record comes from: the committed operation that wrote it, and whose time it notes. */
module Provenance {
  import opened Basics
  import opened Inventory
  import opened Records
  import opened Plans
  import opened Operations
  import opened Runs

  /** The record notes `now` as the time of what was done to it last. */
  predicate Stamped(item: Item, now: nat) {
    match item
    case MovementItem(m) => m.occurredAt == now
    case ReservationItem(r) =>
      if r.status != Reserved then r.completedAt == Some(now)
      else if r.lastReconciledAt.Some? then r.lastReconciledAt == Some(now)
      else r.createdAt == now
    case OrderItem(o) =>
      (match o.status
       case PendingCheckout => o.createdAt == now
       case Refunded => o.refundedAt == Some(now)
       case _ => o.completedAt == Some(now))
    case BindingItem(b) => b.createdAt == now
    case InboxItem(i) => i.processedAt == now
    case SubscriptionItem(x) => x.processedAt == now
    case OutboxItem(x) => x.createdAt == now
    case ReceiptItem(x) => x.createdAt == now
    case FiscalRequestItem(x) => x.updatedAt == now
    case FiscalReceiptItem(x) => x.createdAt == now
    case _ => true
  }

  ghost predicate AllStamped(ws: Writes, now: nat) {
    forall k :: k in ws && ws[k].Put? ==> Stamped(ws[k].item, now)
  }

  lemma StampedUnion(a: Writes, b: Writes, now: nat)
    requires AllStamped(a, now) && AllStamped(b, now)
    ensures AllStamped(a + b, now)
  {
  }

  ghost predicate ChangesStamped(changes: seq<Change>, now: nat) {
    forall i :: 0 <= i < |changes| ==> changes[i].movement.occurredAt == now
  }

  lemma {:induction false} StockStamped(pk: Partition, key: string, changes: seq<Change>, now: nat)
    requires ChangesStamped(changes, now)
    ensures AllStamped(StockWrites(pk, key, changes), now)
  {
    if changes != [] {
      StockStamped(pk, key, changes[..|changes| - 1], now);
    }
  }

  lemma {:induction false} ChangesAreStamped(domain: string, rid: Id, kind: MovementKind, reason: Option<Reason>, now: nat,
                                             allocations: seq<Allocation>, before: seq<StockRec>)
    requires |allocations| == |before| && ChangesOf(domain, rid, kind, reason, now, allocations, before).Ok?
    ensures ChangesStamped(ChangesOf(domain, rid, kind, reason, now, allocations, before).value, now)
  {
    if allocations != [] {
      var n := |allocations| - 1;
      ChangesAreStamped(domain, rid, kind, reason, now, allocations[..n], before[..n]);
    }
  }

  lemma CompletionStamped(records: Writes, c: Completion, claims: Writes)
    requires |c.before| == |c.r.allocations| && c.status != Reserved
    requires ChangesOf(c.scope.domain, c.rid, MoveFor(c.status), Some(c.reason), c.now, c.r.allocations, c.before) == Ok(c.changes)
    requires AllStamped(records, c.now) && InGroup(claims, Claims) && AllStamped(claims, c.now) && Stamped(OrderItem(c.done), c.now)
    ensures AllStamped(records + (c.Stock() + c.Core()) + claims, c.now)
  {
    ChangesAreStamped(c.scope.domain, c.rid, MoveFor(c.status), Some(c.reason), c.now, c.r.allocations, c.before);
    StockStamped(c.scope.Pk(), c.key, c.changes, c.now);
    CoreStamped(c);
    StampedUnion(c.Stock(), c.Core(), c.now);
    StampedUnion(records, c.Stock() + c.Core(), c.now);
    StampedUnion(records + (c.Stock() + c.Core()), claims, c.now);
  }

  lemma CoreStamped(c: Completion)
    requires c.status != Reserved && Stamped(OrderItem(c.done), c.now)
    ensures AllStamped(c.Core(), c.now)
  {
  }

  lemma EventStamped(scope: Scope, event: Option<PaymentEvent>, oid: Id, order: OrderRec, result: Outcome, now: nat)
    ensures AllStamped(OptionalEventWrites(scope, event, oid, order, result, now), now)
  {
  }

  lemma ReceiptStamped(scope: Scope, key: string, request: Request, result: Outcome, now: nat)
    ensures AllStamped(ReceiptWrites(scope, key, request, result, now), now)
  {
  }

  lemma AccessStamped(scope: Scope, oid: Id, kind: PaymentKind, now: nat, access: Option<AccessRec>)
    requires AccessWrites(scope, oid, kind, now, access).Ok?
    ensures AllStamped(AccessWrites(scope, oid, kind, now, access).value, now)
  {
  }

  lemma FinishRecordsStamped(scope: Scope, f: Finish, now: nat, r: ReservationRec, order: OrderRec)
    ensures AllStamped(FinishRecords(scope, f, now, r, order), now)
  {
    var result := FinishResult(f.reservation, r, f.status, now, f.reason);
    ReceiptStamped(scope, f.key, f.Request(scope), result, now);
    EventStamped(scope, f.event, r.order, order, result, now);
    StampedUnion(ReceiptWrites(scope, f.key, f.Request(scope), result, now), OptionalEventWrites(scope, f.event, r.order, order, result, now), now);
  }

  lemma FinishStamped(op: Op)
    requires op.FinishOp? && PlanOf(op).Ok?
    ensures AllStamped(PlanOf(op).value, op.now)
  {
    var scope, f, now, r := op.scope, op.finish, op.now, op.reservation;
    FinishIsCompletion(scope, f, now, r, op.order, op.before, op.access);
    var c := FinishCompletion(scope, f, now, r, op.order, op.before);
    var claims := OptionalAccessWrites(scope, f.event, r.order, now, op.access).value;
    FinishRecordsStamped(scope, f, now, r, op.order);
    ClaimsGroup(c, claims, KindOf(f.event), op.access);
    if f.event.Some? { AccessStamped(scope, r.order, f.event.value.kind, now, op.access); }
    CompletionStamped(FinishRecords(scope, f, now, r, op.order), c, claims);
  }

  lemma RefundStamped(op: Op)
    requires op.RefundPendingOp? && PlanOf(op).Ok?
    ensures AllStamped(PlanOf(op).value, op.now)
  {
    var scope, x, now := op.scope, op.refund, op.now;
    RefundIsCompletion(scope, x, now, op.order, op.reservation, op.before, op.access);
    var c := RefundCompletion(scope, x, now, op.order, op.reservation, op.before);
    var claims := AccessWrites(scope, x.order, Succeeded, now, op.access).value;
    AccessGroup(scope, x.order, Succeeded, now, op.access);
    AccessStamped(scope, x.order, Succeeded, now, op.access);
    RefundRecordsStamped(scope, x, now, op.order);
    CompletionStamped(RefundPendingRecords(scope, x, now, op.order), c, claims);
  }

  lemma RefundRecordsStamped(scope: Scope, x: Refund, now: nat, order: OrderRec)
    ensures AllStamped(RefundPendingRecords(scope, x, now, order), now)
  {
  }

  lemma AcknowledgeStamped(op: Op)
    requires op.AcknowledgeOp? && PlanOf(op).Ok?
    ensures AllStamped(PlanOf(op).value, op.now)
  {
    var scope, f, now, r := op.scope, op.finish, op.now, op.reservation;
    var result := TerminalResult(f.reservation, r);
    var receipt := ReceiptWrites(scope, f.key, f.Request(scope), result, now);
    var events := EventWrites(scope, f.event.value, r.order, op.order, result, now);
    ReceiptStamped(scope, f.key, f.Request(scope), result, now);
    EventStamped(scope, f.event, r.order, op.order, result, now);
    StampedUnion(receipt, events, now);
    AccessStamped(scope, r.order, f.event.value.kind, now, op.access);
    StampedUnion(receipt + events, AccessWrites(scope, r.order, f.event.value.kind, now, op.access).value, now);
  }

  lemma AdjustStamped(op: Op)
    requires op.AdjustOp? && PlanOf(op).Ok?
    ensures AllStamped(PlanOf(op).value, op.now)
  {
    var c := AdjustChange(op.scope, op.stock, op.location, op.delta, op.expectedRevision, op.now, op.current).value;
    var request := AdjustRequest(op.stock, op.location, op.delta, op.expectedRevision);
    StockStamped(op.scope.Pk(), op.key, [c], op.now);
    ReceiptStamped(op.scope, op.key, request, StockResult(c), op.now);
    StampedUnion(ReceiptWrites(op.scope, op.key, request, StockResult(c), op.now), StockWrites(op.scope.Pk(), op.key, [c]), op.now);
  }

  lemma ReserveStamped(op: Op)
    requires op.ReserveOp? && PlanOf(op).Ok?
    ensures AllStamped(PlanOf(op).value, op.now)
  {
    var scope, c, now := op.scope, op.checkout, op.now;
    var changes := ChangesOf(scope.domain, c.reservation, ReserveMove, None, now, op.allocations, op.before).value;
    var receipt, stock := ReceiptWrites(scope, op.key, c.Request(), c.Result(now), now), StockWrites(scope.Pk(), op.key, changes);
    ChangesAreStamped(scope.domain, c.reservation, ReserveMove, None, now, op.allocations, op.before);
    StockStamped(scope.Pk(), op.key, changes, now);
    ReceiptStamped(scope, op.key, c.Request(), c.Result(now), now);
    CheckoutStamped(scope, c, op.allocations, now);
    StampedUnion(stock, CheckoutWrites(scope, c, op.allocations, now), now);
    StampedUnion(receipt, stock + CheckoutWrites(scope, c, op.allocations, now), now);
    StampedUnion(receipt + (stock + CheckoutWrites(scope, c, op.allocations, now)), NewAccessWrites(scope, c, now), now);
  }

  lemma CheckoutStamped(scope: Scope, c: Checkout, allocations: seq<Allocation>, now: nat)
    ensures AllStamped(CheckoutWrites(scope, c, allocations, now), now) && AllStamped(NewAccessWrites(scope, c, now), now)
  {
  }

  lemma OtherStamped(op: Op)
    requires !(op.AdjustOp? || op.ReserveOp? || op.FinishOp? || op.AcknowledgeOp? || op.RefundPendingOp?) && PlanOf(op).Ok?
    ensures AllStamped(PlanOf(op).value, op.now)
  {
  }

  lemma PlanStamped(op: Op)
    requires PlanOf(op).Ok?
    ensures AllStamped(PlanOf(op).value, op.now)
  {
    if op.FinishOp? { FinishStamped(op); }
    else if op.RefundPendingOp? { RefundStamped(op); }
    else if op.AcknowledgeOp? { AcknowledgeStamped(op); }
    else if op.AdjustOp? { AdjustStamped(op); }
    else if op.ReserveOp? { ReserveStamped(op); }
    else { OtherStamped(op); }
  }

  /** Operation `i` of the run was committed and wrote the record as it is stored. */
  ghost predicate WroteIt(ops: seq<Op>, i: nat, k: Key, item: Item) {
    && i < |ops| && Commits(Run(ops[..i]), ops[i])
    && k in PlanOf(ops[i]).value && PlanOf(ops[i]).value[k].Put? && PlanOf(ops[i]).value[k].item == item
  }

  /**
   * Whatever is stored was written by a committed operation, and notes that operation's time as the time at which it was
   * made, ended, refunded, deferred, updated or recorded.
   */
  lemma {:induction false} LastWritten(ops: seq<Op>, k: Key) returns (i: nat)
    requires k in Run(ops).tables
    ensures WroteIt(ops, i, k, Run(ops).tables[k]) && Stamped(Run(ops).tables[k], ops[i].now)
  {
    var init, op := ops[..|ops| - 1], ops[|ops| - 1];
    if Commits(Run(init), op) && k in PlanOf(op).value && PlanOf(op).value[k].Put? {
      PlanStamped(op);
      i := |init|;
    } else {
      i := LastWritten(init, k);
      assert init[..i] == ops[..i];
    }
  }
}
