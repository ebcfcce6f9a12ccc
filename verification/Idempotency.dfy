/** Receipts: every committed operation leaves one, nobody overwrites it, and so nothing commits twice. */
module Idempotency {
  import opened Basics
  import opened Inventory
  import opened Records
  import opened Plans
  import opened Ledger
  import opened Protocol
  import opened Operations
  import opened Runs

  /** The receipt an operation writes, and the idempotency key it writes it under. */
  datatype Ticket = Ticket(pk: Partition, key: string, receipt: ReceiptRec)

  function TicketFor(scope: Scope, key: string, request: Request, result: Outcome, now: nat): Option<Ticket> {
    Some(Ticket(scope.Pk(), key, ReceiptRec(scope.domain, request, result, now)))
  }

  /** Rotations, failed claims, fiscal request updates and subscription events write no receipt of this kind. */
  function TicketOf(op: Op): Option<Ticket> {
    match op
    case AdjustOp(scope, now, key, stock, location, delta, revision, current) =>
      (match AdjustChange(scope, stock, location, delta, revision, now, current)
       case Err(_) => None
       case Ok(c) => TicketFor(scope, key, AdjustRequest(stock, location, delta, revision), StockResult(c), now))
    case ReserveOp(scope, now, key, c, _, _) => TicketFor(scope, key, c.Request(), c.Result(now), now)
    case FinishOp(scope, now, f, r, _, _, _) =>
      TicketFor(scope, f.key, f.Request(scope), FinishResult(f.reservation, r, f.status, now, f.reason), now)
    case AcknowledgeOp(scope, now, f, r, _, _) =>
      TicketFor(scope, f.key, f.Request(scope), TerminalResult(f.reservation, r), now)
    case RefundPaidOp(scope, now, x, _) => TicketFor(scope, IntegrationKey(x.event), RefundRequest(x), RefundResult(x), now)
    case RefundPendingOp(scope, now, x, _, _, _, _) =>
      TicketFor(scope, IntegrationKey(x.event), RefundRequest(x), RefundResult(x), now)
    case DeferOp(scope, now, key, id, next, _) => TicketFor(scope, key, DeferRequest(id, next), DeferredOutcome(id, next), now)
    case CatalogOp(_, now, key, content, result) => TicketFor(op.scope, key, CatalogRequest(content), CatalogOutcome(result), now)
    case _ => None
  }

  /** The plan writes the ticket's receipt, on condition that there is none under its key. */
  predicate Tickets(ws: Writes, ticket: Ticket) {
    var k := ReceiptKey(ticket.pk, ticket.key);
    k in ws && ws[k] == Put(ReceiptItem(ticket.receipt), Absent)
  }

  predicate NoReceiptIn(ws: Writes) {
    forall k :: k in ws ==> !k.ReceiptKey?
  }

  lemma TicketFirst(ws: Writes, rest: Writes, ticket: Ticket)
    requires Tickets(ws, ticket) && NoReceiptIn(rest)
    ensures Tickets(ws + rest, ticket)
  {
  }

  lemma StockHasNoReceipt(pk: Partition, key: string, changes: seq<Change>)
    ensures NoReceiptIn(StockWrites(pk, key, changes))
  {
    forall k | k in StockWrites(pk, key, changes) ensures !k.ReceiptKey? {
      var i := StockWriteSource(pk, key, changes, k);
    }
  }

  lemma AdjustTickets(op: Op)
    requires op.AdjustOp? && PlanOf(op).Ok?
    ensures TicketOf(op).Some? && Tickets(PlanOf(op).value, TicketOf(op).value)
  {
    var c := AdjustChange(op.scope, op.stock, op.location, op.delta, op.expectedRevision, op.now, op.current).value;
    StockHasNoReceipt(op.scope.Pk(), op.key, [c]);
  }

  lemma ReserveTickets(op: Op)
    requires op.ReserveOp? && PlanOf(op).Ok?
    ensures Tickets(PlanOf(op).value, TicketOf(op).value)
  {
    var scope, c := op.scope, op.checkout;
    var changes := ChangesOf(scope.domain, c.reservation, ReserveMove, None, op.now, op.allocations, op.before).value;
    StockHasNoReceipt(scope.Pk(), op.key, changes);
    var receipt := ReceiptWrites(scope, op.key, c.Request(), c.Result(op.now), op.now);
    var records := StockWrites(scope.Pk(), op.key, changes) + CheckoutWrites(scope, c, op.allocations, op.now);
    TicketFirst(receipt, records, TicketOf(op).value);
    TicketFirst(receipt + records, NewAccessWrites(scope, c, op.now), TicketOf(op).value);
  }

  lemma CompletionTickets(records: Writes, c: Completion, claims: Writes, ticket: Ticket)
    requires Tickets(records, ticket) && InGroup(claims, Claims)
    ensures Tickets(records + (c.Stock() + c.Core()) + claims, ticket)
  {
    StockHasNoReceipt(c.scope.Pk(), c.key, c.changes);
    CoreGroup(c);
    TicketFirst(records, c.Stock() + c.Core(), ticket);
    TicketFirst(records + (c.Stock() + c.Core()), claims, ticket);
  }

  lemma FinishTickets(op: Op)
    requires op.FinishOp? && PlanOf(op).Ok?
    ensures Tickets(PlanOf(op).value, TicketOf(op).value)
  {
    var scope, f, now, r, order := op.scope, op.finish, op.now, op.reservation, op.order;
    FinishIsCompletion(scope, f, now, r, order, op.before, op.access);
    var c := FinishCompletion(scope, f, now, r, order, op.before);
    var claims := OptionalAccessWrites(scope, f.event, r.order, now, op.access).value;
    ClaimsGroup(c, claims, KindOf(f.event), op.access);
    var result := FinishResult(f.reservation, r, f.status, now, f.reason);
    NoReceipt(scope, f.event, r.order, order, result, now);
    TicketFirst(ReceiptWrites(scope, f.key, f.Request(scope), result, now),
                OptionalEventWrites(scope, f.event, r.order, order, result, now), TicketOf(op).value);
    CompletionTickets(FinishRecords(scope, f, now, r, order), c, claims, TicketOf(op).value);
  }

  lemma AcknowledgeTickets(op: Op)
    requires op.AcknowledgeOp? && PlanOf(op).Ok?
    ensures Tickets(PlanOf(op).value, TicketOf(op).value)
  {
    var scope, f, now, r, order := op.scope, op.finish, op.now, op.reservation, op.order;
    var result := TerminalResult(f.reservation, r);
    NoReceipt(scope, f.event, r.order, order, result, now);
    AccessGroup(scope, r.order, f.event.value.kind, now, op.access);
    var receipt := ReceiptWrites(scope, f.key, f.Request(scope), result, now);
    var events := OptionalEventWrites(scope, f.event, r.order, order, result, now);
    TicketFirst(receipt, events, TicketOf(op).value);
    TicketFirst(receipt + events, AccessWrites(scope, r.order, f.event.value.kind, now, op.access).value, TicketOf(op).value);
  }

  lemma RefundTickets(op: Op)
    requires (op.RefundPaidOp? || op.RefundPendingOp?) && PlanOf(op).Ok?
    ensures Tickets(PlanOf(op).value, TicketOf(op).value)
  {
    var scope, x, now, order := op.scope, op.refund, op.now, op.order;
    assert Tickets(RefundRecordWrites(scope, x, now), TicketOf(op).value);
    if op.RefundPaidOp? {
      TicketFirst(RefundRecordWrites(scope, x, now), RefundWrites(scope, x, order, now), TicketOf(op).value);
    } else {
      RefundIsCompletion(scope, x, now, order, op.reservation, op.before, op.access);
      var c := RefundCompletion(scope, x, now, order, op.reservation, op.before);
      var claims := AccessWrites(scope, x.order, Succeeded, now, op.access).value;
      AccessGroup(scope, x.order, Succeeded, now, op.access);
      TicketFirst(RefundRecordWrites(scope, x, now),
                  BindingCheck(scope, PaymentEvent(x.event, Succeeded, x.occurredAt, order.reservation, x.order, order.attempt)),
                  TicketOf(op).value);
      CompletionTickets(RefundPendingRecords(scope, x, now, order), c, claims, TicketOf(op).value);
    }
  }

  lemma DeferTickets(op: Op)
    requires op.DeferOp? && PlanOf(op).Ok?
    ensures Tickets(PlanOf(op).value, TicketOf(op).value)
  {
    var receipt := ReceiptWrites(op.scope, op.key, DeferRequest(op.id, op.next), DeferredOutcome(op.id, op.next), op.now);
    TicketFirst(receipt, DeferWrites(op.scope, op.id, op.reservation, op.next, op.now), TicketOf(op).value);
  }

  /** Every operation of the commerce store, and of the catalog beside it, commits together with its receipt. */
  lemma TicketInPlan(op: Op)
    requires PlanOf(op).Ok? && !(op.RotateOp? || op.AttemptOp? || op.RedeemOp? || op.FiscalOp? || op.SubscriptionOp?)
    ensures TicketOf(op).Some? && Tickets(PlanOf(op).value, TicketOf(op).value)
  {
    if op.AdjustOp? { AdjustTickets(op); }
    else if op.ReserveOp? { ReserveTickets(op); }
    else if op.FinishOp? { FinishTickets(op); }
    else if op.AcknowledgeOp? { AcknowledgeTickets(op); }
    else if op.DeferOp? { DeferTickets(op); }
    else if op.CatalogOp? { }
    else { RefundTickets(op); }
  }

  /** The receipt appears exactly with the commit. */
  lemma ReceiptAppears(w: World, op: Op)
    requires Commits(w, op) && TicketOf(op).Some?
    ensures var k := ReceiptKey(TicketOf(op).value.pk, TicketOf(op).value.key);
      && k !in w.tables && k in Exec(w, op).tables && Exec(w, op).tables[k] == ReceiptItem(TicketOf(op).value.receipt)
  {
    TicketInPlan(op);
    var ws, k := PlanOf(op).value, ReceiptKey(TicketOf(op).value.pk, TicketOf(op).value.key);
    assert Satisfied(ws[k].condition, Lookup(w.tables, k));
  }

  /** Receipts, inbox records, refunds and movements are written once and then stay as they are. */
  lemma WrittenOnce(ops: seq<Op>, more: seq<Op>, k: Key)
    requires k in Run(ops).tables
    requires k.ReceiptKey? || k.InboxKey? || k.MovementKey? || k.RefundKey? || k.BindingKey? || k.FiscalReceiptKey?
    ensures k in Run(ops + more).tables && Run(ops + more).tables[k] == Run(ops).tables[k]
  {
    SoundAt(ops, k);
    RunAdvances(ops, more);
    assert Stays(Run(ops).tables[k], Run(ops + more).tables[k]);
  }

  /** Two operations of a run that both commit under one idempotency key are the same one. */
  lemma ExactlyOnce(ops: seq<Op>, i: nat, j: nat)
    requires i < |ops| && j < |ops|
    requires Commits(Run(ops[..i]), ops[i]) && Commits(Run(ops[..j]), ops[j])
    requires TicketOf(ops[i]).Some? && TicketOf(ops[j]).Some?
    requires TicketOf(ops[i]).value.pk == TicketOf(ops[j]).value.pk && TicketOf(ops[i]).value.key == TicketOf(ops[j]).value.key
    ensures i == j
  {
    if i < j {
      NotAgain(ops, i, j);
    } else if j < i {
      NotAgain(ops, j, i);
    }
  }

  /** A committed operation's receipt is there ever after. */
  lemma ReceiptRemains(ops: seq<Op>, op: Op, more: seq<Op>)
    requires Commits(Run(ops), op) && TicketOf(op).Some?
    ensures ReceiptKey(TicketOf(op).value.pk, TicketOf(op).value.key) in Run(ops + [op] + more).tables
  {
    ReceiptAppears(Run(ops), op);
    RunStep(ops, op);
    WrittenOnce(ops + [op], more, ReceiptKey(TicketOf(op).value.pk, TicketOf(op).value.key));
  }

  /** Once an operation has committed, no later one commits under its key. */
  lemma NotAgain(ops: seq<Op>, i: nat, j: nat)
    requires i < j < |ops| && Commits(Run(ops[..i]), ops[i]) && TicketOf(ops[i]).Some? && TicketOf(ops[j]).Some?
    requires TicketOf(ops[i]).value.pk == TicketOf(ops[j]).value.pk && TicketOf(ops[i]).value.key == TicketOf(ops[j]).value.key
    ensures !Commits(Run(ops[..j]), ops[j])
  {
    ReceiptRemains(ops[..i], ops[i], ops[i + 1..j]);
    assert ops[..i] + [ops[i]] + ops[i + 1..j] == ops[..j];
    if Commits(Run(ops[..j]), ops[j]) {
      ReceiptAppears(Run(ops[..j]), ops[j]);
    }
  }

  /** The order a refund operation refunds. */
  function RefundedBy(op: Op): Option<(Partition, Id)> {
    match op
    case RefundPaidOp(scope, _, x, _) => Some((scope.Pk(), x.order))
    case RefundPendingOp(scope, _, x, _, _, _, _) => Some((scope.Pk(), x.order))
    case _ => None
  }

  predicate WritesRefund(ws: Writes, k: Key) {
    && k in ws && ws[k].Put? && ws[k].item.OrderItem? && ws[k].item.order.status == Refunded
    && (ws[k].condition.PaidOrderIs? || ws[k].condition.PendingOrderIs?)
  }

  lemma RefundInPlan(op: Op)
    requires PlanOf(op).Ok? && RefundedBy(op).Some?
    ensures WritesRefund(PlanOf(op).value, OrderKey(RefundedBy(op).value.0, RefundedBy(op).value.1))
  {
    var scope, x, now, order := op.scope, op.refund, op.now, op.order;
    if op.RefundPendingOp? {
      RefundIsCompletion(scope, x, now, order, op.reservation, op.before, op.access);
      var c := RefundCompletion(scope, x, now, order, op.reservation, op.before);
      var claims := AccessWrites(scope, x.order, Succeeded, now, op.access).value;
      AccessGroup(scope, x.order, Succeeded, now, op.access);
      assert WritesRefund(c.Core(), OrderKey(scope.Pk(), x.order));
    }
  }

  /** A refund finds its order paid or pending, and leaves it refunded. */
  lemma RefundMovesOrder(w: World, op: Op)
    requires Commits(w, op) && RefundedBy(op).Some?
    ensures var k := OrderKey(RefundedBy(op).value.0, RefundedBy(op).value.1);
      && k in w.tables && w.tables[k].OrderItem? && w.tables[k].order.status != Refunded
      && k in Exec(w, op).tables && Exec(w, op).tables[k].OrderItem? && Exec(w, op).tables[k].order.status == Refunded
  {
    var k := OrderKey(RefundedBy(op).value.0, RefundedBy(op).value.1);
    RefundInPlan(op);
    assert Satisfied(PlanOf(op).value[k].condition, Lookup(w.tables, k));
  }

  lemma RefundedStays(ops: seq<Op>, more: seq<Op>, k: Key)
    requires k.OrderKey? && k in Run(ops).tables && Run(ops).tables[k].OrderItem? && Run(ops).tables[k].order.status == Refunded
    ensures var u := Run(ops + more).tables; k in u && u[k].OrderItem? && u[k].order.status == Refunded
  {
    RunAdvances(ops, more);
    assert Stays(Run(ops).tables[k], Run(ops + more).tables[k]);
  }

  lemma RefundedAlready(ops: seq<Op>, op: Op, more: seq<Op>)
    requires Commits(Run(ops), op) && RefundedBy(op).Some?
    ensures var k, u := OrderKey(RefundedBy(op).value.0, RefundedBy(op).value.1), Run(ops + [op] + more).tables;
      k in u && u[k].OrderItem? && u[k].order.status == Refunded
  {
    RefundMovesOrder(Run(ops), op);
    RunStep(ops, op);
    RefundedStays(ops + [op], more, OrderKey(RefundedBy(op).value.0, RefundedBy(op).value.1));
  }

  /** No order is refunded twice, under whatever event or refund ids. */
  lemma RefundedOnce(ops: seq<Op>, i: nat, j: nat)
    requires i < j < |ops| && Commits(Run(ops[..i]), ops[i])
    requires RefundedBy(ops[i]).Some? && RefundedBy(ops[i]) == RefundedBy(ops[j])
    ensures !Commits(Run(ops[..j]), ops[j])
  {
    RefundedAlready(ops[..i], ops[i], ops[i + 1..j]);
    assert ops[..i] + [ops[i]] + ops[i + 1..j] == ops[..j];
    if Commits(Run(ops[..j]), ops[j]) { RefundMovesOrder(Run(ops[..j]), ops[j]); }
  }
}
