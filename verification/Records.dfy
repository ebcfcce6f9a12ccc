/**
 * The records of the three tables, their keys, and conditional transactions over them.
 * A digest is modelled by the value it is the digest of, so it is injective by construction.
 */
module Records {
  import opened Basics
  import opened Inventory

  datatype Environment = Test | Production

  datatype Partition = Partition(environment: Environment, tenant: Id, draft: Id)

  /** The partition key leaves `domain` out; the stored records carry it and readers compare it. */
  datatype Scope = Scope(environment: Environment, tenant: Id, draft: Id, domain: string)
  {
    function Pk(): Partition {
      Partition(environment, tenant, draft)
    }
  }

  datatype Reason =
    | CanonicalPaid
    | CanonicalNotCreated
    | CanonicalTerminalUnpaid
    | ConfirmedNotCreated
    | ConfirmedExpiryPreconditionNotCreated

  datatype ReservationStatus = Reserved | Committed | Released
  datatype OrderStatus = PendingCheckout | Paid | PaymentNotCompleted | Refunded
  datatype AccessState = PendingPayment | Eligible | Ineligible | Consumed
  datatype RequestStatus = Requested | NeedsCorrection | Ready | Delivered | Canceled
  datatype PaymentKind = Succeeded | TerminalUnpaid

  /** A server-resolved checkout line; an untracked line has no stock. */
  datatype Line = Line(line: Id, offer: Id, quantity: int, amountMinor: int, stock: Option<Id>)

  datatype PendingOrder = PendingOrder(order: Id, attempt: Id, lines: seq<Line>, currency: string)

  /** A pinned notification target, and which of the two payment notifications it enables. */
  datatype NotificationTarget = NotificationTarget(policy: string, onSuccess: bool, onFailure: bool)

  datatype Allocation = Allocation(stock: Id, location: Id, quantity: int, lines: seq<Id>)

  datatype PaymentEvent =
    PaymentEvent(event: Id, kind: PaymentKind, occurredAt: nat, reservation: Id, order: Id, attempt: Id)

  datatype Refund =
    Refund(event: Id, order: Id, refund: Id, amountMinor: int, currency: string, occurredAt: nat)

  /** What the request hash of a receipt is taken over. */
  datatype Request =
    | AdjustRequest(stock: Id, location: Id, delta: int, expectedRevision: nat)
    | ReserveRequest(reservation: Id, order: PendingOrder, location: Id,
                     notify: Option<NotificationTarget>, fiscal: bool)
    | FinishRequest(status: ReservationStatus, reservation: Id, reason: Reason, event: Option<EventHash>)
    | DeferRequest(reservation: Id, next: nat)
    | RefundRequest(refund: Refund)
    /** A catalog mutation, which keeps its receipts in the same table. */
    | CatalogRequest(content: string)

  datatype EventHash =
    | PaymentHash(payment: PaymentEvent, scope: Scope)
    | RefundHash(refund: Refund, scope: Scope)

  /** What a call returns, and what its receipt records. */
  datatype Outcome =
    | StockOutcome(location: Id, stock: Id, onHand: int, reserved: int, available: int, revision: int)
    | ReservedOutcome(reservation: Id, order: Id, attempt: Id, timing: Timing, proof: Option<string>)
    | FinishedOutcome(reservation: Id, order: Id, attempt: Id, status: ReservationStatus, createdAt: nat,
                      checkoutExpiresAt: nat, reconcileAfter: nat, completedAt: Option<nat>, reason: Option<Reason>)
    | DeferredOutcome(reservation: Id, reconcileAfter: nat)
    | RefundOutcome(refund: Id, order: Id, amountMinor: int, currency: string, confirmedAt: nat)
    | CatalogOutcome(content: string)

  datatype OutboxId = OutboxId(scope: Scope, event: Id, kind: PaymentKind, target: NotificationTarget,
                               order: Id, amountMinor: int, currency: string)

  datatype FiscalId = FiscalId(order: Id, idempotencyKey: string)

  datatype Key =
    | StockKey(pk: Partition, location: Id, stock: Id)
    | MovementKey(pk: Partition, stock: Id, receipt: string, kind: MovementKind, location: Id)
    | ReservationKey(pk: Partition, reservation: Id)
    | DueKey(pk: Partition, reconcileAfter: nat, reservation: Id)
    | OrderKey(pk: Partition, order: Id)
    | BindingKey(pk: Partition, attempt: Id)
    | AccessKey(pk: Partition, order: Id)
    | RefundKey(pk: Partition, refund: Id)
    | InboxKey(pk: Partition, event: Id)
    | OutboxKey(pk: Partition, message: OutboxId)
    | ReceiptKey(pk: Partition, idempotencyKey: string)
    | FiscalRequestKey(pk: Partition, request: FiscalId)
    | FiscalReceiptKey(pk: Partition, idempotencyKey: string)

  datatype StockRec = StockRec(domain: string, state: StockState, available: int)

  datatype MovementRec =
    MovementRec(domain: string, kind: MovementKind, location: Id, stock: Id, quantity: int, deltas: Deltas,
                occurredAt: nat, reservation: Option<Id>, lines: seq<Id>, reason: Option<Reason>)

  /** `dueEpoch` stands for the stored due key, which is the rendering of (dueEpoch, reservation id). */
  datatype ReservationRec =
    ReservationRec(domain: string, order: Id, attempt: Id, status: ReservationStatus, revision: int,
                   allocations: seq<Allocation>, allocationHash: seq<Allocation>, createdAt: nat,
                   checkoutExpiresAt: nat, reconcileAfter: nat, initialReconcileAfter: nat, dueEpoch: nat,
                   completedAt: Option<nat>, reason: Option<Reason>, lastReconciledAt: Option<nat>)

  datatype DueRec =
    DueRec(scope: Scope, reservation: Id, order: Id, attempt: Id, reconcileAfter: nat)

  datatype OrderRec =
    OrderRec(domain: string, reservation: Id, attempt: Id, status: OrderStatus, revision: int, lines: seq<Line>,
             amountMinor: int, currency: string, createdAt: nat, checkoutExpiresAt: nat,
             notify: Option<NotificationTarget>, completedAt: Option<nat>, reason: Option<Reason>,
             refund: Option<Id>, refundedAt: Option<nat>)

  datatype BindingRec = BindingRec(domain: string, order: Id, reservation: Id, request: Request, createdAt: nat)

  datatype AccessRec =
    AccessRec(domain: string, proof: string, state: AccessState, attempts: int, revision: int, window: nat,
              createdAt: nat, expiresAt: nat, eligibleAt: Option<nat>, request: Option<FiscalId>)

  datatype RefundRec = RefundRec(domain: string, result: Outcome)

  datatype InboxRec =
    InboxRec(domain: string, hash: EventHash, processedAt: nat, result: Outcome)

  /** The inbox record of a subscription event, which shares its keys with payment and refund events. */
  datatype SubscriptionRec = SubscriptionRec(domain: string, content: string, processedAt: nat)

  datatype OutboxRec = OutboxRec(domain: string, createdAt: nat)

  datatype ReceiptRec = ReceiptRec(domain: string, request: Request, result: Outcome, createdAt: nat)

  datatype FiscalRequestRec =
    FiscalRequestRec(domain: string, order: Id, status: RequestStatus, revision: int, details: string,
                     createdAt: nat, updatedAt: nat)

  /** The fiscal request hash covers the order, the proof and the parsed details. */
  datatype FiscalReceiptRec =
    FiscalReceiptRec(domain: string, order: Id, proof: string, details: string, request: FiscalId, createdAt: nat)

  datatype Item =
    | StockItem(stock: StockRec)
    | MovementItem(movement: MovementRec)
    | ReservationItem(reservation: ReservationRec)
    | DueItem(due: DueRec)
    | OrderItem(order: OrderRec)
    | BindingItem(binding: BindingRec)
    | AccessItem(access: AccessRec)
    | RefundItem(refund: RefundRec)
    | InboxItem(inbox: InboxRec)
    | SubscriptionItem(subscription: SubscriptionRec)
    | OutboxItem(outbox: OutboxRec)
    | ReceiptItem(receipt: ReceiptRec)
    | FiscalRequestItem(fiscal: FiscalRequestRec)
    | FiscalReceiptItem(fiscalReceipt: FiscalReceiptRec)

  type Tables = map<Key, Item>

  function Lookup(t: Tables, k: Key): Option<Item> {
    if k in t then Some(t[k]) else None
  }

  /** Equality conditions on the fields that the source names in each conditional write. */
  datatype Condition =
    | Absent
    | StockIs(onHand: int, reserved: int, available: int, revision: int)
    | ReservedIs(revision: int, allocationHash: seq<Allocation>)
    | ReservedDueIs(revision: int, dueEpoch: nat)
    | MarkerOf(reservation: Id)
    | PendingOrderIs(reservation: Id, attempt: Id, revision: int)
    | PaidOrderIs(currency: string, amountMinor: int, revision: int)
    | BindingIs(domain: string, reservation: Id, order: Id)
    | AccessIs(state: AccessState, proof: string, revision: int, expiresAt: nat)
    | EligibleIs(proof: string, attempts: int, revision: int, expiresAt: nat)
    | RequestIs(status: RequestStatus, revision: int)

  predicate Satisfied(c: Condition, item: Option<Item>) {
    match c
    case Absent => item.None?
    case StockIs(h, r, a, v) =>
      && item.Some? && item.value.StockItem?
      && var s := item.value.stock;
         s.state.tracked && s.state.onHand == h && s.state.reserved == r && s.available == a && s.state.revision == v
    case ReservedIs(v, hash) =>
      && item.Some? && item.value.ReservationItem?
      && var r := item.value.reservation;
         r.status == Reserved && r.revision == v && r.allocationHash == hash
    case ReservedDueIs(v, epoch) =>
      && item.Some? && item.value.ReservationItem?
      && var r := item.value.reservation;
         r.status == Reserved && r.revision == v && r.dueEpoch == epoch
    case MarkerOf(rid) => item.Some? && item.value.DueItem? && item.value.due.reservation == rid
    case PendingOrderIs(rid, attempt, v) =>
      && item.Some? && item.value.OrderItem?
      && var o := item.value.order;
         o.status == PendingCheckout && o.reservation == rid && o.attempt == attempt && o.revision == v
    case PaidOrderIs(currency, amount, v) =>
      && item.Some? && item.value.OrderItem?
      && var o := item.value.order;
         o.status == Paid && o.currency == currency && o.amountMinor == amount && o.revision == v
    case BindingIs(domain, rid, oid) =>
      && item.Some? && item.value.BindingItem?
      && var b := item.value.binding;
         b.domain == domain && b.reservation == rid && b.order == oid
    case AccessIs(state, proof, v, e) =>
      && item.Some? && item.value.AccessItem?
      && var a := item.value.access;
         a.state == state && a.proof == proof && a.revision == v && a.expiresAt == e
    case EligibleIs(proof, attempts, v, e) =>
      && item.Some? && item.value.AccessItem?
      && var a := item.value.access;
         a.state == Eligible && a.proof == proof && a.attempts == attempts && a.revision == v && a.expiresAt == e
    case RequestIs(status, v) =>
      && item.Some? && item.value.FiscalRequestItem?
      && item.value.fiscal.status == status && item.value.fiscal.revision == v
  }

  datatype Write =
    | Put(item: Item, condition: Condition)
    | Delete(condition: Condition)
    | Check(condition: Condition)

  /** A transaction: one action per record, all conditions judged on the same state. */
  type Writes = map<Key, Write>

  predicate Holds(t: Tables, ws: Writes) {
    forall k :: k in ws ==> Satisfied(ws[k].condition, Lookup(t, k))
  }

  function Apply(t: Tables, ws: Writes): Tables {
    map k | k in t.Keys + ws.Keys && (if k in ws then ws[k].Put? || (ws[k].Check? && k in t) else true) ::
      if k in ws && ws[k].Put? then ws[k].item else t[k]
  }

  /** One transaction is the same as its parts one after the other, when the parts share no record. */
  lemma ApplyInParts(t: Tables, first: Writes, second: Writes)
    requires first.Keys !! second.Keys
    ensures Apply(t, first + second) == Apply(Apply(t, first), second)
    ensures Holds(t, first + second) ==> Holds(t, first) && Holds(Apply(t, first), second)
  {
    var whole, parts := Apply(t, first + second), Apply(Apply(t, first), second);
    assert forall k :: k in whole <==> k in parts;
    if Holds(t, first + second) {
      forall k | k in first ensures Satisfied(first[k].condition, Lookup(t, k)) {
        assert (first + second)[k] == first[k];
      }
      forall k | k in second ensures Satisfied(second[k].condition, Lookup(Apply(t, first), k)) {
        assert (first + second)[k] == second[k];
        assert Lookup(Apply(t, first), k) == Lookup(t, k);
      }
    }
  }
}
