/**
 * The joint invariant of the stock, reservation, order, fiscal and idempotency records,
 * and how any one of them may change from one state to a later one.
 */
module Protocol {
  import opened Basics
  import opened Records
  import opened Plans
  import opened Ledger

  // ----- the records, one kind at a time -----

  predicate StockSound(s: StockRec) {
    s.state.Valid() && s.state.tracked && s.available == s.state.Available()
  }

  /** Which order statuses go with which reservation status. */
  predicate StatusesAgree(r: ReservationStatus, o: OrderStatus) {
    match r
    case Reserved => o == PendingCheckout
    case Committed => o == Paid || o == Refunded
    case Released => o == PaymentNotCompleted
  }

  /** The checkout expires thirty-five minutes after its creation and is looked at five minutes later; an end is noted alike. */
  predicate TimesFit(r: ReservationRec, o: OrderRec) {
    && o.createdAt == r.createdAt && o.checkoutExpiresAt == r.checkoutExpiresAt == r.createdAt + CHECKOUT_EXPIRY_SECONDS
    && r.initialReconcileAfter == r.checkoutExpiresAt + RECONCILIATION_GRACE_SECONDS
    && (r.status != Reserved ==> o.completedAt == r.completedAt && o.reason == r.reason)
  }

  predicate AllocationsStocked(t: Tables, pk: Partition, r: ReservationRec) {
    forall i :: 0 <= i < |r.allocations| ==>
      && var k := StockKey(pk, r.allocations[i].location, r.allocations[i].stock);
         k in t && t[k].StockItem? && t[k].stock.domain == r.domain
  }

  predicate ReservationSound(t: Tables, pk: Partition, rid: Id, r: ReservationRec) {
    && ReservationReadable(r, r.domain) && |r.allocations| <= MAX_CHECKOUT_LINES
    && var ok, bk := OrderKey(pk, r.order), BindingKey(pk, r.attempt);
    && ok in t && t[ok].OrderItem?
    && t[ok].order.reservation == rid && t[ok].order.attempt == r.attempt && t[ok].order.domain == r.domain
    && StatusesAgree(r.status, t[ok].order.status) && TimesFit(r, t[ok].order)
    && bk in t && t[bk].BindingItem?
    && t[bk].binding.reservation == rid && t[bk].binding.order == r.order && t[bk].binding.domain == r.domain
    && (r.status == Reserved ==> DueKey(pk, r.reconcileAfter, rid) in t)
    && (r.status != Reserved ==> r.reason.Some? && ReasonFits(r.status, r.reason.value) && r.completedAt.Some?)
    && AllocationsStocked(t, pk, r)
  }

  function MarkerOfReservation(pk: Partition, rid: Id, r: ReservationRec, epoch: nat): Item {
    MarkerFor(Scope(pk.environment, pk.tenant, pk.draft, r.domain), rid, r.order, r.attempt, epoch)
  }

  predicate DueSound(t: Tables, pk: Partition, epoch: nat, rid: Id, item: Item) {
    && var rk := ReservationKey(pk, rid);
    && rk in t && t[rk].ReservationItem?
    && t[rk].reservation.status == Reserved && t[rk].reservation.reconcileAfter == epoch
    && item == MarkerOfReservation(pk, rid, t[rk].reservation, epoch)
  }

  predicate OrderSound(t: Tables, pk: Partition, oid: Id, o: OrderRec) {
    && o.revision > 0 && o.amountMinor >= 0
    && var rk := ReservationKey(pk, o.reservation);
    && rk in t && t[rk].ReservationItem? && t[rk].reservation.order == oid
    && (o.status == Refunded <==> o.refund.Some?) && (o.refund.Some? <==> o.refundedAt.Some?)
    && (o.refund.Some? ==> RefundKey(pk, o.refund.value) in t)
  }

  predicate BindingSound(t: Tables, pk: Partition, attempt: Id, b: BindingRec) {
    && var rk := ReservationKey(pk, b.reservation);
    && rk in t && t[rk].ReservationItem? && t[rk].reservation.attempt == attempt && t[rk].reservation.order == b.order
  }

  /** Which reservation statuses a fiscal access in a given state requires. */
  predicate AccessFits(state: AccessState, r: ReservationStatus) {
    match state
    case PendingPayment => true
    case Eligible => r == Committed
    case Consumed => r == Committed
    case Ineligible => r == Released
  }

  /**
   * An access opens for its window from the moment it became eligible. Until then, and if it never does, it carries the
   * end of a window that would start when the checkout is first looked at, and nobody has tried it.
   */
  predicate WindowFits(a: AccessRec) {
    match a.state
    case Eligible => a.eligibleAt.Some? && a.expiresAt == a.eligibleAt.value + a.window
    case Consumed => a.eligibleAt.Some? && a.expiresAt == a.eligibleAt.value + a.window && a.attempts >= 1
    case _ =>
      && a.eligibleAt.None? && a.attempts == 0
      && a.expiresAt == a.createdAt + CHECKOUT_EXPIRY_SECONDS + RECONCILIATION_GRACE_SECONDS + a.window
  }

  predicate AccessSound(t: Tables, pk: Partition, oid: Id, a: AccessRec) {
    && AccessReadable(a, a.domain) && WindowFits(a)
    && var ok := OrderKey(pk, oid);
    && ok in t && t[ok].OrderItem? && t[ok].order.domain == a.domain
    && var rk := ReservationKey(pk, t[ok].order.reservation);
    && rk in t && t[rk].ReservationItem? && AccessFits(a.state, t[rk].reservation.status) && a.createdAt == t[ok].order.createdAt
    && (a.state == Consumed <==> a.request.Some?)
    && (a.request.Some? ==> FiscalRequestKey(pk, a.request.value) in t)
  }

  /** A refund gives back something, at most what the order costs, in its currency. */
  predicate RefundCovered(x: RefundRec, o: OrderRec)
    requires x.result.RefundOutcome?
  {
    0 < x.result.amountMinor <= o.amountMinor && x.result.currency == o.currency
  }

  predicate RefundSound(t: Tables, pk: Partition, id: Id, x: RefundRec) {
    && x.result.RefundOutcome? && x.result.refund == id
    && var ok := OrderKey(pk, x.result.order);
    && ok in t && t[ok].OrderItem? && t[ok].order.refund == Some(id) && RefundCovered(x, t[ok].order)
  }

  predicate InboxSound(t: Tables, pk: Partition, event: Id, i: InboxRec) {
    && EventOf(i.hash) == event
    && var k := ReceiptKey(pk, IntegrationKey(event));
    && k in t && t[k].ReceiptItem? && t[k].receipt.result == i.result && t[k].receipt.domain == i.domain
    && t[k].receipt.request == RequestFor(i.hash)
  }

  /** A notification goes to the target that the order pins, if that asks for it, and names what the order costs. */
  predicate MessageFits(m: OutboxId, o: OrderRec) {
    && o.notify == Some(m.target) && (if m.kind == Succeeded then m.target.onSuccess else m.target.onFailure)
    && m.amountMinor == o.amountMinor && m.currency == o.currency
  }

  predicate OutboxSound(t: Tables, pk: Partition, m: OutboxId) {
    && var ik, ok := InboxKey(pk, m.event), OrderKey(pk, m.order);
    && ik in t && t[ik].InboxItem? && t[ik].inbox.hash.PaymentHash? && t[ik].inbox.hash.payment.kind == m.kind
    && ok in t && t[ok].OrderItem? && MessageFits(m, t[ok].order)
  }

  /** The receipt of a payment event stands beside the event's inbox record. */
  predicate ReceiptSound(t: Tables, pk: Partition, key: string, x: ReceiptRec) {
    x.request.FinishRequest? && x.request.event.Some? ==>
      && var hash := x.request.event.value;
      && key == IntegrationKey(EventOf(hash))
      && var ik := InboxKey(pk, EventOf(hash));
      && ik in t && t[ik].InboxItem? && t[ik].inbox.hash == hash && t[ik].inbox.domain == x.domain
  }

  predicate FiscalRequestSound(t: Tables, pk: Partition, id: FiscalId, x: FiscalRequestRec) {
    && x.order == id.order && x.revision > 0
    && var ak := AccessKey(pk, x.order);
    && ak in t && t[ak].AccessItem? && t[ak].access.request == Some(id) && t[ak].access.domain == x.domain
    && x.createdAt < t[ak].access.expiresAt
  }

  predicate FiscalReceiptSound(t: Tables, pk: Partition, key: string, x: FiscalReceiptRec) {
    && x.request == FiscalId(x.order, key)
    && var fk := FiscalRequestKey(pk, x.request);
    && fk in t && t[fk].FiscalRequestItem? && t[fk].fiscal.domain == x.domain && t[fk].fiscal.createdAt == x.createdAt
    && var ak := AccessKey(pk, x.order);
    && ak in t && t[ak].AccessItem? && t[ak].access.proof == x.proof && t[ak].access.request == Some(x.request)
  }

  predicate Sound(t: Tables, k: Key) {
    k in t ==>
      match k
      case StockKey(_, _, _) => t[k].StockItem? && StockSound(t[k].stock)
      case MovementKey(pk, stock, key, kind, location) =>
        && t[k].MovementItem? && t[k].movement.stock == stock && t[k].movement.location == location
        && t[k].movement.kind == kind && ReceiptKey(pk, key) in t
      case ReservationKey(pk, rid) => t[k].ReservationItem? && ReservationSound(t, pk, rid, t[k].reservation)
      case DueKey(pk, epoch, rid) => DueSound(t, pk, epoch, rid, t[k])
      case OrderKey(pk, oid) => t[k].OrderItem? && OrderSound(t, pk, oid, t[k].order)
      case BindingKey(pk, attempt) => t[k].BindingItem? && BindingSound(t, pk, attempt, t[k].binding)
      case AccessKey(pk, oid) => t[k].AccessItem? && AccessSound(t, pk, oid, t[k].access)
      case RefundKey(pk, id) => t[k].RefundItem? && RefundSound(t, pk, id, t[k].refund)
      case InboxKey(pk, event) => t[k].SubscriptionItem? || (t[k].InboxItem? && InboxSound(t, pk, event, t[k].inbox))
      case OutboxKey(pk, message) => t[k].OutboxItem? && OutboxSound(t, pk, message)
      case ReceiptKey(pk, key) => t[k].ReceiptItem? && ReceiptSound(t, pk, key, t[k].receipt)
      case FiscalRequestKey(pk, id) => t[k].FiscalRequestItem? && FiscalRequestSound(t, pk, id, t[k].fiscal)
      case FiscalReceiptKey(pk, key) => t[k].FiscalReceiptItem? && FiscalReceiptSound(t, pk, key, t[k].fiscalReceipt)
  }

  /** Every record is sound beside the records it refers to, and the stock ledger balances. */
  ghost predicate Inv(t: Tables) {
    (forall k :: Sound(t, k)) && LedgerHolds(t)
  }

  lemma InvIsTidy(t: Tables)
    requires forall k :: Sound(t, k)
    ensures Tidy(t)
  {
    forall k | k in t
      ensures (t[k].ReservationItem? <==> k.ReservationKey?) && (t[k].MovementItem? <==> k.MovementKey?)
    {
      assert Sound(t, k);
    }
  }

  // ----- how a record may change over time -----

  predicate SameIdentity(a: ReservationRec, b: ReservationRec) {
    && a.domain == b.domain && a.order == b.order && a.attempt == b.attempt && a.createdAt == b.createdAt
    && a.allocations == b.allocations && a.initialReconcileAfter == b.initialReconcileAfter && a.checkoutExpiresAt == b.checkoutExpiresAt
  }

  predicate OrderAdvances(a: OrderStatus, b: OrderStatus) {
    a == PendingCheckout || (a == Paid && b == Refunded)
  }

  predicate AccessAdvances(a: AccessRec, b: AccessRec) {
    && a.domain == b.domain && a.window == b.window && a.createdAt == b.createdAt && a.attempts <= b.attempts
    && (a.state == PendingPayment
        || (a.state == Eligible && b.state in {Eligible, Consumed} && a.proof == b.proof
            && a.eligibleAt == b.eligibleAt && a.expiresAt == b.expiresAt))
  }

  /** Before it is ready a request may still come to any status; then it is delivered or canceled, for good. */
  predicate FiscalAdvances(a: RequestStatus, b: RequestStatus) {
    a in {Requested, NeedsCorrection} || (a == Ready && b in {Delivered, Canceled})
  }

  /** `b` may be a later version of the record `a`: a greater revision, and no forbidden change. */
  predicate Evolves(a: Item, b: Item) {
    match a
    case StockItem(x) => b.StockItem? && x.state.revision < b.stock.state.revision && x.domain == b.stock.domain
    case ReservationItem(x) =>
      && b.ReservationItem? && x.revision < b.reservation.revision && SameIdentity(x, b.reservation)
      && x.status == Reserved && x.reconcileAfter <= b.reservation.reconcileAfter
    case OrderItem(x) =>
      && b.OrderItem? && x.revision < b.order.revision && OrderAdvances(x.status, b.order.status)
      && x.domain == b.order.domain && x.reservation == b.order.reservation && x.attempt == b.order.attempt
      && x.amountMinor == b.order.amountMinor && x.lines == b.order.lines && x.currency == b.order.currency
      && x.createdAt == b.order.createdAt && x.checkoutExpiresAt == b.order.checkoutExpiresAt && x.notify == b.order.notify
    case AccessItem(x) => b.AccessItem? && x.revision < b.access.revision && AccessAdvances(x, b.access)
    case FiscalRequestItem(x) =>
      && b.FiscalRequestItem? && x.revision < b.fiscal.revision && x.order == b.fiscal.order
      && x.domain == b.fiscal.domain && x.createdAt == b.fiscal.createdAt && FiscalAdvances(x.status, b.fiscal.status)
    case _ => false
  }

  predicate Stays(a: Item, b: Item) {
    a == b || Evolves(a, b)
  }

  lemma StaysTransitive(a: Item, b: Item, c: Item)
    requires Stays(a, b) && Stays(b, c)
    ensures Stays(a, c)
  {
  }

  /** A marker key that appears is later than any the reservation had before. */
  predicate MarkerFresh(t: Tables, k: Key)
    requires k.DueKey?
  {
    var rk := ReservationKey(k.pk, k.reservation);
    rk in t ==> t[rk].ReservationItem? && t[rk].reservation.reconcileAfter < k.reconcileAfter
  }

  /** From `t` to `u` nothing but due markers disappears, records only evolve, and marker keys are not reused. */
  ghost predicate Advances(t: Tables, u: Tables) {
    && (forall k: Key :: k in t && !k.DueKey? ==> k in u && Stays(t[k], u[k]))
    && (forall k: Key :: k in u && k.DueKey? && k !in t ==> MarkerFresh(t, k))
  }

  lemma AdvancesReflexive(t: Tables)
    ensures Advances(t, t)
  {
  }

  lemma AdvancesTransitive(t: Tables, u: Tables, v: Tables)
    requires Advances(t, u) && Advances(u, v)
    ensures Advances(t, v)
  {
    forall k: Key | k in t && !k.DueKey? ensures k in v && Stays(t[k], v[k]) {
      StaysTransitive(t[k], u[k], v[k]);
    }
    forall k: Key | k in v && k.DueKey? && k !in t ensures MarkerFresh(t, k) {
      var rk := ReservationKey(k.pk, k.reservation);
      if k !in u && rk in t {
        assert Stays(t[rk], u[rk]) && MarkerFresh(u, k);
      }
    }
  }
}
