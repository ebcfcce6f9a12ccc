/**
 * What each operation writes, as a function of its arguments and of the records it read:
 * the transaction plans of src/storage.py and src/fiscal_storage.py. The records are whatever the
 * operation's separate reads returned, each at its own moment; nothing here assumes they are current.
 */
module Plans {
  import opened Basics
  import opened Inventory
  import opened Records
  import opened Orders

  // ----- stock and its movement log -----

  /** One stock record rewritten together with one new movement record. */
  datatype Change = Change(location: Id, stock: Id, before: Option<StockRec>, after: StockRec, movement: MovementRec)

  function StockCondition(before: Option<StockRec>): Condition {
    match before
    case None => Absent
    case Some(b) => StockIs(b.state.onHand, b.state.reserved, b.available, b.state.revision)
  }

  function StockWrite(c: Change): Write {
    Put(StockItem(c.after), StockCondition(c.before))
  }

  function MoveKey(pk: Partition, key: string, c: Change): Key {
    MovementKey(pk, c.stock, key, c.movement.kind, c.location)
  }

  function StockWrites(pk: Partition, key: string, changes: seq<Change>): Writes {
    if changes == [] then map[]
    else
      var c := changes[|changes| - 1];
      StockWrites(pk, key, changes[..|changes| - 1])
        [StockKey(pk, c.location, c.stock) := StockWrite(c)]
        [MoveKey(pk, key, c) := Put(MovementItem(c.movement), Absent)]
  }

  /** `_stored_stock`: the record must be tracked, in scope and arithmetically sound. */
  predicate StockReadable(b: StockRec, domain: string) {
    b.domain == domain && b.state.Valid() && b.available == b.state.Available() && b.state.tracked
  }

  function ChangeOf(domain: string, rid: Id, kind: MovementKind, reason: Option<Reason>, now: nat,
                    a: Allocation, before: StockRec): Result<Change>
  {
    if !StockReadable(before, domain) then Err(Conflict) else
    match Move(before.state, kind, a.quantity)
    case None => Err(Conflict)
    case Some(after) =>
      Ok(Change(a.location, a.stock, Some(before), StockRec(domain, after, after.Available()),
                MovementRec(domain, kind, a.location, a.stock, a.quantity, DeltasOf(kind, a.quantity),
                            now, Some(rid), a.lines, reason)))
  }

  /** The changes for every allocation, or the first refusal. */
  function ChangesOf(domain: string, rid: Id, kind: MovementKind, reason: Option<Reason>, now: nat,
                     allocations: seq<Allocation>, before: seq<StockRec>): (r: Result<seq<Change>>)
    requires |allocations| == |before|
    ensures r.Ok? ==> |r.value| == |allocations|
  {
    if allocations == [] then Ok([]) else
    var n := |allocations| - 1;
    match ChangesOf(domain, rid, kind, reason, now, allocations[..n], before[..n])
    case Err(e) => Err(e)
    case Ok(init) =>
      match ChangeOf(domain, rid, kind, reason, now, allocations[n], before[n])
      case Err(e) => Err(e)
      case Ok(c) => Ok(init + [c])
  }

  // ----- receipts, inbox, outbox -----

  function ReceiptWrites(scope: Scope, key: string, request: Request, result: Outcome, now: nat): Writes {
    map[ReceiptKey(scope.Pk(), key) := Put(ReceiptItem(ReceiptRec(scope.domain, request, result, now)), Absent)]
  }

  function EndOf(kind: PaymentKind): ReservationStatus {
    match kind
    case Succeeded => Committed
    case TerminalUnpaid => Released
  }

  function EndReason(kind: PaymentKind): Reason {
    match kind
    case Succeeded => CanonicalPaid
    case TerminalUnpaid => CanonicalTerminalUnpaid
  }

  function EventOf(hash: EventHash): Id {
    match hash
    case PaymentHash(e, _) => e.event
    case RefundHash(x, _) => x.event
  }

  /** An event's request follows from what its hash covers. */
  function RequestFor(hash: EventHash): Request {
    match hash
    case PaymentHash(e, _) => FinishRequest(EndOf(e.kind), e.reservation, EndReason(e.kind), Some(hash))
    case RefundHash(x, _) => RefundRequest(x)
  }

  function IntegrationKey(event: Id): string {
    "integration:" + event
  }

  function InboxWrites(scope: Scope, event: Id, hash: EventHash, result: Outcome, now: nat): Writes {
    map[InboxKey(scope.Pk(), event) := Put(InboxItem(InboxRec(scope.domain, hash, now, result)), Absent)]
  }

  /** The notification of a payment event, when the order pins a target that enables it. */
  function OutboxOf(scope: Scope, event: Id, kind: PaymentKind, orderId: Id, order: OrderRec): Option<OutboxId> {
    if (kind == Succeeded && order.status == Refunded) || order.notify.None? then None
    else if kind == Succeeded && !order.notify.value.onSuccess then None
    else if kind == TerminalUnpaid && !order.notify.value.onFailure then None
    else Some(OutboxId(scope, event, kind, order.notify.value, orderId, order.amountMinor, order.currency))
  }

  function OutboxWrites(scope: Scope, message: Option<OutboxId>, now: nat): Writes {
    match message
    case None => map[]
    case Some(m) => map[OutboxKey(scope.Pk(), m) := Put(OutboxItem(OutboxRec(scope.domain, now)), Absent)]
  }

  function BindingCheck(scope: Scope, e: PaymentEvent): Writes {
    map[BindingKey(scope.Pk(), e.attempt) := Check(BindingIs(scope.domain, e.reservation, e.order))]
  }

  // ----- fiscal access -----

  /** `_stored_fiscal_access`. */
  predicate AccessReadable(a: AccessRec, domain: string) {
    a.domain == domain && 0 <= a.attempts <= MAX_CLAIM_ATTEMPTS && 1 <= a.window <= MAX_WINDOW_SECONDS && a.revision > 0
  }

  function AccessCondition(a: AccessRec): Condition {
    AccessIs(PendingPayment, a.proof, a.revision, a.expiresAt)
  }

  /** `_fiscal_access_operations`: a verified payment opens the claim window, an unpaid end closes it. */
  function AccessWrites(scope: Scope, orderId: Id, kind: PaymentKind, now: nat, access: Option<AccessRec>): Result<Writes> {
    if access.None? then Ok(map[]) else
    var a := access.value;
    if !AccessReadable(a, scope.domain) then Err(Conflict)
    else if kind == Succeeded && a.state in {Eligible, Consumed} then Ok(map[])
    else if kind == TerminalUnpaid && a.state == Ineligible then Ok(map[])
    else if a.state != PendingPayment then Err(Conflict)
    else
      var next := if kind == Succeeded
                  then a.(state := Eligible, eligibleAt := Some(now), expiresAt := now + a.window, revision := a.revision + 1)
                  else a.(state := Ineligible, revision := a.revision + 1);
      Ok(map[AccessKey(scope.Pk(), orderId) := Put(AccessItem(next), AccessCondition(a))])
  }

  // ----- adjust -----

  function AdjustChange(scope: Scope, stock: Id, location: Id, delta: int, expectedRevision: nat, now: nat,
                        current: Option<StockRec>): Result<Change>
  {
    if delta == 0 then Err(InvalidInput) else
    var moved := MovementRec(scope.domain, AdjustMove, location, stock, if delta < 0 then -delta else delta,
                             DeltasOf(AdjustMove, delta), now, None, [], None);
    match current
    case None =>
      if expectedRevision != 0 || delta < 1 then Err(Conflict)
      else Ok(Change(location, stock, None, StockRec(scope.domain, StockState(true, delta, 0, 1), delta), moved))
    case Some(b) =>
      if !StockReadable(b, scope.domain) then Err(Conflict)
      else if expectedRevision == 0 || b.state.revision != expectedRevision then Err(Conflict)
      else match Move(b.state, AdjustMove, delta)
           case None => Err(Conflict)
           case Some(after) =>
             Ok(Change(location, stock, Some(b), StockRec(scope.domain, after, after.Available()), moved))
  }

  function StockResult(c: Change): Outcome {
    StockOutcome(c.location, c.stock, c.after.state.onHand, c.after.state.reserved, c.after.available,
                 c.after.state.revision)
  }

  function AdjustPlan(scope: Scope, stock: Id, location: Id, delta: int, expectedRevision: nat, key: string, now: nat,
                      current: Option<StockRec>): Result<Writes>
  {
    match AdjustChange(scope, stock, location, delta, expectedRevision, now, current)
    case Err(e) => Err(e)
    case Ok(c) =>
      Ok(ReceiptWrites(scope, key, AdjustRequest(stock, location, delta, expectedRevision), StockResult(c), now)
         + StockWrites(scope.Pk(), key, [c]))
  }

  // ----- reserve -----

  datatype Grant = Grant(proof: string, window: nat)

  datatype Checkout =
    Checkout(order: PendingOrder, reservation: Id, location: Id, notify: Option<NotificationTarget>, fiscal: Option<Grant>)
  {
    function Request(): Request {
      ReserveRequest(reservation, order, location, notify, fiscal.Some?)
    }

    function Result(now: nat): Outcome {
      ReservedOutcome(reservation, order.order, order.attempt, ReservationTiming(now),
                      if fiscal.Some? then Some(fiscal.value.proof) else None)
    }
  }

  function NewReservation(scope: Scope, c: Checkout, allocations: seq<Allocation>, now: nat): ReservationRec {
    var timing := ReservationTiming(now);
    ReservationRec(scope.domain, c.order.order, c.order.attempt, Reserved, 1, allocations, allocations, now,
                   timing.checkoutExpiresAt, timing.reconcileAfter, timing.reconcileAfter, timing.reconcileAfter,
                   None, None, None)
  }

  function NewOrder(scope: Scope, c: Checkout, now: nat): OrderRec {
    OrderRec(scope.domain, c.reservation, c.order.attempt, PendingCheckout, 1, c.order.lines, OrderTotal(c.order.lines),
             c.order.currency, now, ReservationTiming(now).checkoutExpiresAt, c.notify, None, None, None, None)
  }

  function NewAccess(scope: Scope, g: Grant, now: nat): AccessRec {
    AccessRec(scope.domain, g.proof, PendingPayment, 0, 1, g.window, now,
              ReservationTiming(now).reconcileAfter + g.window, None, None)
  }

  function MarkerFor(scope: Scope, rid: Id, order: Id, attempt: Id, epoch: nat): Item {
    DueItem(DueRec(scope, rid, order, attempt, epoch))
  }

  /** Reservation, marker, order and payment binding of a new checkout. */
  function CheckoutWrites(scope: Scope, c: Checkout, allocations: seq<Allocation>, now: nat): Writes {
    var pk, due := scope.Pk(), ReservationTiming(now).reconcileAfter;
    map[ReservationKey(pk, c.reservation) := Put(ReservationItem(NewReservation(scope, c, allocations, now)), Absent),
        DueKey(pk, due, c.reservation) := Put(MarkerFor(scope, c.reservation, c.order.order, c.order.attempt, due), Absent),
        OrderKey(pk, c.order.order) := Put(OrderItem(NewOrder(scope, c, now)), Absent),
        BindingKey(pk, c.order.attempt) :=
          Put(BindingItem(BindingRec(scope.domain, c.order.order, c.reservation, c.Request(), now)), Absent)]
  }

  function NewAccessWrites(scope: Scope, c: Checkout, now: nat): Writes {
    if c.fiscal.None? then map[]
    else map[AccessKey(scope.Pk(), c.order.order) := Put(AccessItem(NewAccess(scope, c.fiscal.value, now)), Absent)]
  }

  predicate CheckoutValid(c: Checkout) {
    && OrderValid(c.order)
    && (c.fiscal.Some? ==> 1 <= c.fiscal.value.window <= MAX_WINDOW_SECONDS)
  }

  function ReservePlan(scope: Scope, c: Checkout, key: string, now: nat, allocations: seq<Allocation>,
                       before: seq<StockRec>): Result<Writes>
    requires |allocations| == |before|
  {
    if !CheckoutValid(c) then Err(InvalidInput) else
    match ChangesOf(scope.domain, c.reservation, ReserveMove, None, now, allocations, before)
    case Err(e) => Err(e)
    case Ok(changes) =>
      if OrderTotal(c.order.lines) > MAX_AMOUNT_MINOR then Err(InvalidInput)
      else Ok(ReceiptWrites(scope, key, c.Request(), c.Result(now), now)
              + (StockWrites(scope.Pk(), key, changes) + CheckoutWrites(scope, c, allocations, now))
              + NewAccessWrites(scope, c, now))
  }

  // ----- finish -----

  predicate ReasonFits(status: ReservationStatus, reason: Reason) {
    match status
    case Reserved => false
    case Committed => reason == CanonicalPaid
    case Released => reason != CanonicalPaid
  }

  /** `_reservation`: the checks on a stored reservation record. */
  predicate ReservationReadable(r: ReservationRec, domain: string) {
    && r.domain == domain && r.revision > 0
    && AllocationsValid(r.allocations) && r.allocationHash == r.allocations
    && r.checkoutExpiresAt == ReservationTiming(r.createdAt).checkoutExpiresAt
    && r.initialReconcileAfter == ReservationTiming(r.createdAt).reconcileAfter
    && r.reconcileAfter >= r.initialReconcileAfter
    && r.dueEpoch == r.reconcileAfter
  }

  /** `_reservation_order`. */
  predicate OrderReadable(o: OrderRec, domain: string, rid: Id, r: ReservationRec, status: OrderStatus) {
    && o.domain == domain && o.reservation == rid && o.attempt == r.attempt
    && o.status == status && o.revision > 0 && o.amountMinor >= 0
  }

  function MoveFor(status: ReservationStatus): MovementKind {
    if status == Committed then CommitMove else ReleaseMove
  }

  function OrderStatusFor(status: ReservationStatus): OrderStatus {
    match status
    case Reserved => PendingCheckout
    case Committed => Paid
    case Released => PaymentNotCompleted
  }

  function FinishedReservation(r: ReservationRec, status: ReservationStatus, reason: Reason, now: nat): ReservationRec {
    r.(status := status, revision := r.revision + 1, completedAt := Some(now), reason := Some(reason))
  }

  /** Stock, reservation, marker and order of a completion; `done` is the rewritten order. */
  function CompletionWrites(pk: Partition, key: string, rid: Id, r: ReservationRec, order: OrderRec,
                            status: ReservationStatus, reason: Reason, now: nat, done: OrderRec): Writes
  {
    map[ReservationKey(pk, rid) :=
          Put(ReservationItem(FinishedReservation(r, status, reason, now)), ReservedIs(r.revision, r.allocationHash)),
        DueKey(pk, r.dueEpoch, rid) := Delete(MarkerOf(rid)),
        OrderKey(pk, r.order) := Put(OrderItem(done), PendingOrderIs(rid, r.attempt, order.revision))]
  }

  function FinishedOrder(order: OrderRec, status: OrderStatus, reason: Reason, now: nat): OrderRec {
    order.(status := status, revision := order.revision + 1, completedAt := Some(now), reason := Some(reason))
  }

  function FinishResult(rid: Id, r: ReservationRec, status: ReservationStatus, now: nat, reason: Reason): Outcome {
    FinishedOutcome(rid, r.order, r.attempt, status, r.createdAt, r.checkoutExpiresAt, r.reconcileAfter,
                    Some(now), Some(reason))
  }

  function HashOf(scope: Scope, event: Option<PaymentEvent>): Option<EventHash> {
    if event.None? then None else Some(PaymentHash(event.value, scope))
  }

  /** Binding check, access transition, inbox and outbox records of a payment event. */
  function EventWrites(scope: Scope, e: PaymentEvent, orderId: Id, order: OrderRec, result: Outcome, now: nat): Writes {
    InboxWrites(scope, e.event, PaymentHash(e, scope), result, now)
    + OutboxWrites(scope, OutboxOf(scope, e.event, e.kind, orderId, order), now)
    + BindingCheck(scope, e)
  }

  function OptionalEventWrites(scope: Scope, event: Option<PaymentEvent>, orderId: Id, order: OrderRec, result: Outcome,
                               now: nat): Writes
  {
    if event.None? then map[] else EventWrites(scope, event.value, orderId, order, result, now)
  }

  function OptionalAccessWrites(scope: Scope, event: Option<PaymentEvent>, orderId: Id, now: nat,
                                access: Option<AccessRec>): Result<Writes>
  {
    if event.None? then Ok(map[]) else AccessWrites(scope, orderId, event.value.kind, now, access)
  }

  datatype Finish =
    Finish(reservation: Id, status: ReservationStatus, reason: Reason, key: string, event: Option<PaymentEvent>)
  {
    function Request(scope: Scope): Request {
      FinishRequest(status, reservation, reason, HashOf(scope, event))
    }
  }

  /** How apply_payment_event calls the completion: key, binding, status and reason all follow from the event. */
  predicate FinishArgs(f: Finish) {
    f.event.Some? ==>
      && f.key == IntegrationKey(f.event.value.event) && f.event.value.reservation == f.reservation
      && f.status == EndOf(f.event.value.kind) && f.reason == EndReason(f.event.value.kind)
  }

  /** The writes of `_finish_reservation` on a reservation still read as reserved. */
  function FinishPlan(scope: Scope, f: Finish, now: nat, r: ReservationRec, order: OrderRec, before: seq<StockRec>,
                      access: Option<AccessRec>): Result<Writes>
    requires |before| == |r.allocations|
  {
    if !ReasonFits(f.status, f.reason) then Err(InvalidInput)
    else if !ReservationReadable(r, scope.domain) then Err(Conflict)
    else if r.status != Reserved then Err(Conflict)
    else if !OrderReadable(order, scope.domain, f.reservation, r, PendingCheckout) then Err(Conflict)
    else
      match ChangesOf(scope.domain, f.reservation, MoveFor(f.status), Some(f.reason), now, r.allocations, before)
      case Err(e) => Err(e)
      case Ok(changes) =>
        match OptionalAccessWrites(scope, f.event, r.order, now, access)
        case Err(e) => Err(e)
        case Ok(accessWrites) =>
          var result := FinishResult(f.reservation, r, f.status, now, f.reason);
          var done := FinishedOrder(order, OrderStatusFor(f.status), f.reason, now);
          Ok((ReceiptWrites(scope, f.key, f.Request(scope), result, now)
              + OptionalEventWrites(scope, f.event, r.order, order, result, now))
             + (StockWrites(scope.Pk(), f.key, changes)
                + CompletionWrites(scope.Pk(), f.key, f.reservation, r, order, f.status, f.reason, now, done))
             + accessWrites)
  }

  function TerminalResult(rid: Id, r: ReservationRec): Outcome {
    FinishedOutcome(rid, r.order, r.attempt, r.status, r.createdAt, r.checkoutExpiresAt, r.reconcileAfter,
                    r.completedAt, r.reason)
  }

  /** Which order status a repeated payment event expects beside a completed reservation. */
  function AcknowledgedStatus(status: ReservationStatus, order: OrderRec): OrderStatus {
    if status == Committed && order.status == Refunded then Refunded else OrderStatusFor(status)
  }

  /** The writes of a payment event for a reservation that already ended the same way. */
  function AcknowledgePlan(scope: Scope, f: Finish, now: nat, r: ReservationRec, order: OrderRec,
                           access: Option<AccessRec>): Result<Writes>
    requires f.event.Some?
  {
    if !ReasonFits(f.status, f.reason) then Err(InvalidInput)
    else if !ReservationReadable(r, scope.domain) then Err(Conflict)
    else if r.status != f.status || r.reason != Some(f.reason) then Err(Conflict)
    else if !OrderReadable(order, scope.domain, f.reservation, r, AcknowledgedStatus(f.status, order)) then Err(Conflict)
    else
      match AccessWrites(scope, r.order, f.event.value.kind, now, access)
      case Err(e) => Err(e)
      case Ok(accessWrites) =>
        var result := TerminalResult(f.reservation, r);
        Ok((ReceiptWrites(scope, f.key, f.Request(scope), result, now)
            + EventWrites(scope, f.event.value, r.order, order, result, now))
           + accessWrites)
  }

  // ----- refund -----

  function RefundResult(x: Refund): Outcome {
    RefundOutcome(x.refund, x.order, x.amountMinor, x.currency, x.occurredAt)
  }

  predicate RefundInputOk(x: Refund) {
    x.amountMinor > 0
  }

  /** The order checks that both refund paths make first. */
  predicate RefundBinding(x: Refund, order: OrderRec, domain: string) {
    && order.domain == domain && order.status in {PendingCheckout, Paid}
    && order.currency == x.currency && x.amountMinor <= order.amountMinor
  }

  function RefundRecordWrites(scope: Scope, x: Refund, now: nat): Writes {
    ReceiptWrites(scope, IntegrationKey(x.event), RefundRequest(x), RefundResult(x), now)
    + InboxWrites(scope, x.event, RefundHash(x, scope), RefundResult(x), now)
  }

  function RefundedOrderWrites(scope: Scope, x: Refund): Writes {
    map[RefundKey(scope.Pk(), x.refund) := Put(RefundItem(RefundRec(scope.domain, RefundResult(x))), Absent)]
  }

  function RefundPaidPlan(scope: Scope, x: Refund, now: nat, order: OrderRec): Result<Writes> {
    if !RefundInputOk(x) then Err(InvalidInput)
    else if !RefundBinding(x, order, scope.domain) || order.status != Paid then Err(Conflict)
    else
      var done := order.(status := Refunded, revision := order.revision + 1, refund := Some(x.refund),
                         refundedAt := Some(now));
      Ok(RefundRecordWrites(scope, x, now)
         + (map[OrderKey(scope.Pk(), x.order) :=
                  Put(OrderItem(done), PaidOrderIs(x.currency, order.amountMinor, order.revision))]
            + RefundedOrderWrites(scope, x)))
  }

  /** A refund that overtakes its payment: the reservation is committed and the order refunded at once. */
  function RefundPendingPlan(scope: Scope, x: Refund, now: nat, order: OrderRec, r: ReservationRec,
                             before: seq<StockRec>, access: Option<AccessRec>): Result<Writes>
    requires |before| == |r.allocations|
  {
    if !RefundInputOk(x) then Err(InvalidInput)
    else if !RefundBinding(x, order, scope.domain) || order.status != PendingCheckout then Err(Conflict)
    else if !ReservationReadable(r, scope.domain) || r.order != x.order then Err(Conflict)
    else if !OrderReadable(order, scope.domain, order.reservation, r, PendingCheckout) then Err(Conflict)
    else
      var key := IntegrationKey(x.event);
      match ChangesOf(scope.domain, order.reservation, CommitMove, Some(CanonicalPaid), now, r.allocations, before)
      case Err(e) => Err(e)
      case Ok(changes) =>
        match AccessWrites(scope, x.order, Succeeded, now, access)
        case Err(e) => Err(e)
        case Ok(accessWrites) =>
          var done := FinishedOrder(order, Refunded, CanonicalPaid, now).(refund := Some(x.refund), refundedAt := Some(now));
          var binding := PaymentEvent(x.event, Succeeded, x.occurredAt, order.reservation, x.order, order.attempt);
          Ok((RefundRecordWrites(scope, x, now) + BindingCheck(scope, binding))
             + (StockWrites(scope.Pk(), key, changes)
                + (CompletionWrites(scope.Pk(), key, order.reservation, r, order, Committed, CanonicalPaid, now, done)
                   + RefundedOrderWrites(scope, x)))
             + accessWrites)
  }

  // ----- defer -----

  function DeferredReservation(r: ReservationRec, next: nat, now: nat): ReservationRec {
    r.(revision := r.revision + 1, reconcileAfter := next, dueEpoch := next, lastReconciledAt := Some(now))
  }

  function DeferPlan(scope: Scope, rid: Id, next: nat, key: string, now: nat, r: ReservationRec): Result<Writes> {
    if next != now + RECONCILER_INTERVAL_SECONDS then Err(InvalidInput)
    else if !ReservationReadable(r, scope.domain) then Err(Conflict)
    else if r.status != Reserved || now < r.reconcileAfter || next <= r.reconcileAfter then Err(Conflict)
    else
      var pk := scope.Pk();
      Ok(ReceiptWrites(scope, key, DeferRequest(rid, next), DeferredOutcome(rid, next), now)
         + map[ReservationKey(pk, rid) :=
                 Put(ReservationItem(DeferredReservation(r, next, now)), ReservedDueIs(r.revision, r.dueEpoch)),
               DueKey(pk, r.dueEpoch, rid) := Delete(MarkerOf(rid)),
               DueKey(pk, next, rid) := Put(MarkerFor(scope, rid, r.order, r.attempt, next), Absent)])
  }

  // ----- other writers of the operations table -----

  /** What a catalog mutation writes here: its receipt. */
  function CatalogPlan(scope: Scope, key: string, content: string, result: string, now: nat): Writes {
    ReceiptWrites(scope, key, CatalogRequest(content), CatalogOutcome(result), now)
  }

  /** What a subscription event writes here that payment and refund events can meet: its inbox record. */
  function SubscriptionPlan(scope: Scope, event: Id, content: string, now: nat): Writes {
    map[InboxKey(scope.Pk(), event) := Put(SubscriptionItem(SubscriptionRec(scope.domain, content, now)), Absent)]
  }

  // ----- fiscal access and requests -----

  function RotatePlan(scope: Scope, orderId: Id, proof: string, now: nat, a: AccessRec): Result<Writes> {
    if !AccessReadable(a, scope.domain) then Err(Conflict)
    else if a.state != PendingPayment || now >= a.expiresAt || a.proof == proof then Err(Conflict)
    else Ok(map[AccessKey(scope.Pk(), orderId) :=
                  Put(AccessItem(a.(proof := proof, revision := a.revision + 1)), AccessCondition(a))])
  }

  /** `_eligible_access`. */
  predicate Claimable(a: AccessRec, proof: string, now: nat) {
    a.proof == proof && a.state == Eligible && a.attempts < MAX_CLAIM_ATTEMPTS && now < a.expiresAt
  }

  function ClaimCondition(a: AccessRec): Condition {
    EligibleIs(a.proof, a.attempts, a.revision, a.expiresAt)
  }

  function FailedAttemptPlan(scope: Scope, orderId: Id, proof: string, now: nat, a: AccessRec): Result<Writes> {
    if !AccessReadable(a, scope.domain) || !Claimable(a, proof, now) then Err(Conflict)
    else Ok(map[AccessKey(scope.Pk(), orderId) :=
                  Put(AccessItem(a.(attempts := a.attempts + 1, revision := a.revision + 1)), ClaimCondition(a))])
  }

  function RedeemPlan(scope: Scope, orderId: Id, proof: string, details: string, key: string, now: nat,
                      a: AccessRec): Result<Writes>
  {
    if !AccessReadable(a, scope.domain) || !Claimable(a, proof, now) then Err(Conflict)
    else
      var id := FiscalId(orderId, key);
      Ok(map[AccessKey(scope.Pk(), orderId) :=
               Put(AccessItem(a.(state := Consumed, attempts := a.attempts + 1, revision := a.revision + 1,
                                 request := Some(id))), ClaimCondition(a)),
             FiscalRequestKey(scope.Pk(), id) :=
               Put(FiscalRequestItem(FiscalRequestRec(scope.domain, orderId, Requested, 1, details, now, now)), Absent),
             FiscalReceiptKey(scope.Pk(), key) :=
               Put(FiscalReceiptItem(FiscalReceiptRec(scope.domain, orderId, proof, details, id, now)), Absent)])
  }

  datatype FiscalAction = MarkNeedsCorrection | MarkReady | MarkDelivered | Cancel | Correct(details: string)

  /** SUBMISSION_TRANSITIONS and TARGET_STATUS, with `correct_request` as one more action. */
  function FiscalNext(status: RequestStatus, action: FiscalAction): Option<RequestStatus> {
    match action
    case MarkNeedsCorrection => if status == Requested then Some(NeedsCorrection) else None
    case MarkReady => if status == Requested then Some(Ready) else None
    case MarkDelivered => if status == Ready then Some(Delivered) else None
    case Cancel => if status in {Requested, NeedsCorrection, Ready} then Some(Canceled) else None
    case Correct(_) => if status == NeedsCorrection then Some(Requested) else None
  }

  function FiscalMovePlan(scope: Scope, id: FiscalId, action: FiscalAction, expectedRevision: int, now: nat,
                          x: FiscalRequestRec): Result<Writes>
  {
    if x.domain != scope.domain || x.revision <= 0 then Err(Conflict)
    else if x.revision != expectedRevision then Err(Conflict)
    else match FiscalNext(x.status, action)
         case None => Err(Conflict)
         case Some(status) =>
           var next := x.(status := status, revision := x.revision + 1, updatedAt := now,
                          details := if action.Correct? then action.details else x.details);
           Ok(map[FiscalRequestKey(scope.Pk(), id) := Put(FiscalRequestItem(next), RequestIs(x.status, x.revision))])
  }
}
