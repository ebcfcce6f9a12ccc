/** From what a call has gathered to the plan it sends: the validator accepts it and it carries the call's receipt. */
module Sending {
  import opened Basics
  import opened Inventory
  import opened Records
  import opened Orders
  import opened Plans
  import opened Protocol
  import opened Parts
  import opened Runs
  import opened Idempotency
  import opened Backends
  import opened Calls
  import opened Progress
  import opened Refusals
  import opened Actions

  /** Only stock records are stored under stock keys. */
  lemma StockIsStock(ops: seq<Op>, k: Key, item: Item)
    requires k.StockKey? && (k, item) in Run(ops).seen
    ensures item.StockItem?
  {
    RunKeeps(ops);
    assert Was(Run(ops).tables, k, item) && Sound(Run(ops).tables, k);
  }

  /** What is read of a stock when nothing has happened since. */
  ghost predicate StockStands(log: seq<Entry>, k: Key, current: Option<StockRec>) {
    StockNow(TablesAt(log), k) == current
  }

  lemma AdjustBlocked(log: seq<Entry>, scope: Scope, stock: Id, location: Id, delta: int, revision: nat, key: string, now: nat,
                      current: Option<StockRec>)
    requires StockStands(log, StockKey(scope.Pk(), location, stock), current)
    requires AdjustChange(scope, stock, location, delta, revision, now, current).Err?
    ensures Hopeless(AdjustCall(scope, stock, location, delta, revision, key), WorldAt(log))
  {
    RunKeeps(OpsOf(log));
    AdjustRefused(WorldAt(log), scope, stock, location, delta, revision, key, now);
  }

  lemma AdjustDecided(log: seq<Entry>, scope: Scope, stock: Id, location: Id, delta: int, revision: nat, key: string, now: nat,
                      current: Option<StockRec>)
    requires StockStands(log, StockKey(scope.Pk(), location, stock), current)
    ensures Commits(WorldAt(log), AdjustOp(scope, now, key, stock, location, delta, revision, current))
         || Hopeless(AdjustCall(scope, stock, location, delta, revision, key), WorldAt(log))
  {
    RunKeeps(OpsOf(log));
    if !Commits(WorldAt(log), AdjustOp(scope, now, key, stock, location, delta, revision, current)) {
      AdjustDecides(WorldAt(log), scope, stock, location, delta, revision, key, now);
    }
  }

  ghost predicate DeferStands(log: seq<Entry>, scope: Scope, rid: Id, next: nat, now: nat) {
    var t, rk := TablesAt(log), ReservationKey(scope.Pk(), rid);
    && rk in t && t[rk].ReservationItem?
    && var v := t[rk].reservation;
    && ReservationReadable(v, scope.domain) && v.status == Reserved && now >= v.reconcileAfter && next > v.reconcileAfter
  }

  lemma DeferBlocked(log: seq<Entry>, scope: Scope, rid: Id, next: nat, key: string, now: nat)
    requires !DeferStands(log, scope, rid, next, now) && next == now + RECONCILER_INTERVAL_SECONDS
    ensures Hopeless(DeferCall(scope, rid, next, key), WorldAt(log))
  {
    RunKeeps(OpsOf(log));
    DeferDecides(WorldAt(log), scope, rid, next, key, now);
  }

  lemma DeferDecided(log: seq<Entry>, scope: Scope, rid: Id, next: nat, key: string, now: nat, v: ReservationRec)
    requires Stands(log, ReservationKey(scope.Pk(), rid), ReservationItem(v)) && next == now + RECONCILER_INTERVAL_SECONDS
    ensures Commits(WorldAt(log), DeferOp(scope, now, key, rid, next, v)) || Hopeless(DeferCall(scope, rid, next, key), WorldAt(log))
  {
    RunKeeps(OpsOf(log));
    if !Commits(WorldAt(log), DeferOp(scope, now, key, rid, next, v)) { DeferDecides(WorldAt(log), scope, rid, next, key, now); }
  }

  lemma DeferReady(scope: Scope, rid: Id, next: nat, key: string, now: nat, v: ReservationRec)
    requires ReservationReadable(v, scope.domain) && v.status == Reserved && now >= v.reconcileAfter && next > v.reconcileAfter
    requires next == now + RECONCILER_INTERVAL_SECONDS
    ensures var op := DeferOp(scope, now, key, rid, next, v);
      var plan := DeferActions(scope, rid, v, next, now) + ReceiptActions(scope, key, DeferRequest(rid, next), DeferredOutcome(rid, next), now);
      && PlanOf(op) == Ok(WritesOf(plan)) && DistinctTargets(plan) && |plan| == 4
      && ReadsOf(op) == {(ReservationKey(scope.Pk(), rid), ReservationItem(v))}
      && Serves(op, DeferCall(scope, rid, next, key)) && TicketOf(op).value.receipt.result == DeferredOutcome(rid, next)
  {
    DeferList(scope, rid, next, key, now, v);
  }

  lemma AdjustReady(scope: Scope, stock: Id, location: Id, delta: int, revision: nat, key: string, now: nat,
                    current: Option<StockRec>, c: Change)
    requires AdjustChange(scope, stock, location, delta, revision, now, current) == Ok(c)
    ensures var op := AdjustOp(scope, now, key, stock, location, delta, revision, current);
      var plan := StockPair(scope.Pk(), key, c) + ReceiptActions(scope, key, AdjustRequest(stock, location, delta, revision), StockResult(c), now);
      && PlanOf(op) == Ok(WritesOf(plan)) && DistinctTargets(plan) && |plan| == 3
      && Serves(op, AdjustCall(scope, stock, location, delta, revision, key)) && TicketOf(op).value.receipt.result == StockResult(c)
  {
    AdjustList(scope, stock, location, delta, revision, key, now, current, c);
    assert [c][..0] == [] && StockActions(scope.Pk(), key, [c][..0]) == [];
    assert StockActions(scope.Pk(), key, [c]) == StockPair(scope.Pk(), key, c);
  }

  lemma ChangesSnoc(domain: string, rid: Id, kind: MovementKind, reason: Option<Reason>, now: nat, allocations: seq<Allocation>,
                    before: seq<StockRec>, changes: seq<Change>, current: StockRec, c: Change)
    requires |before| < |allocations|
    requires ChangesOf(domain, rid, kind, reason, now, allocations[..|before|], before) == Ok(changes)
    requires ChangeOf(domain, rid, kind, reason, now, allocations[|before|], current) == Ok(c)
    ensures ChangesOf(domain, rid, kind, reason, now, allocations[..|before| + 1], before + [current]) == Ok(changes + [c])
  {
    var i := |before|;
    assert allocations[..i + 1][..i] == allocations[..i] && (before + [current])[..i] == before;
  }

  /** Any reservation record ever stored has few enough allocations for a transaction. */
  lemma FewAllocations(ops: seq<Op>, k: Key, r: ReservationRec)
    requires (k, ReservationItem(r)) in Run(ops).seen && k.ReservationKey?
    ensures |r.allocations| <= MAX_CHECKOUT_LINES
  {
    RunKeeps(ops);
    assert Was(Run(ops).tables, k, ReservationItem(r)) && Sound(Run(ops).tables, k);
  }

  /** What a completion reads and derives before it writes. */
  datatype Gathered = Gathered(order: OrderRec, before: seq<StockRec>, access: Option<AccessRec>, changes: seq<Change>,
                               claims: seq<Action>, notices: seq<Action>)

  function FinishOpOf(scope: Scope, f: Finish, now: nat, v: ReservationRec, g: Gathered): Op {
    FinishOp(scope, now, f, v, g.order, g.before, g.access)
  }

  /** The gathered records make a plan that the validator accepts and that carries the call's receipt. */
  ghost predicate Sendable(scope: Scope, f: Finish, now: nat, v: ReservationRec, g: Gathered) {
    var op, plan := FinishOpOf(scope, f, now, v, g), FinishActions(scope, f, now, v, g.order, g.changes, g.claims);
    && PlanOf(op) == Ok(WritesOf(plan)) && DistinctTargets(plan) && |plan| <= MAX_TRANSACTION_ACTIONS
    && Serves(op, FinishCall(scope, f))
    && TicketOf(op).value.receipt.result == FinishResult(f.reservation, v, f.status, now, f.reason)
    && g.notices == NoticeActions(scope, f.event, v.order, g.order, FinishResult(f.reservation, v, f.status, now, f.reason), now)
  }

  /** A completion gathered from checked records is a plan the validator accepts, and carries the call's receipt. */
  lemma FinishReady(scope: Scope, f: Finish, now: nat, v: ReservationRec, g: Gathered)
    requires FinishArgs(f) && ReasonFits(f.status, f.reason)
    requires ReservationReadable(v, scope.domain) && v.status == Reserved && |v.allocations| <= MAX_CHECKOUT_LINES
    requires OrderReadable(g.order, scope.domain, f.reservation, v, PendingCheckout) && |g.before| == |v.allocations|
    requires ChangesOf(scope.domain, f.reservation, MoveFor(f.status), Some(f.reason), now, v.allocations, g.before) == Ok(g.changes)
    requires OptionalAccessWrites(scope, f.event, v.order, now, g.access) == Ok(WritesOf(g.claims)) && Neat(g.claims) && |g.claims| <= 1
    requires g.notices == NoticeActions(scope, f.event, v.order, g.order, FinishResult(f.reservation, v, f.status, now, f.reason), now)
    ensures Sendable(scope, f, now, v, g)
  {
    FinishServes(scope, f, now, v, g);
    FinishSends(scope, f, now, v, g);
  }

  lemma FinishSends(scope: Scope, f: Finish, now: nat, v: ReservationRec, g: Gathered)
    requires FinishArgs(f) && ReasonFits(f.status, f.reason)
    requires ReservationReadable(v, scope.domain) && v.status == Reserved && |v.allocations| <= MAX_CHECKOUT_LINES
    requires OrderReadable(g.order, scope.domain, f.reservation, v, PendingCheckout) && |g.before| == |v.allocations|
    requires ChangesOf(scope.domain, f.reservation, MoveFor(f.status), Some(f.reason), now, v.allocations, g.before) == Ok(g.changes)
    requires OptionalAccessWrites(scope, f.event, v.order, now, g.access) == Ok(WritesOf(g.claims)) && Neat(g.claims) && |g.claims| <= 1
    ensures var plan := FinishActions(scope, f, now, v, g.order, g.changes, g.claims);
      && FinishPlan(scope, f, now, v, g.order, g.before, g.access) == Ok(WritesOf(plan))
      && DistinctTargets(plan) && |plan| <= MAX_TRANSACTION_ACTIONS
  {
    FinishPossible(scope, f, now, v, g.order, g.before, g.access);
    FinishList(scope, f, now, v, g.order, g.before, g.access, g.changes, g.claims);
  }

  lemma FinishPossible(scope: Scope, f: Finish, now: nat, v: ReservationRec, order: OrderRec, before: seq<StockRec>,
                       access: Option<AccessRec>)
    requires ReasonFits(f.status, f.reason) && ReservationReadable(v, scope.domain) && v.status == Reserved
    requires OrderReadable(order, scope.domain, f.reservation, v, PendingCheckout) && |before| == |v.allocations|
    requires ChangesOf(scope.domain, f.reservation, MoveFor(f.status), Some(f.reason), now, v.allocations, before).Ok?
    requires OptionalAccessWrites(scope, f.event, v.order, now, access).Ok?
    ensures FinishPlan(scope, f, now, v, order, before, access).Ok?
  {
  }

  lemma FinishServes(scope: Scope, f: Finish, now: nat, v: ReservationRec, g: Gathered)
    requires |g.before| == |v.allocations| && FinishArgs(f)
    ensures PlanOf(FinishOpOf(scope, f, now, v, g)) == FinishPlan(scope, f, now, v, g.order, g.before, g.access)
    ensures Serves(FinishOpOf(scope, f, now, v, g), FinishCall(scope, f))
    ensures TicketOf(FinishOpOf(scope, f, now, v, g)).value.receipt.result == FinishResult(f.reservation, v, f.status, now, f.reason)
  {
  }

  lemma FinishReads(scope: Scope, f: Finish, now: nat, v: ReservationRec, g: Gathered, seen: set<(Key, Item)>)
    requires (ReservationKey(scope.Pk(), f.reservation), ReservationItem(v)) in seen
    requires (OrderKey(scope.Pk(), v.order), OrderItem(g.order)) in seen
    requires StockReads(scope.Pk(), v.allocations, g.before) <= seen && AccessRead(scope.Pk(), v.order, g.access) <= seen
    ensures ReadsOf(FinishOpOf(scope, f, now, v, g)) <= seen
  {
  }

  function AcknowledgeOpOf(scope: Scope, f: Finish, now: nat, v: ReservationRec, g: Gathered): Op {
    AcknowledgeOp(scope, now, f, v, g.order, g.access)
  }

  ghost predicate Acknowledgeable(scope: Scope, f: Finish, now: nat, v: ReservationRec, g: Gathered) {
    var op, plan := AcknowledgeOpOf(scope, f, now, v, g), AcknowledgeActions(scope, f, now, v, g.order, g.claims);
    && PlanOf(op) == Ok(WritesOf(plan)) && DistinctTargets(plan) && 1 <= |plan| <= MAX_TRANSACTION_ACTIONS
    && Serves(op, FinishCall(scope, f)) && TicketOf(op).value.receipt.result == TerminalResult(f.reservation, v)
  }

  lemma AcknowledgeSends(scope: Scope, f: Finish, now: nat, v: ReservationRec, g: Gathered)
    requires f.event.Some? && FinishArgs(f) && ReasonFits(f.status, f.reason)
    requires ReservationReadable(v, scope.domain) && v.status == f.status && v.reason == Some(f.reason)
    requires OrderReadable(g.order, scope.domain, f.reservation, v, AcknowledgedStatus(f.status, g.order))
    requires AccessWrites(scope, v.order, f.event.value.kind, now, g.access) == Ok(WritesOf(g.claims)) && Neat(g.claims) && |g.claims| <= 1
    ensures var plan := AcknowledgeActions(scope, f, now, v, g.order, g.claims);
      && AcknowledgePlan(scope, f, now, v, g.order, g.access) == Ok(WritesOf(plan))
      && DistinctTargets(plan) && 1 <= |plan| <= MAX_TRANSACTION_ACTIONS
  {
    assert AcknowledgePlan(scope, f, now, v, g.order, g.access).Ok?;
    AcknowledgeList(scope, f, now, v, g.order, g.access, g.claims);
  }

  lemma AcknowledgeServes(scope: Scope, f: Finish, now: nat, v: ReservationRec, g: Gathered)
    requires f.event.Some? && FinishArgs(f)
    ensures Serves(AcknowledgeOpOf(scope, f, now, v, g), FinishCall(scope, f))
    ensures TicketOf(AcknowledgeOpOf(scope, f, now, v, g)).value.receipt.result == TerminalResult(f.reservation, v)
    ensures PlanOf(AcknowledgeOpOf(scope, f, now, v, g)) == AcknowledgePlan(scope, f, now, v, g.order, g.access)
  {
  }

  lemma AcknowledgeReady(scope: Scope, f: Finish, now: nat, v: ReservationRec, g: Gathered)
    requires f.event.Some? && FinishArgs(f)
    requires var plan := AcknowledgeActions(scope, f, now, v, g.order, g.claims);
      && AcknowledgePlan(scope, f, now, v, g.order, g.access) == Ok(WritesOf(plan))
      && DistinctTargets(plan) && 1 <= |plan| <= MAX_TRANSACTION_ACTIONS
    ensures Acknowledgeable(scope, f, now, v, g)
  {
    AcknowledgeServes(scope, f, now, v, g);
  }

  lemma AcknowledgeReads(scope: Scope, f: Finish, now: nat, v: ReservationRec, g: Gathered, seen: set<(Key, Item)>)
    requires (ReservationKey(scope.Pk(), f.reservation), ReservationItem(v)) in seen
    requires (OrderKey(scope.Pk(), v.order), OrderItem(g.order)) in seen && AccessRead(scope.Pk(), v.order, g.access) <= seen
    ensures ReadsOf(AcknowledgeOpOf(scope, f, now, v, g)) <= seen
  {
  }

  /** The reservation has already ended just as the call asks, and the result says so. */
  ghost predicate AlreadyEnded(scope: Scope, f: Finish, t: Tables, r: Result<Outcome>) {
    var rk := ReservationKey(scope.Pk(), f.reservation);
    && rk in t && t[rk].ReservationItem? && t[rk].reservation.status == f.status && t[rk].reservation.reason == Some(f.reason)
    && r == Ok(TerminalResult(f.reservation, t[rk].reservation))
  }

  ghost predicate InboxSays(scope: Scope, hash: EventHash, t: Tables, result: Outcome) {
    var k := InboxKey(scope.Pk(), EventOf(hash));
    k in t && t[k].InboxItem? && t[k].inbox.hash == hash && t[k].inbox.domain == scope.domain && t[k].inbox.result == result
  }

  /** Inbox record and receipt of an event agree. */
  lemma InboxAnswers(scope: Scope, hash: EventHash, log: seq<Entry>, result: Outcome)
    requires InboxSays(scope, hash, TablesAt(log), result)
    ensures Recorded(EventCall(scope, hash), TablesAt(log), result)
  {
    RunKeeps(OpsOf(log));
    assert Sound(TablesAt(log), InboxKey(scope.Pk(), EventOf(hash)));
  }

  lemma ReceiptHasInbox(scope: Scope, e: PaymentEvent, log: seq<Entry>, result: Outcome)
    requires Recorded(EventCall(scope, PaymentHash(e, scope)), TablesAt(log), result)
    ensures InboxSays(scope, PaymentHash(e, scope), TablesAt(log), result)
  {
    RunKeeps(OpsOf(log));
    var t := TablesAt(log);
    assert Sound(t, ReceiptKey(scope.Pk(), IntegrationKey(e.event))) && Sound(t, InboxKey(scope.Pk(), e.event));
  }

  /** What an event's receipt says at the start, its inbox record says now. */
  lemma InboxDecides(scope: Scope, e: PaymentEvent, start: seq<Entry>, now: seq<Entry>)
    requires start <= now && EventCall(scope, PaymentHash(e, scope)).Receipt() in TablesAt(start)
    ensures var recalled := Recall(EventCall(scope, PaymentHash(e, scope)),
                                   TablesAt(start)[EventCall(scope, PaymentHash(e, scope)).Receipt()]);
      match recalled
      case Ok(v) => InboxSays(scope, PaymentHash(e, scope), TablesAt(now), v)
      case Err(error) => error == Conflict && forall v :: !InboxSays(scope, PaymentHash(e, scope), TablesAt(now), v)
  {
    var call := EventCall(scope, PaymentHash(e, scope));
    ReceiptStays(start, now, call.Receipt());
    var recalled := Recall(call, TablesAt(start)[call.Receipt()]);
    if recalled.Ok? {
      ReceiptHasInbox(scope, e, now, recalled.value);
    } else {
      forall v | InboxSays(scope, PaymentHash(e, scope), TablesAt(now), v) ensures false {
        InboxAnswers(scope, PaymentHash(e, scope), now, v);
      }
    }
  }

  function RefundPendingOpOf(scope: Scope, x: Refund, now: nat, v: ReservationRec, g: Gathered): Op {
    RefundPendingOp(scope, now, x, g.order, v, g.before, g.access)
  }

  ghost predicate Refundable(scope: Scope, x: Refund, now: nat, v: ReservationRec, g: Gathered) {
    var op, plan := RefundPendingOpOf(scope, x, now, v, g), RefundPendingActions(scope, x, now, g.order, v, g.changes, g.claims);
    && PlanOf(op) == Ok(WritesOf(plan)) && DistinctTargets(plan) && 1 <= |plan| <= MAX_TRANSACTION_ACTIONS
    && Serves(op, EventCall(scope, RefundHash(x, scope))) && TicketOf(op).value.receipt.result == RefundResult(x)
  }

  /** The checks that a refund of a pending order makes of the reservation it read. */
  predicate RefundReads(scope: Scope, x: Refund, order: OrderRec, v: ReservationRec) {
    && ReservationReadable(v, scope.domain) && v.order == x.order
    && OrderReadable(order, scope.domain, order.reservation, v, PendingCheckout)
  }

  lemma RefundPossible(scope: Scope, x: Refund, now: nat, v: ReservationRec, g: Gathered)
    requires RefundInputOk(x) && RefundBinding(x, g.order, scope.domain) && g.order.status == PendingCheckout
    requires RefundReads(scope, x, g.order, v) && |g.before| == |v.allocations|
    requires ChangesOf(scope.domain, g.order.reservation, CommitMove, Some(CanonicalPaid), now, v.allocations, g.before) == Ok(g.changes)
    requires AccessWrites(scope, x.order, Succeeded, now, g.access).Ok?
    ensures RefundPendingPlan(scope, x, now, g.order, v, g.before, g.access).Ok?
  {
  }

  lemma RefundServes(scope: Scope, x: Refund, now: nat, v: ReservationRec, g: Gathered)
    requires |g.before| == |v.allocations|
    ensures Serves(RefundPendingOpOf(scope, x, now, v, g), EventCall(scope, RefundHash(x, scope)))
    ensures TicketOf(RefundPendingOpOf(scope, x, now, v, g)).value.receipt.result == RefundResult(x)
    ensures PlanOf(RefundPendingOpOf(scope, x, now, v, g)) == RefundPendingPlan(scope, x, now, g.order, v, g.before, g.access)
  {
  }

  lemma RefundList(scope: Scope, x: Refund, now: nat, v: ReservationRec, g: Gathered)
    requires |g.before| == |v.allocations| && |v.allocations| <= MAX_CHECKOUT_LINES
    requires RefundPendingPlan(scope, x, now, g.order, v, g.before, g.access).Ok?
    requires ChangesOf(scope.domain, g.order.reservation, CommitMove, Some(CanonicalPaid), now, v.allocations, g.before) == Ok(g.changes)
    requires AccessWrites(scope, x.order, Succeeded, now, g.access) == Ok(WritesOf(g.claims)) && Neat(g.claims) && |g.claims| <= 1
    ensures var plan := RefundPendingActions(scope, x, now, g.order, v, g.changes, g.claims);
      && RefundPendingPlan(scope, x, now, g.order, v, g.before, g.access) == Ok(WritesOf(plan))
      && DistinctTargets(plan) && 1 <= |plan| <= MAX_TRANSACTION_ACTIONS
  {
    RefundPendingList(scope, x, now, g.order, v, g.before, g.access, g.changes, g.claims);
  }

  lemma RefundSends(scope: Scope, x: Refund, now: nat, v: ReservationRec, g: Gathered)
    requires |g.before| == |v.allocations|
    requires var plan := RefundPendingActions(scope, x, now, g.order, v, g.changes, g.claims);
      && RefundPendingPlan(scope, x, now, g.order, v, g.before, g.access) == Ok(WritesOf(plan))
      && DistinctTargets(plan) && 1 <= |plan| <= MAX_TRANSACTION_ACTIONS
    ensures Refundable(scope, x, now, v, g)
  {
    RefundServes(scope, x, now, v, g);
  }

  lemma RefundReadsStored(scope: Scope, x: Refund, now: nat, v: ReservationRec, g: Gathered, seen: set<(Key, Item)>)
    requires (ReservationKey(scope.Pk(), g.order.reservation), ReservationItem(v)) in seen
    requires (OrderKey(scope.Pk(), x.order), OrderItem(g.order)) in seen
    requires StockReads(scope.Pk(), v.allocations, g.before) <= seen && AccessRead(scope.Pk(), x.order, g.access) <= seen
    ensures ReadsOf(RefundPendingOpOf(scope, x, now, v, g)) <= seen
  {
  }

  lemma RefundPaidServes(scope: Scope, x: Refund, now: nat, order: OrderRec)
    requires RefundInputOk(x) && RefundBinding(x, order, scope.domain) && order.status == Paid
    ensures var op, plan := RefundPaidOp(scope, now, x, order), RefundPaidActions(scope, x, now, order);
      && PlanOf(op) == Ok(WritesOf(plan)) && DistinctTargets(plan) && |plan| == 4
      && Serves(op, EventCall(scope, RefundHash(x, scope))) && TicketOf(op).value.receipt.result == RefundResult(x)
  {
    assert RefundPaidPlan(scope, x, now, order).Ok?;
    RefundPaidList(scope, x, now, order);
  }

  // ----- checkout -----

  /** A checkout from valid lines and readable stocks is a plan the validator accepts. */
  lemma ReserveReady(scope: Scope, c: Checkout, key: string, now: nat, allocations: seq<Allocation>, before: seq<StockRec>,
                     changes: seq<Change>)
    requires CheckoutValid(c) && |before| == |allocations| && Aggregates(allocations, c.order.lines, c.location)
    requires ChangesOf(scope.domain, c.reservation, ReserveMove, None, now, allocations, before) == Ok(changes)
    requires OrderTotal(c.order.lines) <= MAX_AMOUNT_MINOR
    ensures ReserveSends(scope, c, key, now, allocations, before, changes)
  {
    AggregatesValid(allocations, c.order, c.location);
    ReserveList(scope, c, key, now, allocations, before, changes);
    ReserveServes(scope, c, key, now, allocations, before);
  }

  ghost predicate ReserveSends(scope: Scope, c: Checkout, key: string, now: nat, allocations: seq<Allocation>, before: seq<StockRec>,
                               changes: seq<Change>)
  {
    var op := ReserveOp(scope, now, key, c, allocations, before);
    var plan := StockActions(scope.Pk(), key, changes) + CheckoutActions(scope, c, allocations, now)
                + NewAccessActions(scope, c, now) + ReceiptActions(scope, key, c.Request(), c.Result(now), now);
    && PlanOf(op) == Ok(WritesOf(plan)) && DistinctTargets(plan) && 1 <= |plan| <= MAX_TRANSACTION_ACTIONS
    && Serves(op, CheckoutCall(scope, c, key)) && TicketOf(op).value.receipt.result == c.Result(now)
  }

  lemma ReserveServes(scope: Scope, c: Checkout, key: string, now: nat, allocations: seq<Allocation>, before: seq<StockRec>)
    ensures Serves(ReserveOp(scope, now, key, c, allocations, before), CheckoutCall(scope, c, key))
    ensures TicketOf(ReserveOp(scope, now, key, c, allocations, before)).value.receipt.result == c.Result(now)
  {
  }

  // ----- proof rotation -----

  /** The order's fiscal access waits for payment under this proof. */
  ghost predicate ProofIs(t: Tables, scope: Scope, orderId: Id, proof: string) {
    var k := AccessKey(scope.Pk(), orderId);
    k in t && t[k].AccessItem? && t[k].access.state == PendingPayment && t[k].access.proof == proof
  }

  /** This caller committed nothing but perhaps one rotation of the order's proof. */
  ghost predicate OnlyRotated(scope: Scope, orderId: Id, proof: string, now: nat, before: seq<Entry>, after: seq<Entry>) {
    && before <= after
    && (Mine(after) == Mine(before)
        || exists a :: Mine(after) == Mine(before) + [RotateOp(scope, now, orderId, proof, a)])
  }

  /** The recorded result of a checkout, or the same with the proof that now stands; never another write. */
  ghost predicate Rotation(scope: Scope, orderId: Id, proof: string, now: nat, before: seq<Entry>, after: seq<Entry>,
                           recorded: Outcome, r: Result<Outcome>)
    requires recorded.ReservedOutcome?
  {
    && OnlyRotated(scope, orderId, proof, now, before, after)
    && (r.Ok? ==> (r.value == recorded && Quiet(before, after))
                  || (r.value == recorded.(proof := Some(proof)) && ProofIs(TablesAt(after), scope, orderId, proof)))
    && (r.Err? ==> r.error == OutcomeUnknown || (r.error == Conflict && Quiet(before, after)))
  }

  /** A checkout repeated with a fresh proof: the receipt's result, after a rotation of the proof. */
  ghost predicate RotatedReplay(scope: Scope, c: Checkout, key: string, now: nat, before: seq<Entry>, after: seq<Entry>,
                                r: Result<Outcome>)
  {
    c.fiscal.Some? && exists recorded: Outcome ::
      && Recorded(CheckoutCall(scope, c, key), TablesAt(after), recorded) && recorded.ReservedOutcome? && recorded.proof.Some?
      && Rotation(scope, c.order.order, c.fiscal.value.proof, now, before, after, recorded, r)
  }

  /** An access record once readable in a domain stays readable in it. */
  lemma AccessStaysReadable(before: seq<Entry>, after: seq<Entry>, k: Key, domain: string)
    requires before <= after && k.AccessKey? && k in TablesAt(before)
    requires TablesAt(before)[k].AccessItem? && AccessReadable(TablesAt(before)[k].access, domain)
    ensures k in TablesAt(after) && TablesAt(after)[k].AccessItem? && AccessReadable(TablesAt(after)[k].access, domain)
  {
    OpsPrefix(before, after);
    SoundAt(OpsOf(after), k);
    SeenGrows(OpsOf(before), OpsOf(after));
    assert Stays(TablesAt(before)[k], TablesAt(after)[k]);
  }

  // ----- undisturbed calls -----

  /** The record stands in the tables of that moment. */
  ghost predicate Stands(log: seq<Entry>, k: Key, item: Item) {
    k in TablesAt(log) && TablesAt(log)[k] == item
  }

  /** Where a paid order is expected, one that has been refunded since will do. */
  function Expected(status: OrderStatus, order: OrderRec): OrderStatus {
    if status == Paid && order.status == Refunded then Refunded else status
  }

  /** Growth of the log past `start` is never undone. */
  ghost predicate Later(start: seq<Entry>, before: seq<Entry>, after: seq<Entry>) {
    after == start ==> before == start
  }

  ghost predicate OrderStands(log: seq<Entry>, scope: Scope, rid: Id, v: ReservationRec, status: OrderStatus) {
    var t, k := TablesAt(log), OrderKey(scope.Pk(), v.order);
    k in t && t[k].OrderItem? && OrderReadable(t[k].order, scope.domain, rid, v, Expected(status, t[k].order))
  }

  predicate StocksReady(t: Tables, scope: Scope, rid: Id, kind: MovementKind, reason: Option<Reason>, now: nat, allocations: seq<Allocation>) {
    forall i :: 0 <= i < |allocations| ==> StockReady(t, scope, rid, kind, reason, now, allocations[i])
  }

  predicate StocksAre(t: Tables, pk: Partition, allocations: seq<Allocation>, before: seq<StockRec>) {
    && |allocations| == |before|
    && forall i :: 0 <= i < |allocations| ==>
      && var k := StockKey(pk, allocations[i].location, allocations[i].stock);
         k in t && t[k] == StockItem(before[i])
  }

  predicate AccessOpens(t: Tables, scope: Scope, kind: PaymentKind, orderId: Id, now: nat) {
    var k := AccessKey(scope.Pk(), orderId);
    (k in t ==> t[k].AccessItem?) && AccessWrites(scope, orderId, kind, now, CurrentAccess(t, scope.Pk(), orderId)).Ok?
  }

  ghost predicate IsFinishNow(log: seq<Entry>, scope: Scope, f: Finish, now: nat, op: Op) {
    && Live(TablesAt(log), scope, f.reservation) && Sound(TablesAt(log), ReservationKey(scope.Pk(), f.reservation))
    && op == FinishNow(TablesAt(log), scope, f, now)
  }

  ghost predicate IsAcknowledgeNow(log: seq<Entry>, scope: Scope, f: Finish, now: nat, op: Op) {
    && Ended(TablesAt(log), scope, f) && f.status != Reserved && Sound(TablesAt(log), ReservationKey(scope.Pk(), f.reservation))
    && op == AcknowledgeNow(TablesAt(log), scope, f, now)
  }

  lemma FinishUnblocked(log: seq<Entry>, scope: Scope, f: Finish, now: nat, v: ReservationRec)
    requires Stands(log, ReservationKey(scope.Pk(), f.reservation), ReservationItem(v))
    requires ReservationReadable(v, scope.domain) && v.status == Reserved && FinishArgs(f) && ReasonFits(f.status, f.reason)
    ensures var t, pk := TablesAt(log), scope.Pk();
      && OrderStands(log, scope, f.reservation, v, PendingCheckout)
      && StocksReady(t, scope, f.reservation, MoveFor(f.status), Some(f.reason), now, v.allocations)
      && AccessMoves(t, scope, f.event, v.order, now)
  {
    RunKeeps(OpsOf(log));
    NothingBlocks(TablesAt(log), scope, f, now);
  }

  lemma FinishPlannedNow(log: seq<Entry>, scope: Scope, f: Finish, now: nat, v: ReservationRec, g: Gathered)
    requires Stands(log, ReservationKey(scope.Pk(), f.reservation), ReservationItem(v)) && v.status == Reserved && v.domain == scope.domain
    requires Stands(log, OrderKey(scope.Pk(), v.order), OrderItem(g.order))
    requires StocksAre(TablesAt(log), scope.Pk(), v.allocations, g.before)
    requires g.access == (if f.event.None? then None else CurrentAccess(TablesAt(log), scope.Pk(), v.order))
    ensures IsFinishNow(log, scope, f, now, FinishOpOf(scope, f, now, v, g))
  {
    RunKeeps(OpsOf(log));
    assert Sound(TablesAt(log), ReservationKey(scope.Pk(), f.reservation));
    assert g.before == CurrentStocks(TablesAt(log), scope.Pk(), v);
  }

  lemma FinishDecided(log: seq<Entry>, scope: Scope, f: Finish, now: nat, op: Op)
    requires IsFinishNow(log, scope, f, now, op) && FinishArgs(f) && ReasonFits(f.status, f.reason)
    ensures Commits(WorldAt(log), op) || Hopeless(FinishCall(scope, f), WorldAt(log))
  {
    RunKeeps(OpsOf(log));
    FinishDecides(WorldAt(log), scope, f, now);
  }

  lemma AcknowledgeUnblocked(log: seq<Entry>, scope: Scope, f: Finish, now: nat, v: ReservationRec)
    requires Stands(log, ReservationKey(scope.Pk(), f.reservation), ReservationItem(v)) && f.event.Some?
    requires v.domain == scope.domain && v.status == f.status && v.reason == Some(f.reason)
    requires FinishArgs(f) && ReasonFits(f.status, f.reason)
    ensures var t, pk := TablesAt(log), scope.Pk();
      && Ended(t, scope, f) && Sound(t, ReservationKey(pk, f.reservation))
      && OrderStands(log, scope, f.reservation, v, if f.status == Committed then Paid else PaymentNotCompleted)
      && AccessMoves(t, scope, f.event, v.order, now)
  {
    RunKeeps(OpsOf(log));
    NothingBlocksEnded(TablesAt(log), scope, f, now);
    assert Sound(TablesAt(log), ReservationKey(scope.Pk(), f.reservation));
  }

  lemma AcknowledgeDecided(log: seq<Entry>, scope: Scope, f: Finish, now: nat, op: Op)
    requires IsAcknowledgeNow(log, scope, f, now, op) && f.event.Some? && FinishArgs(f) && ReasonFits(f.status, f.reason)
    ensures Commits(WorldAt(log), op) || Hopeless(FinishCall(scope, f), WorldAt(log))
  {
    RunKeeps(OpsOf(log));
    AcknowledgeDecides(WorldAt(log), scope, f, now);
  }

  /** Without a readable reservation that is held, or has ended as asked, a finish has nothing to commit. */
  lemma FinishRefused(log: seq<Entry>, scope: Scope, f: Finish)
    ensures var t, rk := TablesAt(log), ReservationKey(scope.Pk(), f.reservation);
      (rk in t && t[rk].ReservationItem? && ReservationReadable(t[rk].reservation, scope.domain)
       && (t[rk].reservation.status == Reserved
           || (t[rk].reservation.status == f.status && t[rk].reservation.reason == Some(f.reason))))
      || Hopeless(FinishCall(scope, f), WorldAt(log))
  {
    RunKeeps(OpsOf(log));
    var t, rk := TablesAt(log), ReservationKey(scope.Pk(), f.reservation);
    assert Sound(t, rk);
    if !Live(t, scope, f.reservation) && !Ended(t, scope, f) { FinishNeedsReservation(WorldAt(log), scope, f); }
  }

  /** The first stocks of a list of allocations, read and moved. */
  ghost predicate MovedSoFar(scope: Scope, rid: Id, kind: MovementKind, reason: Option<Reason>, now: nat, allocations: seq<Allocation>,
                             before: seq<StockRec>, changes: seq<Change>, seen: set<(Key, Item)>)
  {
    && |before| <= |allocations|
    && ChangesOf(scope.domain, rid, kind, reason, now, allocations[..|before|], before) == Ok(changes)
    && StockReads(scope.Pk(), allocations[..|before|], before) <= seen
  }

  lemma MovedSnoc(scope: Scope, rid: Id, kind: MovementKind, reason: Option<Reason>, now: nat, allocations: seq<Allocation>,
                  before: seq<StockRec>, changes: seq<Change>, current: StockRec, c: Change, seen: set<(Key, Item)>)
    requires |before| < |allocations| && MovedSoFar(scope, rid, kind, reason, now, allocations, before, changes, seen)
    requires ChangeOf(scope.domain, rid, kind, reason, now, allocations[|before|], current) == Ok(c)
    requires (StockKey(scope.Pk(), allocations[|before|].location, allocations[|before|].stock), StockItem(current)) in seen
    ensures MovedSoFar(scope, rid, kind, reason, now, allocations, before + [current], changes + [c], seen)
  {
    ChangesSnoc(scope.domain, rid, kind, reason, now, allocations, before, changes, current, c);
    ReadsSnoc(scope.Pk(), allocations, before, current, seen);
  }

  lemma StocksSnoc(t: Tables, pk: Partition, allocations: seq<Allocation>, before: seq<StockRec>, current: StockRec)
    requires |before| < |allocations| && StocksAre(t, pk, allocations[..|before|], before)
    requires var k := StockKey(pk, allocations[|before|].location, allocations[|before|].stock); k in t && t[k] == StockItem(current)
    ensures StocksAre(t, pk, allocations[..|before| + 1], before + [current])
  {
    var n, all := |before|, before + [current];
    forall i | 0 <= i < n + 1
      ensures var k := StockKey(pk, allocations[i].location, allocations[i].stock); k in t && t[k] == StockItem(all[i])
    {
      if i < n { assert allocations[..n][i] == allocations[i]; }
    }
  }

  lemma ReadsSnoc(pk: Partition, allocations: seq<Allocation>, before: seq<StockRec>, current: StockRec, seen: set<(Key, Item)>)
    requires |before| < |allocations| && StockReads(pk, allocations[..|before|], before) <= seen
    requires (StockKey(pk, allocations[|before|].location, allocations[|before|].stock), StockItem(current)) in seen
    ensures StockReads(pk, allocations[..|before| + 1], before + [current]) <= seen
  {
    var n := |before|;
    forall read | read in StockReads(pk, allocations[..n + 1], before + [current]) ensures read in seen {
      var i :| 0 <= i < n + 1
        && read == (StockKey(pk, allocations[..n + 1][i].location, allocations[..n + 1][i].stock), StockItem((before + [current])[i]));
      if i < n {
        assert (StockKey(pk, allocations[..n][i].location, allocations[..n][i].stock), StockItem(before[i]))
            in StockReads(pk, allocations[..n], before);
      }
    }
  }

  lemma EventServed(op: Op, scope: Scope, hash: EventHash)
    requires Serves(op, EventCall(scope, hash))
    ensures op.scope.Pk() == scope.Pk()
    ensures || ((op.FinishOp? || op.AcknowledgeOp?) && op.finish.event.Some? && op.finish.event.value.event == EventOf(hash))
            || ((op.RefundPaidOp? || op.RefundPendingOp?) && op.refund.event == EventOf(hash))
  {
  }

  lemma InboxIsSpent(w: World, scope: Scope, hash: EventHash)
    requires WorldInv(w) && InboxKey(scope.Pk(), EventOf(hash)) in w.tables
    ensures Hopeless(EventCall(scope, hash), w)
  {
    forall op | Serves(op, EventCall(scope, hash)) ensures !Commits(w, op) {
      EventServed(op, scope, hash);
      if Commits(w, op) {
        if op.FinishOp? { FinishBinds(w, op); }
        else if op.AcknowledgeOp? { AcknowledgeIsCurrent(w, op); }
        else { RefundIsCurrent(w, op); }
      }
    }
  }

  /** Once anybody has recorded an event under its id, no transaction for it can be committed. */
  lemma InboxSpends(log: seq<Entry>, scope: Scope, hash: EventHash)
    requires InboxKey(scope.Pk(), EventOf(hash)) in TablesAt(log)
    ensures Hopeless(EventCall(scope, hash), WorldAt(log))
  {
    RunKeeps(OpsOf(log));
    InboxIsSpent(WorldAt(log), scope, hash);
  }

  lemma SubscriptionCommits(w: World, op: Op)
    requires op.SubscriptionOp? && InboxKey(op.scope.Pk(), op.event) !in w.tables
    ensures Commits(w, op) && InboxKey(op.scope.Pk(), op.event) in Exec(w, op).tables
  {
  }

  /** A subscription event that comes first with an id shuts out the payment or refund event of that id for good. */
  lemma SubscriptionShutsOut(ops: seq<Op>, op: Op, more: seq<Op>, hash: EventHash)
    requires op.SubscriptionOp? && op.event == EventOf(hash) && InboxKey(op.scope.Pk(), op.event) !in Run(ops).tables
    ensures Commits(Run(ops), op) && Hopeless(EventCall(op.scope, hash), Run(ops + [op] + more))
  {
    var scope := op.scope;
    SubscriptionCommits(Run(ops), op);
    RunStep(ops, op);
    WrittenOnce(ops + [op], more, InboxKey(scope.Pk(), op.event));
    RunKeeps(ops + [op] + more);
    InboxIsSpent(Run(ops + [op] + more), scope, hash);
  }

  lemma BoundReservation(t: Tables, scope: Scope, e: PaymentEvent)
    requires Inv(t)
    requires var rk := ReservationKey(scope.Pk(), e.reservation);
      rk in t && t[rk].ReservationItem? && t[rk].reservation.domain == scope.domain && EventBinds(EventFinish(e), t[rk].reservation)
    ensures Satisfied(BindingIs(scope.domain, e.reservation, e.order), Lookup(t, BindingKey(scope.Pk(), e.attempt)))
  {
    assert Sound(t, ReservationKey(scope.Pk(), e.reservation));
  }

  lemma EventWasBound(w: World, op: Op, scope: Scope, e: PaymentEvent)
    requires WorldInv(w) && Commits(w, op) && Serves(op, EventCall(scope, PaymentHash(e, scope)))
    ensures Satisfied(BindingIs(scope.domain, e.reservation, e.order), Lookup(w.tables, BindingKey(scope.Pk(), e.attempt)))
  {
    FinishServed(op, scope, EventFinish(e));
    if op.FinishOp? { FinishBinds(w, op); } else { AcknowledgeIsCurrent(w, op); }
    BoundReservation(w.tables, scope, e);
  }

  /** Without its payment binding an event cannot be committed. */
  lemma BindingNeeded(log: seq<Entry>, scope: Scope, e: PaymentEvent)
    requires !Satisfied(BindingIs(scope.domain, e.reservation, e.order), Lookup(TablesAt(log), BindingKey(scope.Pk(), e.attempt)))
    ensures Hopeless(EventCall(scope, PaymentHash(e, scope)), WorldAt(log))
  {
    RunKeeps(OpsOf(log));
    forall op | Serves(op, EventCall(scope, PaymentHash(e, scope))) ensures !Commits(WorldAt(log), op) {
      if Commits(WorldAt(log), op) { EventWasBound(WorldAt(log), op, scope, e); }
    }
  }

  ghost predicate RefundReadsStand(log: seq<Entry>, scope: Scope, x: Refund, order: OrderRec) {
    var t, k := TablesAt(log), ReservationKey(scope.Pk(), order.reservation);
    k in t && t[k].ReservationItem? && RefundReads(scope, x, order, t[k].reservation)
  }

  ghost predicate IsRefundNow(log: seq<Entry>, scope: Scope, x: Refund, now: nat, op: Op) {
    && RefundableOrder(TablesAt(log), scope, x)
    && Live(TablesAt(log), scope, TablesAt(log)[OrderKey(scope.Pk(), x.order)].order.reservation)
    && Sound(TablesAt(log), ReservationKey(scope.Pk(), TablesAt(log)[OrderKey(scope.Pk(), x.order)].order.reservation))
    && op == RefundPendingNow(TablesAt(log), scope, x, now)
  }

  lemma RefundUnblocked(log: seq<Entry>, scope: Scope, x: Refund, now: nat, order: OrderRec)
    requires Stands(log, OrderKey(scope.Pk(), x.order), OrderItem(order))
    requires RefundInputOk(x) && RefundBinding(x, order, scope.domain) && order.status == PendingCheckout
    ensures RefundReadsStand(log, scope, x, order)
    ensures var v := TablesAt(log)[ReservationKey(scope.Pk(), order.reservation)].reservation;
      && StocksReady(TablesAt(log), scope, order.reservation, CommitMove, Some(CanonicalPaid), now, v.allocations)
      && AccessOpens(TablesAt(log), scope, Succeeded, x.order, now)
  {
    RunKeeps(OpsOf(log));
    PendingIsLive(TablesAt(log), scope, x);
    NothingBlocks(TablesAt(log), scope, RefundFinish(x, order), now);
  }

  lemma RefundPlannedNow(log: seq<Entry>, scope: Scope, x: Refund, now: nat, v: ReservationRec, g: Gathered)
    requires RefundBinding(x, g.order, scope.domain) && g.order.status == PendingCheckout
    requires Stands(log, OrderKey(scope.Pk(), x.order), OrderItem(g.order))
    requires Stands(log, ReservationKey(scope.Pk(), g.order.reservation), ReservationItem(v))
    requires StocksAre(TablesAt(log), scope.Pk(), v.allocations, g.before)
    requires g.access == CurrentAccess(TablesAt(log), scope.Pk(), x.order)
    ensures IsRefundNow(log, scope, x, now, RefundPendingOpOf(scope, x, now, v, g))
  {
    RunKeeps(OpsOf(log));
    PendingIsLive(TablesAt(log), scope, x);
    assert Sound(TablesAt(log), ReservationKey(scope.Pk(), g.order.reservation));
    assert g.before == CurrentStocks(TablesAt(log), scope.Pk(), v);
  }

  lemma RefundDecided(log: seq<Entry>, scope: Scope, x: Refund, now: nat, op: Op)
    requires IsRefundNow(log, scope, x, now, op) && RefundInputOk(x) && op.order.status == PendingCheckout
    ensures Commits(WorldAt(log), op) || Hopeless(EventCall(scope, RefundHash(x, scope)), WorldAt(log))
  {
    RunKeeps(OpsOf(log));
    RefundPendingDecides(WorldAt(log), scope, x, now);
  }

  lemma RefundPaidDecided(log: seq<Entry>, scope: Scope, x: Refund, now: nat, order: OrderRec)
    requires RefundInputOk(x) && RefundBinding(x, order, scope.domain) && order.status == Paid
    requires Stands(log, OrderKey(scope.Pk(), x.order), OrderItem(order))
    ensures Commits(WorldAt(log), RefundPaidOp(scope, now, x, order)) || Hopeless(EventCall(scope, RefundHash(x, scope)), WorldAt(log))
  {
    RunKeeps(OpsOf(log));
    RefundPaidDecides(WorldAt(log), scope, x, now);
  }

  lemma RefundNotBound(log: seq<Entry>, scope: Scope, x: Refund)
    requires !RefundableOrder(TablesAt(log), scope, x)
    ensures Hopeless(EventCall(scope, RefundHash(x, scope)), WorldAt(log))
  {
    RunKeeps(OpsOf(log));
    RefundNeedsOrder(WorldAt(log), scope, x);
  }

  lemma CheckoutRefused(log: seq<Entry>, scope: Scope, c: Checkout, key: string, now: nat, allocations: seq<Allocation>)
    requires Aggregates(allocations, c.order.lines, c.location)
    requires !StocksReady(TablesAt(log), scope, c.reservation, ReserveMove, None, now, allocations) || OrderTotal(c.order.lines) > MAX_AMOUNT_MINOR
    ensures Hopeless(CheckoutCall(scope, c, key), WorldAt(log))
  {
    RunKeeps(OpsOf(log));
    ReserveNeedsStock(WorldAt(log), scope, c, key, now, allocations);
  }

  lemma CheckoutDecided(log: seq<Entry>, scope: Scope, c: Checkout, key: string, now: nat, allocations: seq<Allocation>, before: seq<StockRec>)
    requires CheckoutValid(c) && Aggregates(allocations, c.order.lines, c.location) && OrderTotal(c.order.lines) <= MAX_AMOUNT_MINOR
    requires StocksAre(TablesAt(log), scope.Pk(), allocations, before)
    requires ChangesOf(scope.domain, c.reservation, ReserveMove, None, now, allocations, before).Ok?
    ensures Commits(WorldAt(log), ReserveOp(scope, now, key, c, allocations, before)) || Hopeless(CheckoutCall(scope, c, key), WorldAt(log))
  {
    RunKeeps(OpsOf(log));
    var t := TablesAt(log);
    ChangesAt(scope.domain, c.reservation, ReserveMove, None, now, allocations, before);
    forall i | 0 <= i < |allocations| ensures StockReady(t, scope, c.reservation, ReserveMove, None, now, allocations[i]) {
      assert t[StockKey(scope.Pk(), allocations[i].location, allocations[i].stock)] == StockItem(before[i]);
    }
    ReserveDecides(WorldAt(log), scope, c, key, now, allocations);
    assert ReserveNow(t, scope, c, key, now, allocations).before == before;
  }
}
