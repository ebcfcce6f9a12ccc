/** When a fiscal claim may be redeemed: from the payment that opens its window until the window has passed. */
module FiscalWindows {
  import opened Basics
  import opened Inventory
  import opened Records
  import opened Orders
  import opened Plans
  import opened Ledger
  import opened Protocol
  import opened Operations
  import opened Runs
  import opened Idempotency
  import opened HeldOrders
  import opened Progress
  import opened Refusals
  import opened Calls
  import opened FiscalStores

  // ----- only a payment outcome moves an access out of pending payment -----

  /** The order that an operation brings a verified payment outcome for, and which one; a refund implies a success. */
  function OutcomeOf(op: Op): Option<(Id, PaymentKind)> {
    match op
    case FinishOp(_, _, f, r, _, _, _) => if f.event.None? then None else Some((r.order, f.event.value.kind))
    case AcknowledgeOp(_, _, f, r, _, _) => if f.event.None? then None else Some((r.order, f.event.value.kind))
    case RefundPendingOp(_, _, x, _, _, _, _) => Some((x.order, Succeeded))
    case _ => None
  }

  /** The access that an operation with an outcome had read, and the id of its event. */
  function AccessOf(op: Op): Option<AccessRec> {
    if op.FinishOp? || op.AcknowledgeOp? || op.RefundPendingOp? then op.access else None
  }

  function EventIdOf(op: Op): Id
    requires OutcomeOf(op).Some?
  {
    if op.RefundPendingOp? then op.refund.event else op.finish.event.value.event
  }

  predicate Opens(op: Op, k: Key)
    requires k.AccessKey?
  {
    op.scope.Pk() == k.pk && OutcomeOf(op) == Some((k.order, Succeeded))
  }

  /** The first plan writes accesses as the second does. */
  ghost predicate SameAccess(ws: Writes, claims: Writes) {
    forall k: Key :: k.AccessKey? ==> (k in ws <==> k in claims) && (k in claims ==> ws[k] == claims[k])
  }

  /** In a plan of four groups what concerns claims is the last part's. */
  lemma ClaimsInPlan(a: Writes, b: Writes, c: Writes, d: Writes)
    requires InGroup(a, Records) && InGroup(b, Log) && InGroup(c, Core) && InGroup(d, Claims)
    ensures SameAccess(a + (b + c) + d, d)
  {
  }

  lemma CompletionClaims(records: Writes, c: Completion, claims: Writes)
    requires InGroup(records, Records) && InGroup(claims, Claims) && AllocationsValid(c.r.allocations) && |c.before| == |c.r.allocations|
    requires ChangesOf(c.scope.domain, c.rid, MoveFor(c.status), Some(c.reason), c.now, c.r.allocations, c.before) == Ok(c.changes)
    ensures SameAccess(records + (c.Stock() + c.Core()) + claims, claims)
  {
    ChangesDistinct(c.scope.domain, c.rid, MoveFor(c.status), Some(c.reason), c.now, c.r.allocations, c.before);
    StockGroup(c.scope.Pk(), c.key, c.changes);
    CoreGroup(c);
    ClaimsInPlan(records, c.Stock(), c.Core(), claims);
  }

  /** What the plan does to accesses is the transition that the outcome calls for. */
  ghost predicate MovesAccess(op: Op)
    requires PlanOf(op).Ok?
  {
    match OutcomeOf(op)
    case None => SameAccess(PlanOf(op).value, map[])
    case Some(o) =>
      && AccessWrites(op.scope, o.0, o.1, op.now, AccessOf(op)).Ok?
      && SameAccess(PlanOf(op).value, AccessWrites(op.scope, o.0, o.1, op.now, AccessOf(op)).value)
  }

  lemma FinishMovesAccess(op: Op)
    requires op.FinishOp? && PlanOf(op).Ok?
    ensures MovesAccess(op)
  {
    var scope, f, now, r := op.scope, op.finish, op.now, op.reservation;
    FinishIsCompletion(scope, f, now, r, op.order, op.before, op.access);
    var c := FinishCompletion(scope, f, now, r, op.order, op.before);
    var claims := OptionalAccessWrites(scope, f.event, r.order, now, op.access).value;
    RecordsGroup(scope, f, now, r, op.order);
    ClaimsGroup(c, claims, KindOf(f.event), op.access);
    CompletionClaims(FinishRecords(scope, f, now, r, op.order), c, claims);
  }

  lemma AcknowledgeMovesAccess(op: Op)
    requires op.AcknowledgeOp? && PlanOf(op).Ok?
    ensures MovesAccess(op)
  {
    var scope, f, now, r := op.scope, op.finish, op.now, op.reservation;
    NoReceipt(scope, f.event, r.order, op.order, TerminalResult(f.reservation, r), now);
    AccessGroup(scope, r.order, f.event.value.kind, now, op.access);
  }

  lemma RefundMovesAccess(op: Op)
    requires op.RefundPendingOp? && PlanOf(op).Ok?
    ensures MovesAccess(op)
  {
    var scope, x, now := op.scope, op.refund, op.now;
    RefundIsCompletion(scope, x, now, op.order, op.reservation, op.before, op.access);
    var c := RefundCompletion(scope, x, now, op.order, op.reservation, op.before);
    var claims := AccessWrites(scope, x.order, Succeeded, now, op.access).value;
    RefundRecordsGroup(scope, x, now, op.order);
    AccessGroup(scope, x.order, Succeeded, now, op.access);
    CompletionClaims(RefundPendingRecords(scope, x, now, op.order), c, claims);
  }

  /** The access writes of an outcome, one case after the other. */
  predicate OutcomeWrite(write: Write, op: Op, kind: PaymentKind, a: AccessRec) {
    && write.Put? && write.item.AccessItem? && write.condition == AccessIs(PendingPayment, a.proof, a.revision, a.expiresAt)
    && a.state == PendingPayment && a.domain == op.scope.domain
    && var b := write.item.access;
    && b.domain == a.domain && b.proof == a.proof && b.attempts == a.attempts && b.window == a.window && b.createdAt == a.createdAt
    && b.request == a.request && b.revision == a.revision + 1
    && match kind
       case Succeeded => b.state == Eligible && b.eligibleAt == Some(op.now) && b.expiresAt == op.now + a.window
       case TerminalUnpaid => b.state == Ineligible && b.eligibleAt == a.eligibleAt && b.expiresAt == a.expiresAt
  }

  lemma OutcomeWrites(op: Op, k: Key)
    requires (op.FinishOp? || op.AcknowledgeOp? || op.RefundPendingOp?) && PlanOf(op).Ok? && k.AccessKey? && k in PlanOf(op).value
    ensures OutcomeOf(op).Some? && k == AccessKey(op.scope.Pk(), OutcomeOf(op).value.0) && op.access.Some?
    ensures OutcomeWrite(PlanOf(op).value[k], op, OutcomeOf(op).value.1, op.access.value)
  {
    if op.FinishOp? { FinishMovesAccess(op); }
    else if op.AcknowledgeOp? { AcknowledgeMovesAccess(op); }
    else { RefundMovesAccess(op); }
  }

  /** Nobody else moves an access out of pending payment: a checkout makes it so, a rotation leaves it so, a claim needs it eligible. */
  predicate LeavesAlone(write: Write) {
    || write.condition.EligibleIs?
    || (write.Put? && write.item.AccessItem? && write.item.access.state == PendingPayment)
  }

  lemma AdjustWritesNone(op: Op, k: Key)
    requires op.AdjustOp? && PlanOf(op).Ok? && k.AccessKey?
    ensures k !in PlanOf(op).value
  {
    StockHasNoAccess(op.scope.Pk(), op.key, [AdjustChange(op.scope, op.stock, op.location, op.delta, op.expectedRevision, op.now, op.current).value]);
  }

  lemma ReserveWritesNew(op: Op, k: Key)
    requires op.ReserveOp? && PlanOf(op).Ok? && k.AccessKey? && k in PlanOf(op).value
    ensures LeavesAlone(PlanOf(op).value[k])
  {
    var rid := op.checkout.reservation;
    StockHasNoAccess(op.scope.Pk(), op.key, ChangesOf(op.scope.domain, rid, ReserveMove, None, op.now, op.allocations, op.before).value);
  }

  lemma OtherWrites(op: Op, k: Key)
    requires !(op.FinishOp? || op.AcknowledgeOp? || op.RefundPendingOp?) && PlanOf(op).Ok? && k.AccessKey? && k in PlanOf(op).value
    ensures LeavesAlone(PlanOf(op).value[k])
  {
    if op.AdjustOp? { AdjustWritesNone(op, k); }
    else if op.ReserveOp? { ReserveWritesNew(op, k); }
  }

  lemma StockHasNoAccess(pk: Partition, key: string, changes: seq<Change>)
    ensures forall k: Key :: k in StockWrites(pk, key, changes) ==> !k.AccessKey?
  {
    forall k: Key | k in StockWrites(pk, key, changes) ensures !k.AccessKey? {
      var i := StockWriteSource(pk, key, changes, k);
    }
  }

  lemma LeavesPending(w: World, op: Op, k: Key)
    requires WorldInv(w) && Commits(w, op) && k.AccessKey? && k in w.tables && w.tables[k].AccessItem?
    requires w.tables[k].access.state == PendingPayment
    requires k in Exec(w, op).tables && Exec(w, op).tables[k].AccessItem? && Exec(w, op).tables[k].access.state in {Eligible, Consumed}
    ensures Opens(op, k)
    ensures var b := Exec(w, op).tables[k].access; b.state == Eligible && b.eligibleAt == Some(op.now)
  {
    assert k in PlanOf(op).value && Satisfied(PlanOf(op).value[k].condition, Lookup(w.tables, k));
    if op.FinishOp? || op.AcknowledgeOp? || op.RefundPendingOp? {
      OutcomeWrites(op, k);
    } else {
      OtherWrites(op, k);
    }
  }

  // ----- the window in every run -----

  /** The operation notes its event in the inbox, and the time with it. */
  predicate NotesTime(ws: Writes, op: Op)
    requires OutcomeOf(op).Some?
  {
    var k := InboxKey(op.scope.Pk(), EventIdOf(op));
    k in ws && ws[k].Put? && ws[k].item.InboxItem? && ws[k].item.inbox.processedAt == op.now && EventOf(ws[k].item.inbox.hash) == EventIdOf(op)
  }

  lemma FinishNotes(op: Op)
    requires op.FinishOp? && PlanOf(op).Ok? && OutcomeOf(op).Some?
    ensures NotesTime(PlanOf(op).value, op)
  {
    var scope, f, now, r := op.scope, op.finish, op.now, op.reservation;
    FinishIsCompletion(scope, f, now, r, op.order, op.before, op.access);
    var c := FinishCompletion(scope, f, now, r, op.order, op.before);
    var claims := OptionalAccessWrites(scope, f.event, r.order, now, op.access).value;
    RecordsGroup(scope, f, now, r, op.order);
    ClaimsGroup(c, claims, KindOf(f.event), op.access);
    FinishRecordsNote(op);
    NotedInPlan(FinishRecords(scope, f, now, r, op.order), c, claims, op);
  }

  lemma FinishRecordsNote(op: Op)
    requires op.FinishOp? && OutcomeOf(op).Some?
    ensures NotesTime(FinishRecords(op.scope, op.finish, op.now, op.reservation, op.order), op)
  {
  }

  lemma RefundNotes(op: Op)
    requires op.RefundPendingOp? && PlanOf(op).Ok?
    ensures NotesTime(PlanOf(op).value, op)
  {
    var scope, x, now := op.scope, op.refund, op.now;
    RefundIsCompletion(scope, x, now, op.order, op.reservation, op.before, op.access);
    var c := RefundCompletion(scope, x, now, op.order, op.reservation, op.before);
    var claims := AccessWrites(scope, x.order, Succeeded, now, op.access).value;
    AccessGroup(scope, x.order, Succeeded, now, op.access);
    RefundRecordsNote(op);
    NotedInPlan(RefundPendingRecords(scope, x, now, op.order), c, claims, op);
  }

  lemma RefundRecordsNote(op: Op)
    requires op.RefundPendingOp?
    ensures NotesTime(RefundPendingRecords(op.scope, op.refund, op.now, op.order), op)
  {
  }

  lemma NotedInPlan(records: Writes, c: Completion, claims: Writes, op: Op)
    requires InGroup(claims, Claims) && AllocationsValid(c.r.allocations) && |c.before| == |c.r.allocations|
    requires ChangesOf(c.scope.domain, c.rid, MoveFor(c.status), Some(c.reason), c.now, c.r.allocations, c.before) == Ok(c.changes)
    requires OutcomeOf(op).Some? && NotesTime(records, op)
    ensures NotesTime(records + (c.Stock() + c.Core()) + claims, op)
  {
    ChangesDistinct(c.scope.domain, c.rid, MoveFor(c.status), Some(c.reason), c.now, c.r.allocations, c.before);
    StockGroup(c.scope.Pk(), c.key, c.changes);
    CoreGroup(c);
    var k := InboxKey(op.scope.Pk(), EventIdOf(op));
    assert GroupOf(k) == Records;
  }

  lemma AcknowledgeNotes(op: Op)
    requires op.AcknowledgeOp? && PlanOf(op).Ok?
    ensures NotesTime(PlanOf(op).value, op)
  {
    AccessGroup(op.scope, op.reservation.order, op.finish.event.value.kind, op.now, op.access);
  }

  lemma OutcomeNoted(w: World, op: Op)
    requires Commits(w, op) && OutcomeOf(op).Some?
    ensures var k := InboxKey(op.scope.Pk(), EventIdOf(op));
      k in Exec(w, op).tables && Exec(w, op).tables[k].InboxItem? && Exec(w, op).tables[k].inbox.processedAt == op.now
  {
    if op.FinishOp? { FinishNotes(op); }
    else if op.AcknowledgeOp? { AcknowledgeNotes(op); }
    else { RefundNotes(op); }
  }

  /** The access was opened by operation `i`, whose event is recorded with its time, and its window starts then. */
  ghost predicate OpenedBy(ops: seq<Op>, i: nat, k: Key)
    requires k.AccessKey? && k in Run(ops).tables && Run(ops).tables[k].AccessItem?
  {
    && i < |ops| && Commits(Run(ops[..i]), ops[i]) && Opens(ops[i], k)
    && var t, a, ik := Run(ops).tables, Run(ops).tables[k].access, InboxKey(k.pk, EventIdOf(ops[i]));
    && ik in t && t[ik].InboxItem? && t[ik].inbox.processedAt == ops[i].now
    && a.expiresAt == ops[i].now + a.window && a.expiresAt - a.window == t[ik].inbox.processedAt
  }

  lemma OpenedStays(ops: seq<Op>, i: nat, k: Key, op: Op)
    requires k.AccessKey? && k in Run(ops).tables && Run(ops).tables[k].AccessItem? && OpenedBy(ops, i, k)
    requires Run(ops).tables[k].access.state in {Eligible, Consumed}
    ensures k in Run(ops + [op]).tables && Run(ops + [op]).tables[k].AccessItem? && OpenedBy(ops + [op], i, k)
  {
    WrittenOnce(ops, [op], InboxKey(k.pk, EventIdOf(ops[i])));
    WindowStays(ops, k, op);
    assert (ops + [op])[..i] == ops[..i] && (ops + [op])[i] == ops[i];
  }

  lemma WindowStays(ops: seq<Op>, k: Key, op: Op)
    requires k.AccessKey? && k in Run(ops).tables && Run(ops).tables[k].AccessItem?
    requires Run(ops).tables[k].access.state in {Eligible, Consumed}
    ensures k in Run(ops + [op]).tables && Run(ops + [op]).tables[k].AccessItem?
    ensures var a, b := Run(ops).tables[k].access, Run(ops + [op]).tables[k].access; a.expiresAt == b.expiresAt && a.window == b.window
  {
    RunAdvances(ops, [op]);
    assert Stays(Run(ops).tables[k], Run(ops + [op]).tables[k]);
  }

  lemma OpenedNow(ops: seq<Op>, op: Op, k: Key)
    requires k.AccessKey? && k in Run(ops + [op]).tables && Run(ops + [op]).tables[k].AccessItem?
    requires Run(ops + [op]).tables[k].access.state in {Eligible, Consumed}
    requires k in Run(ops).tables ==> Run(ops).tables[k].AccessItem? && Run(ops).tables[k].access.state !in {Eligible, Consumed}
    ensures OpenedBy(ops + [op], |ops|, k)
  {
    RunKeeps(ops);
    RunStep(ops, op);
    SoundAt(ops + [op], k);
    assert (ops + [op])[..|ops|] == ops;
    if k !in Run(ops).tables { NewIsPending(Run(ops), op, k); }
    PendingIsLeft(ops, op, k);
    LeavesPending(Run(ops), op, k);
    OutcomeNoted(Run(ops), op);
  }

  lemma PendingIsLeft(ops: seq<Op>, op: Op, k: Key)
    requires k.AccessKey? && k in Run(ops).tables && k in Run(ops + [op]).tables && Run(ops + [op]).tables[k].AccessItem?
    requires Run(ops).tables[k].AccessItem? && Run(ops).tables[k].access.state !in {Eligible, Consumed}
    requires Run(ops + [op]).tables[k].access.state in {Eligible, Consumed}
    ensures Run(ops).tables[k].access.state == PendingPayment && Commits(Run(ops), op)
  {
    RunStep(ops, op);
    RunAdvances(ops, [op]);
    assert Stays(Run(ops).tables[k], Run(ops + [op]).tables[k]);
  }

  /** A new access is pending. */
  lemma NewIsPending(w: World, op: Op, k: Key)
    requires k.AccessKey? && k !in w.tables && k in Exec(w, op).tables
    ensures Exec(w, op).tables[k].AccessItem? && Exec(w, op).tables[k].access.state == PendingPayment
  {
    assert k in PlanOf(op).value && Satisfied(PlanOf(op).value[k].condition, Lookup(w.tables, k));
    if op.FinishOp? || op.AcknowledgeOp? || op.RefundPendingOp? {
      OutcomeWrites(op, k);
    } else {
      OtherWrites(op, k);
    }
  }

  /**
   * In every run, an eligible or consumed access expires exactly its window after the time of the operation that opened
   * it: the time which that operation noted in the inbox beside its payment or refund event.
   */
  lemma {:induction false} EligibleSince(ops: seq<Op>, k: Key) returns (i: nat)
    requires k.AccessKey? && k in Run(ops).tables && Run(ops).tables[k].AccessItem?
    requires Run(ops).tables[k].access.state in {Eligible, Consumed}
    ensures OpenedBy(ops, i, k)
  {
    var init, op := ops[..|ops| - 1], ops[|ops| - 1];
    assert init + [op] == ops;
    SoundAt(init, k);
    if k in Run(init).tables && Run(init).tables[k].access.state in {Eligible, Consumed} {
      i := EligibleSince(init, k);
      OpenedStays(init, i, k, op);
    } else {
      OpenedNow(init, op, k);
      i := |init|;
    }
  }

  /** Before a payment opens it, and if none ever does, an access carries the end of a window that starts with the first reconciliation. */
  lemma ClosedUntilPaid(ops: seq<Op>, k: Key)
    requires k.AccessKey? && k in Run(ops).tables
    ensures var t := Run(ops).tables;
      && t[k].AccessItem? && OrderKey(k.pk, k.order) in t && t[OrderKey(k.pk, k.order)].OrderItem?
      && var a, o := t[k].access, t[OrderKey(k.pk, k.order)].order;
      && a.createdAt == o.createdAt
      && (a.state in {PendingPayment, Ineligible} ==>
            && a.attempts == 0 && a.request.None?
            && a.expiresAt == o.checkoutExpiresAt + RECONCILIATION_GRACE_SECONDS + a.window)
  {
    SoundAt(ops, k);
    SoundAt(ops, OrderKey(k.pk, k.order));
    SoundAt(ops, ReservationKey(k.pk, Run(ops).tables[OrderKey(k.pk, k.order)].order.reservation));
  }

  // ----- when a claim can be redeemed -----

  /** The claim's access is open to it: eligible, of its proof, with an attempt left, before it expires; and its key is new. */
  predicate Redeemable(t: Tables, claim: Claim) {
    var k := AccessKey(claim.scope.Pk(), claim.order);
    && k in t && t[k].AccessItem? && FiscalReceiptKey(claim.scope.Pk(), claim.key) !in t
    && var a := t[k].access;
    && a.domain == claim.scope.domain && a.state == Eligible && a.proof == claim.proof && a.attempts < 5 && claim.now < a.expiresAt
  }

  lemma RedeemableExactly(w: World, claim: Claim)
    requires WorldInv(w)
    ensures Unredeemable(claim, w) <==> !Redeemable(w.tables, claim)
  {
    var k := AccessKey(claim.scope.Pk(), claim.order);
    assert Sound(w.tables, k);
    if Redeemable(w.tables, claim) {
      RedemptionCommits(w, claim, w.tables[k].access);
    } else {
      forall a ensures !Commits(w, claim.Op(a)) {
        if Commits(w, claim.Op(a)) { RedemptionIsCurrent(w, claim, a); }
      }
    }
  }

  /** The payment outcome was planned from the access as it stood, while payment was pending. */
  ghost predicate OpensNow(w: World, op: Op, k: Key, a: AccessRec)
    requires k.AccessKey?
  {
    && Commits(w, op) && Opens(op, k) && k in w.tables && w.tables[k] == AccessItem(a) && a.state == PendingPayment
    && AccessOf(op) == Some(a)
  }

  lemma OpenedAccess(w: World, op: Op, k: Key, a: AccessRec)
    requires WorldInv(w) && k.AccessKey? && OpensNow(w, op, k, a)
    ensures var t := Exec(w, op).tables;
      && k in t && t[k].AccessItem?
      && var b := t[k].access;
         b.state == Eligible && b.domain == op.scope.domain && b.proof == a.proof && b.attempts == 0 && b.expiresAt == op.now + a.window
  {
    assert Sound(w.tables, k);
    AccessInPlan(op, k);
    OutcomeWrites(op, k);
  }

  lemma AccessInPlan(op: Op, k: Key)
    requires PlanOf(op).Ok? && k.AccessKey? && Opens(op, k) && AccessOf(op).Some? && AccessOf(op).value.state == PendingPayment
    ensures k in PlanOf(op).value
  {
    if op.FinishOp? { FinishMovesAccess(op); }
    else if op.AcknowledgeOp? { AcknowledgeMovesAccess(op); }
    else { RefundMovesAccess(op); }
  }

  /**
   * Once a payment or an overtaking refund has opened the access at `now`, a claim under a new key can be redeemed exactly
   * if it brings the access's proof before now + window: at every time until then, and at none from then on.
   */
  lemma WindowIsOpen(w: World, op: Op, a: AccessRec, claim: Claim)
    requires WorldInv(w) && claim.scope.Pk() == op.scope.Pk() && claim.scope.domain == op.scope.domain
    requires OpensNow(w, op, AccessKey(claim.scope.Pk(), claim.order), a) && FiscalReceiptKey(claim.scope.Pk(), claim.key) !in Exec(w, op).tables
    ensures Unredeemable(claim, Exec(w, op)) <==> claim.proof != a.proof || claim.now >= op.now + a.window
  {
    OpenedAccess(w, op, AccessKey(claim.scope.Pk(), claim.order), a);
    ExecKeeps(w, op);
    RedeemableExactly(Exec(w, op), claim);
  }

  /** The claim is for the order's access, and its key is new. */
  predicate NewClaim(t: Tables, claim: Claim, scope: Scope, order: Id) {
    claim.scope == scope && claim.order == order && FiscalReceiptKey(scope.Pk(), claim.key) !in t
  }

  /**
   * In every reachable state: an undisturbed success event for a held reservation, under new ids, opens the pending access
   * of its order; then a claim under a new key can be redeemed exactly with the access's proof and before now + window.
   */
  lemma PaidThenClaimed(ops: seq<Op>, scope: Scope, e: PaymentEvent, now: nat, a: AccessRec, claim: Claim)
    requires var t := Run(ops).tables;
      && e.kind == Succeeded && Live(t, scope, e.reservation) && Endable(t, scope, EventFinish(e))
      && AccessKey(scope.Pk(), e.order) in t && t[AccessKey(scope.Pk(), e.order)] == AccessItem(a) && a.state == PendingPayment
    ensures Sound(Run(ops).tables, ReservationKey(scope.Pk(), e.reservation))
    ensures var paid := Run(ops + [FinishNow(Run(ops).tables, scope, EventFinish(e), now)]);
      NewClaim(paid.tables, claim, scope, e.order) ==>
        (Unredeemable(claim, paid) <==> claim.proof != a.proof || claim.now >= now + a.window)
  {
    var w := Run(ops);
    RunKeeps(ops);
    FinishDecides(w, scope, EventFinish(e), now);
    var op := FinishNow(w.tables, scope, EventFinish(e), now);
    RunStep(ops, op);
    if NewClaim(Exec(w, op).tables, claim, scope, e.order) { WindowIsOpen(w, op, a, claim); }
  }

  /** The same for an undisturbed refund that overtakes the payment. */
  lemma RefundedThenClaimed(ops: seq<Op>, scope: Scope, x: Refund, now: nat, a: AccessRec, claim: Claim)
    requires var t := Run(ops).tables;
      && Coverable(t, scope, x) && t[OrderKey(scope.Pk(), x.order)].order.status == PendingCheckout
      && AccessKey(scope.Pk(), x.order) in t && t[AccessKey(scope.Pk(), x.order)] == AccessItem(a) && a.state == PendingPayment
    ensures Live(Run(ops).tables, scope, Run(ops).tables[OrderKey(scope.Pk(), x.order)].order.reservation)
    ensures Sound(Run(ops).tables, ReservationKey(scope.Pk(), Run(ops).tables[OrderKey(scope.Pk(), x.order)].order.reservation))
    ensures var refunded := Run(ops + [RefundPendingNow(Run(ops).tables, scope, x, now)]);
      NewClaim(refunded.tables, claim, scope, x.order) ==>
        (Unredeemable(claim, refunded) <==> claim.proof != a.proof || claim.now >= now + a.window)
  {
    var w := Run(ops);
    RunKeeps(ops);
    PendingCommits(w, scope, x, now);
    var op := RefundPendingNow(w.tables, scope, x, now);
    RunStep(ops, op);
    if NewClaim(Exec(w, op).tables, claim, scope, x.order) { WindowIsOpen(w, op, a, claim); }
  }
}
