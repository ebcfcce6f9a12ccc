/** The action lists that the store methods build, each shown to be one plan aimed at distinct records. */
module Actions {
  import opened Basics
  import opened Inventory
  import opened Records
  import opened Orders
  import opened Plans
  import opened Ledger
  import opened Operations
  import opened Backends

  function StockActions(pk: Partition, key: string, changes: seq<Change>): seq<Action> {
    if changes == [] then []
    else StockActions(pk, key, changes[..|changes| - 1]) + StockPair(pk, key, changes[|changes| - 1])
  }

  function StockPair(pk: Partition, key: string, c: Change): seq<Action> {
    [Action(StockKey(pk, c.location, c.stock), StockWrite(c)), Action(MoveKey(pk, key, c), Put(MovementItem(c.movement), Absent))]
  }

  function ReceiptActions(scope: Scope, key: string, request: Request, result: Outcome, now: nat): seq<Action> {
    [Action(ReceiptKey(scope.Pk(), key), Put(ReceiptItem(ReceiptRec(scope.domain, request, result, now)), Absent))]
  }

  function CheckoutActions(scope: Scope, c: Checkout, allocations: seq<Allocation>, now: nat): seq<Action> {
    var pk, due := scope.Pk(), ReservationTiming(now).reconcileAfter;
    [Action(ReservationKey(pk, c.reservation), Put(ReservationItem(NewReservation(scope, c, allocations, now)), Absent)),
     Action(DueKey(pk, due, c.reservation), Put(MarkerFor(scope, c.reservation, c.order.order, c.order.attempt, due), Absent)),
     Action(OrderKey(pk, c.order.order), Put(OrderItem(NewOrder(scope, c, now)), Absent)),
     Action(BindingKey(pk, c.order.attempt),
            Put(BindingItem(BindingRec(scope.domain, c.order.order, c.reservation, c.Request(), now)), Absent))]
  }

  function NewAccessActions(scope: Scope, c: Checkout, now: nat): seq<Action> {
    if c.fiscal.None? then []
    else [Action(AccessKey(scope.Pk(), c.order.order), Put(AccessItem(NewAccess(scope, c.fiscal.value, now)), Absent))]
  }

  function CompletionActions(pk: Partition, rid: Id, r: ReservationRec, order: OrderRec, status: ReservationStatus,
                             reason: Reason, now: nat, done: OrderRec): seq<Action>
  {
    [Action(ReservationKey(pk, rid),
            Put(ReservationItem(FinishedReservation(r, status, reason, now)), ReservedIs(r.revision, r.allocationHash))),
     Action(DueKey(pk, r.dueEpoch, rid), Delete(MarkerOf(rid))),
     Action(OrderKey(pk, r.order), Put(OrderItem(done), PendingOrderIs(rid, r.attempt, order.revision)))]
  }

  function BindingActions(scope: Scope, e: PaymentEvent): seq<Action> {
    [Action(BindingKey(scope.Pk(), e.attempt), Check(BindingIs(scope.domain, e.reservation, e.order)))]
  }

  function InboxActions(scope: Scope, event: Id, hash: EventHash, result: Outcome, now: nat): seq<Action> {
    [Action(InboxKey(scope.Pk(), event), Put(InboxItem(InboxRec(scope.domain, hash, now, result)), Absent))]
  }

  function OutboxActions(scope: Scope, message: Option<OutboxId>, now: nat): seq<Action> {
    match message
    case None => []
    case Some(m) => [Action(OutboxKey(scope.Pk(), m), Put(OutboxItem(OutboxRec(scope.domain, now)), Absent))]
  }

  function RefundActions(scope: Scope, x: Refund): seq<Action> {
    [Action(RefundKey(scope.Pk(), x.refund), Put(RefundItem(RefundRec(scope.domain, RefundResult(x))), Absent))]
  }

  // ----- lists and the maps they stand for -----

  lemma WritesOfOne(a: Action)
    ensures WritesOf([a]) == map[a.key := a.write]
  {
    assert [a][..0] == [];
    assert WritesOf([a][..0]) == map[];
  }

  lemma {:induction false} StockActionsAre(pk: Partition, key: string, changes: seq<Change>)
    ensures WritesOf(StockActions(pk, key, changes)) == StockWrites(pk, key, changes)
    ensures |StockActions(pk, key, changes)| == 2 * |changes|
  {
    if changes != [] {
      var n := |changes| - 1;
      StockActionsAre(pk, key, changes[..n]);
      var pair := StockPair(pk, key, changes[n]);
      assert pair == [pair[0]] + [pair[1]];
      WritesOfConcat(StockActions(pk, key, changes[..n]), pair);
      WritesOfConcat([pair[0]], [pair[1]]);
      WritesOfOne(pair[0]);
      WritesOfOne(pair[1]);
    }
  }

  lemma WritesOfThree(a: Action, b: Action, c: Action)
    ensures WritesOf([a, b, c]) == map[a.key := a.write][b.key := b.write][c.key := c.write]
  {
    assert [a, b, c] == [a] + [b] + [c];
    WritesOfConcat([a] + [b], [c]);
    WritesOfConcat([a], [b]);
    WritesOfOne(a);
    WritesOfOne(b);
    WritesOfOne(c);
  }

  lemma CompletionActionsAre(pk: Partition, key: string, rid: Id, r: ReservationRec, order: OrderRec, status: ReservationStatus,
                             reason: Reason, now: nat, done: OrderRec)
    ensures WritesOf(CompletionActions(pk, rid, r, order, status, reason, now, done))
         == CompletionWrites(pk, key, rid, r, order, status, reason, now, done)
    ensures |CompletionWrites(pk, key, rid, r, order, status, reason, now, done)| == 3
  {
    var plan := CompletionActions(pk, rid, r, order, status, reason, now, done);
    WritesOfThree(plan[0], plan[1], plan[2]);
  }

  lemma CheckoutActionsAre(scope: Scope, c: Checkout, allocations: seq<Allocation>, now: nat)
    ensures WritesOf(CheckoutActions(scope, c, allocations, now)) == CheckoutWrites(scope, c, allocations, now)
    ensures |CheckoutWrites(scope, c, allocations, now)| == 4
  {
    var plan := CheckoutActions(scope, c, allocations, now);
    assert plan == [plan[0], plan[1], plan[2]] + [plan[3]];
    WritesOfConcat([plan[0], plan[1], plan[2]], [plan[3]]);
    WritesOfThree(plan[0], plan[1], plan[2]);
    WritesOfOne(plan[3]);
  }

  lemma SmallActionsAre(scope: Scope, key: string, request: Request, result: Outcome, now: nat, event: Id, hash: EventHash)
    ensures WritesOf(ReceiptActions(scope, key, request, result, now)) == ReceiptWrites(scope, key, request, result, now)
    ensures WritesOf(InboxActions(scope, event, hash, result, now)) == InboxWrites(scope, event, hash, result, now)
  {
    WritesOfOne(ReceiptActions(scope, key, request, result, now)[0]);
    WritesOfOne(InboxActions(scope, event, hash, result, now)[0]);
  }

  lemma EventActionsAre(scope: Scope, e: PaymentEvent, message: Option<OutboxId>, now: nat)
    ensures WritesOf(BindingActions(scope, e)) == BindingCheck(scope, e)
    ensures WritesOf(OutboxActions(scope, message, now)) == OutboxWrites(scope, message, now)
    ensures |OutboxWrites(scope, message, now)| == |OutboxActions(scope, message, now)| <= 1
  {
    WritesOfOne(BindingActions(scope, e)[0]);
    if message.Some? { WritesOfOne(OutboxActions(scope, message, now)[0]); }
  }

  lemma NewAccessActionsAre(scope: Scope, c: Checkout, now: nat)
    ensures WritesOf(NewAccessActions(scope, c, now)) == NewAccessWrites(scope, c, now)
    ensures |NewAccessWrites(scope, c, now)| == |NewAccessActions(scope, c, now)| <= 1
  {
    if c.fiscal.Some? { WritesOfOne(NewAccessActions(scope, c, now)[0]); }
  }

  // ----- sizes -----

  lemma UnionSize(a: Writes, b: Writes)
    requires a.Keys !! b.Keys
    ensures |a + b| == |a| + |b|
  {
    assert (a + b).Keys == a.Keys + b.Keys;
    assert |(a + b).Keys| == |a.Keys| + |b.Keys|;
  }

  /** Disjoint parts may be listed in any order. */
  lemma Swap(a: Writes, b: Writes)
    requires a.Keys !! b.Keys
    ensures a + b == b + a
  {
  }

  /** Reserve: stock and movement per allocation, four records, the optional access and the receipt. */
  lemma ReserveList(scope: Scope, c: Checkout, key: string, now: nat, allocations: seq<Allocation>, before: seq<StockRec>,
                    changes: seq<Change>)
    requires |allocations| == |before| && AllocationsValid(allocations)
    requires ChangesOf(scope.domain, c.reservation, ReserveMove, None, now, allocations, before) == Ok(changes)
    ensures var plan := StockActions(scope.Pk(), key, changes) + CheckoutActions(scope, c, allocations, now)
                        + NewAccessActions(scope, c, now) + ReceiptActions(scope, key, c.Request(), c.Result(now), now);
      && WritesOf(plan) == ReceiptWrites(scope, key, c.Request(), c.Result(now), now)
                           + (StockWrites(scope.Pk(), key, changes) + CheckoutWrites(scope, c, allocations, now))
                           + NewAccessWrites(scope, c, now)
      && DistinctTargets(plan) && |plan| <= 2 * |allocations| + 6
  {
    var a, b, d, e := StockActions(scope.Pk(), key, changes), CheckoutActions(scope, c, allocations, now),
                      NewAccessActions(scope, c, now), ReceiptActions(scope, key, c.Request(), c.Result(now), now);
    ReserveApart(scope, c, key, now, allocations, before, changes);
    StockActionsAre(scope.Pk(), key, changes);
    StockWriteCount(scope.Pk(), key, changes) by { ChangesDistinct(scope.domain, c.reservation, ReserveMove, None, now, allocations, before); }
    CheckoutActionsAre(scope, c, allocations, now);
    NewAccessActionsAre(scope, c, now);
    SmallActionsAre(scope, key, c.Request(), c.Result(now), now, "", RefundHash(Refund("", "", "", 0, "", 0), scope));
    FourLists(a, b, d, e);
  }

  /** A list whose actions all aim at different records. */
  predicate Neat(plan: seq<Action>) {
    |WritesOf(plan)| == |plan|
  }

  lemma NeatConcat(a: seq<Action>, b: seq<Action>)
    requires Neat(a) && Neat(b) && WritesOf(a).Keys !! WritesOf(b).Keys
    ensures Neat(a + b) && WritesOf(a + b) == WritesOf(a) + WritesOf(b)
  {
    WritesOfConcat(a, b);
    UnionSize(WritesOf(a), WritesOf(b));
  }

  /** Four lists over disjoint records make one plan with distinct targets. */
  lemma FourLists(a: seq<Action>, b: seq<Action>, c: seq<Action>, d: seq<Action>)
    requires WritesOf(d).Keys !! WritesOf(a).Keys !! WritesOf(b).Keys !! WritesOf(c).Keys
    requires Neat(a) && Neat(b) && Neat(c) && Neat(d)
    ensures WritesOf(a + b + c + d) == WritesOf(d) + (WritesOf(a) + WritesOf(b)) + WritesOf(c)
    ensures DistinctTargets(a + b + c + d)
  {
    NeatConcat(a, b);
    NeatConcat(a + b, c);
    NeatConcat(a + b + c, d);
    Swap(WritesOf(a + b + c), WritesOf(d));
    UnionAssociates(WritesOf(d), WritesOf(a + b), WritesOf(c));
    DistinctBySize(a + b + c + d);
  }

  lemma UnionAssociates(a: Writes, b: Writes, c: Writes)
    ensures a + (b + c) == (a + b) + c
  {
  }

  /** Kinds of record in the order in which the store lists its actions: the parts of a plan share none. */
  function ClassOf(k: Key): nat {
    match k
    case StockKey(_, _, _) => 0
    case MovementKey(_, _, _, _, _) => 0
    case ReservationKey(_, _) => 1
    case DueKey(_, _, _) => 1
    case OrderKey(_, _) => 1
    case BindingKey(_, _) => 2
    case AccessKey(_, _) => 3
    case FiscalRequestKey(_, _) => 3
    case FiscalReceiptKey(_, _) => 3
    case RefundKey(_, _) => 4
    case InboxKey(_, _) => 5
    case OutboxKey(_, _) => 6
    case ReceiptKey(_, _) => 7
  }

  ghost predicate Within(ws: Writes, lo: nat, hi: nat) {
    forall k :: k in ws ==> lo <= ClassOf(k) < hi
  }

  /** A neat list that stands for `ws`, whose records are of the classes from `lo` to below `hi`. */
  ghost predicate Lists(plan: seq<Action>, ws: Writes, lo: nat, hi: nat) {
    WritesOf(plan) == ws && Neat(plan) && Within(ws, lo, hi)
  }

  lemma ListsConcat(a: seq<Action>, v: Writes, b: seq<Action>, w: Writes, lo: nat, mid: nat, from: nat, hi: nat)
    requires lo <= mid <= from <= hi && Lists(a, v, lo, mid) && Lists(b, w, from, hi)
    ensures Lists(a + b, v + w, lo, hi)
  {
    NeatConcat(a, b);
  }

  lemma RangesApart(a: Writes, b: Writes, lo: nat, mid: nat, from: nat, hi: nat)
    requires mid <= from && Within(a, lo, mid) && Within(b, from, hi)
    ensures a.Keys !! b.Keys
  {
  }

  /** Five lists over disjoint records, in order, make one plan with distinct targets. */
  lemma FiveLists(a: seq<Action>, check: seq<Action>, claims: seq<Action>, notices: seq<Action>, receipt: seq<Action>)
    requires Lists(a, WritesOf(a), 0, 2) && Lists(check, WritesOf(check), 2, 3) && Lists(claims, WritesOf(claims), 3, 4)
    requires Lists(notices, WritesOf(notices), 4, 7) && Lists(receipt, WritesOf(receipt), 7, 8)
    ensures WritesOf(a + check + claims + notices + receipt)
         == (WritesOf(receipt) + (WritesOf(notices) + WritesOf(check))) + WritesOf(a) + WritesOf(claims)
    ensures DistinctTargets(a + check + claims + notices + receipt)
  {
    var x, y, z, w := WritesOf(a), WritesOf(check), WritesOf(claims), WritesOf(notices);
    ListsConcat(a, x, check, y, 0, 2, 2, 3);
    ListsConcat(a + check, x + y, claims, z, 0, 3, 3, 4);
    ListsConcat(a + check + claims, x + y + z, notices, w, 0, 4, 4, 7);
    ListsConcat(a + check + claims + notices, x + y + z + w, receipt, WritesOf(receipt), 0, 7, 7, 8);
    DistinctBySize(a + check + claims + notices + receipt);
    FiveMaps(x, y, z, w, WritesOf(receipt));
  }

  lemma FiveMaps(a: Writes, check: Writes, claims: Writes, notices: Writes, receipt: Writes)
    requires Within(a, 0, 2) && Within(check, 2, 3) && Within(claims, 3, 4) && Within(notices, 4, 7) && Within(receipt, 7, 8)
    ensures a + check + claims + notices + receipt == (receipt + (notices + check)) + a + claims
  {
    RangesApart(a + check + claims + notices, receipt, 0, 7, 7, 8);
    Swap(a + check + claims + notices, receipt);
    FourMaps(a, check, claims, notices);
    UnionAssociates(receipt, (notices + check) + a, claims);
    UnionAssociates(receipt, notices + check, a);
  }

  lemma FourMaps(a: Writes, check: Writes, claims: Writes, notices: Writes)
    requires Within(a, 0, 2) && Within(check, 2, 3) && Within(claims, 3, 4) && Within(notices, 4, 7)
    ensures a + check + claims + notices == (notices + check) + a + claims
  {
    RangesApart(a + check + claims, notices, 0, 4, 4, 7);
    Swap(a + check + claims, notices);
    RangesApart(a, check, 0, 2, 2, 3);
    Swap(a, check);
    UnionAssociates(notices, check + a, claims);
    UnionAssociates(notices, check, a);
  }

  // ----- adjust and defer -----

  lemma TwoLists(a: seq<Action>, receipt: seq<Action>)
    requires WritesOf(receipt).Keys !! WritesOf(a).Keys && Neat(a) && Neat(receipt)
    ensures WritesOf(a + receipt) == WritesOf(receipt) + WritesOf(a) && DistinctTargets(a + receipt)
  {
    NeatConcat(a, receipt);
    Swap(WritesOf(a), WritesOf(receipt));
    DistinctBySize(a + receipt);
  }

  lemma ReceiptIsNeat(scope: Scope, key: string, request: Request, result: Outcome, now: nat)
    ensures var a := ReceiptActions(scope, key, request, result, now);
      Lists(a, ReceiptWrites(scope, key, request, result, now), 7, 8)
  {
    WritesOfOne(ReceiptActions(scope, key, request, result, now)[0]);
  }

  lemma StockIsNeat(pk: Partition, key: string, changes: seq<Change>)
    requires DistinctStocks(changes)
    ensures var a := StockActions(pk, key, changes);
      Lists(a, StockWrites(pk, key, changes), 0, 1) && |a| == 2 * |changes|
  {
    StockActionsAre(pk, key, changes);
    StockWriteCount(pk, key, changes);
    StockWriteKinds(pk, key, changes);
  }

  /** Adjust: stock, movement, receipt. */
  lemma AdjustList(scope: Scope, stock: Id, location: Id, delta: int, revision: nat, key: string, now: nat,
                   current: Option<StockRec>, c: Change)
    requires AdjustChange(scope, stock, location, delta, revision, now, current) == Ok(c)
    ensures var plan := StockActions(scope.Pk(), key, [c])
                        + ReceiptActions(scope, key, AdjustRequest(stock, location, delta, revision), StockResult(c), now);
      && AdjustPlan(scope, stock, location, delta, revision, key, now, current) == Ok(WritesOf(plan))
      && DistinctTargets(plan) && |plan| == 3
  {
    var request := AdjustRequest(stock, location, delta, revision);
    StockIsNeat(scope.Pk(), key, [c]);
    ReceiptIsNeat(scope, key, request, StockResult(c), now);
    TwoLists(StockActions(scope.Pk(), key, [c]), ReceiptActions(scope, key, request, StockResult(c), now));
  }

  function DeferActions(scope: Scope, rid: Id, r: ReservationRec, next: nat, now: nat): seq<Action> {
    [Action(ReservationKey(scope.Pk(), rid),
            Put(ReservationItem(DeferredReservation(r, next, now)), ReservedDueIs(r.revision, r.dueEpoch))),
     Action(DueKey(scope.Pk(), r.dueEpoch, rid), Delete(MarkerOf(rid))),
     Action(DueKey(scope.Pk(), next, rid), Put(MarkerFor(scope, rid, r.order, r.attempt, next), Absent))]
  }

  /** Defer: reservation, old marker, new marker, receipt. The two markers differ because deferral moves forward. */
  lemma DeferList(scope: Scope, rid: Id, next: nat, key: string, now: nat, r: ReservationRec)
    requires DeferPlan(scope, rid, next, key, now, r).Ok?
    ensures var plan := DeferActions(scope, rid, r, next, now)
                        + ReceiptActions(scope, key, DeferRequest(rid, next), DeferredOutcome(rid, next), now);
      && DeferPlan(scope, rid, next, key, now, r) == Ok(WritesOf(plan))
      && DistinctTargets(plan) && |plan| == 4
  {
    var a := DeferActions(scope, rid, r, next, now);
    WritesOfThree(a[0], a[1], a[2]);
    assert WritesOf(a) == DeferWrites(scope, rid, r, next, now);
    ReceiptIsNeat(scope, key, DeferRequest(rid, next), DeferredOutcome(rid, next), now);
    TwoLists(a, ReceiptActions(scope, key, DeferRequest(rid, next), DeferredOutcome(rid, next), now));
  }

  // ----- completions -----

  function CheckActions(scope: Scope, event: Option<PaymentEvent>): seq<Action> {
    if event.None? then [] else BindingActions(scope, event.value)
  }

  function NoticeActions(scope: Scope, event: Option<PaymentEvent>, oid: Id, order: OrderRec, result: Outcome, now: nat): seq<Action> {
    if event.None? then []
    else
      var e := event.value;
      InboxActions(scope, e.event, PaymentHash(e, scope), result, now)
      + OutboxActions(scope, OutboxOf(scope, e.event, e.kind, oid, order), now)
  }

  lemma NoticesAre(scope: Scope, event: Option<PaymentEvent>, oid: Id, order: OrderRec, result: Outcome, now: nat)
    ensures var check, notices := CheckActions(scope, event), NoticeActions(scope, event, oid, order, result, now);
      && Lists(check, WritesOf(check), 2, 3) && Lists(notices, WritesOf(notices), 4, 7) && |check| <= 1 && |notices| <= 2
      && OptionalEventWrites(scope, event, oid, order, result, now) == WritesOf(notices) + WritesOf(check)
  {
    if event.Some? {
      var e := event.value;
      var message := OutboxOf(scope, e.event, e.kind, oid, order);
      var inbox := InboxActions(scope, e.event, PaymentHash(e, scope), result, now);
      WritesOfOne(inbox[0]);
      EventActionsAre(scope, e, message, now);
      ListsConcat(inbox, WritesOf(inbox), OutboxActions(scope, message, now), OutboxWrites(scope, message, now), 4, 6, 6, 7);
    }
  }

  lemma CompletionActionsNeat(pk: Partition, key: string, rid: Id, r: ReservationRec, order: OrderRec, status: ReservationStatus,
                              reason: Reason, now: nat, done: OrderRec)
    ensures Lists(CompletionActions(pk, rid, r, order, status, reason, now, done),
                  CompletionWrites(pk, key, rid, r, order, status, reason, now, done), 1, 2)
  {
    CompletionActionsAre(pk, key, rid, r, order, status, reason, now, done);
  }

  lemma CompletionList(pk: Partition, key: string, changes: seq<Change>, rid: Id, r: ReservationRec, order: OrderRec,
                       status: ReservationStatus, reason: Reason, now: nat, done: OrderRec)
    requires DistinctStocks(changes)
    ensures var a := StockActions(pk, key, changes) + CompletionActions(pk, rid, r, order, status, reason, now, done);
      && Lists(a, StockWrites(pk, key, changes) + CompletionWrites(pk, key, rid, r, order, status, reason, now, done), 0, 2)
      && |a| == 2 * |changes| + 3
  {
    StockIsNeat(pk, key, changes);
    CompletionActionsNeat(pk, key, rid, r, order, status, reason, now, done);
    ListsConcat(StockActions(pk, key, changes), StockWrites(pk, key, changes),
                CompletionActions(pk, rid, r, order, status, reason, now, done),
                CompletionWrites(pk, key, rid, r, order, status, reason, now, done), 0, 1, 1, 2);
  }

  lemma ClaimClass(scope: Scope, oid: Id, kind: PaymentKind, now: nat, access: Option<AccessRec>)
    requires AccessWrites(scope, oid, kind, now, access).Ok?
    ensures Within(AccessWrites(scope, oid, kind, now, access).value, 3, 4)
  {
  }

  function FinishActions(scope: Scope, f: Finish, now: nat, r: ReservationRec, order: OrderRec, changes: seq<Change>,
                         claims: seq<Action>): seq<Action>
  {
    var result := FinishResult(f.reservation, r, f.status, now, f.reason);
    var done := FinishedOrder(order, OrderStatusFor(f.status), f.reason, now);
    StockActions(scope.Pk(), f.key, changes)
    + CompletionActions(scope.Pk(), f.reservation, r, order, f.status, f.reason, now, done)
    + CheckActions(scope, f.event) + claims + NoticeActions(scope, f.event, r.order, order, result, now)
    + ReceiptActions(scope, f.key, f.Request(scope), result, now)
  }

  /** Commit, release or payment event: at most two actions per allocation and eight more, all on distinct records. */
  lemma FinishList(scope: Scope, f: Finish, now: nat, r: ReservationRec, order: OrderRec, before: seq<StockRec>,
                   access: Option<AccessRec>, changes: seq<Change>, claims: seq<Action>)
    requires |before| == |r.allocations| && FinishPlan(scope, f, now, r, order, before, access).Ok?
    requires ChangesOf(scope.domain, f.reservation, MoveFor(f.status), Some(f.reason), now, r.allocations, before) == Ok(changes)
    requires OptionalAccessWrites(scope, f.event, r.order, now, access).Ok?
    requires Neat(claims) && |claims| <= 1 && WritesOf(claims) == OptionalAccessWrites(scope, f.event, r.order, now, access).value
    ensures var plan := FinishActions(scope, f, now, r, order, changes, claims);
      && FinishPlan(scope, f, now, r, order, before, access) == Ok(WritesOf(plan))
      && DistinctTargets(plan) && |plan| <= 2 * |r.allocations| + 8
  {
    var pk, result := scope.Pk(), FinishResult(f.reservation, r, f.status, now, f.reason);
    var done := FinishedOrder(order, OrderStatusFor(f.status), f.reason, now);
    if f.event.Some? { ClaimClass(scope, r.order, f.event.value.kind, now, access); }
    ChangesDistinct(scope.domain, f.reservation, MoveFor(f.status), Some(f.reason), now, r.allocations, before);
    NoticesAre(scope, f.event, r.order, order, result, now);
    ReceiptIsNeat(scope, f.key, f.Request(scope), result, now);
    CompletionList(pk, f.key, changes, f.reservation, r, order, f.status, f.reason, now, done);
    FiveLists(StockActions(pk, f.key, changes) + CompletionActions(pk, f.reservation, r, order, f.status, f.reason, now, done),
              CheckActions(scope, f.event), claims, NoticeActions(scope, f.event, r.order, order, result, now),
              ReceiptActions(scope, f.key, f.Request(scope), result, now));
  }

  function AcknowledgeActions(scope: Scope, f: Finish, now: nat, r: ReservationRec, order: OrderRec, claims: seq<Action>): seq<Action>
  {
    var result := TerminalResult(f.reservation, r);
    CheckActions(scope, f.event) + claims + NoticeActions(scope, f.event, r.order, order, result, now)
    + ReceiptActions(scope, f.key, f.Request(scope), result, now)
  }

  lemma AcknowledgeList(scope: Scope, f: Finish, now: nat, r: ReservationRec, order: OrderRec, access: Option<AccessRec>,
                        claims: seq<Action>)
    requires f.event.Some? && AcknowledgePlan(scope, f, now, r, order, access).Ok?
    requires AccessWrites(scope, r.order, f.event.value.kind, now, access).Ok?
    requires Neat(claims) && |claims| <= 1 && WritesOf(claims) == AccessWrites(scope, r.order, f.event.value.kind, now, access).value
    ensures var plan := AcknowledgeActions(scope, f, now, r, order, claims);
      && AcknowledgePlan(scope, f, now, r, order, access) == Ok(WritesOf(plan))
      && DistinctTargets(plan) && 1 <= |plan| <= 5
  {
    var result := TerminalResult(f.reservation, r);
    ClaimClass(scope, r.order, f.event.value.kind, now, access);
    NoticesAre(scope, f.event, r.order, order, result, now);
    ReceiptIsNeat(scope, f.key, f.Request(scope), result, now);
    NoCoreLists(CheckActions(scope, f.event), claims, NoticeActions(scope, f.event, r.order, order, result, now),
                ReceiptActions(scope, f.key, f.Request(scope), result, now));
  }

  lemma NoCoreLists(check: seq<Action>, claims: seq<Action>, notices: seq<Action>, receipt: seq<Action>)
    requires Lists(check, WritesOf(check), 2, 3) && Lists(claims, WritesOf(claims), 3, 4)
    requires Lists(notices, WritesOf(notices), 4, 7) && Lists(receipt, WritesOf(receipt), 7, 8)
    ensures WritesOf(check + claims + notices + receipt)
         == (WritesOf(receipt) + (WritesOf(notices) + WritesOf(check))) + WritesOf(claims)
    ensures DistinctTargets(check + claims + notices + receipt)
  {
    var y, z, w := WritesOf(check), WritesOf(claims), WritesOf(notices);
    ListsConcat(check, y, claims, z, 2, 3, 3, 4);
    ListsConcat(check + claims, y + z, notices, w, 2, 4, 4, 7);
    ListsConcat(check + claims + notices, y + z + w, receipt, WritesOf(receipt), 2, 7, 7, 8);
    DistinctBySize(check + claims + notices + receipt);
    FiveMaps(map[], y, z, w, WritesOf(receipt));
    EmptyUnion(y);
    UnionEmpty(WritesOf(receipt) + (w + y));
  }

  lemma EmptyUnion(a: Writes)
    ensures map[] + a == a
  {
  }

  lemma UnionEmpty(a: Writes)
    ensures a + map[] == a
  {
  }

  // ----- refunds -----

  function RefundedOrderActions(scope: Scope, x: Refund, now: nat, order: OrderRec): seq<Action> {
    [Action(OrderKey(scope.Pk(), x.order),
            Put(OrderItem(RefundedOrder(x, order, now)), PaidOrderIs(x.currency, order.amountMinor, order.revision)))]
  }

  function RefundPaidActions(scope: Scope, x: Refund, now: nat, order: OrderRec): seq<Action> {
    RefundedOrderActions(scope, x, now, order) + RefundActions(scope, x)
    + InboxActions(scope, x.event, RefundHash(x, scope), RefundResult(x), now)
    + ReceiptActions(scope, IntegrationKey(x.event), RefundRequest(x), RefundResult(x), now)
  }

  lemma RefundedOrderLists(scope: Scope, x: Refund, now: nat, order: OrderRec)
    ensures Lists(RefundedOrderActions(scope, x, now, order) + RefundActions(scope, x), RefundWrites(scope, x, order, now), 1, 5)
  {
    var a, refund := RefundedOrderActions(scope, x, now, order), RefundActions(scope, x);
    WritesOfOne(a[0]);
    WritesOfOne(refund[0]);
    ListsConcat(a, WritesOf(a), refund, WritesOf(refund), 1, 2, 4, 5);
  }

  lemma RefundPaidIs(scope: Scope, x: Refund, now: nat, order: OrderRec)
    requires RefundPaidPlan(scope, x, now, order).Ok?
    ensures RefundPaidPlan(scope, x, now, order) == Ok(RefundRecordWrites(scope, x, now) + RefundWrites(scope, x, order, now))
  {
  }

  lemma RefundPaidList(scope: Scope, x: Refund, now: nat, order: OrderRec)
    requires RefundPaidPlan(scope, x, now, order).Ok?
    ensures var plan := RefundPaidActions(scope, x, now, order);
      RefundPaidPlan(scope, x, now, order) == Ok(WritesOf(plan)) && DistinctTargets(plan) && |plan| == 4
  {
    RefundPaidIs(scope, x, now, order);
    RefundRecordLists(scope, x, now, order);
    RefundedOrderLists(scope, x, now, order);
    ReceiptIsNeat(scope, IntegrationKey(x.event), RefundRequest(x), RefundResult(x), now);
    PaidLists(RefundedOrderActions(scope, x, now, order) + RefundActions(scope, x),
              InboxActions(scope, x.event, RefundHash(x, scope), RefundResult(x), now),
              ReceiptActions(scope, IntegrationKey(x.event), RefundRequest(x), RefundResult(x), now));
  }

  lemma PaidLists(a: seq<Action>, inbox: seq<Action>, receipt: seq<Action>)
    requires Lists(a, WritesOf(a), 1, 5) && Lists(inbox, WritesOf(inbox), 5, 6) && Lists(receipt, WritesOf(receipt), 7, 8)
    ensures WritesOf(a + inbox + receipt) == (WritesOf(receipt) + WritesOf(inbox)) + WritesOf(a)
    ensures DistinctTargets(a + inbox + receipt)
  {
    ListsConcat(a, WritesOf(a), inbox, WritesOf(inbox), 1, 5, 5, 6);
    ListsConcat(a + inbox, WritesOf(a) + WritesOf(inbox), receipt, WritesOf(receipt), 1, 6, 7, 8);
    DistinctBySize(a + inbox + receipt);
    RangesApart(WritesOf(a) + WritesOf(inbox), WritesOf(receipt), 1, 6, 7, 8);
    Swap(WritesOf(a) + WritesOf(inbox), WritesOf(receipt));
    RangesApart(WritesOf(a), WritesOf(inbox), 1, 5, 5, 6);
    Swap(WritesOf(a), WritesOf(inbox));
    UnionAssociates(WritesOf(receipt), WritesOf(inbox), WritesOf(a));
  }

  function RefundedNow(x: Refund, order: OrderRec, now: nat): OrderRec {
    FinishedOrder(order, Refunded, CanonicalPaid, now).(refund := Some(x.refund), refundedAt := Some(now))
  }

  function RefundBindingEvent(x: Refund, order: OrderRec): PaymentEvent {
    PaymentEvent(x.event, Succeeded, x.occurredAt, order.reservation, x.order, order.attempt)
  }

  function RefundPendingActions(scope: Scope, x: Refund, now: nat, order: OrderRec, r: ReservationRec, changes: seq<Change>,
                                claims: seq<Action>): seq<Action>
  {
    var key := IntegrationKey(x.event);
    StockActions(scope.Pk(), key, changes)
    + CompletionActions(scope.Pk(), order.reservation, r, order, Committed, CanonicalPaid, now, RefundedNow(x, order, now))
    + BindingActions(scope, RefundBindingEvent(x, order)) + claims + RefundActions(scope, x)
    + InboxActions(scope, x.event, RefundHash(x, scope), RefundResult(x), now)
    + ReceiptActions(scope, key, RefundRequest(x), RefundResult(x), now)
  }

  lemma RefundPendingList(scope: Scope, x: Refund, now: nat, order: OrderRec, r: ReservationRec, before: seq<StockRec>,
                          access: Option<AccessRec>, changes: seq<Change>, claims: seq<Action>)
    requires |before| == |r.allocations| && RefundPendingPlan(scope, x, now, order, r, before, access).Ok?
    requires ChangesOf(scope.domain, order.reservation, CommitMove, Some(CanonicalPaid), now, r.allocations, before) == Ok(changes)
    requires AccessWrites(scope, x.order, Succeeded, now, access).Ok?
    requires Neat(claims) && |claims| <= 1 && WritesOf(claims) == AccessWrites(scope, x.order, Succeeded, now, access).value
    ensures var plan := RefundPendingActions(scope, x, now, order, r, changes, claims);
      && RefundPendingPlan(scope, x, now, order, r, before, access) == Ok(WritesOf(plan))
      && DistinctTargets(plan) && |plan| <= 2 * |r.allocations| + 8
  {
    var pk, key, done := scope.Pk(), IntegrationKey(x.event), RefundedNow(x, order, now);
    ClaimClass(scope, x.order, Succeeded, now, access);
    ChangesDistinct(scope.domain, order.reservation, CommitMove, Some(CanonicalPaid), now, r.allocations, before);
    CompletionList(pk, key, changes, order.reservation, r, order, Committed, CanonicalPaid, now, done);
    ReceiptIsNeat(scope, key, RefundRequest(x), RefundResult(x), now);
    RefundRecordLists(scope, x, now, order);
    SixLists(StockActions(pk, key, changes) + CompletionActions(pk, order.reservation, r, order, Committed, CanonicalPaid, now, done),
             BindingActions(scope, RefundBindingEvent(x, order)), claims, RefundActions(scope, x),
             InboxActions(scope, x.event, RefundHash(x, scope), RefundResult(x), now),
             ReceiptActions(scope, key, RefundRequest(x), RefundResult(x), now));
    UnionAssociates(StockWrites(pk, key, changes),
                    CompletionWrites(pk, key, order.reservation, r, order, Committed, CanonicalPaid, now, done),
                    RefundedOrderWrites(scope, x));
  }

  lemma RefundRecordLists(scope: Scope, x: Refund, now: nat, order: OrderRec)
    ensures Lists(BindingActions(scope, RefundBindingEvent(x, order)), BindingCheck(scope, RefundBindingEvent(x, order)), 2, 3)
    ensures Lists(RefundActions(scope, x), RefundedOrderWrites(scope, x), 4, 5)
    ensures Lists(InboxActions(scope, x.event, RefundHash(x, scope), RefundResult(x), now),
                  InboxWrites(scope, x.event, RefundHash(x, scope), RefundResult(x), now), 5, 6)
  {
    WritesOfOne(BindingActions(scope, RefundBindingEvent(x, order))[0]);
    WritesOfOne(RefundActions(scope, x)[0]);
    WritesOfOne(InboxActions(scope, x.event, RefundHash(x, scope), RefundResult(x), now)[0]);
  }

  lemma SixLists(a: seq<Action>, check: seq<Action>, claims: seq<Action>, refund: seq<Action>, inbox: seq<Action>, receipt: seq<Action>)
    requires Lists(a, WritesOf(a), 0, 2) && Lists(check, WritesOf(check), 2, 3) && Lists(claims, WritesOf(claims), 3, 4)
    requires Lists(refund, WritesOf(refund), 4, 5) && Lists(inbox, WritesOf(inbox), 5, 6) && Lists(receipt, WritesOf(receipt), 7, 8)
    ensures WritesOf(a + check + claims + refund + inbox + receipt)
         == ((WritesOf(receipt) + WritesOf(inbox)) + WritesOf(check)) + (WritesOf(a) + WritesOf(refund)) + WritesOf(claims)
    ensures DistinctTargets(a + check + claims + refund + inbox + receipt)
  {
    var x, y, z, u, v := WritesOf(a), WritesOf(check), WritesOf(claims), WritesOf(refund), WritesOf(inbox);
    ListsConcat(a, x, check, y, 0, 2, 2, 3);
    ListsConcat(a + check, x + y, claims, z, 0, 3, 3, 4);
    ListsConcat(a + check + claims, x + y + z, refund, u, 0, 4, 4, 5);
    ListsConcat(a + check + claims + refund, x + y + z + u, inbox, v, 0, 5, 5, 6);
    ListsConcat(a + check + claims + refund + inbox, x + y + z + u + v, receipt, WritesOf(receipt), 0, 6, 7, 8);
    DistinctBySize(a + check + claims + refund + inbox + receipt);
    SixMaps(x, y, z, u, v, WritesOf(receipt));
  }

  lemma SixMaps(a: Writes, check: Writes, claims: Writes, refund: Writes, inbox: Writes, receipt: Writes)
    requires Within(a, 0, 2) && Within(check, 2, 3) && Within(claims, 3, 4) && Within(refund, 4, 5)
    requires Within(inbox, 5, 6) && Within(receipt, 7, 8)
    ensures a + check + claims + refund + inbox + receipt == ((receipt + inbox) + check) + (a + refund) + claims
  {
    RangesApart(a + check + claims + refund + inbox, receipt, 0, 6, 7, 8);
    Swap(a + check + claims + refund + inbox, receipt);
    RangesApart(a + check + claims + refund, inbox, 0, 5, 5, 6);
    Swap(a + check + claims + refund, inbox);
    RefundMaps(a, check, claims, refund);
    UnionAssociates(inbox, check + (a + refund), claims);
    UnionAssociates(inbox, check, a + refund);
    UnionAssociates(receipt, (inbox + check) + (a + refund), claims);
    UnionAssociates(receipt, inbox + check, a + refund);
    UnionAssociates(receipt, inbox, check);
  }

  lemma RefundMaps(a: Writes, check: Writes, claims: Writes, refund: Writes)
    requires Within(a, 0, 2) && Within(check, 2, 3) && Within(claims, 3, 4) && Within(refund, 4, 5)
    ensures a + check + claims + refund == check + (a + refund) + claims
  {
    RangesApart(a, check, 0, 2, 2, 3);
    Swap(a, check);
    RangesApart(claims, refund, 3, 4, 4, 5);
    Swap(claims, refund);
    UnionAssociates(check + a, claims, refund);
    UnionAssociates(check + a, refund, claims);
    UnionAssociates(check, a, refund);
  }
}
