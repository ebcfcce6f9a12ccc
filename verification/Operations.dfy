/** Every operation's plan, when its conditions hold, leads from sound tables to sound tables. */
module Operations {
  import opened Basics
  import opened Inventory
  import opened Records
  import opened Orders
  import opened Plans
  import opened Ledger
  import opened Protocol
  import opened Steps
  import opened Parts

  // ----- adjust -----

  lemma AdjustKeeps(t: Tables, scope: Scope, stock: Id, location: Id, delta: int, revision: nat, key: string, now: nat,
                    current: Option<StockRec>)
    requires Inv(t) && AdjustPlan(scope, stock, location, delta, revision, key, now, current).Ok?
    requires Holds(t, AdjustPlan(scope, stock, location, delta, revision, key, now, current).value)
    requires current.Some? ==> Was(t, StockKey(scope.Pk(), location, stock), StockItem(current.value))
    ensures Good(t, Apply(t, AdjustPlan(scope, stock, location, delta, revision, key, now, current).value))
  {
    var pk := scope.Pk();
    var c := AdjustChange(scope, stock, location, delta, revision, now, current).value;
    var request := AdjustRequest(stock, location, delta, revision);
    var receipt := ReceiptWrites(scope, key, request, StockResult(c), now);
    var ws := StockWrites(pk, key, [c]);
    StockWriteKinds(pk, key, [c]);
    ApplyInParts(t, receipt, ws);
    ReceiptPart(t, scope, key, request, StockResult(c), now);
    var u := Apply(t, receipt);
    AdjustFits(u, scope, stock, location, delta, revision, key, now, current, c);
    AdjustPart(u, pk, key, c);
    GoodTransitive(t, u, Apply(u, ws));
  }

  lemma AdjustFits(u: Tables, scope: Scope, stock: Id, location: Id, delta: int, revision: nat, key: string, now: nat,
                   current: Option<StockRec>, c: Change)
    requires AdjustChange(scope, stock, location, delta, revision, now, current) == Ok(c)
    requires current.Some? ==> Was(u, StockKey(scope.Pk(), location, stock), StockItem(current.value))
    requires ReceiptKey(scope.Pk(), key) in u
    requires Holds(u, StockWrites(scope.Pk(), key, [c]))
    ensures Fits(u, scope.Pk(), key, [c]) && c.movement.deltas.reserved == 0
  {
    var pk := scope.Pk();
    var ws := StockWrites(pk, key, [c]);
    StockWritesAt(pk, key, [c]);
    var k, mk := StockKey(pk, c.location, c.stock), MoveKey(pk, key, c);
    assert [c][0] == c;
    assert ws[k] == StockWrite(c) && ws[mk].condition == Absent;
    assert Satisfied(ws[k].condition, Lookup(u, k)) && Satisfied(ws[mk].condition, Lookup(u, mk));
    if current.Some? {
      StockReadIsCurrent(u, k, current.value);
    }
    assert ChangeFits(u, pk, key, c);
  }

  // ----- defer -----

  function DeferWrites(scope: Scope, rid: Id, r: ReservationRec, next: nat, now: nat): Writes {
    map[ReservationKey(scope.Pk(), rid) :=
          Put(ReservationItem(DeferredReservation(r, next, now)), ReservedDueIs(r.revision, r.dueEpoch)),
        DueKey(scope.Pk(), r.dueEpoch, rid) := Delete(MarkerOf(rid)),
        DueKey(scope.Pk(), next, rid) := Put(MarkerFor(scope, rid, r.order, r.attempt, next), Absent)]
  }

  lemma DeferKeeps(t: Tables, scope: Scope, rid: Id, next: nat, key: string, now: nat, r: ReservationRec)
    requires Inv(t) && DeferPlan(scope, rid, next, key, now, r).Ok?
    requires Holds(t, DeferPlan(scope, rid, next, key, now, r).value)
    requires Was(t, ReservationKey(scope.Pk(), rid), ReservationItem(r))
    ensures Good(t, Apply(t, DeferPlan(scope, rid, next, key, now, r).value))
  {
    var request, result := DeferRequest(rid, next), DeferredOutcome(rid, next);
    var receipt, ws := ReceiptWrites(scope, key, request, result, now), DeferWrites(scope, rid, r, next, now);
    assert DeferPlan(scope, rid, next, key, now, r).value == receipt + ws;
    ApplyInParts(t, receipt, ws);
    ReceiptPart(t, scope, key, request, result, now);
    var u := Apply(t, receipt);
    DeferMoves(u, scope, rid, r, next, now);
    GoodTransitive(t, u, Apply(u, ws));
  }

  lemma DeferMoves(u: Tables, scope: Scope, rid: Id, r: ReservationRec, next: nat, now: nat)
    requires Inv(u) && Holds(u, DeferWrites(scope, rid, r, next, now))
    requires ReservationReadable(r, scope.domain) && r.status == Reserved && next > r.reconcileAfter
    requires Was(u, ReservationKey(scope.Pk(), rid), ReservationItem(r))
    ensures Good(u, Apply(u, DeferWrites(scope, rid, r, next, now)))
  {
    var pk, ws, done := scope.Pk(), DeferWrites(scope, rid, r, next, now), DeferredReservation(r, next, now);
    var rk := ReservationKey(pk, rid);
    assert rk in ws && Satisfied(ws[rk].condition, Lookup(u, rk));
    assert u[rk] == ReservationItem(r);
    MoveMarker(u, pk, rid, r, done);
    DeferApplies(u, scope, rid, r, next, now);
  }

  lemma DeferApplies(u: Tables, scope: Scope, rid: Id, r: ReservationRec, next: nat, now: nat)
    requires r.dueEpoch == r.reconcileAfter && r.domain == scope.domain && next > r.reconcileAfter
    ensures Apply(u, DeferWrites(scope, rid, r, next, now))
         == Deferred(u, scope.Pk(), rid, r.reconcileAfter, DeferredReservation(r, next, now))
  {
  }

  // ----- fiscal -----

  lemma AccessKeeps(t: Tables, scope: Scope, oid: Id, a: AccessRec, b: AccessRec, c: Condition)
    requires Inv(t) && Was(t, AccessKey(scope.Pk(), oid), AccessItem(a)) && AccessReadable(b, b.domain)
    requires (c == AccessCondition(a) && a.state == PendingPayment) || (c == ClaimCondition(a) && a.state == Eligible)
    requires Evolves(AccessItem(a), AccessItem(b)) && b.state == a.state && b.request == a.request
    requires WindowFits(a) ==> WindowFits(b)
    requires Holds(t, map[AccessKey(scope.Pk(), oid) := Put(AccessItem(b), c)])
    ensures Good(t, Apply(t, map[AccessKey(scope.Pk(), oid) := Put(AccessItem(b), c)]))
  {
    var k := AccessKey(scope.Pk(), oid);
    var ws: Writes := map[k := Put(AccessItem(b), c)];
    assert k in ws && Satisfied(ws[k].condition, Lookup(t, k));
    assert Sound(t, k) && t[k] == AccessItem(a);
    ApplyOne(t, k, AccessItem(b), c);
    MoveAccess(t, scope.Pk(), oid, b);
  }

  lemma RotateKeeps(t: Tables, scope: Scope, oid: Id, proof: string, now: nat, a: AccessRec)
    requires Inv(t) && RotatePlan(scope, oid, proof, now, a).Ok? && Holds(t, RotatePlan(scope, oid, proof, now, a).value)
    requires Was(t, AccessKey(scope.Pk(), oid), AccessItem(a))
    ensures Good(t, Apply(t, RotatePlan(scope, oid, proof, now, a).value))
  {
    AccessKeeps(t, scope, oid, a, a.(proof := proof, revision := a.revision + 1), AccessCondition(a));
  }

  lemma AttemptKeeps(t: Tables, scope: Scope, oid: Id, proof: string, now: nat, a: AccessRec)
    requires Inv(t) && FailedAttemptPlan(scope, oid, proof, now, a).Ok?
    requires Holds(t, FailedAttemptPlan(scope, oid, proof, now, a).value)
    requires Was(t, AccessKey(scope.Pk(), oid), AccessItem(a))
    ensures Good(t, Apply(t, FailedAttemptPlan(scope, oid, proof, now, a).value))
  {
    AccessKeeps(t, scope, oid, a, a.(attempts := a.attempts + 1, revision := a.revision + 1), ClaimCondition(a));
  }

  lemma RedeemKeeps(t: Tables, scope: Scope, oid: Id, proof: string, details: string, key: string, now: nat, a: AccessRec)
    requires Inv(t) && RedeemPlan(scope, oid, proof, details, key, now, a).Ok?
    requires Holds(t, RedeemPlan(scope, oid, proof, details, key, now, a).value)
    requires Was(t, AccessKey(scope.Pk(), oid), AccessItem(a))
    ensures Good(t, Apply(t, RedeemPlan(scope, oid, proof, details, key, now, a).value))
  {
    var pk, id := scope.Pk(), FiscalId(oid, key);
    var k, fk, rk := AccessKey(pk, oid), FiscalRequestKey(pk, id), FiscalReceiptKey(pk, key);
    var ws := RedeemPlan(scope, oid, proof, details, key, now, a).value;
    assert k in ws && Satisfied(ws[k].condition, Lookup(t, k));
    assert fk in ws && Satisfied(ws[fk].condition, Lookup(t, fk));
    assert rk in ws && Satisfied(ws[rk].condition, Lookup(t, rk));
    assert t[k] == AccessItem(a);
    var b, x, y := ws[k].item.access, ws[fk].item.fiscal, ws[rk].item.fiscalReceipt;
    assert Sound(t, k);
    assert Apply(t, ws) == Redeemed(t, pk, oid, b, x, key, y);
    ConsumeAccess(t, pk, oid, b, x, key, y);
  }

  lemma FiscalKeeps(t: Tables, scope: Scope, id: FiscalId, action: FiscalAction, revision: int, now: nat, x: FiscalRequestRec)
    requires Inv(t) && FiscalMovePlan(scope, id, action, revision, now, x).Ok?
    requires Holds(t, FiscalMovePlan(scope, id, action, revision, now, x).value)
    requires Was(t, FiscalRequestKey(scope.Pk(), id), FiscalRequestItem(x))
    ensures Good(t, Apply(t, FiscalMovePlan(scope, id, action, revision, now, x).value))
  {
    var k, ws := FiscalRequestKey(scope.Pk(), id), FiscalMovePlan(scope, id, action, revision, now, x).value;
    assert k in ws && Satisfied(ws[k].condition, Lookup(t, k));
    assert t[k] == FiscalRequestItem(x);
    var y := ws[k].item.fiscal;
    assert ws == map[k := Put(FiscalRequestItem(y), ws[k].condition)];
    ApplyOne(t, k, FiscalRequestItem(y), ws[k].condition);
    MoveFiscal(t, scope.Pk(), id, y);
  }

  // ----- checkout -----

  lemma ReserveKeeps(t: Tables, scope: Scope, c: Checkout, key: string, now: nat, allocations: seq<Allocation>, before: seq<StockRec>)
    requires Inv(t) && |allocations| == |before| && AllocationsValid(allocations) && |allocations| <= MAX_CHECKOUT_LINES
    requires ReservePlan(scope, c, key, now, allocations, before).Ok?
    requires Holds(t, ReservePlan(scope, c, key, now, allocations, before).value)
    requires StocksSeen(t, scope.Pk(), allocations, before)
    ensures Good(t, Apply(t, ReservePlan(scope, c, key, now, allocations, before).value))
  {
    var changes := ChangesOf(scope.domain, c.reservation, ReserveMove, None, now, allocations, before).value;
    ReserveInOrder(t, scope, c, key, now, allocations, before, changes);
  }

  lemma ReserveInOrder(t: Tables, scope: Scope, c: Checkout, key: string, now: nat, allocations: seq<Allocation>,
                       before: seq<StockRec>, changes: seq<Change>)
    requires Inv(t) && |allocations| == |before| && AllocationsValid(allocations) && |allocations| <= MAX_CHECKOUT_LINES && CheckoutValid(c)
    requires ChangesOf(scope.domain, c.reservation, ReserveMove, None, now, allocations, before) == Ok(changes)
    requires Holds(t, ReceiptWrites(scope, key, c.Request(), c.Result(now), now)
              + (StockWrites(scope.Pk(), key, changes) + CheckoutWrites(scope, c, allocations, now))
              + NewAccessWrites(scope, c, now))
    requires StocksSeen(t, scope.Pk(), allocations, before)
    ensures Good(t, Apply(t, ReceiptWrites(scope, key, c.Request(), c.Result(now), now)
              + (StockWrites(scope.Pk(), key, changes) + CheckoutWrites(scope, c, allocations, now))
              + NewAccessWrites(scope, c, now)))
  {
    var receipt := ReceiptWrites(scope, key, c.Request(), c.Result(now), now);
    var stock, records := StockWrites(scope.Pk(), key, changes), CheckoutWrites(scope, c, allocations, now);
    var access := NewAccessWrites(scope, c, now);
    ReserveApart(scope, c, key, now, allocations, before, changes);
    ApplyInFour(t, receipt, stock, records, access);
    ReceiptPart(t, scope, key, c.Request(), c.Result(now), now);
    var t1 := Apply(t, receipt);
    StocksStillSeen(t, t1, scope.Pk(), allocations, before);
    ReserveCore(t1, scope, c, key, now, allocations, before);
    var t2 := Apply(Apply(t1, stock), records);
    GoodTransitive(t, t1, t2);
    NewAccessPart(t2, scope, c, now);
    GoodTransitive(t, t2, Apply(t2, access));
  }

  lemma ReserveApart(scope: Scope, c: Checkout, key: string, now: nat, allocations: seq<Allocation>,
                     before: seq<StockRec>, changes: seq<Change>)
    requires |allocations| == |before| && AllocationsValid(allocations)
    requires ChangesOf(scope.domain, c.reservation, ReserveMove, None, now, allocations, before) == Ok(changes)
    ensures ReceiptWrites(scope, key, c.Request(), c.Result(now), now).Keys
         !! StockWrites(scope.Pk(), key, changes).Keys
         !! CheckoutWrites(scope, c, allocations, now).Keys
         !! NewAccessWrites(scope, c, now).Keys
  {
    ChangesDistinct(scope.domain, c.reservation, ReserveMove, None, now, allocations, before);
    StockWriteKinds(scope.Pk(), key, changes);
    CheckoutKinds(scope, c, allocations, now);
    KindsApart(ReceiptWrites(scope, key, c.Request(), c.Result(now), now), StockWrites(scope.Pk(), key, changes),
               CheckoutWrites(scope, c, allocations, now), NewAccessWrites(scope, c, now));
  }

  predicate CheckoutKind(k: Key) {
    k.ReservationKey? || k.DueKey? || k.OrderKey? || k.BindingKey?
  }

  lemma CheckoutKinds(scope: Scope, c: Checkout, allocations: seq<Allocation>, now: nat)
    ensures forall k :: k in CheckoutWrites(scope, c, allocations, now) ==> CheckoutKind(k)
  {
  }

  lemma KindsApart(a: Writes, b: Writes, c: Writes, d: Writes)
    requires forall k :: k in a ==> k.ReceiptKey?
    requires forall k :: k in b ==> LogKind(k)
    requires forall k :: k in c ==> CheckoutKind(k)
    requires forall k :: k in d ==> k.AccessKey?
    ensures a.Keys !! b.Keys !! c.Keys !! d.Keys
  {
  }

  /** The shape of every completion plan: receipt first, then stock, then the records, then the access. */
  lemma ApplyInFour(t: Tables, a: Writes, b: Writes, c: Writes, d: Writes)
    requires a.Keys !! b.Keys !! c.Keys !! d.Keys
    ensures Apply(t, a + (b + c) + d) == Apply(Apply(Apply(Apply(t, a), b), c), d)
    ensures Holds(t, a + (b + c) + d) ==>
      && Holds(t, a) && Holds(Apply(t, a), b) && Holds(Apply(Apply(t, a), b), c)
      && Holds(Apply(Apply(Apply(t, a), b), c), d)
  {
    ApplyInParts(t, a + (b + c), d);
    ApplyInParts(t, a, b + c);
    ApplyInParts(Apply(t, a), b, c);
  }

  lemma StocksStillSeen(t: Tables, u: Tables, pk: Partition, allocations: seq<Allocation>, before: seq<StockRec>)
    requires |allocations| == |before| && StocksSeen(t, pk, allocations, before) && Advances(t, u)
    ensures StocksSeen(u, pk, allocations, before)
  {
    forall i | 0 <= i < |allocations|
      ensures Was(u, StockKey(pk, allocations[i].location, allocations[i].stock), StockItem(before[i]))
    {
      WasAdvances(t, u, StockKey(pk, allocations[i].location, allocations[i].stock), StockItem(before[i]));
    }
  }

  lemma ChangesDistinct(domain: string, rid: Id, kind: MovementKind, reason: Option<Reason>, now: nat,
                        allocations: seq<Allocation>, before: seq<StockRec>)
    requires |allocations| == |before| && AllocationsValid(allocations)
    requires ChangesOf(domain, rid, kind, reason, now, allocations, before).Ok?
    ensures DistinctStocks(ChangesOf(domain, rid, kind, reason, now, allocations, before).value)
  {
    ChangesAt(domain, rid, kind, reason, now, allocations, before);
  }

  lemma {:induction false} TotalNonNegative(lines: seq<Line>)
    requires forall i :: 0 <= i < |lines| ==> lines[i].amountMinor >= 0 && lines[i].quantity >= 1
    ensures OrderTotal(lines) >= 0
  {
    if lines != [] { TotalNonNegative(lines[..|lines| - 1]); }
  }

  lemma ReserveCore(t: Tables, scope: Scope, c: Checkout, key: string, now: nat, allocations: seq<Allocation>, before: seq<StockRec>)
    requires Inv(t) && |allocations| == |before| && AllocationsValid(allocations) && |allocations| <= MAX_CHECKOUT_LINES && OrderValid(c.order)
    requires ChangesOf(scope.domain, c.reservation, ReserveMove, None, now, allocations, before).Ok?
    requires var changes := ChangesOf(scope.domain, c.reservation, ReserveMove, None, now, allocations, before).value;
      && Holds(t, StockWrites(scope.Pk(), key, changes))
      && Holds(Apply(t, StockWrites(scope.Pk(), key, changes)), CheckoutWrites(scope, c, allocations, now))
    requires StocksSeen(t, scope.Pk(), allocations, before) && ReceiptKey(scope.Pk(), key) in t
    ensures var changes := ChangesOf(scope.domain, c.reservation, ReserveMove, None, now, allocations, before).value;
      var u := Apply(Apply(t, StockWrites(scope.Pk(), key, changes)), CheckoutWrites(scope, c, allocations, now));
      && Good(t, u) && OrderKey(scope.Pk(), c.order.order) in u
      && u[OrderKey(scope.Pk(), c.order.order)] == OrderItem(NewOrder(scope, c, now))
  {
    var pk := scope.Pk();
    var changes := ChangesOf(scope.domain, c.reservation, ReserveMove, None, now, allocations, before).value;
    ChangesFit(t, pk, key, scope.domain, c.reservation, ReserveMove, None, now, allocations, before);
    TotalNonNegative(c.order.lines);
    var r, o := NewReservation(scope, c, allocations, now), NewOrder(scope, c, now);
    var b := BindingRec(scope.domain, c.order.order, c.reservation, c.Request(), now);
    var u := Apply(t, StockWrites(pk, key, changes));
    CheckoutApplies(u, scope, c, allocations, now);
    CheckoutPart(t, pk, key, changes, c.reservation, r, o, b);
  }

  lemma CheckoutApplies(u: Tables, scope: Scope, c: Checkout, allocations: seq<Allocation>, now: nat)
    requires Holds(u, CheckoutWrites(scope, c, allocations, now))
    ensures var pk, r := scope.Pk(), NewReservation(scope, c, allocations, now);
      && Apply(u, CheckoutWrites(scope, c, allocations, now))
         == CheckedOut(u, pk, c.reservation, r, NewOrder(scope, c, now),
                       BindingRec(scope.domain, c.order.order, c.reservation, c.Request(), now))
      && ReservationKey(pk, c.reservation) !in u && DueKey(pk, r.reconcileAfter, c.reservation) !in u
      && OrderKey(pk, r.order) !in u && BindingKey(pk, r.attempt) !in u
  {
    var ws, pk, r := CheckoutWrites(scope, c, allocations, now), scope.Pk(), NewReservation(scope, c, allocations, now);
    forall k | k in ws ensures k !in u {
      assert Satisfied(ws[k].condition, Lookup(u, k));
    }
    assert ReservationKey(pk, c.reservation) in ws && DueKey(pk, r.reconcileAfter, c.reservation) in ws;
    assert OrderKey(pk, r.order) in ws && BindingKey(pk, r.attempt) in ws;
  }

  lemma NewAccessPart(t: Tables, scope: Scope, c: Checkout, now: nat)
    requires Inv(t) && CheckoutValid(c) && Holds(t, NewAccessWrites(scope, c, now))
    requires OrderKey(scope.Pk(), c.order.order) in t
    requires t[OrderKey(scope.Pk(), c.order.order)] == OrderItem(NewOrder(scope, c, now))
    ensures Good(t, Apply(t, NewAccessWrites(scope, c, now)))
  {
    var ws, k := NewAccessWrites(scope, c, now), AccessKey(scope.Pk(), c.order.order);
    if c.fiscal.None? {
      ApplyNothing(t);
      AdvancesReflexive(t);
    } else {
      var a := NewAccess(scope, c.fiscal.value, now);
      assert k in ws && Satisfied(ws[k].condition, Lookup(t, k));
      assert Sound(t, OrderKey(scope.Pk(), c.order.order));
      ApplyOne(t, k, AccessItem(a), Absent);
      AddAccess(t, k, a);
    }
  }

  // ----- groups of records that no two parts of a plan share -----

  datatype Group = Records | Log | Core | Claims

  function GroupOf(k: Key): Group {
    match k
    case StockKey(_, _, _) => Log
    case MovementKey(_, _, _, _, _) => Log
    case ReservationKey(_, _) => Core
    case DueKey(_, _, _) => Core
    case OrderKey(_, _) => Core
    case RefundKey(_, _) => Core
    case AccessKey(_, _) => Claims
    case FiscalRequestKey(_, _) => Claims
    case FiscalReceiptKey(_, _) => Claims
    case _ => Records
  }

  ghost predicate InGroup(ws: Writes, g: Group) {
    forall k :: k in ws ==> GroupOf(k) == g
  }

  lemma Apart(a: Writes, b: Writes, c: Writes, d: Writes)
    requires InGroup(a, Records) && InGroup(b, Log) && InGroup(c, Core) && InGroup(d, Claims)
    ensures a.Keys !! b.Keys !! c.Keys !! d.Keys
  {
  }

  /** In a plan of four groups every part's write is the plan's. */
  lemma PartsInPlan(a: Writes, b: Writes, c: Writes, d: Writes)
    requires InGroup(a, Records) && InGroup(b, Log) && InGroup(c, Core) && InGroup(d, Claims)
    ensures forall k :: k in a ==> k in a + (b + c) + d && (a + (b + c) + d)[k] == a[k]
    ensures forall k :: k in c ==> k in a + (b + c) + d && (a + (b + c) + d)[k] == c[k]
  {
  }

  lemma StockGroup(pk: Partition, key: string, changes: seq<Change>)
    requires DistinctStocks(changes)
    ensures InGroup(StockWrites(pk, key, changes), Log)
  {
    StockWriteKinds(pk, key, changes);
  }

  lemma AccessGroup(scope: Scope, oid: Id, kind: PaymentKind, now: nat, access: Option<AccessRec>)
    requires AccessWrites(scope, oid, kind, now, access).Ok?
    ensures InGroup(AccessWrites(scope, oid, kind, now, access).value, Claims)
  {
  }

  lemma UnionGroup(a: Writes, b: Writes, g: Group)
    requires InGroup(a, g) && InGroup(b, g)
    ensures InGroup(a + b, g)
  {
  }

  // ----- completion -----

  function RefundExtra(pk: Partition, refund: Option<RefundRec>): Writes {
    if refund.None? || !refund.value.result.RefundOutcome? then map[]
    else map[RefundKey(pk, refund.value.result.refund) := Put(RefundItem(refund.value), Absent)]
  }

  /** A completion as planned: the records read, the order as it will be, and the refund that may come with it. */
  datatype Completion =
    Completion(scope: Scope, key: string, rid: Id, r: ReservationRec, order: OrderRec, status: ReservationStatus,
               reason: Reason, now: nat, done: OrderRec, before: seq<StockRec>, changes: seq<Change>,
               refund: Option<RefundRec>)
  {
    function Stock(): Writes {
      StockWrites(scope.Pk(), key, changes)
    }

    function Core(): Writes {
      CompletionWrites(scope.Pk(), key, rid, r, order, status, reason, now, done) + RefundExtra(scope.Pk(), refund)
    }

    function Finished(): ReservationRec {
      FinishedReservation(r, status, reason, now)
    }

    function After(t: Tables): Tables {
      Completed(WithRefund(Apply(t, Stock()), scope.Pk(), refund), scope.Pk(), rid, r, Finished(), done)
    }

    /** What the planner checked of the records it read. */
    ghost predicate Planned() {
      && |before| == |r.allocations| && ReservationReadable(r, scope.domain) && r.status == Reserved && ReasonFits(status, reason)
      && ChangesOf(scope.domain, rid, MoveFor(status), Some(reason), now, r.allocations, before) == Ok(changes)
      && Evolves(OrderItem(order), OrderItem(done)) && StatusesAgree(status, done.status) && TimesAgree()
      && RefundFits()
    }

    /** The order notes the end as the reservation does. */
    predicate TimesAgree() {
      done.completedAt == Some(now) && done.reason == Some(reason)
    }

    predicate RefundFits() {
      match refund
      case None => done.status != Refunded && done.refund.None? && done.refundedAt.None?
      case Some(x) =>
        && x.result.RefundOutcome? && x.result.order == r.order && done.status == Refunded && done.refund == Some(x.result.refund)
        && done.refundedAt.Some? && RefundCovered(x, done)
    }

    ghost predicate Seen(t: Tables)
      requires |before| == |r.allocations|
    {
      && Was(t, ReservationKey(scope.Pk(), rid), ReservationItem(r)) && Was(t, OrderKey(scope.Pk(), r.order), OrderItem(order))
      && StocksSeen(t, scope.Pk(), r.allocations, before)
    }
  }

  lemma CompletionGroups(c: Completion)
    requires c.Planned()
    ensures InGroup(c.Stock(), Log) && InGroup(c.Core(), Core)
  {
    ChangesDistinct(c.scope.domain, c.rid, MoveFor(c.status), Some(c.reason), c.now, c.r.allocations, c.before);
    StockGroup(c.scope.Pk(), c.key, c.changes);
    CoreGroup(c);
  }

  lemma CoreGroup(c: Completion)
    ensures InGroup(c.Core(), Core)
  {
  }

  lemma SeenLater(c: Completion, t: Tables, u: Tables)
    requires |c.before| == |c.r.allocations| && c.Seen(t) && Advances(t, u)
    ensures c.Seen(u)
  {
    WasAdvances(t, u, ReservationKey(c.scope.Pk(), c.rid), ReservationItem(c.r));
    WasAdvances(t, u, OrderKey(c.scope.Pk(), c.r.order), OrderItem(c.order));
    StocksStillSeen(t, u, c.scope.Pk(), c.r.allocations, c.before);
  }

  /** Conditions that hold pin the reservation and the order to the versions that were read. */
  lemma CompletionIsCurrent(c: Completion, u: Tables)
    requires Holds(u, c.Core())
    requires Was(u, ReservationKey(c.scope.Pk(), c.rid), ReservationItem(c.r)) && Was(u, OrderKey(c.scope.Pk(), c.r.order), OrderItem(c.order))
    ensures u[ReservationKey(c.scope.Pk(), c.rid)] == ReservationItem(c.r) && u[OrderKey(c.scope.Pk(), c.r.order)] == OrderItem(c.order)
  {
    var pk, ws := c.scope.Pk(), c.Core();
    var rk, ok := ReservationKey(pk, c.rid), OrderKey(pk, c.r.order);
    assert rk in ws && Satisfied(ws[rk].condition, Lookup(u, rk));
    assert ok in ws && Satisfied(ws[ok].condition, Lookup(u, ok));
  }

  lemma RefundIsNew(c: Completion, u: Tables)
    requires c.RefundFits() && Holds(u, c.Core())
    ensures RefundMatches(u, c.scope.Pk(), c.r.order, c.done, c.refund)
  {
    if c.refund.Some? {
      var fk := RefundKey(c.scope.Pk(), c.refund.value.result.refund);
      assert fk in c.Core() && Satisfied(c.Core()[fk].condition, Lookup(u, fk));
    }
  }

  lemma CompletionApplies(c: Completion, u: Tables)
    ensures Apply(u, c.Core()) == Completed(WithRefund(u, c.scope.Pk(), c.refund), c.scope.Pk(), c.rid, c.r, c.Finished(), c.done)
  {
  }

  lemma CompletionCompletes(c: Completion, u: Tables)
    requires c.Planned() && RefundMatches(u, c.scope.Pk(), c.r.order, c.done, c.refund)
    requires ReservationKey(c.scope.Pk(), c.rid) in u && u[ReservationKey(c.scope.Pk(), c.rid)] == ReservationItem(c.r)
    requires OrderKey(c.scope.Pk(), c.r.order) in u && u[OrderKey(c.scope.Pk(), c.r.order)] == OrderItem(c.order)
    requires TimesFit(c.r, c.order)
    ensures Completes(WithRefund(u, c.scope.Pk(), c.refund), c.scope.Pk(), c.rid, c.r, c.Finished(), c.done)
  {
  }

  lemma CompletionFits(c: Completion, t: Tables)
    requires Inv(t) && c.Planned() && c.Seen(t) && ReceiptKey(c.scope.Pk(), c.key) in t && Holds(t, c.Stock())
    ensures Fits(t, c.scope.Pk(), c.key, c.changes) && Matches(c.changes, c.r.allocations, c.r.domain, -1)
  {
    ChangesFit(t, c.scope.Pk(), c.key, c.scope.domain, c.rid, MoveFor(c.status), Some(c.reason), c.now, c.r.allocations, c.before);
  }

  /** The stock part leaves the completion's own records as they were read. */
  lemma CompletionAfterStock(c: Completion, t: Tables)
    requires c.Planned() && c.Seen(t) && Holds(Apply(t, c.Stock()), c.Core()) && Sound(t, ReservationKey(c.scope.Pk(), c.rid))
    ensures var u := Apply(t, c.Stock());
      && RefundMatches(t, c.scope.Pk(), c.r.order, c.done, c.refund)
      && Completes(WithRefund(u, c.scope.Pk(), c.refund), c.scope.Pk(), c.rid, c.r, c.Finished(), c.done)
  {
    var pk, u := c.scope.Pk(), Apply(t, c.Stock());
    CompletionGroups(c);
    assert Same(t, u, ReservationKey(pk, c.rid)) && Same(t, u, OrderKey(pk, c.r.order));
    CompletionIsCurrent(c, u);
    RefundIsNew(c, u);
    CompletionCompletes(c, u);
  }

  /** Stock, reservation, marker and order of a completion, with an optional refund record. */
  lemma CompletionKeeps(c: Completion, t: Tables)
    requires Inv(t) && c.Planned() && c.Seen(t) && ReceiptKey(c.scope.Pk(), c.key) in t
    requires Holds(t, c.Stock()) && Holds(Apply(t, c.Stock()), c.Core())
    ensures Apply(Apply(t, c.Stock()), c.Core()) == c.After(t) && Good(t, c.After(t))
  {
    CompletionFits(c, t);
    CompletionAfterStock(c, t);
    CompletionApplies(c, Apply(t, c.Stock()));
    CompletePart(t, c.scope.Pk(), c.key, c.changes, c.rid, c.r, c.Finished(), c.done, c.refund);
  }

  /** The four parts of a completion's transaction, in order. */
  lemma CompletionSplit(t: Tables, c: Completion, records: Writes, claims: Writes)
    requires c.Planned() && InGroup(records, Records) && InGroup(claims, Claims)
    ensures Apply(t, records + (c.Stock() + c.Core()) + claims) == Apply(Apply(Apply(Apply(t, records), c.Stock()), c.Core()), claims)
    ensures Holds(t, records + (c.Stock() + c.Core()) + claims) ==>
      && Holds(t, records) && Holds(Apply(t, records), c.Stock())
      && Holds(Apply(Apply(t, records), c.Stock()), c.Core())
      && Holds(Apply(Apply(Apply(t, records), c.Stock()), c.Core()), claims)
  {
    CompletionGroups(c);
    Apart(records, c.Stock(), c.Core(), claims);
    ApplyInFour(t, records, c.Stock(), c.Core(), claims);
  }

  /** The claims part: nothing for a completion without event, the access transition otherwise. */
  ghost predicate ClaimsFit(c: Completion, claims: Writes, kind: Option<PaymentKind>, access: Option<AccessRec>) {
    match kind
    case None => claims == map[]
    case Some(k) =>
      && AccessWrites(c.scope, c.r.order, k, c.now, access) == Ok(claims)
      && c.status == (if k == Succeeded then Committed else Released)
  }

  lemma ClaimsGroup(c: Completion, claims: Writes, kind: Option<PaymentKind>, access: Option<AccessRec>)
    requires ClaimsFit(c, claims, kind, access)
    ensures InGroup(claims, Claims)
  {
    if kind.Some? { AccessGroup(c.scope, c.r.order, kind.value, c.now, access); }
  }

  lemma ClaimsPart(c: Completion, t: Tables, claims: Writes, kind: Option<PaymentKind>, access: Option<AccessRec>)
    requires ClaimsFit(c, claims, kind, access) && c.done.reservation == c.rid
    requires Inv(c.After(t)) && Holds(c.After(t), claims)
    requires access.Some? ==> Was(c.After(t), AccessKey(c.scope.Pk(), c.r.order), AccessItem(access.value))
    ensures Good(c.After(t), Apply(c.After(t), claims))
  {
    match kind
    case None =>
      ApplyNothing(c.After(t));
      AdvancesReflexive(c.After(t));
    case Some(k) => AccessPart(c.After(t), c.scope, c.r.order, k, c.now, access);
  }

  /**
   * Any completion whose records part is harmless, followed by the access transition that fits it:
   * the parts of its transaction applied in order.
   */
  lemma CompletionInOrder(t: Tables, c: Completion, records: Writes, claims: Writes, kind: Option<PaymentKind>, access: Option<AccessRec>)
    requires Inv(t) && c.Planned() && c.Seen(t) && c.done.reservation == c.rid
    requires InGroup(records, Records) && Holds(t, records + (c.Stock() + c.Core()) + claims)
    requires Holds(t, records) ==> Good(t, Apply(t, records)) && ReceiptKey(c.scope.Pk(), c.key) in Apply(t, records)
    requires ClaimsFit(c, claims, kind, access)
    requires access.Some? ==> Was(t, AccessKey(c.scope.Pk(), c.r.order), AccessItem(access.value))
    ensures Good(t, Apply(t, records + (c.Stock() + c.Core()) + claims))
  {
    ClaimsGroup(c, claims, kind, access);
    CompletionSplit(t, c, records, claims);
    var t1 := Apply(t, records);
    SeenLater(c, t, t1);
    CompletionKeeps(c, t1);
    var t2 := c.After(t1);
    GoodTransitive(t, t1, t2);
    if access.Some? { WasAdvances(t, t2, AccessKey(c.scope.Pk(), c.r.order), AccessItem(access.value)); }
    ClaimsPart(c, t1, claims, kind, access);
    GoodTransitive(t, t2, Apply(t2, claims));
  }

  /** The request that a receipt records beside an optional payment event. */
  predicate RequestFits(scope: Scope, request: Request, event: Option<PaymentEvent>) {
    match event
    case None => PlainRequest(request)
    case Some(e) => request == RequestFor(PaymentHash(e, scope))
  }

  /** The receipt, with the inbox, outbox and binding check of an optional payment event. */
  lemma RecordsPart(t: Tables, scope: Scope, key: string, request: Request, event: Option<PaymentEvent>, oid: Id,
                    order: OrderRec, result: Outcome, now: nat)
    requires Inv(t) && (event.Some? ==> key == IntegrationKey(event.value.event)) && RequestFits(scope, request, event)
    requires event.Some? ==> Was(t, OrderKey(scope.Pk(), oid), OrderItem(order))
    requires Holds(t, ReceiptWrites(scope, key, request, result, now) + OptionalEventWrites(scope, event, oid, order, result, now))
    ensures var u := Apply(t, ReceiptWrites(scope, key, request, result, now) + OptionalEventWrites(scope, event, oid, order, result, now));
      Good(t, u) && ReceiptKey(scope.Pk(), key) in u
  {
    match event
    case None =>
      var receipt := ReceiptWrites(scope, key, request, result, now);
      assert receipt + map[] == receipt;
      ReceiptPart(t, scope, key, request, result, now);
    case Some(e) =>
      EventPart(t, scope, e, oid, order, result, now);
  }

  lemma NoReceipt(scope: Scope, event: Option<PaymentEvent>, oid: Id, order: OrderRec, result: Outcome, now: nat)
    ensures forall k :: k in OptionalEventWrites(scope, event, oid, order, result, now) ==> !k.ReceiptKey?
    ensures InGroup(OptionalEventWrites(scope, event, oid, order, result, now), Records)
  {
  }

  /** A condition that names the order's revision pins it to the version that was read. */
  lemma PendingHasNoRefund(t: Tables, ws: Writes, ok: Key, rid: Id, attempt: Id, order: OrderRec)
    requires Inv(t) && ok.OrderKey? && Was(t, ok, OrderItem(order)) && order.status == PendingCheckout
    requires Holds(t, ws) && ok in ws && ws[ok].condition == PendingOrderIs(rid, attempt, order.revision)
    ensures order.refund.None? && order.refundedAt.None? && order.reservation == rid
  {
    assert Satisfied(ws[ok].condition, Lookup(t, ok));
    assert Sound(t, ok) && t[ok] == OrderItem(order);
  }

  lemma FinishKeeps(t: Tables, scope: Scope, f: Finish, now: nat, r: ReservationRec, order: OrderRec, before: seq<StockRec>,
                    access: Option<AccessRec>)
    requires Inv(t) && |before| == |r.allocations| && FinishArgs(f)
    requires FinishPlan(scope, f, now, r, order, before, access).Ok?
    requires Holds(t, FinishPlan(scope, f, now, r, order, before, access).value)
    requires Was(t, ReservationKey(scope.Pk(), f.reservation), ReservationItem(r))
    requires Was(t, OrderKey(scope.Pk(), r.order), OrderItem(order))
    requires StocksSeen(t, scope.Pk(), r.allocations, before)
    requires access.Some? ==> Was(t, AccessKey(scope.Pk(), r.order), AccessItem(access.value))
    ensures Good(t, Apply(t, FinishPlan(scope, f, now, r, order, before, access).value))
  {
    FinishIsCompletion(scope, f, now, r, order, before, access);
    var c := FinishCompletion(scope, f, now, r, order, before);
    var claims := OptionalAccessWrites(scope, f.event, r.order, now, access).value;
    FinishRefund(t, scope, f, now, r, order, before, access);
    FinishRecordsKeep(t, scope, f, now, r, order);
    assert c.Seen(t);
    CompletionInOrder(t, c, FinishRecords(scope, f, now, r, order), claims, KindOf(f.event), access);
  }

  lemma FinishRecordsKeep(t: Tables, scope: Scope, f: Finish, now: nat, r: ReservationRec, order: OrderRec)
    requires Inv(t) && FinishArgs(f) && Was(t, OrderKey(scope.Pk(), r.order), OrderItem(order))
    ensures InGroup(FinishRecords(scope, f, now, r, order), Records)
    ensures Holds(t, FinishRecords(scope, f, now, r, order)) ==>
      && Good(t, Apply(t, FinishRecords(scope, f, now, r, order)))
      && ReceiptKey(scope.Pk(), f.key) in Apply(t, FinishRecords(scope, f, now, r, order))
  {
    var result := FinishResult(f.reservation, r, f.status, now, f.reason);
    NoReceipt(scope, f.event, r.order, order, result, now);
    if Holds(t, FinishRecords(scope, f, now, r, order)) {
      RecordsPart(t, scope, f.key, f.Request(scope), f.event, r.order, order, result, now);
    }
  }

  function KindOf(event: Option<PaymentEvent>): Option<PaymentKind> {
    if event.None? then None else Some(event.value.kind)
  }

  function FinishRecords(scope: Scope, f: Finish, now: nat, r: ReservationRec, order: OrderRec): Writes {
    var result := FinishResult(f.reservation, r, f.status, now, f.reason);
    ReceiptWrites(scope, f.key, f.Request(scope), result, now) + OptionalEventWrites(scope, f.event, r.order, order, result, now)
  }

  function FinishCompletion(scope: Scope, f: Finish, now: nat, r: ReservationRec, order: OrderRec, before: seq<StockRec>): Completion
    requires |before| == |r.allocations|
    requires ChangesOf(scope.domain, f.reservation, MoveFor(f.status), Some(f.reason), now, r.allocations, before).Ok?
  {
    Completion(scope, f.key, f.reservation, r, order, f.status, f.reason, now,
               FinishedOrder(order, OrderStatusFor(f.status), f.reason, now), before,
               ChangesOf(scope.domain, f.reservation, MoveFor(f.status), Some(f.reason), now, r.allocations, before).value, None)
  }

  lemma FinishRefund(t: Tables, scope: Scope, f: Finish, now: nat, r: ReservationRec, order: OrderRec, before: seq<StockRec>,
                     access: Option<AccessRec>)
    requires Inv(t) && |before| == |r.allocations| && FinishArgs(f)
    requires FinishPlan(scope, f, now, r, order, before, access).Ok?
    requires Holds(t, FinishPlan(scope, f, now, r, order, before, access).value)
    requires Was(t, OrderKey(scope.Pk(), r.order), OrderItem(order))
    ensures order.refund.None? && order.refundedAt.None?
  {
    FinishIsCompletion(scope, f, now, r, order, before, access);
    var ws := FinishPlan(scope, f, now, r, order, before, access).value;
    var c := FinishCompletion(scope, f, now, r, order, before);
    var claims := OptionalAccessWrites(scope, f.event, r.order, now, access).value;
    ClaimsGroup(c, claims, KindOf(f.event), access);
    assert ws[OrderKey(scope.Pk(), r.order)].condition == PendingOrderIs(f.reservation, r.attempt, order.revision);
    PendingHasNoRefund(t, ws, OrderKey(scope.Pk(), r.order), f.reservation, r.attempt, order);
  }

  lemma FinishIsCompletion(scope: Scope, f: Finish, now: nat, r: ReservationRec, order: OrderRec, before: seq<StockRec>,
                           access: Option<AccessRec>)
    requires |before| == |r.allocations| && FinishArgs(f)
    requires FinishPlan(scope, f, now, r, order, before, access).Ok?
    ensures ChangesOf(scope.domain, f.reservation, MoveFor(f.status), Some(f.reason), now, r.allocations, before).Ok?
    ensures OptionalAccessWrites(scope, f.event, r.order, now, access).Ok? && order.status == PendingCheckout
    ensures var c := FinishCompletion(scope, f, now, r, order, before);
      var claims := OptionalAccessWrites(scope, f.event, r.order, now, access).value;
      && (order.refund.None? && order.refundedAt.None? ==> c.Planned()) && c.done.reservation == c.rid
      && ClaimsFit(c, claims, KindOf(f.event), access)
      && FinishPlan(scope, f, now, r, order, before, access).value
         == FinishRecords(scope, f, now, r, order) + (c.Stock() + c.Core()) + claims
  {
    var c := FinishCompletion(scope, f, now, r, order, before);
    assert c.Core() == CompletionWrites(scope.Pk(), f.key, f.reservation, r, order, f.status, f.reason, now, c.done);
  }

  // ----- repeated payment events -----

  lemma AcknowledgeKeeps(t: Tables, scope: Scope, f: Finish, now: nat, r: ReservationRec, order: OrderRec, access: Option<AccessRec>)
    requires Inv(t) && f.event.Some? && FinishArgs(f) && AcknowledgePlan(scope, f, now, r, order, access).Ok?
    requires Holds(t, AcknowledgePlan(scope, f, now, r, order, access).value)
    requires Was(t, ReservationKey(scope.Pk(), f.reservation), ReservationItem(r))
    requires Was(t, OrderKey(scope.Pk(), r.order), OrderItem(order))
    requires access.Some? ==> Was(t, AccessKey(scope.Pk(), r.order), AccessItem(access.value))
    ensures Good(t, Apply(t, AcknowledgePlan(scope, f, now, r, order, access).value))
  {
    var result := TerminalResult(f.reservation, r);
    var records := ReceiptWrites(scope, f.key, f.Request(scope), result, now)
                   + OptionalEventWrites(scope, f.event, r.order, order, result, now);
    var claims := AccessWrites(scope, r.order, f.event.value.kind, now, access).value;
    AccessGroup(scope, r.order, f.event.value.kind, now, access);
    NoReceipt(scope, f.event, r.order, order, result, now);
    ApplyInParts(t, records, claims);
    RecordsPart(t, scope, f.key, f.Request(scope), f.event, r.order, order, result, now);
    var u := Apply(t, records);
    WasAdvances(t, u, ReservationKey(scope.Pk(), f.reservation), ReservationItem(r));
    if access.Some? { WasAdvances(t, u, AccessKey(scope.Pk(), r.order), AccessItem(access.value)); }
    AcknowledgedAccess(u, scope, f, now, r, access);
    GoodTransitive(t, u, Apply(u, claims));
  }

  /** A reservation read as ended has not moved since. */
  lemma AcknowledgedAccess(t: Tables, scope: Scope, f: Finish, now: nat, r: ReservationRec, access: Option<AccessRec>)
    requires Inv(t) && f.event.Some? && FinishArgs(f) && r.status == f.status && r.status != Reserved
    requires AccessWrites(scope, r.order, f.event.value.kind, now, access).Ok?
    requires Holds(t, AccessWrites(scope, r.order, f.event.value.kind, now, access).value)
    requires Was(t, ReservationKey(scope.Pk(), f.reservation), ReservationItem(r))
    requires access.Some? ==> Was(t, AccessKey(scope.Pk(), r.order), AccessItem(access.value))
    ensures Good(t, Apply(t, AccessWrites(scope, r.order, f.event.value.kind, now, access).value))
  {
    var rk := ReservationKey(scope.Pk(), f.reservation);
    assert Sound(t, rk) && t[rk] == ReservationItem(r);
    AccessPart(t, scope, r.order, f.event.value.kind, now, access);
  }

  // ----- refunds -----

  /** Receipt and inbox record of a refund event. */
  lemma RefundRecordsPart(t: Tables, scope: Scope, x: Refund, now: nat)
    requires Inv(t) && Holds(t, RefundRecordWrites(scope, x, now))
    ensures Good(t, Apply(t, RefundRecordWrites(scope, x, now)))
    ensures ReceiptKey(scope.Pk(), IntegrationKey(x.event)) in Apply(t, RefundRecordWrites(scope, x, now))
  {
    InboxPart(t, scope, x.event, RefundHash(x, scope), RefundResult(x), now);
  }

  function RefundedOrder(x: Refund, order: OrderRec, now: nat): OrderRec {
    order.(status := Refunded, revision := order.revision + 1, refund := Some(x.refund), refundedAt := Some(now))
  }

  function RefundWrites(scope: Scope, x: Refund, order: OrderRec, now: nat): Writes {
    map[OrderKey(scope.Pk(), x.order) :=
          Put(OrderItem(RefundedOrder(x, order, now)), PaidOrderIs(x.currency, order.amountMinor, order.revision))]
    + RefundedOrderWrites(scope, x)
  }

  lemma RefundPaidKeeps(t: Tables, scope: Scope, x: Refund, now: nat, order: OrderRec)
    requires Inv(t) && RefundPaidPlan(scope, x, now, order).Ok? && Holds(t, RefundPaidPlan(scope, x, now, order).value)
    requires Was(t, OrderKey(scope.Pk(), x.order), OrderItem(order))
    ensures Good(t, Apply(t, RefundPaidPlan(scope, x, now, order).value))
  {
    var records, ws := RefundRecordWrites(scope, x, now), RefundWrites(scope, x, order, now);
    ApplyInParts(t, records, ws);
    RefundRecordsPart(t, scope, x, now);
    var u := Apply(t, records);
    WasAdvances(t, u, OrderKey(scope.Pk(), x.order), OrderItem(order));
    RefundMoves(u, scope, x, now, order);
    GoodTransitive(t, u, Apply(u, ws));
  }

  lemma RefundMoves(t: Tables, scope: Scope, x: Refund, now: nat, order: OrderRec)
    requires Inv(t) && order.status == Paid && Holds(t, RefundWrites(scope, x, order, now))
    requires Was(t, OrderKey(scope.Pk(), x.order), OrderItem(order))
    requires RefundCovered(RefundRec(scope.domain, RefundResult(x)), order)
    ensures Good(t, Apply(t, RefundWrites(scope, x, order, now)))
  {
    var pk, ws := scope.Pk(), RefundWrites(scope, x, order, now);
    var ok, fk := OrderKey(pk, x.order), RefundKey(pk, x.refund);
    assert ok in ws && Satisfied(ws[ok].condition, Lookup(t, ok));
    assert fk in ws && Satisfied(ws[fk].condition, Lookup(t, fk));
    var o, y := RefundedOrder(x, order, now), RefundRec(scope.domain, RefundResult(x));
    assert Apply(t, ws) == t[ok := OrderItem(o)][fk := RefundItem(y)];
    RefundOrder(t, pk, x.order, o, x.refund, y);
  }

  function RefundCompletion(scope: Scope, x: Refund, now: nat, order: OrderRec, r: ReservationRec, before: seq<StockRec>): Completion
    requires |before| == |r.allocations|
    requires ChangesOf(scope.domain, order.reservation, CommitMove, Some(CanonicalPaid), now, r.allocations, before).Ok?
  {
    Completion(scope, IntegrationKey(x.event), order.reservation, r, order, Committed, CanonicalPaid, now,
               FinishedOrder(order, Refunded, CanonicalPaid, now).(refund := Some(x.refund), refundedAt := Some(now)), before,
               ChangesOf(scope.domain, order.reservation, CommitMove, Some(CanonicalPaid), now, r.allocations, before).value,
               Some(RefundRec(scope.domain, RefundResult(x))))
  }

  function RefundPendingRecords(scope: Scope, x: Refund, now: nat, order: OrderRec): Writes {
    RefundRecordWrites(scope, x, now)
    + BindingCheck(scope, PaymentEvent(x.event, Succeeded, x.occurredAt, order.reservation, x.order, order.attempt))
  }

  lemma RefundIsCompletion(scope: Scope, x: Refund, now: nat, order: OrderRec, r: ReservationRec, before: seq<StockRec>,
                           access: Option<AccessRec>)
    requires |before| == |r.allocations| && RefundPendingPlan(scope, x, now, order, r, before, access).Ok?
    ensures ChangesOf(scope.domain, order.reservation, CommitMove, Some(CanonicalPaid), now, r.allocations, before).Ok?
    ensures AccessWrites(scope, x.order, Succeeded, now, access).Ok? && r.order == x.order
    ensures var c := RefundCompletion(scope, x, now, order, r, before);
      var claims := AccessWrites(scope, x.order, Succeeded, now, access).value;
      && (r.status == Reserved ==> c.Planned()) && c.done.reservation == c.rid
      && ClaimsFit(c, claims, Some(Succeeded), access)
      && RefundPendingPlan(scope, x, now, order, r, before, access).value
         == RefundPendingRecords(scope, x, now, order) + (c.Stock() + c.Core()) + claims
  {
  }

  lemma RefundPendingRecordsKeep(t: Tables, scope: Scope, x: Refund, now: nat, order: OrderRec)
    requires Inv(t) && Holds(t, RefundPendingRecords(scope, x, now, order))
    ensures Good(t, Apply(t, RefundPendingRecords(scope, x, now, order)))
    ensures ReceiptKey(scope.Pk(), IntegrationKey(x.event)) in Apply(t, RefundPendingRecords(scope, x, now, order))
  {
    var records := RefundRecordWrites(scope, x, now);
    var binding := PaymentEvent(x.event, Succeeded, x.occurredAt, order.reservation, x.order, order.attempt);
    ApplyInParts(t, records, BindingCheck(scope, binding));
    ApplyCheck(Apply(t, records), BindingKey(scope.Pk(), order.attempt), BindingIs(scope.domain, order.reservation, x.order));
    RefundRecordsPart(t, scope, x, now);
  }

  lemma RefundRecordsGroup(scope: Scope, x: Refund, now: nat, order: OrderRec)
    ensures InGroup(RefundPendingRecords(scope, x, now, order), Records)
  {
  }

  /** The pending refund does not look at the reservation's status; the condition on its revision does. */
  lemma RefundReadsReserved(t: Tables, scope: Scope, x: Refund, now: nat, order: OrderRec, r: ReservationRec,
                            before: seq<StockRec>, access: Option<AccessRec>)
    requires |before| == |r.allocations| && RefundPendingPlan(scope, x, now, order, r, before, access).Ok?
    requires Holds(t, RefundPendingPlan(scope, x, now, order, r, before, access).value)
    requires Was(t, ReservationKey(scope.Pk(), order.reservation), ReservationItem(r))
    ensures r.status == Reserved
  {
    RefundIsCompletion(scope, x, now, order, r, before, access);
    var c, claims := RefundCompletion(scope, x, now, order, r, before), AccessWrites(scope, x.order, Succeeded, now, access).value;
    ClaimsGroup(c, claims, Some(Succeeded), access);
    CoreNeedsHeld(t, c, RefundPendingRecords(scope, x, now, order), claims);
  }

  lemma CoreNeedsHeld(t: Tables, c: Completion, records: Writes, claims: Writes)
    requires InGroup(claims, Claims) && Holds(t, records + (c.Stock() + c.Core()) + claims)
    requires Was(t, ReservationKey(c.scope.Pk(), c.rid), ReservationItem(c.r))
    ensures c.r.status == Reserved
  {
    var rk, ws := ReservationKey(c.scope.Pk(), c.rid), records + (c.Stock() + c.Core()) + claims;
    assert GroupOf(rk) == Core;
    assert rk in ws && ws[rk].condition == ReservedIs(c.r.revision, c.r.allocationHash);
    assert Satisfied(ws[rk].condition, Lookup(t, rk));
  }

  lemma RefundPendingKeeps(t: Tables, scope: Scope, x: Refund, now: nat, order: OrderRec, r: ReservationRec,
                           before: seq<StockRec>, access: Option<AccessRec>)
    requires Inv(t) && |before| == |r.allocations| && RefundPendingPlan(scope, x, now, order, r, before, access).Ok?
    requires Holds(t, RefundPendingPlan(scope, x, now, order, r, before, access).value)
    requires Was(t, ReservationKey(scope.Pk(), order.reservation), ReservationItem(r))
    requires Was(t, OrderKey(scope.Pk(), x.order), OrderItem(order))
    requires StocksSeen(t, scope.Pk(), r.allocations, before)
    requires access.Some? ==> Was(t, AccessKey(scope.Pk(), x.order), AccessItem(access.value))
    ensures Good(t, Apply(t, RefundPendingPlan(scope, x, now, order, r, before, access).value))
  {
    RefundReadsReserved(t, scope, x, now, order, r, before, access);
    RefundIsCompletion(scope, x, now, order, r, before, access);
    var c := RefundCompletion(scope, x, now, order, r, before);
    var claims := AccessWrites(scope, x.order, Succeeded, now, access).value;
    RefundRecordsGroup(scope, x, now, order);
    if Holds(t, RefundPendingRecords(scope, x, now, order)) { RefundPendingRecordsKeep(t, scope, x, now, order); }
    assert c.Seen(t);
    CompletionInOrder(t, c, RefundPendingRecords(scope, x, now, order), claims, Some(Succeeded), access);
  }
}
