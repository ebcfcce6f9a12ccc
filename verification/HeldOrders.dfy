/** What is held for an order is what its lines ask for, and what it costs is their total, for as long as it exists. */
module HeldOrders {
  import opened Basics
  import opened Inventory
  import opened Records
  import opened Orders
  import opened Plans
  import opened Ledger
  import opened Protocol
  import opened Operations
  import opened Runs

  // ----- only a checkout brings a reservation into being -----

  /** The plan creates no reservation: where it writes one, it expects one. */
  ghost predicate MakesNone(ws: Writes) {
    forall k: Key :: k.ReservationKey? && k in ws ==> ws[k].condition != Absent
  }

  lemma NoneInGroup(ws: Writes, g: Group)
    requires InGroup(ws, g) && g != Core
    ensures MakesNone(ws)
  {
    forall k: Key | k in ws ensures !k.ReservationKey? {
      assert GroupOf(k) == g;
    }
  }

  lemma NoneInUnion(a: Writes, b: Writes)
    requires MakesNone(a) && MakesNone(b)
    ensures MakesNone(a + b)
  {
  }

  lemma StockMakesNone(pk: Partition, key: string, changes: seq<Change>)
    ensures MakesNone(StockWrites(pk, key, changes))
  {
    StockHasNone(pk, key, changes);
  }

  lemma CoreMakesNone(c: Completion)
    ensures MakesNone(c.Core())
  {
  }

  lemma CompletionMakesNone(records: Writes, c: Completion, claims: Writes, kind: Option<PaymentKind>, access: Option<AccessRec>)
    requires InGroup(records, Records) && ClaimsFit(c, claims, kind, access)
    ensures MakesNone(records + (c.Stock() + c.Core()) + claims)
  {
    ClaimsGroup(c, claims, kind, access);
    NoneInGroup(records, Records);
    StockMakesNone(c.scope.Pk(), c.key, c.changes);
    NoneInGroup(claims, Claims);
    CoreMakesNone(c);
    NoneInUnion(c.Stock(), c.Core());
    NoneInUnion(records, c.Stock() + c.Core());
    NoneInUnion(records + (c.Stock() + c.Core()), claims);
  }

  lemma FinishMakesNone(scope: Scope, f: Finish, now: nat, r: ReservationRec, order: OrderRec, before: seq<StockRec>, access: Option<AccessRec>)
    requires |before| == |r.allocations| && FinishArgs(f) && FinishPlan(scope, f, now, r, order, before, access).Ok?
    ensures MakesNone(FinishPlan(scope, f, now, r, order, before, access).value)
  {
    FinishIsCompletion(scope, f, now, r, order, before, access);
    NoReceipt(scope, f.event, r.order, order, FinishResult(f.reservation, r, f.status, now, f.reason), now);
    var records, claims := FinishRecords(scope, f, now, r, order), OptionalAccessWrites(scope, f.event, r.order, now, access).value;
    RecordsGroup(scope, f, now, r, order);
    CompletionMakesNone(records, FinishCompletion(scope, f, now, r, order, before), claims, KindOf(f.event), access);
  }

  lemma RecordsGroup(scope: Scope, f: Finish, now: nat, r: ReservationRec, order: OrderRec)
    ensures InGroup(FinishRecords(scope, f, now, r, order), Records)
  {
    var result := FinishResult(f.reservation, r, f.status, now, f.reason);
    NoReceipt(scope, f.event, r.order, order, result, now);
    UnionGroup(ReceiptWrites(scope, f.key, f.Request(scope), result, now), OptionalEventWrites(scope, f.event, r.order, order, result, now), Records);
  }

  lemma RefundMakesNone(op: Op)
    requires op.RefundPendingOp? && PlanOf(op).Ok?
    ensures MakesNone(PlanOf(op).value)
  {
    var scope, x, now := op.scope, op.refund, op.now;
    RefundIsCompletion(scope, x, now, op.order, op.reservation, op.before, op.access);
    RefundRecordsGroup(scope, x, now, op.order);
    CompletionMakesNone(RefundPendingRecords(scope, x, now, op.order), RefundCompletion(scope, x, now, op.order, op.reservation, op.before),
                        AccessWrites(scope, x.order, Succeeded, now, op.access).value, Some(Succeeded), op.access);
  }

  lemma AcknowledgeMakesNone(op: Op)
    requires op.AcknowledgeOp? && PlanOf(op).Ok?
    ensures MakesNone(PlanOf(op).value)
  {
    var scope, f, now, r := op.scope, op.finish, op.now, op.reservation;
    var result := TerminalResult(f.reservation, r);
    var receipt := ReceiptWrites(scope, f.key, f.Request(scope), result, now);
    var events := OptionalEventWrites(scope, f.event, r.order, op.order, result, now);
    NoReceipt(scope, f.event, r.order, op.order, result, now);
    AccessGroup(scope, r.order, f.event.value.kind, now, op.access);
    NoneInGroup(receipt, Records);
    NoneInGroup(events, Records);
    NoneInGroup(AccessWrites(scope, r.order, f.event.value.kind, now, op.access).value, Claims);
    NoneInUnion(receipt, events);
    NoneInUnion(receipt + events, AccessWrites(scope, r.order, f.event.value.kind, now, op.access).value);
  }

  lemma AdjustMakesNone(op: Op)
    requires op.AdjustOp? && PlanOf(op).Ok?
    ensures MakesNone(PlanOf(op).value)
  {
    var c := AdjustChange(op.scope, op.stock, op.location, op.delta, op.expectedRevision, op.now, op.current).value;
    StockMakesNone(op.scope.Pk(), op.key, [c]);
  }

  /** Of all operations, only a checkout writes a reservation that was not there. */
  lemma OthersMakeNone(op: Op)
    requires PlanOf(op).Ok? && !op.ReserveOp?
    ensures MakesNone(PlanOf(op).value)
  {
    if op.FinishOp? { FinishMakesNone(op.scope, op.finish, op.now, op.reservation, op.order, op.before, op.access); }
    else if op.RefundPendingOp? { RefundMakesNone(op); }
    else if op.AcknowledgeOp? { AcknowledgeMakesNone(op); }
    else if op.AdjustOp? { AdjustMakesNone(op); }
  }

  lemma NothingNew(t: Tables, ws: Writes, k: Key)
    requires Holds(t, ws) && MakesNone(ws) && k.ReservationKey? && k in Apply(t, ws)
    ensures k in t
  {
    assert k in ws ==> Satisfied(ws[k].condition, Lookup(t, k));
  }

  // ----- the lines of an order and what is held for them -----

  /** Between one and twenty lines of a positive quantity each, no line and no offer twice. */
  predicate LinesSound(lines: seq<Line>) {
    && 1 <= |lines| <= 20
    && (forall i :: 0 <= i < |lines| ==> 1 <= lines[i].quantity <= MAX_CHECKOUT_LINE_QUANTITY && 0 <= lines[i].amountMinor <= MAX_AMOUNT_MINOR)
    && (forall i, j :: 0 <= i < j < |lines| ==> lines[i].line != lines[j].line && lines[i].offer != lines[j].offer)
  }

  /**
   * The reservation holds what the order's lines ask for, at one location, and the order costs their total. Both expire
   * thirty-five minutes after they were made, and five minutes later the reservation is looked at for the first time.
   */
  ghost predicate FromLines(r: ReservationRec, o: OrderRec) {
    && LinesSound(o.lines)
    && (exists location :: Aggregates(r.allocations, o.lines, location))
    && o.amountMinor == OrderTotal(o.lines) <= MAX_AMOUNT_MINOR
    && o.createdAt == r.createdAt && o.checkoutExpiresAt == r.checkoutExpiresAt == r.createdAt + CHECKOUT_EXPIRY_SECONDS
    && r.initialReconcileAfter == r.createdAt + CHECKOUT_EXPIRY_SECONDS + RECONCILIATION_GRACE_SECONDS <= r.reconcileAfter
  }

  ghost predicate HeldFor(t: Tables, pk: Partition, rid: Id) {
    var rk := ReservationKey(pk, rid);
    && rk in t && t[rk].ReservationItem?
    && var ok := OrderKey(pk, t[rk].reservation.order);
       ok in t && t[ok].OrderItem? && FromLines(t[rk].reservation, t[ok].order)
  }

  lemma HeldStays(t: Tables, u: Tables, pk: Partition, rid: Id)
    requires HeldFor(t, pk, rid) && Advances(t, u)
    ensures HeldFor(u, pk, rid)
  {
    var rk := ReservationKey(pk, rid);
    var ok := OrderKey(pk, t[rk].reservation.order);
    assert Stays(t[rk], u[rk]) && Stays(t[ok], u[ok]);
    assert u[rk].reservation.order == t[rk].reservation.order;
  }

  /** A new checkout is written with the allocations of its own lines. */
  lemma CheckoutHeld(t: Tables, records: Writes, scope: Scope, c: Checkout, allocations: seq<Allocation>, now: nat)
    requires CheckoutWrites(scope, c, allocations, now).Keys <= records.Keys
    requires forall k :: k in CheckoutWrites(scope, c, allocations, now) ==> records[k] == CheckoutWrites(scope, c, allocations, now)[k]
    requires Aggregates(allocations, c.order.lines, c.location) && OrderTotal(c.order.lines) <= MAX_AMOUNT_MINOR && LinesSound(c.order.lines)
    ensures HeldFor(Apply(t, records), scope.Pk(), c.reservation)
  {
    var u, rk, ok := Apply(t, records), ReservationKey(scope.Pk(), c.reservation), OrderKey(scope.Pk(), c.order.order);
    var ws := CheckoutWrites(scope, c, allocations, now);
    assert rk in ws && ok in ws;
    assert u[rk] == ReservationItem(NewReservation(scope, c, allocations, now));
    assert u[ok] == OrderItem(NewOrder(scope, c, now));
  }

  ghost predicate NoReservation(ws: Writes) {
    forall k: Key :: k in ws ==> !k.ReservationKey?
  }

  lemma InTheMiddle(a: Writes, b: Writes, c: Writes, d: Writes)
    requires a.Keys !! b.Keys !! c.Keys !! d.Keys && NoReservation(a) && NoReservation(b) && NoReservation(d)
    ensures forall k :: k in c ==> k in a + (b + c) + d && (a + (b + c) + d)[k] == c[k]
    ensures forall k: Key :: k in a + (b + c) + d && k.ReservationKey? ==> k in c
  {
  }

  /** The checkout's own records are the plan's, untouched by its other parts. */
  lemma CheckoutInPlan(scope: Scope, c: Checkout, key: string, now: nat, allocations: seq<Allocation>, before: seq<StockRec>)
    requires |allocations| == |before| && Aggregates(allocations, c.order.lines, c.location)
    requires ReservePlan(scope, c, key, now, allocations, before).Ok?
    ensures var ws, plan := CheckoutWrites(scope, c, allocations, now), ReservePlan(scope, c, key, now, allocations, before).value;
      && (forall k :: k in ws ==> k in plan && plan[k] == ws[k])
      && (forall k: Key :: k in plan && k.ReservationKey? ==> k in ws)
  {
    var changes := ChangesOf(scope.domain, c.reservation, ReserveMove, None, now, allocations, before).value;
    AggregatesValid(allocations, c.order, c.location);
    ReserveApart(scope, c, key, now, allocations, before, changes);
    StockHasNone(scope.Pk(), key, changes);
    InTheMiddle(ReceiptWrites(scope, key, c.Request(), c.Result(now), now), StockWrites(scope.Pk(), key, changes),
                CheckoutWrites(scope, c, allocations, now), NewAccessWrites(scope, c, now));
  }

  lemma StockHasNone(pk: Partition, key: string, changes: seq<Change>)
    ensures NoReservation(StockWrites(pk, key, changes))
  {
    forall k: Key | k in StockWrites(pk, key, changes) ensures !k.ReservationKey? {
      var i := StockWriteSource(pk, key, changes, k);
    }
  }

  lemma ExecHeld(w: World, op: Op, pk: Partition, rid: Id)
    requires WorldInv(w) && ReservationKey(pk, rid) in Exec(w, op).tables
    requires ReservationKey(pk, rid) in w.tables ==> HeldFor(w.tables, pk, rid)
    ensures HeldFor(Exec(w, op).tables, pk, rid)
  {
    if ReservationKey(pk, rid) in w.tables {
      ExecKeeps(w, op);
      HeldStays(w.tables, Exec(w, op).tables, pk, rid);
    } else if op.ReserveOp? {
      OpenedHeld(w, op, pk, rid);
    } else {
      OthersOpenNone(w, op, pk, rid);
    }
  }

  lemma OpenedHeld(w: World, op: Op, pk: Partition, rid: Id)
    requires op.ReserveOp? && ReservationKey(pk, rid) !in w.tables && ReservationKey(pk, rid) in Exec(w, op).tables
    ensures HeldFor(Exec(w, op).tables, pk, rid)
  {
    OpenedBy(w.tables, op.scope, op.checkout, op.key, op.now, op.allocations, op.before, pk, rid);
  }

  lemma OpenedBy(t: Tables, scope: Scope, c: Checkout, key: string, now: nat, allocations: seq<Allocation>, before: seq<StockRec>,
                 pk: Partition, rid: Id)
    requires |allocations| == |before| && Aggregates(allocations, c.order.lines, c.location)
    requires ReservePlan(scope, c, key, now, allocations, before).Ok? && ReservationKey(pk, rid) !in t
    requires ReservationKey(pk, rid) in Apply(t, ReservePlan(scope, c, key, now, allocations, before).value)
    ensures HeldFor(Apply(t, ReservePlan(scope, c, key, now, allocations, before).value), pk, rid)
  {
    var plan := ReservePlan(scope, c, key, now, allocations, before).value;
    CheckoutInPlan(scope, c, key, now, allocations, before);
    CheckoutHeld(t, plan, scope, c, allocations, now);
    NewKeyWritten(t, plan, ReservationKey(pk, rid));
    OnlyReservation(scope, c, allocations, now, ReservationKey(pk, rid));
  }

  lemma NewKeyWritten(t: Tables, ws: Writes, k: Key)
    requires k !in t && k in Apply(t, ws)
    ensures k in ws
  {
  }

  lemma OnlyReservation(scope: Scope, c: Checkout, allocations: seq<Allocation>, now: nat, k: Key)
    requires k in CheckoutWrites(scope, c, allocations, now) && k.ReservationKey?
    ensures k == ReservationKey(scope.Pk(), c.reservation)
  {
  }

  lemma OthersOpenNone(w: World, op: Op, pk: Partition, rid: Id)
    requires !op.ReserveOp? && ReservationKey(pk, rid) in Exec(w, op).tables
    ensures ReservationKey(pk, rid) in w.tables
  {
    if Commits(w, op) {
      OthersMakeNone(op);
      NothingNew(w.tables, PlanOf(op).value, ReservationKey(pk, rid));
    }
  }

  /**
   * In every reachable state, whatever became of it: a reservation's allocations are exactly what the lines of its
   * order ask of each tracked stock, the order's amount is the total of those lines, and both expire in time.
   */
  lemma {:induction false} HeldIsOrdered(ops: seq<Op>, pk: Partition, rid: Id)
    requires ReservationKey(pk, rid) in Run(ops).tables
    ensures HeldFor(Run(ops).tables, pk, rid)
  {
    var init, op := ops[..|ops| - 1], ops[|ops| - 1];
    if ReservationKey(pk, rid) in Run(init).tables { HeldIsOrdered(init, pk, rid); }
    RunKeeps(init);
    ExecHeld(Run(init), op, pk, rid);
  }
}
