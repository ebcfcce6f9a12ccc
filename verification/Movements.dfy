/** The movement log tells what happened to each reservation's stock, and nothing else. */
module Movements {
  import opened Basics
  import opened Inventory
  import opened Records
  import opened Orders
  import opened Plans
  import opened Ledger
  import opened Protocol
  import opened Parts
  import opened Operations
  import opened Runs
  import opened HeldOrders

  /** The movement is of one allocation of its reservation: that stock, that location, that many units, for those lines. */
  predicate Trades(t: Tables, pk: Partition, m: MovementRec) {
    && m.reservation.Some?
    && var rk := ReservationKey(pk, m.reservation.value);
    && rk in t && t[rk].ReservationItem? && t[rk].reservation.domain == m.domain
    && Allocation(m.stock, m.location, m.quantity, m.lines) in t[rk].reservation.allocations
  }

  /**
   * What a logged movement means. An adjustment moves the units on hand and concerns nobody. A hold was made with its
   * reservation, a commit takes the held units away for good, a release gives them back, each when and why its reservation ended.
   */
  predicate MovementSo(t: Tables, pk: Partition, m: MovementRec) {
    match m.kind
    case AdjustMove =>
      && m.reservation.None? && m.reason.None? && m.lines == [] && m.quantity > 0
      && (m.deltas == Deltas(m.quantity, 0, m.quantity) || m.deltas == Deltas(-m.quantity, 0, -m.quantity))
    case ReserveMove =>
      && Trades(t, pk, m) && m.deltas == Deltas(0, m.quantity, -m.quantity) && m.reason.None?
      && m.occurredAt == t[ReservationKey(pk, m.reservation.value)].reservation.createdAt
    case CommitMove =>
      && Trades(t, pk, m) && m.deltas == Deltas(-m.quantity, -m.quantity, 0)
      && EndedWith(t[ReservationKey(pk, m.reservation.value)].reservation, Committed, m)
    case ReleaseMove =>
      && Trades(t, pk, m) && m.deltas == Deltas(0, -m.quantity, m.quantity)
      && EndedWith(t[ReservationKey(pk, m.reservation.value)].reservation, Released, m)
  }

  predicate EndedWith(r: ReservationRec, status: ReservationStatus, m: MovementRec) {
    r.status == status && r.completedAt == Some(m.occurredAt) && r.reason == m.reason
  }

  lemma MovementStays(t: Tables, u: Tables, pk: Partition, m: MovementRec)
    requires MovementSo(t, pk, m) && Advances(t, u)
    ensures MovementSo(u, pk, m)
  {
    if m.reservation.Some? {
      var rk := ReservationKey(pk, m.reservation.value);
      if rk in t { assert Stays(t[rk], u[rk]); }
    }
  }

  // ----- what a plan logs -----

  /** Every movement that the writes log is so, in tables that hold what the plan leaves. */
  ghost predicate LogsSo(ws: Writes, u: Tables, pk: Partition) {
    forall k: Key :: k in ws && k.MovementKey? ==>
      k.pk == pk && ws[k].Put? && ws[k].item.MovementItem? && MovementSo(u, pk, ws[k].item.movement)
  }

  lemma LogsInUnion(a: Writes, b: Writes, u: Tables, pk: Partition)
    requires LogsSo(a, u, pk) && LogsSo(b, u, pk)
    ensures LogsSo(a + b, u, pk)
  {
  }

  lemma NoneLogged(ws: Writes, g: Group, u: Tables, pk: Partition)
    requires InGroup(ws, g) && g != Log
    ensures LogsSo(ws, u, pk)
  {
    forall k: Key | k in ws ensures !k.MovementKey? {
      assert GroupOf(k) == g;
    }
  }

  /** The reservation that the transitions are made for, as the plan leaves it. */
  predicate TradedFor(u: Tables, pk: Partition, domain: string, rid: Id, kind: MovementKind, reason: Option<Reason>, now: nat,
                      allocations: seq<Allocation>)
  {
    && var rk := ReservationKey(pk, rid);
    && rk in u && u[rk].ReservationItem?
    && var r := u[rk].reservation;
    && r.domain == domain && r.allocations == allocations
    && match kind
       case AdjustMove => false
       case ReserveMove => r.createdAt == now && reason.None?
       case CommitMove => r.status == Committed && r.completedAt == Some(now) && r.reason == reason
       case ReleaseMove => r.status == Released && r.completedAt == Some(now) && r.reason == reason
  }

  lemma ChangeIsSo(u: Tables, pk: Partition, domain: string, rid: Id, kind: MovementKind, reason: Option<Reason>, now: nat,
                   allocations: seq<Allocation>, i: nat, before: StockRec, c: Change)
    requires i < |allocations| && ChangeOf(domain, rid, kind, reason, now, allocations[i], before) == Ok(c)
    requires TradedFor(u, pk, domain, rid, kind, reason, now, allocations)
    ensures MovementSo(u, pk, c.movement)
  {
    assert allocations[i] == Allocation(c.movement.stock, c.movement.location, c.movement.quantity, c.movement.lines);
  }

  lemma StockLogs(u: Tables, pk: Partition, key: string, domain: string, rid: Id, kind: MovementKind, reason: Option<Reason>, now: nat,
                  allocations: seq<Allocation>, before: seq<StockRec>, changes: seq<Change>)
    requires |allocations| == |before| && AllocationsValid(allocations)
    requires ChangesOf(domain, rid, kind, reason, now, allocations, before) == Ok(changes)
    requires TradedFor(u, pk, domain, rid, kind, reason, now, allocations)
    ensures LogsSo(StockWrites(pk, key, changes), u, pk)
  {
    var ws := StockWrites(pk, key, changes);
    ChangesAt(domain, rid, kind, reason, now, allocations, before);
    ChangesDistinct(domain, rid, kind, reason, now, allocations, before);
    StockWritesAt(pk, key, changes);
    forall k: Key | k in ws && k.MovementKey?
      ensures k.pk == pk && ws[k].Put? && ws[k].item.MovementItem? && MovementSo(u, pk, ws[k].item.movement)
    {
      var i := StockWriteSource(pk, key, changes, k);
      assert WritesChange(ws, pk, key, changes[i]);
      assert ChangeOf(domain, rid, kind, reason, now, allocations[i], before[i]) == Ok(changes[i]);
      ChangeIsSo(u, pk, domain, rid, kind, reason, now, allocations, i, before[i], changes[i]);
    }
  }

  // ----- one operation at a time -----

  lemma AdjustLogs(u: Tables, op: Op)
    requires op.AdjustOp? && PlanOf(op).Ok?
    ensures LogsSo(PlanOf(op).value, u, op.scope.Pk())
  {
    var c := AdjustChange(op.scope, op.stock, op.location, op.delta, op.expectedRevision, op.now, op.current).value;
    var ws := StockWrites(op.scope.Pk(), op.key, [c]);
    StockWritesAt(op.scope.Pk(), op.key, [c]);
    forall k: Key | k in ws && k.MovementKey?
      ensures k.pk == op.scope.Pk() && ws[k].Put? && ws[k].item.MovementItem? && MovementSo(u, op.scope.Pk(), ws[k].item.movement)
    {
      var i := StockWriteSource(op.scope.Pk(), op.key, [c], k);
      assert WritesChange(ws, op.scope.Pk(), op.key, [c][i]);
    }
  }

  lemma ReserveLogs(t: Tables, scope: Scope, c: Checkout, key: string, now: nat, allocations: seq<Allocation>, before: seq<StockRec>)
    requires |allocations| == |before| && Aggregates(allocations, c.order.lines, c.location)
    requires ReservePlan(scope, c, key, now, allocations, before).Ok?
    ensures var plan := ReservePlan(scope, c, key, now, allocations, before).value; LogsSo(plan, Apply(t, plan), scope.Pk())
  {
    var pk, u := scope.Pk(), Apply(t, ReservePlan(scope, c, key, now, allocations, before).value);
    var changes := ChangesOf(scope.domain, c.reservation, ReserveMove, None, now, allocations, before).value;
    AggregatesValid(allocations, c.order, c.location);
    CheckoutInPlan(scope, c, key, now, allocations, before);
    assert ReservationKey(pk, c.reservation) in CheckoutWrites(scope, c, allocations, now);
    StockLogs(u, pk, key, scope.domain, c.reservation, ReserveMove, None, now, allocations, before, changes);
    ReserveLogsOnlyStock(u, scope, c, key, now, allocations, StockWrites(pk, key, changes));
  }

  lemma ReserveLogsOnlyStock(u: Tables, scope: Scope, c: Checkout, key: string, now: nat, allocations: seq<Allocation>, stock: Writes)
    requires LogsSo(stock, u, scope.Pk())
    ensures LogsSo(ReceiptWrites(scope, key, c.Request(), c.Result(now), now) + (stock + CheckoutWrites(scope, c, allocations, now))
                   + NewAccessWrites(scope, c, now), u, scope.Pk())
  {
  }

  /** A completion logs the movements of its own allocations. */
  lemma CompletionLogs(u: Tables, c: Completion, records: Writes, claims: Writes)
    requires |c.before| == |c.r.allocations| && ReservationReadable(c.r, c.scope.domain) && ReasonFits(c.status, c.reason)
    requires ChangesOf(c.scope.domain, c.rid, MoveFor(c.status), Some(c.reason), c.now, c.r.allocations, c.before) == Ok(c.changes)
    requires InGroup(records, Records) && InGroup(claims, Claims)
    requires var rk := ReservationKey(c.scope.Pk(), c.rid); rk in u && u[rk] == ReservationItem(c.Finished())
    ensures LogsSo(records + (c.Stock() + c.Core()) + claims, u, c.scope.Pk())
  {
    var pk := c.scope.Pk();
    StockLogs(u, pk, c.key, c.scope.domain, c.rid, MoveFor(c.status), Some(c.reason), c.now, c.r.allocations, c.before, c.changes);
    CoreGroup(c);
    NoneLogged(records, Records, u, pk);
    NoneLogged(c.Core(), Core, u, pk);
    NoneLogged(claims, Claims, u, pk);
    LogsInUnion(c.Stock(), c.Core(), u, pk);
    LogsInUnion(records, c.Stock() + c.Core(), u, pk);
    LogsInUnion(records + (c.Stock() + c.Core()), claims, u, pk);
  }

  lemma CompletionLeaves(t: Tables, c: Completion, records: Writes, claims: Writes)
    requires InGroup(claims, Claims)
    ensures var u, rk := Apply(t, records + (c.Stock() + c.Core()) + claims), ReservationKey(c.scope.Pk(), c.rid);
      rk in u && u[rk] == ReservationItem(c.Finished())
  {
    var rk := ReservationKey(c.scope.Pk(), c.rid);
    assert GroupOf(rk) == Core;
    assert rk in c.Core() && c.Core()[rk].Put? && c.Core()[rk].item == ReservationItem(c.Finished());
  }

  lemma FinishLogs(t: Tables, op: Op)
    requires op.FinishOp? && PlanOf(op).Ok?
    ensures LogsSo(PlanOf(op).value, Apply(t, PlanOf(op).value), op.scope.Pk())
  {
    var scope, f, now, r := op.scope, op.finish, op.now, op.reservation;
    FinishIsCompletion(scope, f, now, r, op.order, op.before, op.access);
    var c := FinishCompletion(scope, f, now, r, op.order, op.before);
    var claims := OptionalAccessWrites(scope, f.event, r.order, now, op.access).value;
    RecordsGroup(scope, f, now, r, op.order);
    ClaimsGroup(c, claims, KindOf(f.event), op.access);
    CompletionLeaves(t, c, FinishRecords(scope, f, now, r, op.order), claims);
    CompletionLogs(Apply(t, PlanOf(op).value), c, FinishRecords(scope, f, now, r, op.order), claims);
  }

  lemma RefundLogs(t: Tables, op: Op)
    requires op.RefundPendingOp? && PlanOf(op).Ok?
    ensures LogsSo(PlanOf(op).value, Apply(t, PlanOf(op).value), op.scope.Pk())
  {
    var scope, x, now := op.scope, op.refund, op.now;
    RefundIsCompletion(scope, x, now, op.order, op.reservation, op.before, op.access);
    var c := RefundCompletion(scope, x, now, op.order, op.reservation, op.before);
    var claims := AccessWrites(scope, x.order, Succeeded, now, op.access).value;
    RefundRecordsGroup(scope, x, now, op.order);
    AccessGroup(scope, x.order, Succeeded, now, op.access);
    CompletionLeaves(t, c, RefundPendingRecords(scope, x, now, op.order), claims);
    CompletionLogs(Apply(t, PlanOf(op).value), c, RefundPendingRecords(scope, x, now, op.order), claims);
  }

  lemma AcknowledgeLogs(u: Tables, op: Op)
    requires op.AcknowledgeOp? && PlanOf(op).Ok?
    ensures LogsSo(PlanOf(op).value, u, op.scope.Pk())
  {
    var scope, f, now, r := op.scope, op.finish, op.now, op.reservation;
    NoReceipt(scope, f.event, r.order, op.order, TerminalResult(f.reservation, r), now);
    AccessGroup(scope, r.order, f.event.value.kind, now, op.access);
  }

  lemma OthersLog(u: Tables, op: Op)
    requires PlanOf(op).Ok? && !(op.AdjustOp? || op.ReserveOp? || op.FinishOp? || op.AcknowledgeOp? || op.RefundPendingOp?)
    ensures LogsSo(PlanOf(op).value, u, op.scope.Pk())
  {
  }

  lemma OpLogs(t: Tables, op: Op)
    requires PlanOf(op).Ok?
    ensures LogsSo(PlanOf(op).value, Apply(t, PlanOf(op).value), op.scope.Pk())
  {
    var u := Apply(t, PlanOf(op).value);
    if op.AdjustOp? { AdjustLogs(u, op); }
    else if op.ReserveOp? { ReserveLogs(t, op.scope, op.checkout, op.key, op.now, op.allocations, op.before); }
    else if op.FinishOp? { FinishLogs(t, op); }
    else if op.AcknowledgeOp? { AcknowledgeLogs(u, op); }
    else if op.RefundPendingOp? { RefundLogs(t, op); }
    else { OthersLog(u, op); }
  }

  // ----- whole runs -----

  ghost predicate LoggedSo(t: Tables, k: Key) {
    k in t && t[k].MovementItem? && MovementSo(t, k.pk, t[k].movement)
  }

  lemma OldStaysSo(w: World, op: Op, k: Key)
    requires WorldInv(w) && k.MovementKey? && LoggedSo(w.tables, k)
    ensures LoggedSo(Exec(w, op).tables, k)
  {
    ExecKeeps(w, op);
    assert Stays(w.tables[k], Exec(w, op).tables[k]);
    MovementStays(w.tables, Exec(w, op).tables, k.pk, w.tables[k].movement);
  }

  lemma NewIsSo(w: World, op: Op, k: Key)
    requires k.MovementKey? && k in Exec(w, op).tables && k !in w.tables
    ensures LoggedSo(Exec(w, op).tables, k)
  {
    OpLogs(w.tables, op);
  }

  /**
   * In every reachable state each logged movement is what it says: an adjustment, or one allocation of a reservation
   * being held when that was made, sold when it was committed, or given back when it was released.
   */
  lemma {:induction false} MovementsAreTrue(ops: seq<Op>, k: Key)
    requires k.MovementKey? && k in Run(ops).tables
    ensures LoggedSo(Run(ops).tables, k)
  {
    var init, op := ops[..|ops| - 1], ops[|ops| - 1];
    RunKeeps(init);
    if k in Run(init).tables {
      MovementsAreTrue(init, k);
      OldStaysSo(Run(init), op, k);
    } else {
      NewIsSo(Run(init), op, k);
    }
  }
}
