/**
 * Runs of the store: any interleaving of operations, each committing a plan made from records that it
 * read one by one at earlier moments.
 */
module Runs {
  import opened Basics
  import opened Records
  import opened Orders
  import opened Plans
  import opened Ledger
  import opened Protocol
  import opened Steps
  import opened Parts
  import opened Operations

  /** One attempted transaction: who it is for, what its operation had read, and its arguments. */
  datatype Op =
    | AdjustOp(scope: Scope, now: nat, key: string, stock: Id, location: Id, delta: int, expectedRevision: nat,
               current: Option<StockRec>)
    | ReserveOp(scope: Scope, now: nat, key: string, checkout: Checkout, allocations: seq<Allocation>, before: seq<StockRec>)
    | FinishOp(scope: Scope, now: nat, finish: Finish, reservation: ReservationRec, order: OrderRec, before: seq<StockRec>,
               access: Option<AccessRec>)
    | AcknowledgeOp(scope: Scope, now: nat, finish: Finish, reservation: ReservationRec, order: OrderRec,
                    access: Option<AccessRec>)
    | RefundPaidOp(scope: Scope, now: nat, refund: Refund, order: OrderRec)
    | RefundPendingOp(scope: Scope, now: nat, refund: Refund, order: OrderRec, reservation: ReservationRec,
                      before: seq<StockRec>, access: Option<AccessRec>)
    | DeferOp(scope: Scope, now: nat, key: string, id: Id, next: nat, reservation: ReservationRec)
    | RotateOp(scope: Scope, now: nat, orderId: Id, proof: string, held: AccessRec)
    | AttemptOp(scope: Scope, now: nat, orderId: Id, proof: string, held: AccessRec)
    | RedeemOp(scope: Scope, now: nat, key: string, orderId: Id, proof: string, details: string, held: AccessRec)
    | FiscalOp(scope: Scope, now: nat, request: FiscalId, action: FiscalAction, revision: int, stored: FiscalRequestRec)
    | CatalogOp(scope: Scope, now: nat, key: string, content: string, result: string)
    | SubscriptionOp(scope: Scope, now: nat, event: Id, content: string)

  /** The plan of an operation, or the refusal it raises before writing. */
  function PlanOf(op: Op): Result<Writes> {
    match op
    case AdjustOp(scope, now, key, stock, location, delta, revision, current) =>
      AdjustPlan(scope, stock, location, delta, revision, key, now, current)
    case ReserveOp(scope, now, key, checkout, allocations, before) =>
      if |allocations| != |before| || !Aggregates(allocations, checkout.order.lines, checkout.location) then Err(InvalidInput)
      else ReservePlan(scope, checkout, key, now, allocations, before)
    case FinishOp(scope, now, f, r, order, before, access) =>
      if |before| != |r.allocations| || !FinishArgs(f) then Err(InvalidInput)
      else FinishPlan(scope, f, now, r, order, before, access)
    case AcknowledgeOp(scope, now, f, r, order, access) =>
      if f.event.None? || !FinishArgs(f) then Err(InvalidInput) else AcknowledgePlan(scope, f, now, r, order, access)
    case RefundPaidOp(scope, now, x, order) => RefundPaidPlan(scope, x, now, order)
    case RefundPendingOp(scope, now, x, order, r, before, access) =>
      if |before| != |r.allocations| then Err(InvalidInput) else RefundPendingPlan(scope, x, now, order, r, before, access)
    case DeferOp(scope, now, key, id, next, r) => DeferPlan(scope, id, next, key, now, r)
    case RotateOp(scope, now, orderId, proof, a) => RotatePlan(scope, orderId, proof, now, a)
    case AttemptOp(scope, now, orderId, proof, a) => FailedAttemptPlan(scope, orderId, proof, now, a)
    case RedeemOp(scope, now, key, orderId, proof, details, a) => RedeemPlan(scope, orderId, proof, details, key, now, a)
    case FiscalOp(scope, now, id, action, revision, x) => FiscalMovePlan(scope, id, action, revision, now, x)
    case CatalogOp(scope, now, key, content, result) => Ok(CatalogPlan(scope, key, content, result, now))
    case SubscriptionOp(scope, now, event, content) => Ok(SubscriptionPlan(scope, event, content, now))
  }

  function StockReads(pk: Partition, allocations: seq<Allocation>, before: seq<StockRec>): set<(Key, Item)> {
    set i | 0 <= i < |allocations| && i < |before| ::
      (StockKey(pk, allocations[i].location, allocations[i].stock), StockItem(before[i]))
  }

  function AccessRead(pk: Partition, orderId: Id, access: Option<AccessRec>): set<(Key, Item)> {
    if access.None? then {} else {(AccessKey(pk, orderId), AccessItem(access.value))}
  }

  /** The records an operation planned from; an absent record needs no witness. */
  function ReadsOf(op: Op): set<(Key, Item)> {
    var pk := op.scope.Pk();
    match op
    case AdjustOp(_, _, _, stock, location, _, _, current) =>
      if current.None? then {} else {(StockKey(pk, location, stock), StockItem(current.value))}
    case ReserveOp(_, _, _, _, allocations, before) => StockReads(pk, allocations, before)
    case FinishOp(_, _, f, r, order, before, access) =>
      {(ReservationKey(pk, f.reservation), ReservationItem(r)), (OrderKey(pk, r.order), OrderItem(order))}
      + StockReads(pk, r.allocations, before) + AccessRead(pk, r.order, access)
    case AcknowledgeOp(_, _, f, r, order, access) =>
      {(ReservationKey(pk, f.reservation), ReservationItem(r)), (OrderKey(pk, r.order), OrderItem(order))}
      + AccessRead(pk, r.order, access)
    case RefundPaidOp(_, _, x, order) => {(OrderKey(pk, x.order), OrderItem(order))}
    case RefundPendingOp(_, _, x, order, r, before, access) =>
      {(OrderKey(pk, x.order), OrderItem(order)), (ReservationKey(pk, order.reservation), ReservationItem(r))}
      + StockReads(pk, r.allocations, before) + AccessRead(pk, x.order, access)
    case DeferOp(_, _, _, id, _, r) => {(ReservationKey(pk, id), ReservationItem(r))}
    case RotateOp(_, _, orderId, _, a) => {(AccessKey(pk, orderId), AccessItem(a))}
    case AttemptOp(_, _, orderId, _, a) => {(AccessKey(pk, orderId), AccessItem(a))}
    case RedeemOp(_, _, _, orderId, _, _, a) => {(AccessKey(pk, orderId), AccessItem(a))}
    case FiscalOp(_, _, id, _, _, x) => {(FiscalRequestKey(pk, id), FiscalRequestItem(x))}
    case CatalogOp(_, _, _, _, _) => {}
    case SubscriptionOp(_, _, _, _) => {}
  }

  /** What a repeated payment event was planned from: a reservation that had ended just as the event says. */
  lemma AcknowledgeWasRead(op: Op)
    requires op.AcknowledgeOp? && PlanOf(op).Ok?
    ensures (ReservationKey(op.scope.Pk(), op.finish.reservation), ReservationItem(op.reservation)) in ReadsOf(op)
    ensures var f, r := op.finish, op.reservation;
      && r.domain == op.scope.domain && r.status == f.status && r.reason == Some(f.reason) && ReasonFits(f.status, f.reason) && r.status != Reserved
  {
  }

  /** The tables, and every record version that was ever in them. */
  datatype World = World(tables: Tables, seen: set<(Key, Item)>)

  const EMPTY: World := World(map[], {})

  /** The transaction goes through: its plan was made from records once stored, and its conditions hold now. */
  predicate Commits(w: World, op: Op) {
    PlanOf(op).Ok? && ReadsOf(op) <= w.seen && Holds(w.tables, PlanOf(op).value)
  }

  function Exec(w: World, op: Op): World {
    if Commits(w, op) then
      var t := Apply(w.tables, PlanOf(op).value);
      World(t, w.seen + t.Items)
    else w
  }

  function Run(ops: seq<Op>): World {
    if ops == [] then EMPTY else Exec(Run(ops[..|ops| - 1]), ops[|ops| - 1])
  }

  /** The invariant of whole runs: the tables are sound, and every earlier version only evolved. */
  ghost predicate WorldInv(w: World) {
    && Inv(w.tables)
    && (forall k, v :: (k, v) in w.seen ==> Was(w.tables, k, v))
    && (forall k :: k in w.tables ==> (k, w.tables[k]) in w.seen)
  }

  // ----- one step -----

  /** Everything the operation planned from was once stored. */
  ghost predicate AllWere(t: Tables, read: set<(Key, Item)>) {
    forall k, v :: (k, v) in read ==> Was(t, k, v)
  }

  lemma StocksWere(t: Tables, pk: Partition, allocations: seq<Allocation>, before: seq<StockRec>)
    requires |allocations| == |before| && AllWere(t, StockReads(pk, allocations, before))
    ensures StocksSeen(t, pk, allocations, before)
  {
    forall i | 0 <= i < |allocations|
      ensures Was(t, StockKey(pk, allocations[i].location, allocations[i].stock), StockItem(before[i]))
    {
      assert (StockKey(pk, allocations[i].location, allocations[i].stock), StockItem(before[i])) in StockReads(pk, allocations, before);
    }
  }

  lemma AccessWas(t: Tables, pk: Partition, orderId: Id, access: Option<AccessRec>)
    requires AllWere(t, AccessRead(pk, orderId, access))
    ensures access.Some? ==> Was(t, AccessKey(pk, orderId), AccessItem(access.value))
  {
    if access.Some? {
      assert (AccessKey(pk, orderId), AccessItem(access.value)) in AccessRead(pk, orderId, access);
    }
  }

  lemma FewerWere(t: Tables, read: set<(Key, Item)>, some: set<(Key, Item)>)
    requires AllWere(t, read) && some <= read
    ensures AllWere(t, some)
  {
  }

  lemma StepStock(t: Tables, op: Op)
    requires Inv(t) && PlanOf(op).Ok? && Holds(t, PlanOf(op).value) && AllWere(t, ReadsOf(op))
    requires op.AdjustOp? || op.ReserveOp?
    ensures Good(t, Apply(t, PlanOf(op).value))
  {
    var pk := op.scope.Pk();
    if op.AdjustOp? {
      if op.current.Some? { assert (StockKey(pk, op.location, op.stock), StockItem(op.current.value)) in ReadsOf(op); }
      AdjustKeeps(t, op.scope, op.stock, op.location, op.delta, op.expectedRevision, op.key, op.now, op.current);
    } else {
      StocksWere(t, pk, op.allocations, op.before);
      AggregatesValid(op.allocations, op.checkout.order, op.checkout.location);
      ReserveKeeps(t, op.scope, op.checkout, op.key, op.now, op.allocations, op.before);
    }
  }

  lemma StepFinish(t: Tables, op: Op)
    requires Inv(t) && PlanOf(op).Ok? && Holds(t, PlanOf(op).value) && AllWere(t, ReadsOf(op)) && op.FinishOp?
    ensures Good(t, Apply(t, PlanOf(op).value))
  {
    var pk, r := op.scope.Pk(), op.reservation;
    assert (ReservationKey(pk, op.finish.reservation), ReservationItem(r)) in ReadsOf(op);
    assert (OrderKey(pk, r.order), OrderItem(op.order)) in ReadsOf(op);
    FewerWere(t, ReadsOf(op), StockReads(pk, r.allocations, op.before));
    FewerWere(t, ReadsOf(op), AccessRead(pk, r.order, op.access));
    StocksWere(t, pk, r.allocations, op.before);
    AccessWas(t, pk, r.order, op.access);
    FinishKeeps(t, op.scope, op.finish, op.now, r, op.order, op.before, op.access);
  }

  lemma StepAcknowledge(t: Tables, op: Op)
    requires Inv(t) && PlanOf(op).Ok? && Holds(t, PlanOf(op).value) && AllWere(t, ReadsOf(op)) && op.AcknowledgeOp?
    ensures Good(t, Apply(t, PlanOf(op).value))
  {
    var pk, r := op.scope.Pk(), op.reservation;
    assert (ReservationKey(pk, op.finish.reservation), ReservationItem(r)) in ReadsOf(op);
    assert (OrderKey(pk, r.order), OrderItem(op.order)) in ReadsOf(op);
    FewerWere(t, ReadsOf(op), AccessRead(pk, r.order, op.access));
    AccessWas(t, pk, r.order, op.access);
    AcknowledgeKeeps(t, op.scope, op.finish, op.now, r, op.order, op.access);
  }

  lemma StepRefund(t: Tables, op: Op)
    requires Inv(t) && PlanOf(op).Ok? && Holds(t, PlanOf(op).value) && AllWere(t, ReadsOf(op))
    requires op.RefundPaidOp? || op.RefundPendingOp?
    ensures Good(t, Apply(t, PlanOf(op).value))
  {
    var pk := op.scope.Pk();
    assert (OrderKey(pk, op.refund.order), OrderItem(op.order)) in ReadsOf(op);
    if op.RefundPaidOp? {
      RefundPaidKeeps(t, op.scope, op.refund, op.now, op.order);
    } else {
      var r := op.reservation;
      assert (ReservationKey(pk, op.order.reservation), ReservationItem(r)) in ReadsOf(op);
      FewerWere(t, ReadsOf(op), StockReads(pk, r.allocations, op.before));
      FewerWere(t, ReadsOf(op), AccessRead(pk, op.refund.order, op.access));
      StocksWere(t, pk, r.allocations, op.before);
      AccessWas(t, pk, op.refund.order, op.access);
      RefundPendingKeeps(t, op.scope, op.refund, op.now, op.order, r, op.before, op.access);
    }
  }

  lemma StepDefer(t: Tables, op: Op)
    requires Inv(t) && PlanOf(op).Ok? && Holds(t, PlanOf(op).value) && AllWere(t, ReadsOf(op)) && op.DeferOp?
    ensures Good(t, Apply(t, PlanOf(op).value))
  {
    assert (ReservationKey(op.scope.Pk(), op.id), ReservationItem(op.reservation)) in ReadsOf(op);
    DeferKeeps(t, op.scope, op.id, op.next, op.key, op.now, op.reservation);
  }

  lemma StepFiscal(t: Tables, op: Op)
    requires Inv(t) && PlanOf(op).Ok? && Holds(t, PlanOf(op).value) && AllWere(t, ReadsOf(op))
    requires op.RotateOp? || op.AttemptOp? || op.RedeemOp? || op.FiscalOp?
    ensures Good(t, Apply(t, PlanOf(op).value))
  {
    var pk := op.scope.Pk();
    match op
    case RotateOp(scope, now, orderId, proof, a) =>
      assert (AccessKey(pk, orderId), AccessItem(a)) in ReadsOf(op);
      RotateKeeps(t, scope, orderId, proof, now, a);
    case AttemptOp(scope, now, orderId, proof, a) =>
      assert (AccessKey(pk, orderId), AccessItem(a)) in ReadsOf(op);
      AttemptKeeps(t, scope, orderId, proof, now, a);
    case RedeemOp(scope, now, key, orderId, proof, details, a) =>
      assert (AccessKey(pk, orderId), AccessItem(a)) in ReadsOf(op);
      RedeemKeeps(t, scope, orderId, proof, details, key, now, a);
    case FiscalOp(scope, now, id, action, revision, x) =>
      assert (FiscalRequestKey(pk, id), FiscalRequestItem(x)) in ReadsOf(op);
      FiscalKeeps(t, scope, id, action, revision, now, x);
  }

  /** A catalog receipt and a subscription event's inbox record disturb no other record. */
  lemma StepForeign(t: Tables, op: Op)
    requires Inv(t) && PlanOf(op).Ok? && Holds(t, PlanOf(op).value) && (op.CatalogOp? || op.SubscriptionOp?)
    ensures Good(t, Apply(t, PlanOf(op).value))
  {
    var k := if op.CatalogOp? then ReceiptKey(op.scope.Pk(), op.key) else InboxKey(op.scope.Pk(), op.event);
    var ws := PlanOf(op).value;
    assert k in ws && Satisfied(ws[k].condition, Lookup(t, k));
    ApplyOne(t, k, ws[k].item, Absent);
    AddRecord(t, k, ws[k].item);
  }

  /** Whatever the operation and however stale its reads, a transaction that commits keeps the tables sound. */
  lemma StepKeeps(t: Tables, op: Op)
    requires Inv(t) && PlanOf(op).Ok? && Holds(t, PlanOf(op).value) && AllWere(t, ReadsOf(op))
    ensures Good(t, Apply(t, PlanOf(op).value))
  {
    if op.AdjustOp? || op.ReserveOp? { StepStock(t, op); }
    else if op.FinishOp? { StepFinish(t, op); }
    else if op.AcknowledgeOp? { StepAcknowledge(t, op); }
    else if op.RefundPaidOp? || op.RefundPendingOp? { StepRefund(t, op); }
    else if op.DeferOp? { StepDefer(t, op); }
    else if op.CatalogOp? || op.SubscriptionOp? { StepForeign(t, op); }
    else { StepFiscal(t, op); }
  }

  /** A record that is stored now was stored. */
  lemma StoredWas(t: Tables, k: Key)
    requires Sound(t, k) && k in t
    ensures Was(t, k, t[k])
  {
  }

  lemma ExecKeeps(w: World, op: Op)
    requires WorldInv(w)
    ensures WorldInv(Exec(w, op)) && Advances(w.tables, Exec(w, op).tables) && w.seen <= Exec(w, op).seen
  {
    AdvancesReflexive(w.tables);
    if Commits(w, op) {
      var u := Apply(w.tables, PlanOf(op).value);
      forall k, v | (k, v) in ReadsOf(op) ensures Was(w.tables, k, v) {
        assert (k, v) in w.seen;
      }
      StepKeeps(w.tables, op);
      SeenKeeps(w, u);
    }
  }

  lemma SeenKeeps(w: World, u: Tables)
    requires WorldInv(w) && Good(w.tables, u)
    ensures WorldInv(World(u, w.seen + u.Items))
  {
    forall k, v | (k, v) in w.seen + u.Items ensures Was(u, k, v) {
      if (k, v) in w.seen {
        WasAdvances(w.tables, u, k, v);
      } else {
        assert k in u && u[k] == v;
        StoredWas(u, k);
      }
    }
    forall k | k in u ensures (k, u[k]) in w.seen + u.Items {
      assert (k, u[k]) in u.Items;
    }
  }

  // ----- whole runs -----

  lemma EmptyInv()
    ensures WorldInv(EMPTY)
  {
    EmptyLedger();
  }

  /** Every reachable state is sound. */
  lemma {:induction false} RunKeeps(ops: seq<Op>)
    ensures WorldInv(Run(ops))
  {
    if ops == [] {
      EmptyInv();
    } else {
      RunKeeps(ops[..|ops| - 1]);
      ExecKeeps(Run(ops[..|ops| - 1]), ops[|ops| - 1]);
    }
  }

  lemma SoundAt(ops: seq<Op>, k: Key)
    ensures Sound(Run(ops).tables, k)
  {
    RunKeeps(ops);
  }

  lemma RunStep(ops: seq<Op>, op: Op)
    ensures Run(ops + [op]) == Exec(Run(ops), op)
  {
    assert (ops + [op])[..|ops|] == ops;
  }

  /** A longer run only advances the tables. */
  lemma {:induction false} RunAdvances(ops: seq<Op>, more: seq<Op>)
    ensures Advances(Run(ops).tables, Run(ops + more).tables) && Run(ops).seen <= Run(ops + more).seen
    decreases |more|
  {
    if more == [] {
      assert ops + more == ops;
      AdvancesReflexive(Run(ops).tables);
    } else {
      var n := |more| - 1;
      RunAdvances(ops, more[..n]);
      RunKeeps(ops + more[..n]);
      ExecKeeps(Run(ops + more[..n]), more[n]);
      RunStep(ops + more[..n], more[n]);
      assert ops + more[..n] + [more[n]] == ops + more;
      AdvancesTransitive(Run(ops).tables, Run(ops + more[..n]).tables, Run(ops + more).tables);
    }
  }
}
