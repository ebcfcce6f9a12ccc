/**
 * The commerce store's calls: separate reads, a plan, one transaction and, when its reply is not a success,
 * one more read of the receipt. Each call is proved to settle its idempotency key exactly once.
 */
module Stores {
  import opened Basics
  import opened Inventory
  import opened Records
  import opened Orders
  import opened Plans
  import opened Runs
  import opened Idempotency
  import opened Backends
  import opened Calls
  import opened Progress
  import opened Refusals
  import opened ReceiptTruth
  import opened Sending
  import opened Actions
  import opened Allocating

  /** The plan is the operation's, passes the validator, and carries the call's receipt with this result. */
  ghost predicate Submittable(call: Call, op: Op, plan: seq<Action>, result: Outcome, seen: set<(Key, Item)>) {
    && PlanOf(op) == Ok(WritesOf(plan)) && ReadsOf(op) <= seen
    && DistinctTargets(plan) && 1 <= |plan| <= MAX_TRANSACTION_ACTIONS
    && Serves(op, call) && TicketOf(op).value.receipt.result == result
  }

  class CommerceStore {
    const backend: Backend

    constructor (backend: Backend)
      ensures this.backend == backend
    {
      this.backend := backend;
    }

    // ----- the idempotency layer -----

    /** `_replay`: Ok(None) when there is no receipt yet. */
    method Replay(call: Call) returns (r: Result<Option<Outcome>>)
      requires backend.Valid()
      modifies backend
      ensures backend.Valid() && Quiet(old(backend.log), backend.log) && old(backend.seen) <= backend.seen
      ensures match r
              case Ok(None) => call.Receipt() !in backend.tables
              case Ok(Some(v)) => Settled(call, old(backend.log), backend.log, Ok(v))
              case Err(e) => e == Conflict && Settled(call, old(backend.log), backend.log, Err(e))
    {
      ghost var start := backend.log;
      var existing := backend.Get(call.Receipt());
      match existing {
        case None => r := Ok(None);
        case Some(item) =>
          var recalled := Recall(call, item);
          if call.Receipt() in TablesAt(start) { ReceiptStays(start, backend.log, call.Receipt()); }
          ReceiptHopeless(call, backend.log);
          r := if recalled.Ok? then Ok(Some(recalled.value)) else Err(recalled.error);
      }
    }

    /**
     * `_execute`: validate the plan, send it, and on anything but a success look for the receipt.
     * A conflict is reported only when this call certainly wrote nothing.
     */
    method Execute(call: Call, plan: seq<Action>, ghost op: Op, ghost start: seq<Entry>) returns (r: Result<Option<Outcome>>)
      requires backend.Valid() && Quiet(start, backend.log)
      requires PlanOf(op) == Ok(WritesOf(plan)) && ReadsOf(op) <= backend.seen && Serves(op, call)
      requires backend.log == start ==> Commits(WorldAt(start), op) || Hopeless(call, WorldAt(start))
      modifies backend
      ensures backend.Valid()
      ensures 1 <= |plan| <= MAX_TRANSACTION_ACTIONS && DistinctTargets(plan) ==>
        && Answered(call, start, backend.log, Else(r, TicketOf(op).value.receipt.result))
        && (r.Err? ==> r.error in {Conflict, OutcomeUnknown})
      ensures !(1 <= |plan| <= MAX_TRANSACTION_ACTIONS && DistinctTargets(plan)) ==> r == Err(LimitExceeded) && Quiet(start, backend.log)
    {
      var refusal := ValidatePlan(plan);
      if refusal.Some? {
        return Err(refusal.value);
      }
      var reply := backend.Transact(plan, op);
      if Mine(backend.log) != Mine(start) { OwnReceipt(call, op, WritesOf(plan), backend.tables); }
      if reply == Applied {
        return Ok(None);
      }
      assert reply == Refused ==> !Commits(WorldAt(backend.log), op);
      r := Reread(call, reply, op, start);
    }

    /** A gathered operation is sent, and its own result returned unless another call's receipt came first. */
    method Submit(call: Call, plan: seq<Action>, result: Outcome, ghost op: Op, ghost start: seq<Entry>) returns (r: Result<Outcome>)
      requires backend.Valid() && Quiet(start, backend.log) && Submittable(call, op, plan, result, backend.seen)
      requires backend.log == start ==> Commits(WorldAt(start), op) || Hopeless(call, WorldAt(start))
      modifies backend
      ensures backend.Valid() && r != Err(LimitExceeded)
      ensures Answered(call, start, backend.log, r)
    {
      var executed := Execute(call, plan, op, start);
      r := Else(executed, result);
    }

    /** The receipt read again after a refusal or a lost reply. */
    method Reread(call: Call, reply: Reply, ghost op: Op, ghost start: seq<Entry>) returns (r: Result<Option<Outcome>>)
      requires backend.Valid() && start <= backend.log && Serves(op, call) && reply != Applied
      requires Mine(backend.log) == Mine(start)
               || (Mine(backend.log) == Mine(start) + [op] && Recorded(call, backend.tables, TicketOf(op).value.receipt.result))
      requires reply == Refused ==> Quiet(start, backend.log) && (backend.log == start ==> Hopeless(call, WorldAt(start)))
      modifies backend
      ensures backend.Valid() && (r.Err? ==> r.error in {Conflict, OutcomeUnknown})
      ensures Answered(call, start, backend.log, Else(r, TicketOf(op).value.receipt.result))
    {
      ghost var sent := backend.log;
      var reached, existing := backend.TryGet(call.Receipt());
      if Mine(sent) != Mine(start) { ReceiptStays(sent, backend.log, call.Receipt()); }
      if !reached {
        return Err(OutcomeUnknown);
      }
      match existing {
        case Some(item) =>
          var recalled := Recall(call, item);
          ReceiptHopeless(call, backend.log);
          r := if recalled.Ok? then Ok(Some(recalled.value)) else Err(recalled.error);
        case None =>
          r := Err(if reply == Refused then Conflict else OutcomeUnknown);
      }
    }

    /** One read, with what it tells of the moment `start` when nothing has happened since. */
    method Read(k: Key, ghost start: seq<Entry>) returns (item: Option<Item>)
      requires backend.Valid() && Quiet(start, backend.log)
      modifies backend
      ensures backend.Valid() && Quiet(start, backend.log) && old(backend.seen) <= backend.seen && Later(start, old(backend.log), backend.log)
      ensures item.Some? ==> (k, item.value) in backend.seen
      ensures backend.log == start ==> item == Lookup(TablesAt(start), k)
    {
      item := backend.Get(k);
    }

    // ----- adjust -----

    method AdjustStock(scope: Scope, stock: Id, location: Id, delta: int, expectedRevision: nat, key: string, now: nat)
      returns (r: Result<Outcome>)
      requires backend.Valid()
      modifies backend
      ensures backend.Valid() && r != Err(LimitExceeded)
      ensures delta == 0 ==> r == Err(InvalidInput) && Quiet(old(backend.log), backend.log)
      ensures delta != 0 ==>
        Settled(AdjustCall(scope, stock, location, delta, expectedRevision, key), old(backend.log), backend.log, r)
      ensures r.Ok? ==> AdjustedSo(TablesAt(backend.log), scope, stock, location, delta, expectedRevision, r.value)
    {
      ghost var start := backend.log;
      if delta == 0 {
        return Err(InvalidInput);
      }
      var call := AdjustCall(scope, stock, location, delta, expectedRevision, key);
      var replay := Replay(call);
      if replay.Err? || replay.value.Some? {
        r := if replay.Err? then Err(replay.error) else Ok(replay.value.value);
      } else {
        ghost var unanswered := backend.log;
        r := AdjustUnanswered(scope, stock, location, delta, expectedRevision, key, now, start);
        NothingToReplay(call, start, unanswered, backend.log, r);
      }
      if r.Ok? { AdjustedAsTold(backend.log, backend.log, scope, stock, location, delta, expectedRevision, key, r.value); }
    }

    /** The stock as it is read, and what the adjustment makes of it. */
    method PlanAdjustment(scope: Scope, stock: Id, location: Id, delta: int, expectedRevision: nat, now: nat, ghost start: seq<Entry>)
      returns (r: Result<Change>, current: Option<StockRec>)
      requires backend.Valid() && Quiet(start, backend.log) && delta != 0
      modifies backend
      ensures backend.Valid() && Quiet(start, backend.log)
      ensures AdjustChange(scope, stock, location, delta, expectedRevision, now, current) == r
      ensures r.Err? ==> r.error == Conflict
      ensures current.Some? ==> (StockKey(scope.Pk(), location, stock), StockItem(current.value)) in backend.seen
      ensures backend.log == start ==> StockStands(start, StockKey(scope.Pk(), location, stock), current)
    {
      var k := StockKey(scope.Pk(), location, stock);
      var item := Read(k, start);
      if item.Some? { StockIsStock(OpsOf(backend.log), k, item.value); }
      current := if item.Some? && item.value.StockItem? then Some(item.value.stock) else None;
      var after: StockState;
      match current {
        case None =>
          if expectedRevision != 0 || delta < 1 {
            return Err(Conflict), current;
          }
          after := StockState(true, delta, 0, 1);
        case Some(stored) =>
          if !StockReadable(stored, scope.domain) || expectedRevision == 0 || stored.state.revision != expectedRevision {
            return Err(Conflict), current;
          }
          var updated := Move(stored.state, AdjustMove, delta);
          if updated.None? {
            return Err(Conflict), current;
          }
          after := updated.value;
      }
      var movement := MovementRec(scope.domain, AdjustMove, location, stock, if delta < 0 then -delta else delta,
                                  DeltasOf(AdjustMove, delta), now, None, [], None);
      r := Ok(Change(location, stock, current, StockRec(scope.domain, after, after.Available()), movement));
    }

    /** The transaction of an adjustment that has no receipt yet. */
    method AdjustUnanswered(scope: Scope, stock: Id, location: Id, delta: int, expectedRevision: nat, key: string, now: nat,
                            ghost start: seq<Entry>) returns (r: Result<Outcome>)
      requires backend.Valid() && Quiet(start, backend.log) && delta != 0
      modifies backend
      ensures backend.Valid() && r != Err(LimitExceeded)
      ensures Answered(AdjustCall(scope, stock, location, delta, expectedRevision, key), start, backend.log, r)
    {
      var planned, current := PlanAdjustment(scope, stock, location, delta, expectedRevision, now, start);
      if planned.Err? {
        if backend.log == start { AdjustBlocked(start, scope, stock, location, delta, expectedRevision, key, now, current); }
        return Err(planned.error);
      }
      var c, call := planned.value, AdjustCall(scope, stock, location, delta, expectedRevision, key);
      var plan := StockPair(scope.Pk(), key, c) + ReceiptActions(scope, key, call.request, StockResult(c), now);
      AdjustReady(scope, stock, location, delta, expectedRevision, key, now, current, c);
      if backend.log == start { AdjustDecided(start, scope, stock, location, delta, expectedRevision, key, now, current); }
      ghost var op := AdjustOp(scope, now, key, stock, location, delta, expectedRevision, current);
      r := Submit(call, plan, StockResult(c), op, start);
    }

    // ----- defer -----

    method DeferReservation(scope: Scope, rid: Id, next: nat, key: string, now: nat) returns (r: Result<Outcome>)
      requires backend.Valid()
      modifies backend
      ensures backend.Valid() && r != Err(LimitExceeded)
      ensures next != now + RECONCILER_INTERVAL_SECONDS ==> r == Err(InvalidInput) && Quiet(old(backend.log), backend.log)
      ensures next == now + RECONCILER_INTERVAL_SECONDS ==>
        Settled(DeferCall(scope, rid, next, key), old(backend.log), backend.log, r)
    {
      ghost var start := backend.log;
      if next != now + RECONCILER_INTERVAL_SECONDS {
        return Err(InvalidInput);
      }
      var call := DeferCall(scope, rid, next, key);
      var replay := Replay(call);
      if replay.Err? || replay.value.Some? {
        return if replay.Err? then Err(replay.error) else Ok(replay.value.value);
      }
      ghost var unanswered := backend.log;
      r := DeferUnanswered(scope, rid, next, key, now, start);
      NothingToReplay(call, start, unanswered, backend.log, r);
    }

    /** The reservation of a deferral, read and checked. */
    method ReadDeferrable(scope: Scope, rid: Id, next: nat, now: nat, ghost start: seq<Entry>) returns (r: Result<ReservationRec>)
      requires backend.Valid() && Quiet(start, backend.log)
      modifies backend
      ensures backend.Valid() && Quiet(start, backend.log)
      ensures match r
              case Ok(v) =>
                && ReservationReadable(v, scope.domain) && v.status == Reserved && now >= v.reconcileAfter && next > v.reconcileAfter
                && (ReservationKey(scope.Pk(), rid), ReservationItem(v)) in backend.seen
                && (backend.log == start ==> Stands(start, ReservationKey(scope.Pk(), rid), ReservationItem(v)))
              case Err(e) => e in {NotFound, Conflict} && (backend.log == start ==> !DeferStands(start, scope, rid, next, now))
    {
      var item := Read(ReservationKey(scope.Pk(), rid), start);
      if item.None? || !item.value.ReservationItem? {
        return Err(NotFound);
      }
      var v := item.value.reservation;
      if !ReservationReadable(v, scope.domain) || v.status != Reserved || now < v.reconcileAfter || next <= v.reconcileAfter {
        return Err(Conflict);
      }
      return Ok(v);
    }

    method DeferUnanswered(scope: Scope, rid: Id, next: nat, key: string, now: nat, ghost start: seq<Entry>)
      returns (r: Result<Outcome>)
      requires backend.Valid() && Quiet(start, backend.log) && next == now + RECONCILER_INTERVAL_SECONDS
      modifies backend
      ensures backend.Valid() && r != Err(LimitExceeded)
      ensures Answered(DeferCall(scope, rid, next, key), start, backend.log, r)
    {
      var read := ReadDeferrable(scope, rid, next, now, start);
      if read.Err? {
        if backend.log == start { DeferBlocked(start, scope, rid, next, key, now); }
        return Err(read.error);
      }
      var v, result := read.value, DeferredOutcome(rid, next);
      var plan := DeferActions(scope, rid, v, next, now) + ReceiptActions(scope, key, DeferRequest(rid, next), result, now);
      DeferReady(scope, rid, next, key, now, v);
      if backend.log == start { DeferDecided(start, scope, rid, next, key, now, v); }
      r := Submit(DeferCall(scope, rid, next, key), plan, result, DeferOp(scope, now, key, rid, next, v), start);
    }

    // ----- parts shared by the completions -----

    /** `_stock`: one tracked stock, checked. */
    method ReadStock(scope: Scope, location: Id, stock: Id, ghost start: seq<Entry>) returns (r: Result<StockRec>)
      requires backend.Valid() && Quiet(start, backend.log)
      modifies backend
      ensures backend.Valid() && Quiet(start, backend.log) && old(backend.seen) <= backend.seen && Later(start, old(backend.log), backend.log)
      ensures var k := StockKey(scope.Pk(), location, stock);
        match r
        case Ok(s) =>
          && StockReadable(s, scope.domain) && (k, StockItem(s)) in backend.seen
          && (backend.log == start ==> Stands(start, k, StockItem(s)))
        case Err(e) =>
          && e in {NotFound, Conflict}
          && (backend.log == start ==> StockNow(TablesAt(start), k).Some? ==> !StockReadable(StockNow(TablesAt(start), k).value, scope.domain))
    {
      var item := Read(StockKey(scope.Pk(), location, stock), start);
      if item.None? {
        return Err(NotFound);
      }
      if !item.value.StockItem? || !StockReadable(item.value.stock, scope.domain) {
        return Err(Conflict);
      }
      return Ok(item.value.stock);
    }

    /** The transition of one allocation's stock. */
    method MoveStock(scope: Scope, rid: Id, kind: MovementKind, reason: Option<Reason>, now: nat, a: Allocation,
                     ghost start: seq<Entry>) returns (r: Result<Change>, current: StockRec)
      requires backend.Valid() && Quiet(start, backend.log)
      modifies backend
      ensures backend.Valid() && Quiet(start, backend.log) && old(backend.seen) <= backend.seen && Later(start, old(backend.log), backend.log)
      ensures r.Ok? ==>
        && var k := StockKey(scope.Pk(), a.location, a.stock);
        && ChangeOf(scope.domain, rid, kind, reason, now, a, current) == r && (k, StockItem(current)) in backend.seen
        && (backend.log == start ==> Stands(start, k, StockItem(current)))
      ensures r.Err? ==>
        && r.error in {NotFound, Conflict}
        && (backend.log == start ==> !StockReady(TablesAt(start), scope, rid, kind, reason, now, a))
    {
      current := StockRec("", StockState(true, 0, 0, 1), 0);
      var read := ReadStock(scope, a.location, a.stock, start);
      if read.Err? {
        return Err(read.error), current;
      }
      current := read.value;
      var updated := Move(current.state, kind, a.quantity);
      if updated.None? {
        return Err(Conflict), current;
      }
      var movement := MovementRec(scope.domain, kind, a.location, a.stock, a.quantity, DeltasOf(kind, a.quantity), now,
                                  Some(rid), a.lines, reason);
      r := Ok(Change(a.location, a.stock, Some(current), StockRec(scope.domain, updated.value, updated.value.Available()), movement));
    }

    /** The stock transitions of a list of allocations, read one stock after the other. */
    method MoveStocks(scope: Scope, rid: Id, kind: MovementKind, reason: Option<Reason>, now: nat, allocations: seq<Allocation>,
                      ghost start: seq<Entry>) returns (r: Result<seq<Change>>, before: seq<StockRec>)
      requires backend.Valid() && Quiet(start, backend.log)
      modifies backend
      ensures backend.Valid() && Quiet(start, backend.log) && old(backend.seen) <= backend.seen && Later(start, old(backend.log), backend.log)
      ensures r.Ok? ==>
        && |before| == |allocations| && ChangesOf(scope.domain, rid, kind, reason, now, allocations, before) == r
        && StockReads(scope.Pk(), allocations, before) <= backend.seen
        && (backend.log == start ==> StocksAre(TablesAt(start), scope.Pk(), allocations, before))
      ensures r.Err? ==>
        && r.error in {NotFound, Conflict}
        && (backend.log == start ==> !StocksReady(TablesAt(start), scope, rid, kind, reason, now, allocations))
    {
      var changes: seq<Change> := [];
      before := [];
      var i := 0;
      while i < |allocations|
        invariant 0 <= i <= |allocations| && |before| == i
        invariant backend.Valid() && Quiet(start, backend.log) && old(backend.seen) <= backend.seen && Later(start, old(backend.log), backend.log)
        invariant MovedSoFar(scope, rid, kind, reason, now, allocations, before, changes, backend.seen)
        invariant backend.log == start ==> StocksAre(TablesAt(start), scope.Pk(), allocations[..i], before)
      {
        var moved, current := MoveStock(scope, rid, kind, reason, now, allocations[i], start);
        if moved.Err? {
          return Err(moved.error), before;
        }
        MovedSnoc(scope, rid, kind, reason, now, allocations, before, changes, current, moved.value, backend.seen);
        if backend.log == start { StocksSnoc(TablesAt(start), scope.Pk(), allocations, before, current); }
        changes, before, i := changes + [moved.value], before + [current], i + 1;
      }
      assert allocations[..i] == allocations;
      r := Ok(changes);
    }

    /** A stock record and a movement record per transition, in order. */
    method StockOperations(pk: Partition, key: string, changes: seq<Change>) returns (plan: seq<Action>)
      ensures plan == StockActions(pk, key, changes)
    {
      plan := [];
      var i := 0;
      while i < |changes|
        invariant 0 <= i <= |changes| && plan == StockActions(pk, key, changes[..i])
      {
        assert changes[..i + 1][..i] == changes[..i];
        plan := plan + StockPair(pk, key, changes[i]);
        i := i + 1;
      }
      assert changes[..i] == changes;
    }

    /** `_fiscal_access_operations`: nothing, or the one access transition that a payment outcome calls for. */
    method FiscalAccessOperations(scope: Scope, orderId: Id, kind: PaymentKind, now: nat, ghost start: seq<Entry>)
      returns (r: Result<seq<Action>>, access: Option<AccessRec>)
      requires backend.Valid() && Quiet(start, backend.log)
      modifies backend
      ensures backend.Valid() && Quiet(start, backend.log) && old(backend.seen) <= backend.seen && Later(start, old(backend.log), backend.log)
      ensures r.Ok? ==>
        && AccessWrites(scope, orderId, kind, now, access) == Ok(WritesOf(r.value)) && Neat(r.value) && |r.value| <= 1
        && AccessRead(scope.Pk(), orderId, access) <= backend.seen
        && (backend.log == start ==> access == CurrentAccess(TablesAt(start), scope.Pk(), orderId))
      ensures r.Ok? && r.value != [] ==>
        && access.Some? && access.value.state == PendingPayment && r.value[0].key == AccessKey(scope.Pk(), orderId)
        && r.value[0].write.Put? && r.value[0].write.item.AccessItem?
        && var b := r.value[0].write.item.access;
           if kind == Succeeded then b.state == Eligible && b.expiresAt == now + access.value.window
           else b.state == Ineligible && b.expiresAt == access.value.expiresAt
      ensures r.Err? ==> r.error == Conflict && (backend.log == start ==> !AccessOpens(TablesAt(start), scope, kind, orderId, now))
    {
      access := None;
      var k := AccessKey(scope.Pk(), orderId);
      var item := Read(k, start);
      if item.None? {
        return Ok([]), None;
      }
      if !item.value.AccessItem? || !AccessReadable(item.value.access, scope.domain) {
        return Err(Conflict), None;
      }
      var a := item.value.access;
      access := Some(a);
      if (kind == Succeeded && a.state in {Eligible, Consumed}) || (kind == TerminalUnpaid && a.state == Ineligible) {
        return Ok([]), access;
      }
      if a.state != PendingPayment {
        return Err(Conflict), access;
      }
      var updated := if kind == Succeeded then a.(state := Eligible, eligibleAt := Some(now), expiresAt := now + a.window)
                     else a.(state := Ineligible);
      var action := Action(k, Put(AccessItem(updated.(revision := a.revision + 1)), AccessCondition(a)));
      WritesOfOne(action);
      return Ok([action]), access;
    }

    // ----- commit, release and payment events -----

    /** `_event_operations` of a payment event: its inbox record and, where the order asks for one, a notification. */
    method EventOperations(scope: Scope, e: PaymentEvent, orderId: Id, order: OrderRec, result: Outcome, now: nat)
      returns (plan: seq<Action>)
      ensures plan == NoticeActions(scope, Some(e), orderId, order, result, now)
    {
      plan := InboxActions(scope, e.event, PaymentHash(e, scope), result, now);
      if (e.kind == Succeeded && order.status == Refunded) || order.notify.None? {
        return;
      }
      var target := order.notify.value;
      if (e.kind == Succeeded && !target.onSuccess) || (e.kind == TerminalUnpaid && !target.onFailure) {
        return;
      }
      var message := OutboxId(scope, e.event, e.kind, target, orderId, order.amountMinor, order.currency);
      plan := plan + [Action(OutboxKey(scope.Pk(), message), Put(OutboxItem(OutboxRec(scope.domain, now)), Absent))];
    }

    /** The binding check, access transition and event records that a payment event adds to a completion. */
    method EventParts(scope: Scope, event: Option<PaymentEvent>, orderId: Id, order: OrderRec, result: Outcome, now: nat,
                      ghost start: seq<Entry>) returns (r: Result<seq<Action>>, notices: seq<Action>, access: Option<AccessRec>)
      requires backend.Valid() && Quiet(start, backend.log)
      modifies backend
      ensures backend.Valid() && Quiet(start, backend.log) && old(backend.seen) <= backend.seen && Later(start, old(backend.log), backend.log)
      ensures r.Ok? ==>
        && OptionalAccessWrites(scope, event, orderId, now, access) == Ok(WritesOf(r.value)) && Neat(r.value) && |r.value| <= 1
        && AccessRead(scope.Pk(), orderId, access) <= backend.seen
        && (backend.log == start ==> access == (if event.None? then None else CurrentAccess(TablesAt(start), scope.Pk(), orderId)))
        && notices == NoticeActions(scope, event, orderId, order, result, now)
      ensures r.Err? ==> r.error == Conflict && (backend.log == start ==> !AccessMoves(TablesAt(start), scope, event, orderId, now))
    {
      notices, access := [], None;
      if event.None? {
        return Ok([]), [], None;
      }
      r, access := FiscalAccessOperations(scope, orderId, event.value.kind, now, start);
      notices := EventOperations(scope, event.value, orderId, order, result, now);
    }

    /** `_reservation_order`: the order of a reservation, checked. */
    method ReadOrder(scope: Scope, rid: Id, v: ReservationRec, status: OrderStatus, ghost start: seq<Entry>)
      returns (r: Result<OrderRec>)
      requires backend.Valid() && Quiet(start, backend.log)
      modifies backend
      ensures backend.Valid() && Quiet(start, backend.log) && old(backend.seen) <= backend.seen && Later(start, old(backend.log), backend.log)
      ensures var k := OrderKey(scope.Pk(), v.order);
        match r
        case Ok(o) =>
          && OrderReadable(o, scope.domain, rid, v, Expected(status, o)) && (k, OrderItem(o)) in backend.seen
          && (backend.log == start ==> Stands(start, k, OrderItem(o)))
        case Err(e) => e in {NotFound, Conflict} && (backend.log == start ==> !OrderStands(start, scope, rid, v, status))
    {
      var item := Read(OrderKey(scope.Pk(), v.order), start);
      if item.None? || !item.value.OrderItem? {
        return Err(NotFound);
      }
      var order := item.value.order;
      if !OrderReadable(order, scope.domain, rid, v, Expected(status, order)) {
        return Err(Conflict);
      }
      return Ok(order);
    }

    /** Everything a completion reads: the order, each stock and, for an event, the fiscal access. */
    method GatherCompletion(scope: Scope, f: Finish, now: nat, v: ReservationRec, ghost start: seq<Entry>)
      returns (r: Result<Gathered>)
      requires backend.Valid() && Quiet(start, backend.log) && FinishArgs(f) && ReasonFits(f.status, f.reason)
      requires ReservationReadable(v, scope.domain) && v.status == Reserved
      requires (ReservationKey(scope.Pk(), f.reservation), ReservationItem(v)) in backend.seen
      requires backend.log == start ==> Stands(start, ReservationKey(scope.Pk(), f.reservation), ReservationItem(v))
      modifies backend
      ensures backend.Valid() && Quiet(start, backend.log)
      ensures r.Ok? ==>
        && Sendable(scope, f, now, v, r.value) && ReadsOf(FinishOpOf(scope, f, now, v, r.value)) <= backend.seen
        && (backend.log == start ==> IsFinishNow(start, scope, f, now, FinishOpOf(scope, f, now, v, r.value)))
      ensures r.Err? ==> r.error in {NotFound, Conflict} && backend.log != start
    {
      if backend.log == start { FinishUnblocked(start, scope, f, now, v); }
      FewAllocations(OpsOf(backend.log), ReservationKey(scope.Pk(), f.reservation), v);
      var pending := ReadOrder(scope, f.reservation, v, PendingCheckout, start);
      if pending.Err? {
        return Err(pending.error);
      }
      var order := pending.value;
      var changes, before := MoveStocks(scope, f.reservation, MoveFor(f.status), Some(f.reason), now, v.allocations, start);
      if changes.Err? {
        return Err(changes.error);
      }
      var claims, notices, access := EventParts(scope, f.event, v.order, order, FinishResult(f.reservation, v, f.status, now, f.reason), now, start);
      if claims.Err? {
        return Err(claims.error);
      }
      var g := Gathered(order, before, access, changes.value, claims.value, notices);
      FinishReady(scope, f, now, v, g);
      FinishReads(scope, f, now, v, g, backend.seen);
      if backend.log == start { FinishPlannedNow(start, scope, f, now, v, g); }
      r := Ok(g);
    }

    /** A held reservation is finished: stock, reservation, marker and order in one transaction. */
    method CompleteReservation(scope: Scope, f: Finish, now: nat, v: ReservationRec, ghost start: seq<Entry>)
      returns (r: Result<Outcome>)
      requires backend.Valid() && Quiet(start, backend.log) && FinishArgs(f) && ReasonFits(f.status, f.reason)
      requires ReservationReadable(v, scope.domain) && v.status == Reserved
      requires (ReservationKey(scope.Pk(), f.reservation), ReservationItem(v)) in backend.seen
      requires backend.log == start ==> Stands(start, ReservationKey(scope.Pk(), f.reservation), ReservationItem(v))
      modifies backend
      ensures backend.Valid() && r != Err(LimitExceeded)
      ensures Answered(FinishCall(scope, f), start, backend.log, r)
    {
      var gathered := GatherCompletion(scope, f, now, v, start);
      if gathered.Err? {
        return Err(gathered.error);
      }
      var g := gathered.value;
      var plan := CompletionPlan(scope, f, now, v, g.order, g.changes, g.claims, g.notices);
      ghost var op := FinishOpOf(scope, f, now, v, g);
      if backend.log == start { FinishDecided(start, scope, f, now, op); }
      r := Submit(FinishCall(scope, f), plan, FinishResult(f.reservation, v, f.status, now, f.reason), op, start);
    }

    /** The operations of a completion, in the order they are sent. */
    method CompletionPlan(scope: Scope, f: Finish, now: nat, v: ReservationRec, order: OrderRec, changes: seq<Change>,
                          claims: seq<Action>, notices: seq<Action>) returns (plan: seq<Action>)
      requires notices == NoticeActions(scope, f.event, v.order, order, FinishResult(f.reservation, v, f.status, now, f.reason), now)
      ensures plan == FinishActions(scope, f, now, v, order, changes, claims)
    {
      plan := StockOperations(scope.Pk(), f.key, changes);
      var done := FinishedOrder(order, OrderStatusFor(f.status), f.reason, now);
      plan := plan + CompletionActions(scope.Pk(), f.reservation, v, order, f.status, f.reason, now, done);
      plan := plan + CheckActions(scope, f.event) + claims + notices;
      plan := plan + ReceiptActions(scope, f.key, f.Request(scope), FinishResult(f.reservation, v, f.status, now, f.reason), now);
    }

    /** What a repeated payment event reads: the order of the ended reservation, and its fiscal access. */
    method GatherAcknowledgement(scope: Scope, f: Finish, now: nat, v: ReservationRec, ghost start: seq<Entry>)
      returns (r: Result<Gathered>, ghost op: Op)
      requires backend.Valid() && Quiet(start, backend.log) && f.event.Some? && FinishArgs(f) && ReasonFits(f.status, f.reason)
      requires ReservationReadable(v, scope.domain) && v.status == f.status && v.reason == Some(f.reason)
      requires (ReservationKey(scope.Pk(), f.reservation), ReservationItem(v)) in backend.seen
      requires backend.log == start ==> Stands(start, ReservationKey(scope.Pk(), f.reservation), ReservationItem(v))
      modifies backend
      ensures backend.Valid() && Quiet(start, backend.log)
      ensures r.Ok? ==>
        && Submittable(FinishCall(scope, f), op, AcknowledgeActions(scope, f, now, v, r.value.order, r.value.claims),
                       TerminalResult(f.reservation, v), backend.seen)
        && r.value.notices == NoticeActions(scope, f.event, v.order, r.value.order, TerminalResult(f.reservation, v), now)
        && (backend.log == start ==> IsAcknowledgeNow(start, scope, f, now, op))
      ensures r.Err? ==> r.error in {NotFound, Conflict} && backend.log != start
    {
      if backend.log == start { AcknowledgeUnblocked(start, scope, f, now, v); }
      // A repeated success also accepts an order that has been refunded since.
      var ended := ReadOrder(scope, f.reservation, v, if f.status == Committed then Paid else PaymentNotCompleted, start);
      if ended.Err? {
        return Err(ended.error), *;
      }
      var order := ended.value;
      var claims, notices, access := EventParts(scope, f.event, v.order, order, TerminalResult(f.reservation, v), now, start);
      if claims.Err? {
        return Err(claims.error), *;
      }
      var g := Gathered(order, [], access, [], claims.value, notices);
      AcknowledgeSends(scope, f, now, v, g);
      AcknowledgeReady(scope, f, now, v, g);
      AcknowledgeReads(scope, f, now, v, g, backend.seen);
      r, op := Ok(g), AcknowledgeOpOf(scope, f, now, v, g);
    }

    /** A payment event for a reservation that already ended the same way: recorded, with the access transition. */
    method AcknowledgeEvent(scope: Scope, f: Finish, now: nat, v: ReservationRec, ghost start: seq<Entry>)
      returns (r: Result<Outcome>)
      requires backend.Valid() && Quiet(start, backend.log) && f.event.Some? && FinishArgs(f) && ReasonFits(f.status, f.reason)
      requires ReservationReadable(v, scope.domain) && v.status == f.status && v.reason == Some(f.reason)
      requires (ReservationKey(scope.Pk(), f.reservation), ReservationItem(v)) in backend.seen
      requires backend.log == start ==> Stands(start, ReservationKey(scope.Pk(), f.reservation), ReservationItem(v))
      modifies backend
      ensures backend.Valid() && r != Err(LimitExceeded)
      ensures Answered(FinishCall(scope, f), start, backend.log, r)
    {
      ghost var op;
      var gathered;
      gathered, op := GatherAcknowledgement(scope, f, now, v, start);
      if gathered.Err? {
        return Err(gathered.error);
      }
      var g := gathered.value;
      var plan := AcknowledgementPlan(scope, f, now, v, g.order, g.claims, g.notices);
      if backend.log == start { AcknowledgeDecided(start, scope, f, now, op); }
      r := Submit(FinishCall(scope, f), plan, TerminalResult(f.reservation, v), op, start);
    }

    method AcknowledgementPlan(scope: Scope, f: Finish, now: nat, v: ReservationRec, order: OrderRec, claims: seq<Action>,
                               notices: seq<Action>) returns (plan: seq<Action>)
      requires notices == NoticeActions(scope, f.event, v.order, order, TerminalResult(f.reservation, v), now)
      ensures plan == AcknowledgeActions(scope, f, now, v, order, claims)
    {
      plan := CheckActions(scope, f.event) + claims + notices;
      plan := plan + ReceiptActions(scope, f.key, f.Request(scope), TerminalResult(f.reservation, v), now);
    }

    /** `_finish_reservation`: commit_reservation and release_reservation without an event, apply_payment_event with one. */
    method FinishReservation(scope: Scope, f: Finish, now: nat) returns (r: Result<Outcome>)
      requires backend.Valid() && FinishArgs(f)
      modifies backend
      ensures backend.Valid() && r != Err(LimitExceeded)
      ensures !ReasonFits(f.status, f.reason) ==> r == Err(InvalidInput) && Quiet(old(backend.log), backend.log)
      ensures ReasonFits(f.status, f.reason) ==>
        || Settled(FinishCall(scope, f), old(backend.log), backend.log, r)
        || (f.event.None? && Quiet(old(backend.log), backend.log) && FinishCall(scope, f).Receipt() !in TablesAt(old(backend.log))
            && AlreadyEnded(scope, f, backend.tables, r))
      ensures r.Ok? ==> EndedSo(TablesAt(backend.log), scope, f, r.value)
    {
      ghost var start := backend.log;
      if !ReasonFits(f.status, f.reason) {
        return Err(InvalidInput);
      }
      var call := FinishCall(scope, f);
      var replay := Replay(call);
      if replay.Err? || replay.value.Some? {
        r := if replay.Err? then Err(replay.error) else Ok(replay.value.value);
        if r.Ok? { EndedAsTold(backend.log, backend.log, scope, f, r.value); }
        return;
      }
      ghost var unanswered := backend.log;
      if call.Receipt() in TablesAt(start) { ReceiptStays(start, unanswered, call.Receipt()); }
      var item := backend.Get(ReservationKey(scope.Pk(), f.reservation));
      FinishRefused(backend.log, scope, f);
      if item.None? || !item.value.ReservationItem? {
        NothingToReplay(call, start, unanswered, backend.log, Err(NotFound));
        return Err(NotFound);
      }
      var v := item.value.reservation;
      if !ReservationReadable(v, scope.domain)
         || (v.status == f.status && v.reason != Some(f.reason)) || (v.status != f.status && v.status != Reserved) {
        NothingToReplay(call, start, unanswered, backend.log, Err(Conflict));
        return Err(Conflict);
      }
      if v.status == f.status && f.event.None? {
        EndedAlready(backend.log, scope, f, v);
        return Ok(TerminalResult(f.reservation, v));
      }
      if v.status == f.status {
        r := AcknowledgeEvent(scope, f, now, v, start);
      } else {
        r := CompleteReservation(scope, f, now, v, start);
      }
      NothingToReplay(call, start, unanswered, backend.log, r);
      if r.Ok? { EndedAsTold(backend.log, backend.log, scope, f, r.value); }
    }

    /** `_event_replay`: what the inbox already says of an event. */
    method EventReplay(scope: Scope, hash: EventHash) returns (r: Result<Option<Outcome>>)
      requires backend.Valid()
      modifies backend
      ensures backend.Valid() && Quiet(old(backend.log), backend.log) && old(backend.seen) <= backend.seen
      ensures match r
              case Ok(None) => InboxKey(scope.Pk(), EventOf(hash)) !in backend.tables
              case Ok(Some(v)) => InboxSays(scope, hash, backend.tables, v)
              case Err(e) =>
                && e == Conflict && InboxKey(scope.Pk(), EventOf(hash)) in backend.tables
                && forall v :: !InboxSays(scope, hash, backend.tables, v)
    {
      var existing := backend.Get(InboxKey(scope.Pk(), EventOf(hash)));
      if existing.None? {
        return Ok(None);
      }
      if !existing.value.InboxItem? || existing.value.inbox.domain != scope.domain || existing.value.inbox.hash != hash {
        return Err(Conflict);
      }
      return Ok(Some(existing.value.inbox.result));
    }

    /** A verified payment outcome: its inbox record, its binding, then the completion under the event's own key. */
    method ApplyPaymentEvent(scope: Scope, e: PaymentEvent, now: nat) returns (r: Result<Outcome>)
      requires backend.Valid()
      modifies backend
      ensures backend.Valid() && r != Err(LimitExceeded)
      ensures Settled(EventCall(scope, PaymentHash(e, scope)), old(backend.log), backend.log, r)
      ensures r.Ok? ==> OutcomeSo(TablesAt(backend.log), scope, e, r.value)
    {
      ghost var start, call := backend.log, EventCall(scope, PaymentHash(e, scope));
      var replay := EventReplay(scope, PaymentHash(e, scope));
      ghost var checked := backend.log;
      if call.Receipt() in TablesAt(start) { InboxDecides(scope, e, start, checked); }
      if replay.Err? {
        InboxSpends(checked, scope, PaymentHash(e, scope));
        return Err(Conflict);
      }
      if replay.value.Some? {
        InboxAnswers(scope, PaymentHash(e, scope), checked, replay.value.value);
        OutcomeAsTold(checked, checked, scope, e, replay.value.value);
        return Ok(replay.value.value);
      }
      r := FinishBound(scope, e, now, start);
      if r.Ok? { OutcomeAsTold(backend.log, backend.log, scope, e, r.value); }
    }

    /** A payment event that the inbox does not know: its binding, then the completion. */
    method FinishBound(scope: Scope, e: PaymentEvent, now: nat, ghost start: seq<Entry>) returns (r: Result<Outcome>)
      requires backend.Valid() && Quiet(start, backend.log)
      requires var call := EventCall(scope, PaymentHash(e, scope));
        call.Receipt() in TablesAt(start) ==> Recall(call, TablesAt(start)[call.Receipt()]) == Err(Conflict)
      modifies backend
      ensures backend.Valid() && r != Err(LimitExceeded)
      ensures Settled(EventCall(scope, PaymentHash(e, scope)), start, backend.log, r)
    {
      var binding := backend.Get(BindingKey(scope.Pk(), e.attempt));
      if !Satisfied(BindingIs(scope.domain, e.reservation, e.order), binding) {
        BindingNeeded(backend.log, scope, e);
        return Err(Conflict);
      }
      ghost var bound := backend.log;
      r := FinishReservation(scope, EventFinish(e), now);
      SettledEarlier(EventCall(scope, PaymentHash(e, scope)), start, bound, backend.log, r);
    }

    // ----- refunds -----

    /** `_reservation` of a pending order that is to be refunded. */
    method ReadRefundable(scope: Scope, x: Refund, order: OrderRec, ghost start: seq<Entry>) returns (r: Result<ReservationRec>)
      requires backend.Valid() && Quiet(start, backend.log)
      modifies backend
      ensures backend.Valid() && Quiet(start, backend.log) && old(backend.seen) <= backend.seen && Later(start, old(backend.log), backend.log)
      ensures var k := ReservationKey(scope.Pk(), order.reservation);
        match r
        case Ok(v) =>
          && RefundReads(scope, x, order, v) && |v.allocations| <= MAX_CHECKOUT_LINES && (k, ReservationItem(v)) in backend.seen
          && (backend.log == start ==> Stands(start, k, ReservationItem(v)))
        case Err(e) => e in {NotFound, Conflict} && (backend.log == start ==> !RefundReadsStand(start, scope, x, order))
    {
      var item := Read(ReservationKey(scope.Pk(), order.reservation), start);
      if item.None? || !item.value.ReservationItem? {
        return Err(NotFound);
      }
      var v := item.value.reservation;
      if !RefundReads(scope, x, order, v) {
        return Err(Conflict);
      }
      FewAllocations(OpsOf(backend.log), ReservationKey(scope.Pk(), order.reservation), v);
      return Ok(v);
    }

    /** What a refund that overtakes its payment reads. */
    method GatherRefund(scope: Scope, x: Refund, now: nat, order: OrderRec, ghost start: seq<Entry>)
      returns (r: Result<(Gathered, ReservationRec)>, ghost op: Op)
      requires backend.Valid() && Quiet(start, backend.log)
      requires RefundInputOk(x) && RefundBinding(x, order, scope.domain) && order.status == PendingCheckout
      requires (OrderKey(scope.Pk(), x.order), OrderItem(order)) in backend.seen
      requires backend.log == start ==> Stands(start, OrderKey(scope.Pk(), x.order), OrderItem(order))
      modifies backend
      ensures backend.Valid() && Quiet(start, backend.log)
      ensures r.Ok? ==>
        && Submittable(EventCall(scope, RefundHash(x, scope)), op,
                       RefundPendingActions(scope, x, now, order, r.value.1, r.value.0.changes, r.value.0.claims), RefundResult(x), backend.seen)
        && (backend.log == start ==> op.RefundPendingOp? && op.order.status == PendingCheckout && IsRefundNow(start, scope, x, now, op))
      ensures r.Err? ==> r.error in {NotFound, Conflict} && backend.log != start
    {
      if backend.log == start { RefundUnblocked(start, scope, x, now, order); }
      var read := ReadRefundable(scope, x, order, start);
      if read.Err? {
        return Err(read.error), *;
      }
      var v := read.value;
      var changes, before := MoveStocks(scope, order.reservation, CommitMove, Some(CanonicalPaid), now, v.allocations, start);
      if changes.Err? {
        return Err(changes.error), *;
      }
      var claims, access := FiscalAccessOperations(scope, x.order, Succeeded, now, start);
      if claims.Err? {
        return Err(claims.error), *;
      }
      var g := Gathered(order, before, access, changes.value, claims.value, []);
      RefundPossible(scope, x, now, v, g);
      RefundList(scope, x, now, v, g);
      RefundSends(scope, x, now, v, g);
      RefundReadsStored(scope, x, now, v, g, backend.seen);
      if backend.log == start { RefundPlannedNow(start, scope, x, now, v, g); }
      r, op := Ok((g, v)), RefundPendingOpOf(scope, x, now, v, g);
    }

    /** `_record_refund_from_pending`: the reservation is committed and the order refunded at once. */
    method RefundFromPending(scope: Scope, x: Refund, now: nat, order: OrderRec, ghost start: seq<Entry>) returns (r: Result<Outcome>)
      requires backend.Valid() && Quiet(start, backend.log)
      requires RefundInputOk(x) && RefundBinding(x, order, scope.domain) && order.status == PendingCheckout
      requires (OrderKey(scope.Pk(), x.order), OrderItem(order)) in backend.seen
      requires backend.log == start ==> Stands(start, OrderKey(scope.Pk(), x.order), OrderItem(order))
      modifies backend
      ensures backend.Valid() && r != Err(LimitExceeded)
      ensures Answered(EventCall(scope, RefundHash(x, scope)), start, backend.log, r)
    {
      ghost var op;
      var gathered;
      gathered, op := GatherRefund(scope, x, now, order, start);
      if gathered.Err? {
        return Err(gathered.error);
      }
      var g, v := gathered.value.0, gathered.value.1;
      var plan := RefundPlan(scope, x, now, order, v, g.changes, g.claims);
      if backend.log == start { RefundDecided(start, scope, x, now, op); }
      r := Submit(EventCall(scope, RefundHash(x, scope)), plan, RefundResult(x), op, start);
    }

    /** The operations of a refund from pending, in the order they are sent. */
    method RefundPlan(scope: Scope, x: Refund, now: nat, order: OrderRec, v: ReservationRec, changes: seq<Change>, claims: seq<Action>)
      returns (plan: seq<Action>)
      ensures plan == RefundPendingActions(scope, x, now, order, v, changes, claims)
    {
      var key := IntegrationKey(x.event);
      plan := StockOperations(scope.Pk(), key, changes);
      plan := plan + CompletionActions(scope.Pk(), order.reservation, v, order, Committed, CanonicalPaid, now, RefundedNow(x, order, now));
      plan := plan + BindingActions(scope, RefundBindingEvent(x, order)) + claims + RefundActions(scope, x);
      plan := plan + InboxActions(scope, x.event, RefundHash(x, scope), RefundResult(x), now)
              + ReceiptActions(scope, key, RefundRequest(x), RefundResult(x), now);
    }

    /** A refund of a paid order: order, refund record, inbox record and receipt. */
    method RefundPaidOrder(scope: Scope, x: Refund, now: nat, order: OrderRec, ghost start: seq<Entry>) returns (r: Result<Outcome>)
      requires backend.Valid() && Quiet(start, backend.log)
      requires RefundInputOk(x) && RefundBinding(x, order, scope.domain) && order.status == Paid
      requires (OrderKey(scope.Pk(), x.order), OrderItem(order)) in backend.seen
      requires backend.log == start ==> Stands(start, OrderKey(scope.Pk(), x.order), OrderItem(order))
      modifies backend
      ensures backend.Valid() && r != Err(LimitExceeded)
      ensures Answered(EventCall(scope, RefundHash(x, scope)), start, backend.log, r)
    {
      RefundPaidServes(scope, x, now, order);
      var plan := RefundPaidActions(scope, x, now, order);
      ghost var op := RefundPaidOp(scope, now, x, order);
      if backend.log == start { RefundPaidDecided(start, scope, x, now, order); }
      r := Submit(EventCall(scope, RefundHash(x, scope)), plan, RefundResult(x), op, start);
    }

    /** `record_refund_event`. */
    method RecordRefundEvent(scope: Scope, x: Refund, now: nat) returns (r: Result<Outcome>)
      requires backend.Valid()
      modifies backend
      ensures backend.Valid() && r != Err(LimitExceeded)
      ensures x.amountMinor <= 0 ==> r == Err(InvalidInput) && Quiet(old(backend.log), backend.log)
      ensures x.amountMinor > 0 ==> Settled(EventCall(scope, RefundHash(x, scope)), old(backend.log), backend.log, r)
      ensures r.Ok? ==> RefundedSo(TablesAt(backend.log), scope, x, r.value)
    {
      ghost var start := backend.log;
      if x.amountMinor <= 0 {
        return Err(InvalidInput);
      }
      var call := EventCall(scope, RefundHash(x, scope));
      var replay := Replay(call);
      if replay.Err? || replay.value.Some? {
        r := if replay.Err? then Err(replay.error) else Ok(replay.value.value);
      } else {
        ghost var unanswered := backend.log;
        r := RefundUnanswered(scope, x, now, start);
        NothingToReplay(call, start, unanswered, backend.log, r);
      }
      if r.Ok? { RefundedAsTold(backend.log, backend.log, scope, x, r.value); }
    }

    /** A refund event without a receipt: its inbox record, then its order, paid or still pending. */
    method RefundUnanswered(scope: Scope, x: Refund, now: nat, ghost start: seq<Entry>) returns (r: Result<Outcome>)
      requires backend.Valid() && Quiet(start, backend.log) && RefundInputOk(x)
      modifies backend
      ensures backend.Valid() && r != Err(LimitExceeded)
      ensures Answered(EventCall(scope, RefundHash(x, scope)), start, backend.log, r)
    {
      var known := EventReplay(scope, RefundHash(x, scope));
      if known.Err? {
        InboxSpends(backend.log, scope, RefundHash(x, scope));
        return Err(Conflict);
      }
      if known.value.Some? {
        InboxAnswers(scope, RefundHash(x, scope), backend.log, known.value.value);
        return Ok(known.value.value);
      }
      var item := Read(OrderKey(scope.Pk(), x.order), start);
      if item.None? || !item.value.OrderItem? || !RefundBinding(x, item.value.order, scope.domain) {
        if backend.log == start { RefundNotBound(start, scope, x); }
        return Err(Conflict);
      }
      var order := item.value.order;
      if order.status == PendingCheckout {
        r := RefundFromPending(scope, x, now, order, start);
      } else {
        r := RefundPaidOrder(scope, x, now, order, start);
      }
    }

    // ----- checkout -----

    /** `_rotate_fiscal_access_on_checkout_replay`: a repeated checkout may replace the proof while payment is pending. */
    method RotateFiscalAccess(scope: Scope, orderId: Id, proof: string, now: nat, recorded: Outcome) returns (r: Result<Outcome>)
      requires backend.Valid() && recorded.ReservedOutcome?
      modifies backend
      ensures backend.Valid()
      ensures Rotation(scope, orderId, proof, now, old(backend.log), backend.log, recorded, r)
    {
      ghost var start := backend.log;
      var k := AccessKey(scope.Pk(), orderId);
      var current := backend.Get(k);
      if current.None? || !current.value.AccessItem? || !AccessReadable(current.value.access, scope.domain) {
        return Err(Conflict);
      }
      var a := current.value.access;
      if a.state != PendingPayment || now >= a.expiresAt {
        return Ok(recorded);
      }
      if a.proof == proof {
        return Ok(recorded.(proof := Some(proof)));
      }
      r := ReplaceProof(scope, orderId, proof, now, a, recorded);
    }

    /** The write of a rotation, and the record read again when it does not succeed. */
    method ReplaceProof(scope: Scope, orderId: Id, proof: string, now: nat, a: AccessRec, recorded: Outcome) returns (r: Result<Outcome>)
      requires backend.Valid() && recorded.ReservedOutcome?
      requires AccessReadable(a, scope.domain) && a.state == PendingPayment && now < a.expiresAt && a.proof != proof
      requires (AccessKey(scope.Pk(), orderId), AccessItem(a)) in backend.seen && AccessKey(scope.Pk(), orderId) in backend.tables
      requires backend.tables[AccessKey(scope.Pk(), orderId)] == AccessItem(a)
      modifies backend
      ensures backend.Valid() && old(backend.log) <= backend.log
      ensures Rotation(scope, orderId, proof, now, old(backend.log), backend.log, recorded, r)
    {
      ghost var read := backend.log;
      var k := AccessKey(scope.Pk(), orderId);
      var action := Action(k, Put(AccessItem(a.(proof := proof, revision := a.revision + 1)), AccessCondition(a)));
      WritesOfOne(action);
      var reply := backend.Transact([action], RotateOp(scope, now, orderId, proof, a));
      if reply == Applied {
        assert k in WritesOf([action]);
        return Ok(recorded.(proof := Some(proof)));
      }
      // The check of the record read again cannot fail: an access record once readable stays so.
      var latest := backend.Get(k);
      AccessStaysReadable(read, backend.log, k, scope.domain);
      var b := latest.value.access;
      if b.state == PendingPayment && b.proof == proof {
        return Ok(recorded.(proof := Some(proof)));
      }
      return if reply == Refused then Ok(recorded) else Err(OutcomeUnknown);
    }

    /** The allocations of a new checkout, with their stocks read and moved. */
    method GatherCheckout(scope: Scope, c: Checkout, key: string, now: nat, ghost start: seq<Entry>)
      returns (r: Result<seq<Change>>, allocations: seq<Allocation>, before: seq<StockRec>)
      requires backend.Valid() && Quiet(start, backend.log) && CheckoutValid(c)
      modifies backend
      ensures backend.Valid() && Quiet(start, backend.log)
      ensures match r
              case Ok(changes) =>
                var op := ReserveOp(scope, now, key, c, allocations, before);
                && ReserveSends(scope, c, key, now, allocations, before, changes) && ReadsOf(op) <= backend.seen
                && (backend.log == start ==> Commits(WorldAt(start), op) || Hopeless(CheckoutCall(scope, c, key), WorldAt(start)))
              case Err(e) =>
                e in {NotFound, Conflict, InvalidInput} && (backend.log == start ==> Hopeless(CheckoutCall(scope, c, key), WorldAt(start)))
    {
      allocations := Allocate(c.order.lines, c.location);
      r, before := MoveStocks(scope, c.reservation, ReserveMove, None, now, allocations, start);
      if r.Err? || OrderTotal(c.order.lines) > MAX_AMOUNT_MINOR {
        if backend.log == start { CheckoutRefused(start, scope, c, key, now, allocations); }
        r := Err(if r.Err? then r.error else InvalidInput);
        return;
      }
      ReserveReady(scope, c, key, now, allocations, before, r.value);
      if backend.log == start { CheckoutDecided(start, scope, c, key, now, allocations, before); }
    }

    /** A checkout that has no receipt yet, in one transaction. */
    method OpenCheckout(scope: Scope, c: Checkout, key: string, now: nat, ghost start: seq<Entry>) returns (r: Result<Outcome>)
      requires backend.Valid() && Quiet(start, backend.log) && CheckoutValid(c)
      modifies backend
      ensures backend.Valid() && r != Err(LimitExceeded)
      ensures Answered(CheckoutCall(scope, c, key), start, backend.log, r)
    {
      var changes, allocations, before := GatherCheckout(scope, c, key, now, start);
      if changes.Err? {
        return Err(changes.error);
      }
      var plan := CheckoutPlan(scope, c, key, now, allocations, changes.value);
      r := Submit(CheckoutCall(scope, c, key), plan, c.Result(now), ReserveOp(scope, now, key, c, allocations, before), start);
    }

    /** The operations of a checkout, in the order they are sent. */
    method CheckoutPlan(scope: Scope, c: Checkout, key: string, now: nat, allocations: seq<Allocation>, changes: seq<Change>)
      returns (plan: seq<Action>)
      ensures plan == StockActions(scope.Pk(), key, changes) + CheckoutActions(scope, c, allocations, now)
                      + NewAccessActions(scope, c, now) + ReceiptActions(scope, key, c.Request(), c.Result(now), now)
    {
      plan := StockOperations(scope.Pk(), key, changes);
      plan := plan + CheckoutActions(scope, c, allocations, now) + NewAccessActions(scope, c, now);
      plan := plan + ReceiptActions(scope, key, c.Request(), c.Result(now), now);
    }

    /** `reserve_checkout`. */
    method ReserveCheckout(scope: Scope, c: Checkout, key: string, now: nat) returns (r: Result<Outcome>)
      requires backend.Valid()
      modifies backend
      ensures backend.Valid() && r != Err(LimitExceeded)
      ensures !CheckoutValid(c) ==> r == Err(InvalidInput) && Quiet(old(backend.log), backend.log)
      ensures CheckoutValid(c) ==>
        || Settled(CheckoutCall(scope, c, key), old(backend.log), backend.log, r)
        || RotatedReplay(scope, c, key, now, old(backend.log), backend.log, r)
      ensures r.Ok? ==> OpenedSo(TablesAt(backend.log), scope, c, r.value)
    {
      ghost var start := backend.log;
      if !CheckoutValid(c) {
        return Err(InvalidInput);
      }
      var call := CheckoutCall(scope, c, key);
      var replay := Replay(call);
      if replay.Err? {
        return Err(replay.error);
      }
      ghost var unanswered := backend.log;
      if replay.value.Some? {
        var recorded := replay.value.value;
        OpenedAsTold(unanswered, unanswered, scope, c, key, recorded);
        if c.fiscal.None? || !recorded.ReservedOutcome? || recorded.proof.None? {
          return Ok(recorded);
        }
        r := RotateFiscalAccess(scope, c.order.order, c.fiscal.value.proof, now, recorded);
        ReceiptStays(unanswered, backend.log, call.Receipt());
        assert Rotation(scope, c.order.order, c.fiscal.value.proof, now, start, backend.log, recorded, r);
        OpenedAsTold(unanswered, backend.log, scope, c, key, recorded);
        return;
      }
      r := OpenCheckout(scope, c, key, now, start);
      NothingToReplay(call, start, unanswered, backend.log, r);
      if r.Ok? { OpenedAsTold(backend.log, backend.log, scope, c, key, r.value); }
    }
  }

  /**
   * With nobody else about, a call to end a held reservation under unused ids is never refused: no conflict, no
   * missing record, no limit. Only its reply can be lost.
   */
  lemma UndisturbedIsNotRefused(log: seq<Entry>, scope: Scope, f: Finish, now: nat, r: Result<Outcome>)
    requires Live(TablesAt(log), scope, f.reservation) && ReasonFits(f.status, f.reason) && FinishArgs(f)
    requires Endable(TablesAt(log), scope, f) && Answered(FinishCall(scope, f), log, log, r)
    ensures r == Err(OutcomeUnknown)
  {
    RunKeeps(OpsOf(log));
    FinishDecides(WorldAt(log), scope, f, now);
    FinishNowServes(TablesAt(log), scope, f, now);
  }
}
