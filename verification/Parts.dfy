/** The parts of a plan, from the conditions they carry to the invariant they keep. */
module Parts {
  import opened Basics
  import opened Inventory
  import opened Records
  import opened Orders
  import opened Plans
  import opened Ledger
  import opened Protocol
  import opened Steps

  /** `v` was stored at `k` at some earlier moment of a run that has reached `t`. */
  predicate Was(t: Tables, k: Key, v: Item) {
    if k.DueKey? then
      && var rk := ReservationKey(k.pk, k.reservation);
      && rk in t && t[rk].ReservationItem? && k.reconcileAfter <= t[rk].reservation.reconcileAfter
      && v == MarkerOfReservation(k.pk, k.reservation, t[rk].reservation, k.reconcileAfter)
    else k in t && Stays(v, t[k])
  }

  lemma WasAdvances(t: Tables, u: Tables, k: Key, v: Item)
    requires Was(t, k, v) && Advances(t, u)
    ensures Was(u, k, v)
  {
    if k.DueKey? {
      assert Stays(t[ReservationKey(k.pk, k.reservation)], u[ReservationKey(k.pk, k.reservation)]);
    } else {
      StaysTransitive(v, t[k], u[k]);
    }
  }

  lemma ApplyOne(t: Tables, k: Key, item: Item, c: Condition)
    ensures Apply(t, map[k := Put(item, c)]) == t[k := item]
  {
  }

  lemma ApplyNothing(t: Tables)
    ensures Apply(t, map[]) == t && Holds(t, map[])
  {
  }

  lemma ApplyCheck(t: Tables, k: Key, c: Condition)
    ensures Apply(t, map[k := Check(c)]) == t
  {
  }

  lemma ReceiptPart(t: Tables, scope: Scope, key: string, request: Request, result: Outcome, now: nat)
    requires Inv(t) && PlainRequest(request) && Holds(t, ReceiptWrites(scope, key, request, result, now))
    ensures var rk := ReceiptKey(scope.Pk(), key);
      && Apply(t, ReceiptWrites(scope, key, request, result, now)) == t[rk := ReceiptItem(ReceiptRec(scope.domain, request, result, now))]
      && Good(t, Apply(t, ReceiptWrites(scope, key, request, result, now)))
  {
    var ws, rk := ReceiptWrites(scope, key, request, result, now), ReceiptKey(scope.Pk(), key);
    assert rk in ws && Satisfied(ws[rk].condition, Lookup(t, rk));
    ApplyOne(t, rk, ReceiptItem(ReceiptRec(scope.domain, request, result, now)), Absent);
    AddRecord(t, rk, ReceiptItem(ReceiptRec(scope.domain, request, result, now)));
  }

  predicate PlainRequest(request: Request) {
    request.FinishRequest? ==> request.event.None?
  }

  /** Receipt and inbox record of an event, in one step. */
  lemma InboxPart(t: Tables, scope: Scope, event: Id, hash: EventHash, result: Outcome, now: nat)
    requires Inv(t) && EventOf(hash) == event
    requires var receipt := ReceiptWrites(scope, IntegrationKey(event), RequestFor(hash), result, now);
      Holds(t, receipt + InboxWrites(scope, event, hash, result, now))
    ensures var receipt := ReceiptWrites(scope, IntegrationKey(event), RequestFor(hash), result, now);
      var u := Apply(t, receipt + InboxWrites(scope, event, hash, result, now));
      && Good(t, u) && ReceiptKey(scope.Pk(), IntegrationKey(event)) in u
      && InboxKey(scope.Pk(), event) in u && u[InboxKey(scope.Pk(), event)] == InboxItem(InboxRec(scope.domain, hash, now, result))
  {
    var receipt := ReceiptWrites(scope, IntegrationKey(event), RequestFor(hash), result, now);
    var inbox := InboxWrites(scope, event, hash, result, now);
    var ws, rk, ik := receipt + inbox, ReceiptKey(scope.Pk(), IntegrationKey(event)), InboxKey(scope.Pk(), event);
    assert rk in ws && ik in ws && Satisfied(ws[rk].condition, Lookup(t, rk)) && Satisfied(ws[ik].condition, Lookup(t, ik));
    var r := ReceiptItem(ReceiptRec(scope.domain, RequestFor(hash), result, now));
    var i := InboxItem(InboxRec(scope.domain, hash, now, result));
    assert Apply(t, ws) == t[rk := r][ik := i];
    AddEvent(t, rk, r, ik, i);
  }

  /** What an order pins and costs is what any version of it pinned and cost. */
  lemma MessageStillFits(t: Tables, scope: Scope, event: Id, kind: PaymentKind, oid: Id, order: OrderRec)
    requires Was(t, OrderKey(scope.Pk(), oid), OrderItem(order)) && OutboxOf(scope, event, kind, oid, order).Some?
    ensures var m, ok := OutboxOf(scope, event, kind, oid, order).value, OrderKey(scope.Pk(), oid);
      && m.event == event && m.kind == kind && m.order == oid
      && ok in t && t[ok].OrderItem? && MessageFits(m, t[ok].order)
  {
  }

  lemma OutboxPart(t: Tables, scope: Scope, message: Option<OutboxId>, now: nat)
    requires Inv(t) && Holds(t, OutboxWrites(scope, message, now))
    requires message.Some? ==> OutboxSound(t, scope.Pk(), message.value)
    ensures Good(t, Apply(t, OutboxWrites(scope, message, now)))
  {
    match message
    case None =>
      ApplyNothing(t);
      AdvancesReflexive(t);
    case Some(m) =>
      var ws, k := OutboxWrites(scope, message, now), OutboxKey(scope.Pk(), m);
      assert k in ws && Satisfied(ws[k].condition, Lookup(t, k));
      ApplyOne(t, k, OutboxItem(OutboxRec(scope.domain, now)), Absent);
      AddRecord(t, k, OutboxItem(OutboxRec(scope.domain, now)));
  }

  /** The notification of an event that has its inbox record by now. */
  lemma NoticePart(t: Tables, scope: Scope, e: PaymentEvent, oid: Id, order: OrderRec, now: nat)
    requires Inv(t) && Was(t, OrderKey(scope.Pk(), oid), OrderItem(order))
    requires Holds(t, OutboxWrites(scope, OutboxOf(scope, e.event, e.kind, oid, order), now))
    requires var ik := InboxKey(scope.Pk(), e.event); ik in t && t[ik].InboxItem? && t[ik].inbox.hash == PaymentHash(e, scope)
    ensures Good(t, Apply(t, OutboxWrites(scope, OutboxOf(scope, e.event, e.kind, oid, order), now)))
  {
    var message := OutboxOf(scope, e.event, e.kind, oid, order);
    if message.Some? { MessageStillFits(t, scope, e.event, e.kind, oid, order); }
    OutboxPart(t, scope, message, now);
  }

  lemma EventParts(scope: Scope, e: PaymentEvent, oid: Id, order: OrderRec, result: Outcome, now: nat)
    ensures var hash, message := PaymentHash(e, scope), OutboxOf(scope, e.event, e.kind, oid, order);
      var receipt := ReceiptWrites(scope, IntegrationKey(e.event), RequestFor(hash), result, now);
      var inbox := InboxWrites(scope, e.event, hash, result, now);
      var outbox, check := OutboxWrites(scope, message, now), BindingCheck(scope, e);
      && receipt + EventWrites(scope, e, oid, order, result, now) == receipt + inbox + outbox + check
      && (receipt + inbox + outbox).Keys !! check.Keys && (receipt + inbox).Keys !! outbox.Keys
  {
  }

  /** Receipt, inbox, outbox and binding check of a payment event. */
  lemma EventPart(t: Tables, scope: Scope, e: PaymentEvent, oid: Id, order: OrderRec, result: Outcome, now: nat)
    requires Was(t, OrderKey(scope.Pk(), oid), OrderItem(order))
    requires var hash := PaymentHash(e, scope);
      Inv(t) && Holds(t, ReceiptWrites(scope, IntegrationKey(e.event), RequestFor(hash), result, now)
                         + EventWrites(scope, e, oid, order, result, now))
    ensures var hash := PaymentHash(e, scope);
      var u := Apply(t, ReceiptWrites(scope, IntegrationKey(e.event), RequestFor(hash), result, now)
                        + EventWrites(scope, e, oid, order, result, now));
      Good(t, u) && ReceiptKey(scope.Pk(), IntegrationKey(e.event)) in u
  {
    var hash, message := PaymentHash(e, scope), OutboxOf(scope, e.event, e.kind, oid, order);
    var pair := ReceiptWrites(scope, IntegrationKey(e.event), RequestFor(hash), result, now)
                + InboxWrites(scope, e.event, hash, result, now);
    var outbox, check := OutboxWrites(scope, message, now), BindingCheck(scope, e);
    EventParts(scope, e, oid, order, result, now);
    ApplyInParts(t, pair + outbox, check);
    ApplyInParts(t, pair, outbox);
    InboxPart(t, scope, e.event, hash, result, now);
    var u := Apply(t, pair);
    WasAdvances(t, u, OrderKey(scope.Pk(), oid), OrderItem(order));
    NoticePart(u, scope, e, oid, order, now);
    GoodTransitive(t, u, Apply(u, outbox));
    ApplyCheck(Apply(u, outbox), BindingKey(scope.Pk(), e.attempt), BindingIs(scope.domain, e.reservation, e.order));
  }

  /** The access transition of a verified payment outcome, once the reservation has ended accordingly. */
  lemma AccessPart(t: Tables, scope: Scope, oid: Id, kind: PaymentKind, now: nat, access: Option<AccessRec>)
    requires Inv(t) && AccessWrites(scope, oid, kind, now, access).Ok?
    requires Holds(t, AccessWrites(scope, oid, kind, now, access).value)
    requires access.Some? ==> Was(t, AccessKey(scope.Pk(), oid), AccessItem(access.value))
    requires OrderKey(scope.Pk(), oid) in t && t[OrderKey(scope.Pk(), oid)].OrderItem?
    requires var rk := ReservationKey(scope.Pk(), t[OrderKey(scope.Pk(), oid)].order.reservation);
      && rk in t && t[rk].ReservationItem?
      && t[rk].reservation.status == (if kind == Succeeded then Committed else Released)
    ensures Good(t, Apply(t, AccessWrites(scope, oid, kind, now, access).value))
  {
    var ws, k := AccessWrites(scope, oid, kind, now, access).value, AccessKey(scope.Pk(), oid);
    if ws == map[] {
      ApplyNothing(t);
      AdvancesReflexive(t);
    } else {
      var a := access.value;
      assert k in ws && Satisfied(ws[k].condition, Lookup(t, k));
      assert Sound(t, k);
      var b := ws[k].item.access;
      assert ws == map[k := Put(AccessItem(b), AccessCondition(a))];
      ApplyOne(t, k, AccessItem(b), AccessCondition(a));
      MoveAccess(t, scope.Pk(), oid, b);
    }
  }

  // ----- stock changes from reads that may be stale -----

  lemma {:induction false} ChangesAt(domain: string, rid: Id, kind: MovementKind, reason: Option<Reason>, now: nat,
                                     allocations: seq<Allocation>, before: seq<StockRec>)
    requires |allocations| == |before| && ChangesOf(domain, rid, kind, reason, now, allocations, before).Ok?
    ensures var changes := ChangesOf(domain, rid, kind, reason, now, allocations, before).value;
      forall i :: 0 <= i < |changes| ==>
        ChangeOf(domain, rid, kind, reason, now, allocations[i], before[i]) == Ok(changes[i])
  {
    if allocations != [] {
      var n := |allocations| - 1;
      ChangesAt(domain, rid, kind, reason, now, allocations[..n], before[..n]);
    }
  }

  /** The units that a movement kind gives to (1) or takes from (-1) the reserved count. */
  function SignOf(kind: MovementKind): int {
    match kind
    case AdjustMove => 0
    case ReserveMove => 1
    case CommitMove => -1
    case ReleaseMove => -1
  }

  lemma ChangeIsSound(t: Tables, pk: Partition, domain: string, rid: Id, kind: MovementKind, reason: Option<Reason>, now: nat,
                      a: Allocation, b: StockRec, c: Change)
    requires ChangeOf(domain, rid, kind, reason, now, a, b) == Ok(c) && kind != AdjustMove
    ensures Balanced(c) && StockSound(c.after) && Evolves(StockItem(b), StockItem(c.after))
    ensures c.location == a.location && c.stock == a.stock && c.before == Some(b) && b.domain == domain
    ensures c.movement.deltas.reserved == SignOf(kind) * a.quantity
  {
  }

  /** A conditional stock write that succeeds writes over exactly the record that was read. */
  lemma StockReadIsCurrent(t: Tables, k: Key, b: StockRec)
    requires Was(t, k, StockItem(b)) && k.StockKey? && Satisfied(StockCondition(Some(b)), Lookup(t, k))
    ensures k in t && t[k] == StockItem(b)
  {
  }

  ghost predicate StocksSeen(t: Tables, pk: Partition, allocations: seq<Allocation>, before: seq<StockRec>)
    requires |allocations| == |before|
  {
    forall i :: 0 <= i < |allocations| ==>
      Was(t, StockKey(pk, allocations[i].location, allocations[i].stock), StockItem(before[i]))
  }

  lemma ChangesFit(t: Tables, pk: Partition, key: string, domain: string, rid: Id, kind: MovementKind,
                   reason: Option<Reason>, now: nat, allocations: seq<Allocation>, before: seq<StockRec>)
    requires |allocations| == |before| && AllocationsValid(allocations) && kind != AdjustMove
    requires ChangesOf(domain, rid, kind, reason, now, allocations, before).Ok?
    requires var changes := ChangesOf(domain, rid, kind, reason, now, allocations, before).value;
      Holds(t, StockWrites(pk, key, changes))
    requires StocksSeen(t, pk, allocations, before) && ReceiptKey(pk, key) in t
    ensures var changes := ChangesOf(domain, rid, kind, reason, now, allocations, before).value;
      Fits(t, pk, key, changes) && Matches(changes, allocations, domain, SignOf(kind))
  {
    var changes := ChangesOf(domain, rid, kind, reason, now, allocations, before).value;
    var ws := StockWrites(pk, key, changes);
    ChangesAt(domain, rid, kind, reason, now, allocations, before);
    forall i | 0 <= i < |changes|
      ensures changes[i].location == allocations[i].location && changes[i].stock == allocations[i].stock
      ensures changes[i].movement.deltas.reserved == SignOf(kind) * allocations[i].quantity
      ensures changes[i].before == Some(before[i]) && before[i].domain == domain
      ensures Balanced(changes[i]) && StockSound(changes[i].after) && Evolves(StockItem(before[i]), StockItem(changes[i].after))
    {
      ChangeIsSound(t, pk, domain, rid, kind, reason, now, allocations[i], before[i], changes[i]);
    }
    assert DistinctStocks(changes);
    StockWritesAt(pk, key, changes);
    forall i | 0 <= i < |changes| ensures ChangeFits(t, pk, key, changes[i]) {
      var k, mk := StockKey(pk, changes[i].location, changes[i].stock), MoveKey(pk, key, changes[i]);
      assert ws[k] == StockWrite(changes[i]);
      assert Satisfied(ws[k].condition, Lookup(t, k)) && Satisfied(ws[mk].condition, Lookup(t, mk));
      StockReadIsCurrent(t, k, before[i]);
    }
  }
}
