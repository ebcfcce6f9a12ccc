/** Each part of a transaction keeps the joint invariant; whole transactions are their parts in order. */
module Steps {
  import opened Basics
  import opened Records
  import opened Plans
  import opened Ledger
  import opened Protocol

  /** The state `u` is sound and a legal successor of `t`. */
  ghost predicate Good(t: Tables, u: Tables) {
    Inv(u) && Advances(t, u)
  }

  lemma GoodTransitive(t: Tables, u: Tables, v: Tables)
    requires Good(t, u) && Good(u, v)
    ensures Good(t, v)
  {
    AdvancesTransitive(t, u, v);
  }

  // ----- write-once records -----

  /** A receipt, inbox or outbox record that is sound on arrival disturbs nothing. */
  lemma AddRecord(t: Tables, k: Key, item: Item)
    requires Inv(t) && k !in t && (k.ReceiptKey? || k.InboxKey? || k.OutboxKey?)
    requires Sound(t[k := item], k) && !item.ReservationItem? && !item.MovementItem?
    ensures Good(t, t[k := item])
  {
    var u := t[k := item];
    forall j ensures Sound(u, j) {
      assert Sound(t, j);
    }
    InvIsTidy(t);
    LedgerFrame(t, u);
  }

  /** More receipts and inbox records leave every other record as sound as it was. */
  lemma RecordsAdded(t: Tables, u: Tables, j: Key)
    requires Sound(t, j) && (j in u ==> j in t && u[j] == t[j])
    requires forall k :: k in t ==> k in u && u[k] == t[k]
    requires forall k :: k in u && k !in t ==> k.ReceiptKey? || k.InboxKey?
    ensures Sound(u, j)
  {
  }

  /** The receipt and the inbox record of an event are sound only together. */
  lemma AddEvent(t: Tables, rk: Key, receipt: Item, ik: Key, inbox: Item)
    requires Inv(t) && rk !in t && ik !in t && rk.ReceiptKey? && ik.InboxKey?
    requires Sound(t[rk := receipt][ik := inbox], rk) && Sound(t[rk := receipt][ik := inbox], ik)
    ensures Good(t, t[rk := receipt][ik := inbox])
  {
    var u := t[rk := receipt][ik := inbox];
    forall j ensures Sound(u, j) {
      assert Sound(t, j);
      if j != rk && j != ik { RecordsAdded(t, u, j); }
    }
    InvIsTidy(t);
    LedgerFrame(t, u);
  }

  // ----- fiscal access -----

  /** A checkout's new access record, dormant until payment. */
  lemma AddAccess(t: Tables, k: Key, a: AccessRec)
    requires Inv(t) && k.AccessKey? && k !in t && a.state == PendingPayment
    requires Sound(t[k := AccessItem(a)], k)
    ensures Good(t, t[k := AccessItem(a)])
  {
    var u := t[k := AccessItem(a)];
    forall j ensures Sound(u, j) {
      assert Sound(t, j);
    }
    InvIsTidy(t);
    LedgerFrame(t, u);
  }

  /** Rotation, opening, closing and failed attempts: every access change short of redemption. */
  lemma MoveAccess(t: Tables, pk: Partition, oid: Id, b: AccessRec)
    requires Inv(t) && AccessKey(pk, oid) in t && t[AccessKey(pk, oid)].AccessItem?
    requires Evolves(t[AccessKey(pk, oid)], AccessItem(b)) && b.state != Consumed
    requires AccessSound(t, pk, oid, b)
    ensures Good(t, t[AccessKey(pk, oid) := AccessItem(b)])
  {
    var k := AccessKey(pk, oid);
    var u := t[k := AccessItem(b)];
    assert Sound(t, k);
    assert t[k].access.request.None?;
    forall j ensures Sound(u, j) {
      assert Sound(t, j);
    }
    InvIsTidy(t);
    LedgerFrame(t, u);
  }

  /** What a redemption writes: the consumed access, its one request and its receipt. */
  function Redeemed(t: Tables, pk: Partition, oid: Id, b: AccessRec, x: FiscalRequestRec, key: string, y: FiscalReceiptRec): Tables {
    t[AccessKey(pk, oid) := AccessItem(b)]
     [FiscalRequestKey(pk, FiscalId(oid, key)) := FiscalRequestItem(x)]
     [FiscalReceiptKey(pk, key) := FiscalReceiptItem(y)]
  }

  predicate Redeems(t: Tables, pk: Partition, oid: Id, b: AccessRec, x: FiscalRequestRec, key: string, y: FiscalReceiptRec) {
    && AccessKey(pk, oid) in t && t[AccessKey(pk, oid)].AccessItem?
    && FiscalRequestKey(pk, FiscalId(oid, key)) !in t && FiscalReceiptKey(pk, key) !in t
    && var a := t[AccessKey(pk, oid)].access;
    && a.state == Eligible && a.request.None? && b.state == Consumed && Evolves(AccessItem(a), AccessItem(b))
    && AccessReadable(b, b.domain) && b.request == Some(FiscalId(oid, key))
    && WindowFits(b) && x.order == oid && x.domain == a.domain && x.revision > 0 && x.createdAt == y.createdAt && x.createdAt < a.expiresAt
    && y.order == oid && y.domain == a.domain && y.request == FiscalId(oid, key) && y.proof == a.proof
  }

  lemma RedeemedSound(t: Tables, pk: Partition, oid: Id, b: AccessRec, x: FiscalRequestRec, key: string, y: FiscalReceiptRec, j: Key)
    requires Redeems(t, pk, oid, b, x, key, y) && Sound(t, AccessKey(pk, oid)) && Sound(t, j)
    ensures Sound(Redeemed(t, pk, oid, b, x, key, y), j)
  {
    if j.AccessKey? || j.FiscalRequestKey? || j.FiscalReceiptKey? { RedeemedClaim(t, pk, oid, b, x, key, y, j); }
    else { RedeemedOther(t, pk, oid, b, x, key, y, j); }
  }

  lemma RedeemedClaim(t: Tables, pk: Partition, oid: Id, b: AccessRec, x: FiscalRequestRec, key: string, y: FiscalReceiptRec, j: Key)
    requires Redeems(t, pk, oid, b, x, key, y) && Sound(t, AccessKey(pk, oid)) && Sound(t, j)
    requires j.AccessKey? || j.FiscalRequestKey? || j.FiscalReceiptKey?
    ensures Sound(Redeemed(t, pk, oid, b, x, key, y), j)
  {
  }

  lemma RedeemedOther(t: Tables, pk: Partition, oid: Id, b: AccessRec, x: FiscalRequestRec, key: string, y: FiscalReceiptRec, j: Key)
    requires Redeems(t, pk, oid, b, x, key, y) && Sound(t, j) && !j.AccessKey? && !j.FiscalRequestKey? && !j.FiscalReceiptKey?
    ensures Sound(Redeemed(t, pk, oid, b, x, key, y), j)
  {
  }

  /** A redemption consumes the access and creates its one request and receipt together. */
  lemma ConsumeAccess(t: Tables, pk: Partition, oid: Id, b: AccessRec, x: FiscalRequestRec, key: string, y: FiscalReceiptRec)
    requires Inv(t) && Redeems(t, pk, oid, b, x, key, y)
    ensures Good(t, Redeemed(t, pk, oid, b, x, key, y))
  {
    var u := Redeemed(t, pk, oid, b, x, key, y);
    assert Sound(t, AccessKey(pk, oid));
    forall j ensures Sound(u, j) {
      assert Sound(t, j);
      RedeemedSound(t, pk, oid, b, x, key, y, j);
    }
    InvIsTidy(t);
    LedgerFrame(t, u);
  }

  lemma MoveFiscal(t: Tables, pk: Partition, id: FiscalId, x: FiscalRequestRec)
    requires Inv(t) && FiscalRequestKey(pk, id) in t
    requires Evolves(t[FiscalRequestKey(pk, id)], FiscalRequestItem(x))
    ensures Good(t, t[FiscalRequestKey(pk, id) := FiscalRequestItem(x)])
  {
    var k := FiscalRequestKey(pk, id);
    var u := t[k := FiscalRequestItem(x)];
    assert Sound(t, k);
    forall j ensures Sound(u, j) {
      assert Sound(t, j);
    }
    InvIsTidy(t);
    LedgerFrame(t, u);
  }

  // ----- refunds of paid orders -----

  lemma RefundedSound(t: Tables, pk: Partition, oid: Id, o: OrderRec, rf: Id, x: RefundRec, j: Key)
    requires OrderKey(pk, oid) in t && t[OrderKey(pk, oid)].OrderItem? && RefundKey(pk, rf) !in t
    requires Sound(t, OrderKey(pk, oid)) && Sound(t, j)
    requires t[OrderKey(pk, oid)].order.status == Paid && Evolves(t[OrderKey(pk, oid)], OrderItem(o))
    requires o.status == Refunded && o.refund == Some(rf) && o.refundedAt.Some?
    requires o.completedAt == t[OrderKey(pk, oid)].order.completedAt && o.reason == t[OrderKey(pk, oid)].order.reason
    requires x.result.RefundOutcome? && x.result.refund == rf && x.result.order == oid && RefundCovered(x, o)
    ensures Sound(t[OrderKey(pk, oid) := OrderItem(o)][RefundKey(pk, rf) := RefundItem(x)], j)
  {
    assert t[OrderKey(pk, oid)].order.refund.None?;
  }

  lemma RefundOrder(t: Tables, pk: Partition, oid: Id, o: OrderRec, rf: Id, x: RefundRec)
    requires Inv(t) && OrderKey(pk, oid) in t && t[OrderKey(pk, oid)].OrderItem? && RefundKey(pk, rf) !in t
    requires t[OrderKey(pk, oid)].order.status == Paid && Evolves(t[OrderKey(pk, oid)], OrderItem(o))
    requires o.status == Refunded && o.refund == Some(rf) && o.refundedAt.Some?
    requires o.completedAt == t[OrderKey(pk, oid)].order.completedAt && o.reason == t[OrderKey(pk, oid)].order.reason
    requires x.result.RefundOutcome? && x.result.refund == rf && x.result.order == oid && RefundCovered(x, o)
    ensures Good(t, t[OrderKey(pk, oid) := OrderItem(o)][RefundKey(pk, rf) := RefundItem(x)])
  {
    var u := t[OrderKey(pk, oid) := OrderItem(o)][RefundKey(pk, rf) := RefundItem(x)];
    assert Sound(t, OrderKey(pk, oid));
    forall j ensures Sound(u, j) {
      assert Sound(t, j);
      RefundedSound(t, pk, oid, o, rf, x, j);
    }
    InvIsTidy(t);
    LedgerFrame(t, u);
  }

  // ----- deferral -----

  /** The tables after a deferral: the one marker of a held reservation moves forward. */
  function Deferred(t: Tables, pk: Partition, rid: Id, from: nat, r: ReservationRec): Tables {
    (t - {DueKey(pk, from, rid)})[ReservationKey(pk, rid) := ReservationItem(r)]
      [DueKey(pk, r.reconcileAfter, rid) := MarkerOfReservation(pk, rid, r, r.reconcileAfter)]
  }

  predicate Defers(a: ReservationRec, r: ReservationRec) {
    && a.status == Reserved && r.status == Reserved && a.reconcileAfter < r.reconcileAfter
    && Evolves(ReservationItem(a), ReservationItem(r)) && ReservationReadable(r, r.domain)
  }

  lemma MarkerSound(t: Tables, pk: Partition, rid: Id, a: ReservationRec, r: ReservationRec, j: Key)
    requires ReservationKey(pk, rid) in t && t[ReservationKey(pk, rid)] == ReservationItem(a) && Defers(a, r)
    requires Sound(t, ReservationKey(pk, rid)) && Sound(t, j)
    ensures Sound(Deferred(t, pk, rid, a.reconcileAfter, r), j)
  {
    if j.DueKey? { DeferralDue(t, pk, rid, a, r, j); }
    else if j.ReservationKey? { DeferralReservation(t, pk, rid, a, r, j); }
    else { DeferralOther(t, pk, rid, a, r, j); }
  }

  lemma DeferralDue(t: Tables, pk: Partition, rid: Id, a: ReservationRec, r: ReservationRec, j: Key)
    requires ReservationKey(pk, rid) in t && t[ReservationKey(pk, rid)] == ReservationItem(a) && Defers(a, r)
    requires j.DueKey? && Sound(t, j)
    ensures Sound(Deferred(t, pk, rid, a.reconcileAfter, r), j)
  {
  }

  lemma DeferralReservation(t: Tables, pk: Partition, rid: Id, a: ReservationRec, r: ReservationRec, j: Key)
    requires ReservationKey(pk, rid) in t && t[ReservationKey(pk, rid)] == ReservationItem(a) && Defers(a, r)
    requires j.ReservationKey? && Sound(t, j)
    ensures Sound(Deferred(t, pk, rid, a.reconcileAfter, r), j)
  {
  }

  lemma DeferralOther(t: Tables, pk: Partition, rid: Id, a: ReservationRec, r: ReservationRec, j: Key)
    requires ReservationKey(pk, rid) in t && t[ReservationKey(pk, rid)] == ReservationItem(a) && Defers(a, r)
    requires !j.ReservationKey? && !j.DueKey? && Sound(t, j)
    ensures Sound(Deferred(t, pk, rid, a.reconcileAfter, r), j)
  {
  }

  lemma MoveMarker(t: Tables, pk: Partition, rid: Id, a: ReservationRec, r: ReservationRec)
    requires Inv(t) && ReservationKey(pk, rid) in t && t[ReservationKey(pk, rid)] == ReservationItem(a) && Defers(a, r)
    ensures Good(t, Deferred(t, pk, rid, a.reconcileAfter, r))
  {
    var u := Deferred(t, pk, rid, a.reconcileAfter, r);
    forall j ensures Sound(u, j) {
      MarkerSound(t, pk, rid, a, r, j);
    }
    InvIsTidy(t);
    InvIsTidy(u);
    LedgerFrame(t, u);
  }

  // ----- the stock part of a transaction -----

  /** A change that fits the current tables: its `before` is the stored record and its movement is new. */
  predicate ChangeFits(t: Tables, pk: Partition, key: string, c: Change) {
    && Balanced(c) && StockSound(c.after) && MoveKey(pk, key, c) !in t
    && var k := StockKey(pk, c.location, c.stock);
    && (c.before.None? ==> k !in t)
    && (c.before.Some? ==> k in t && t[k] == StockItem(c.before.value) && Evolves(t[k], StockItem(c.after)))
  }

  ghost predicate Fits(t: Tables, pk: Partition, key: string, changes: seq<Change>) {
    && DistinctStocks(changes) && ReceiptKey(pk, key) in t
    && forall i :: 0 <= i < |changes| ==> ChangeFits(t, pk, key, changes[i])
  }

  lemma StockPartSound(t: Tables, pk: Partition, key: string, changes: seq<Change>)
    requires (forall k :: Sound(t, k)) && Fits(t, pk, key, changes)
    ensures forall k :: Sound(Apply(t, StockWrites(pk, key, changes)), k)
    ensures Advances(t, Apply(t, StockWrites(pk, key, changes)))
  {
    var ws := StockWrites(pk, key, changes);
    StockWritesAt(pk, key, changes);
    StockWriteKinds(pk, key, changes);
    forall j ensures Sound(Apply(t, ws), j) {
      assert Sound(t, j);
      if j in ws {
        var i := StockWriteSource(pk, key, changes, j);
        assert ChangeFits(t, pk, key, changes[i]);
        WrittenSound(t, pk, key, changes, i);
      } else {
        UnwrittenSound(t, pk, key, changes, j);
      }
    }
    forall j: Key | j in t && !j.DueKey? ensures j in Apply(t, ws) && Stays(t[j], Apply(t, ws)[j]) {
      if j in ws {
        var i := StockWriteSource(pk, key, changes, j);
        assert ChangeFits(t, pk, key, changes[i]);
      }
    }
  }

  lemma WrittenSound(t: Tables, pk: Partition, key: string, changes: seq<Change>, i: nat)
    requires Fits(t, pk, key, changes) && i < |changes|
    ensures Sound(Apply(t, StockWrites(pk, key, changes)), StockKey(pk, changes[i].location, changes[i].stock))
    ensures Sound(Apply(t, StockWrites(pk, key, changes)), MoveKey(pk, key, changes[i]))
  {
    var ws := StockWrites(pk, key, changes);
    StockWritesAt(pk, key, changes);
    StockWriteKinds(pk, key, changes);
    assert ChangeFits(t, pk, key, changes[i]);
    assert ws[StockKey(pk, changes[i].location, changes[i].stock)] == StockWrite(changes[i]);
    assert ReceiptKey(pk, key) !in ws;
  }

  lemma UnwrittenSound(t: Tables, pk: Partition, key: string, changes: seq<Change>, j: Key)
    requires Fits(t, pk, key, changes) && Sound(t, j) && j !in StockWrites(pk, key, changes)
    ensures Sound(Apply(t, StockWrites(pk, key, changes)), j)
  {
    StockWriteKinds(pk, key, changes);
    if j in t && j.ReservationKey? {
      UnwrittenReservation(t, pk, key, changes, j);
    } else {
      UnwrittenOther(t, StockWrites(pk, key, changes), j);
    }
  }

  lemma UnwrittenOther(t: Tables, ws: Writes, j: Key)
    requires Sound(t, j) && j !in ws && (j in t ==> !j.ReservationKey?) && forall k :: k in ws ==> LogKind(k) && ws[k].Put?
    ensures Sound(Apply(t, ws), j)
  {
  }

  lemma UnwrittenReservation(t: Tables, pk: Partition, key: string, changes: seq<Change>, j: Key)
    requires Fits(t, pk, key, changes) && Sound(t, j) && j in t && j.ReservationKey?
    ensures Sound(Apply(t, StockWrites(pk, key, changes)), j)
  {
    var u, r := Apply(t, StockWrites(pk, key, changes)), t[j].reservation;
    StockWriteKinds(pk, key, changes);
    forall i | 0 <= i < |r.allocations|
      ensures StockKey(j.pk, r.allocations[i].location, r.allocations[i].stock) in u
      ensures u[StockKey(j.pk, r.allocations[i].location, r.allocations[i].stock)].StockItem?
      ensures u[StockKey(j.pk, r.allocations[i].location, r.allocations[i].stock)].stock.domain == r.domain
    {
      StockStays(t, pk, key, changes, StockKey(j.pk, r.allocations[i].location, r.allocations[i].stock));
    }
  }

  lemma StockStays(t: Tables, pk: Partition, key: string, changes: seq<Change>, k: Key)
    requires Fits(t, pk, key, changes) && k in t && k.StockKey? && t[k].StockItem?
    ensures var u := Apply(t, StockWrites(pk, key, changes));
      k in u && u[k].StockItem? && u[k].stock.domain == t[k].stock.domain
  {
    var ws := StockWrites(pk, key, changes);
    StockWritesAt(pk, key, changes);
    if k in ws {
      var i := StockWriteSource(pk, key, changes, k);
      assert ChangeFits(t, pk, key, changes[i]);
      assert ws[k] == StockWrite(changes[i]);
    }
  }

  /** A manual adjustment: one balanced change that leaves the reserved count alone. */
  lemma AdjustPart(t: Tables, pk: Partition, key: string, c: Change)
    requires Inv(t) && Fits(t, pk, key, [c]) && Holds(t, StockWrites(pk, key, [c]))
    requires c.movement.deltas.reserved == 0
    ensures Good(t, Apply(t, StockWrites(pk, key, [c])))
  {
    var u := Apply(t, StockWrites(pk, key, [c]));
    StockPartSound(t, pk, key, [c]);
    InvIsTidy(t);
    InvIsTidy(u);
    assert forall i :: 0 <= i < 1 ==> ChangeFits(t, pk, key, [c][i]);
    forall location, stock ensures ReservedShift([c], location, stock) == 0 {
      assert [c][..0] == [];
    }
    StockWriteKinds(pk, key, [c]);
    LedgerMoves(t, u, pk, key, [c], ReservationKey(pk, ""));
  }

  // ----- checkout -----

  /** The tables after a checkout's own records are added. */
  function CheckedOut(t: Tables, pk: Partition, rid: Id, r: ReservationRec, order: OrderRec, binding: BindingRec): Tables {
    t[ReservationKey(pk, rid) := ReservationItem(r)]
     [DueKey(pk, r.reconcileAfter, rid) := MarkerOfReservation(pk, rid, r, r.reconcileAfter)]
     [OrderKey(pk, r.order) := OrderItem(order)]
     [BindingKey(pk, r.attempt) := BindingItem(binding)]
  }

  /** A new reservation, order and binding that name each other, in keys nobody used. */
  predicate Opens(t: Tables, pk: Partition, rid: Id, r: ReservationRec, order: OrderRec, binding: BindingRec) {
    && ReservationKey(pk, rid) !in t && DueKey(pk, r.reconcileAfter, rid) !in t
    && OrderKey(pk, r.order) !in t && BindingKey(pk, r.attempt) !in t
    && ReservationReadable(r, r.domain) && r.status == Reserved && AllocationsStocked(t, pk, r)
    && |r.allocations| <= MAX_CHECKOUT_LINES
    && order.reservation == rid && order.attempt == r.attempt && order.domain == r.domain && order.status == PendingCheckout
    && order.revision > 0 && order.amountMinor >= 0 && order.refund.None? && order.refundedAt.None? && TimesFit(r, order)
    && binding.reservation == rid && binding.order == r.order && binding.domain == r.domain
  }

  lemma CheckoutSound(t: Tables, pk: Partition, rid: Id, r: ReservationRec, order: OrderRec, binding: BindingRec, j: Key)
    requires Sound(t, j) && Opens(t, pk, rid, r, order, binding)
    ensures Sound(CheckedOut(t, pk, rid, r, order, binding), j)
  {
  }

  lemma CheckoutAdvances(t: Tables, pk: Partition, rid: Id, r: ReservationRec, order: OrderRec, binding: BindingRec)
    requires Opens(t, pk, rid, r, order, binding)
    ensures Advances(t, CheckedOut(t, pk, rid, r, order, binding))
  {
  }

  /** The changes belong to the allocations: same stocks, existing records in the same domain, signed units. */
  ghost predicate Matches(changes: seq<Change>, allocations: seq<Allocation>, domain: string, sign: int) {
    && |changes| == |allocations|
    && forall i :: 0 <= i < |changes| ==>
      && changes[i].location == allocations[i].location && changes[i].stock == allocations[i].stock
      && changes[i].movement.deltas.reserved == sign * allocations[i].quantity
      && changes[i].before.Some? && changes[i].before.value.domain == domain
  }

  lemma {:induction false} NothingHeld(location: Id, stock: Id)
    ensures QtyAt([], location, stock) == 0
  {
  }

  /** A whole checkout: the stock it holds, and the records that hold it. */
  lemma CheckoutPart(t: Tables, pk: Partition, key: string, changes: seq<Change>, rid: Id, r: ReservationRec,
                     order: OrderRec, binding: BindingRec)
    requires Inv(t) && Fits(t, pk, key, changes) && Holds(t, StockWrites(pk, key, changes))
    requires Matches(changes, r.allocations, r.domain, 1)
    requires var u := Apply(t, StockWrites(pk, key, changes));
      AllocationsStocked(u, pk, r) ==> Opens(u, pk, rid, r, order, binding)
    ensures Good(t, CheckedOut(Apply(t, StockWrites(pk, key, changes)), pk, rid, r, order, binding))
  {
    var u := Apply(t, StockWrites(pk, key, changes));
    var v := CheckedOut(u, pk, rid, r, order, binding);
    StockPartSound(t, pk, key, changes);
    StocksHere(t, pk, key, changes, r);
    forall j ensures Sound(v, j) {
      CheckoutSound(u, pk, rid, r, order, binding, j);
    }
    CheckoutAdvances(u, pk, rid, r, order, binding);
    AdvancesTransitive(t, u, v);
    CheckoutLedger(t, pk, key, changes, rid, r, order, binding);
  }

  lemma StocksHere(t: Tables, pk: Partition, key: string, changes: seq<Change>, r: ReservationRec)
    requires Fits(t, pk, key, changes) && Matches(changes, r.allocations, r.domain, 1)
    ensures AllocationsStocked(Apply(t, StockWrites(pk, key, changes)), pk, r)
  {
    forall i | 0 <= i < |r.allocations|
      ensures var k := StockKey(pk, r.allocations[i].location, r.allocations[i].stock);
        var u := Apply(t, StockWrites(pk, key, changes));
        k in u && u[k].StockItem? && u[k].stock.domain == r.domain
    {
      assert ChangeFits(t, pk, key, changes[i]);
      StockStays(t, pk, key, changes, StockKey(pk, r.allocations[i].location, r.allocations[i].stock));
    }
  }

  lemma CheckoutLedger(t: Tables, pk: Partition, key: string, changes: seq<Change>, rid: Id, r: ReservationRec,
                       order: OrderRec, binding: BindingRec)
    requires Inv(t) && Fits(t, pk, key, changes) && Holds(t, StockWrites(pk, key, changes))
    requires Matches(changes, r.allocations, r.domain, 1)
    requires var u := Apply(t, StockWrites(pk, key, changes));
      && Opens(u, pk, rid, r, order, binding)
      && forall k :: Sound(CheckedOut(u, pk, rid, r, order, binding), k)
    ensures LedgerHolds(CheckedOut(Apply(t, StockWrites(pk, key, changes)), pk, rid, r, order, binding))
  {
    var rk := ReservationKey(pk, rid);
    var u := Apply(t, StockWrites(pk, key, changes));
    var v := CheckedOut(u, pk, rid, r, order, binding);
    InvIsTidy(t);
    InvIsTidy(v);
    HeldAfterStock(t, pk, key, changes);
    CheckoutFrame(u, pk, rid, r, order, binding);
    ShiftIsQty(changes, r.allocations, 1);
    assert forall i :: 0 <= i < |changes| ==> ChangeFits(t, pk, key, changes[i]);
    forall location, stock
      ensures ReservedShift(changes, location, stock) == QtyAt(Held(v, rk), location, stock) - QtyAt(Held(t, rk), location, stock)
    {
      NothingHeld(location, stock);
    }
    LedgerMoves(t, v, pk, key, changes, rk);
  }

  /** Beside the stock, a checkout only takes its own reservation's units. */
  lemma CheckoutFrame(u: Tables, pk: Partition, rid: Id, r: ReservationRec, order: OrderRec, binding: BindingRec)
    requires Opens(u, pk, rid, r, order, binding)
    ensures var rk, v := ReservationKey(pk, rid), CheckedOut(u, pk, rid, r, order, binding);
      && (forall k: Key :: LogKind(k) ==> Same(u, v, k))
      && (forall k: Key :: k.ReservationKey? && k != rk ==> Held(u, k) == Held(v, k))
      && Held(u, rk) == [] && Held(v, rk) == r.allocations
  {
  }

  // ----- completion -----

  /** The tables after a completion. */
  function Completed(t: Tables, pk: Partition, rid: Id, r: ReservationRec, done: ReservationRec, order: OrderRec): Tables {
    (t - {DueKey(pk, r.dueEpoch, rid)})[ReservationKey(pk, rid) := ReservationItem(done)][OrderKey(pk, r.order) := OrderItem(order)]
  }

  predicate Finishes(r: ReservationRec, done: ReservationRec) {
    && r.status == Reserved && done.status != Reserved && r.dueEpoch == r.reconcileAfter
    && Evolves(ReservationItem(r), ReservationItem(done)) && ReservationReadable(done, done.domain)
    && done.reason.Some? && ReasonFits(done.status, done.reason.value) && done.completedAt.Some?
  }

  /** The records a completion rewrites are the current ones, and it rewrites them legally. */
  predicate Completes(t: Tables, pk: Partition, rid: Id, r: ReservationRec, done: ReservationRec, order: OrderRec) {
    && ReservationKey(pk, rid) in t && t[ReservationKey(pk, rid)] == ReservationItem(r)
    && OrderKey(pk, r.order) in t && t[OrderKey(pk, r.order)].OrderItem?
    && Finishes(r, done) && StatusesAgree(done.status, order.status) && TimesFit(done, order)
    && Evolves(t[OrderKey(pk, r.order)], OrderItem(order))
    && (order.status == Refunded <==> order.refund.Some?) && (order.refund.Some? <==> order.refundedAt.Some?)
    && (order.refund.Some? ==> RefundKey(pk, order.refund.value) in t)
  }

  lemma CompletedSound(t: Tables, pk: Partition, rid: Id, r: ReservationRec, done: ReservationRec, order: OrderRec, j: Key)
    requires Sound(t, j) && Sound(t, ReservationKey(pk, rid)) && Sound(t, OrderKey(pk, r.order))
    requires Completes(t, pk, rid, r, done, order)
    requires j.AccessKey? ==> Sound(t, OrderKey(j.pk, j.order))
    ensures Sound(Completed(t, pk, rid, r, done, order), j)
  {
    if j.AccessKey? {
      CompletedAccess(t, pk, rid, r, done, order, j);
    } else if j == ReservationKey(pk, rid) || j == OrderKey(pk, r.order) {
      CompletedCore(t, pk, rid, r, done, order);
    } else {
      CompletedOther(t, pk, rid, r, done, order, j);
    }
  }

  lemma CompletedAccess(t: Tables, pk: Partition, rid: Id, r: ReservationRec, done: ReservationRec, order: OrderRec, j: Key)
    requires j.AccessKey? && Sound(t, j) && Sound(t, OrderKey(j.pk, j.order))
    requires Completes(t, pk, rid, r, done, order)
    ensures Sound(Completed(t, pk, rid, r, done, order), j)
  {
  }

  lemma CompletedCore(t: Tables, pk: Partition, rid: Id, r: ReservationRec, done: ReservationRec, order: OrderRec)
    requires Sound(t, ReservationKey(pk, rid)) && Sound(t, OrderKey(pk, r.order))
    requires Completes(t, pk, rid, r, done, order)
    ensures Sound(Completed(t, pk, rid, r, done, order), ReservationKey(pk, rid))
    ensures Sound(Completed(t, pk, rid, r, done, order), OrderKey(pk, r.order))
  {
  }

  lemma CompletedOther(t: Tables, pk: Partition, rid: Id, r: ReservationRec, done: ReservationRec, order: OrderRec, j: Key)
    requires Sound(t, j) && Sound(t, ReservationKey(pk, rid)) && Sound(t, OrderKey(pk, r.order))
    requires Completes(t, pk, rid, r, done, order)
    requires !j.AccessKey? && j != ReservationKey(pk, rid) && j != OrderKey(pk, r.order)
    ensures Sound(Completed(t, pk, rid, r, done, order), j)
  {
    if j.ReservationKey? || j.DueKey? { CompletedHeld(t, pk, rid, r, done, order, j); }
    else { CompletedRest(t, pk, rid, r, done, order, j); }
  }

  /** Other reservations, and every marker. */
  lemma CompletedHeld(t: Tables, pk: Partition, rid: Id, r: ReservationRec, done: ReservationRec, order: OrderRec, j: Key)
    requires Sound(t, j) && Sound(t, ReservationKey(pk, rid)) && Sound(t, OrderKey(pk, r.order))
    requires Completes(t, pk, rid, r, done, order) && (j.ReservationKey? || j.DueKey?) && j != ReservationKey(pk, rid)
    ensures Sound(Completed(t, pk, rid, r, done, order), j)
  {
  }

  lemma CompletedRest(t: Tables, pk: Partition, rid: Id, r: ReservationRec, done: ReservationRec, order: OrderRec, j: Key)
    requires Sound(t, j) && Sound(t, OrderKey(pk, r.order)) && Completes(t, pk, rid, r, done, order)
    requires !j.AccessKey? && !j.ReservationKey? && !j.DueKey? && j != OrderKey(pk, r.order)
    ensures Sound(Completed(t, pk, rid, r, done, order), j)
  {
  }

  /** A refund record may come first: it disturbs no other record. */
  function WithRefund(t: Tables, pk: Partition, refund: Option<RefundRec>): Tables {
    if refund.None? || !refund.value.result.RefundOutcome? then t
    else t[RefundKey(pk, refund.value.result.refund) := RefundItem(refund.value)]
  }

  predicate RefundMatches(t: Tables, pk: Partition, oid: Id, order: OrderRec, refund: Option<RefundRec>) {
    match refund
    case None => order.status != Refunded && order.refund.None?
    case Some(x) =>
      && order.status == Refunded && x.result.RefundOutcome? && order.refund == Some(x.result.refund) && RefundCovered(x, order)
      && x.result.order == oid && RefundKey(pk, x.result.refund) !in t
  }

  lemma WithRefundSound(t: Tables, pk: Partition, refund: Option<RefundRec>, j: Key)
    requires Sound(t, j)
    requires refund.Some? && refund.value.result.RefundOutcome? ==>
      RefundKey(pk, refund.value.result.refund) !in t && j != RefundKey(pk, refund.value.result.refund)
    ensures Sound(WithRefund(t, pk, refund), j)
  {
  }

  /** Every record after a completion is sound, with or without a refund in the same transaction. */
  lemma CompletionSound(t: Tables, pk: Partition, rid: Id, r: ReservationRec, done: ReservationRec, order: OrderRec,
                        refund: Option<RefundRec>)
    requires (forall k :: Sound(t, k)) && RefundMatches(t, pk, r.order, order, refund)
    requires Completes(WithRefund(t, pk, refund), pk, rid, r, done, order)
    ensures forall k :: Sound(Completed(WithRefund(t, pk, refund), pk, rid, r, done, order), k)
  {
    var u := WithRefund(t, pk, refund);
    WithRefundSound(t, pk, refund, ReservationKey(pk, rid));
    WithRefundSound(t, pk, refund, OrderKey(pk, r.order));
    forall j ensures Sound(Completed(u, pk, rid, r, done, order), j) {
      if refund.Some? && j == RefundKey(pk, refund.value.result.refund) {
        RefundSoundAfter(t, pk, rid, r, done, order, refund.value);
      } else {
        assert Sound(t, j);
        WithRefundSound(t, pk, refund, j);
        if j.AccessKey? { WithRefundSound(t, pk, refund, OrderKey(j.pk, j.order)); }
        CompletedSound(u, pk, rid, r, done, order, j);
      }
    }
  }

  lemma RefundSoundAfter(t: Tables, pk: Partition, rid: Id, r: ReservationRec, done: ReservationRec, order: OrderRec, x: RefundRec)
    requires RefundMatches(t, pk, r.order, order, Some(x))
    ensures Sound(Completed(WithRefund(t, pk, Some(x)), pk, rid, r, done, order), RefundKey(pk, x.result.refund))
  {
  }

  lemma CompletionAdvances(t: Tables, pk: Partition, rid: Id, r: ReservationRec, done: ReservationRec, order: OrderRec,
                           refund: Option<RefundRec>)
    requires RefundMatches(t, pk, r.order, order, refund)
    requires Completes(WithRefund(t, pk, refund), pk, rid, r, done, order)
    ensures Advances(t, Completed(WithRefund(t, pk, refund), pk, rid, r, done, order))
  {
  }

  /** A whole completion: the units leave the reservation and the stock together. */
  lemma CompletePart(t: Tables, pk: Partition, key: string, changes: seq<Change>, rid: Id, r: ReservationRec,
                     done: ReservationRec, order: OrderRec, refund: Option<RefundRec>)
    requires Inv(t) && Fits(t, pk, key, changes) && Holds(t, StockWrites(pk, key, changes))
    requires Matches(changes, r.allocations, r.domain, -1) && RefundMatches(t, pk, r.order, order, refund)
    requires var u := Apply(t, StockWrites(pk, key, changes)); Completes(WithRefund(u, pk, refund), pk, rid, r, done, order)
    ensures Good(t, Completed(WithRefund(Apply(t, StockWrites(pk, key, changes)), pk, refund), pk, rid, r, done, order))
  {
    var u := Apply(t, StockWrites(pk, key, changes));
    var v := Completed(WithRefund(u, pk, refund), pk, rid, r, done, order);
    StockPartSound(t, pk, key, changes);
    StockWriteKinds(pk, key, changes);
    CompletionSound(u, pk, rid, r, done, order, refund);
    CompletionAdvances(u, pk, rid, r, done, order, refund);
    AdvancesTransitive(t, u, v);
    CompletionLedger(t, pk, key, changes, rid, r, done, order, refund);
  }

  lemma CompletionLedger(t: Tables, pk: Partition, key: string, changes: seq<Change>, rid: Id, r: ReservationRec,
                         done: ReservationRec, order: OrderRec, refund: Option<RefundRec>)
    requires Inv(t) && Fits(t, pk, key, changes) && Holds(t, StockWrites(pk, key, changes))
    requires Matches(changes, r.allocations, r.domain, -1)
    requires var u := Apply(t, StockWrites(pk, key, changes));
      && Completes(WithRefund(u, pk, refund), pk, rid, r, done, order)
      && forall k :: Sound(Completed(WithRefund(u, pk, refund), pk, rid, r, done, order), k)
    ensures LedgerHolds(Completed(WithRefund(Apply(t, StockWrites(pk, key, changes)), pk, refund), pk, rid, r, done, order))
  {
    var rk := ReservationKey(pk, rid);
    var v := Completed(WithRefund(Apply(t, StockWrites(pk, key, changes)), pk, refund), pk, rid, r, done, order);
    InvIsTidy(t);
    InvIsTidy(v);
    HeldAfterStock(t, pk, key, changes);
    CompletionFrame(Apply(t, StockWrites(pk, key, changes)), pk, rid, r, done, order, refund);
    ShiftIsQty(changes, r.allocations, -1);
    assert forall i :: 0 <= i < |changes| ==> ChangeFits(t, pk, key, changes[i]);
    forall location, stock
      ensures ReservedShift(changes, location, stock) == QtyAt(Held(v, rk), location, stock) - QtyAt(Held(t, rk), location, stock)
    {
      NothingHeld(location, stock);
    }
    LedgerMoves(t, v, pk, key, changes, rk);
  }

  /** Beside the stock, a completion only lets go of its own reservation's units. */
  lemma CompletionFrame(u: Tables, pk: Partition, rid: Id, r: ReservationRec, done: ReservationRec, order: OrderRec,
                        refund: Option<RefundRec>)
    requires Completes(WithRefund(u, pk, refund), pk, rid, r, done, order)
    ensures var rk, v := ReservationKey(pk, rid), Completed(WithRefund(u, pk, refund), pk, rid, r, done, order);
      && (forall k: Key :: LogKind(k) ==> Same(u, v, k))
      && (forall k: Key :: k.ReservationKey? && k != rk ==> Held(u, k) == Held(v, k))
      && Held(u, rk) == r.allocations && Held(v, rk) == []
  {
  }

  /** The stock part changes no reservation. */
  lemma HeldAfterStock(t: Tables, pk: Partition, key: string, changes: seq<Change>)
    requires DistinctStocks(changes)
    ensures forall k: Key :: k.ReservationKey? ==> Held(t, k) == Held(Apply(t, StockWrites(pk, key, changes)), k)
  {
    StockWriteKinds(pk, key, changes);
  }
}
