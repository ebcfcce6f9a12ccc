/** Sums over whole tables: what the reservations hold of a stock, and what its movement log adds up to. */
module Ledger {
  import opened Basics
  import opened Records
  import opened Plans

  datatype Target = Target(pk: Partition, location: Id, stock: Id)

  datatype Measure =
    | Allocated(target: Target)
    | MovedOnHand(target: Target)
    | MovedReserved(target: Target)
    | MovedAvailable(target: Target)

  function QtyAt(allocations: seq<Allocation>, location: Id, stock: Id): int {
    if allocations == [] then 0
    else
      var a := allocations[|allocations| - 1];
      QtyAt(allocations[..|allocations| - 1], location, stock)
      + (if a.location == location && a.stock == stock then a.quantity else 0)
  }

  /** The allocations that a record still holds: those of a reservation in status reserved. */
  function HeldBy(item: Item): seq<Allocation> {
    if item.ReservationItem? && item.reservation.status == Reserved then item.reservation.allocations else []
  }

  function Held(t: Tables, k: Key): seq<Allocation> {
    if k in t then HeldBy(t[k]) else []
  }

  predicate Same(t: Tables, u: Tables, k: Key) {
    (k in t <==> k in u) && (k in t ==> t[k] == u[k])
  }

  predicate MovementAt(x: Target, k: Key, item: Item) {
    && k.pk == x.pk && item.MovementItem?
    && item.movement.stock == x.stock && item.movement.location == x.location
  }

  function Value(m: Measure, k: Key, item: Item): int {
    match m
    case Allocated(x) => if k.pk == x.pk then QtyAt(HeldBy(item), x.location, x.stock) else 0
    case MovedOnHand(x) => if MovementAt(x, k, item) then item.movement.deltas.onHand else 0
    case MovedReserved(x) => if MovementAt(x, k, item) then item.movement.deltas.reserved else 0
    case MovedAvailable(x) => if MovementAt(x, k, item) then item.movement.deltas.available else 0
  }

  function ValueIn(m: Measure, t: Tables, k: Key): int {
    if k in t then Value(m, k, t[k]) else 0
  }

  ghost function Total(m: Measure, t: Tables): int
    decreases |t|
  {
    if t == map[] then 0 else
    var k :| k in t;
    Value(m, k, t[k]) + Total(m, t - {k})
  }

  lemma {:induction false} TotalSplit(m: Measure, t: Tables, k: Key)
    requires k in t
    ensures Total(m, t) == Value(m, k, t[k]) + Total(m, t - {k})
    decreases |t|
  {
    var j :| j in t && Total(m, t) == Value(m, j, t[j]) + Total(m, t - {j});
    if j != k {
      TotalSplit(m, t - {j}, k);
      assert t - {j} - {k} == t - {k} - {j};
      TotalSplit(m, t - {k}, j);
    }
  }

  /** Taking one record out takes out its contribution. */
  lemma TotalWithout(m: Measure, t: Tables, k: Key)
    ensures Total(m, t) == ValueIn(m, t, k) + Total(m, t - {k})
    ensures |t - {k}| == |t| - (if k in t then 1 else 0)
  {
    if k in t { TotalSplit(m, t, k); } else { assert t - {k} == t; }
  }

  lemma FrameWithout(m: Measure, t: Tables, u: Tables, k: Key)
    requires forall j :: j != k ==> ValueIn(m, t, j) == ValueIn(m, u, j)
    ensures forall j :: ValueIn(m, t - {k}, j) == ValueIn(m, u - {k}, j)
  {
    forall j ensures ValueIn(m, t - {k}, j) == ValueIn(m, u - {k}, j) {
      if j != k { assert ValueIn(m, t, j) == ValueIn(m, u, j); }
    }
  }

  lemma {:induction false} TotalFrame(m: Measure, t: Tables, u: Tables)
    requires forall k :: ValueIn(m, t, k) == ValueIn(m, u, k)
    ensures Total(m, t) == Total(m, u)
    decreases |t| + |u|
  {
    if t != map[] || u != map[] {
      var k :| k in t || k in u;
      FrameWithout(m, t, u, k);
      TotalWithout(m, t, k);
      TotalWithout(m, u, k);
      TotalFrame(m, t - {k}, u - {k});
    }
  }

  /** When only one record's contribution changes, so does the total, by as much. */
  lemma TotalChange(m: Measure, t: Tables, u: Tables, k: Key)
    requires forall j :: j != k ==> ValueIn(m, t, j) == ValueIn(m, u, j)
    ensures Total(m, u) - Total(m, t) == ValueIn(m, u, k) - ValueIn(m, t, k)
  {
    FrameWithout(m, t, u, k);
    TotalFrame(m, t - {k}, u - {k});
    TotalWithout(m, t, k);
    TotalWithout(m, u, k);
  }

  // ----- the ledger equations -----

  function OnHandOf(before: Option<StockRec>): int {
    if before.Some? then before.value.state.onHand else 0
  }

  function ReservedOf(before: Option<StockRec>): int {
    if before.Some? then before.value.state.reserved else 0
  }

  function StockAt(t: Tables, x: Target): Option<StockRec> {
    var k := StockKey(x.pk, x.location, x.stock);
    if k in t && t[k].StockItem? then Some(t[k].stock) else None
  }

  function OnHandAt(t: Tables, x: Target): int {
    OnHandOf(StockAt(t, x))
  }

  function ReservedAt(t: Tables, x: Target): int {
    ReservedOf(StockAt(t, x))
  }

  /** Stock counts equal the sums of what is held and of what was logged. */
  ghost predicate LedgerAt(t: Tables, x: Target) {
    ReservedAt(t, x) == Total(Allocated(x), t) && LogMatches(t, x)
  }

  /** The three equations between a stock record and its movement log. */
  ghost predicate LogMatches(t: Tables, x: Target) {
    && OnHandAt(t, x) == Total(MovedOnHand(x), t)
    && ReservedAt(t, x) == Total(MovedReserved(x), t)
    && OnHandAt(t, x) - ReservedAt(t, x) == Total(MovedAvailable(x), t)
  }

  ghost predicate LedgerHolds(t: Tables) {
    forall x :: LedgerAt(t, x)
  }

  lemma EmptyLedger()
    ensures LedgerHolds(map[])
  {
  }

  predicate LogKind(k: Key) {
    k.StockKey? || k.MovementKey?
  }

  /** Only reservations are counted as holding stock, and only movements as moving it. */
  ghost predicate Tidy(t: Tables) {
    forall k :: k in t ==> (t[k].ReservationItem? <==> k.ReservationKey?) && (t[k].MovementItem? <==> k.MovementKey?)
  }

  lemma HeldFrame(x: Target, t: Tables, u: Tables)
    requires Tidy(t) && Tidy(u)
    requires forall k: Key :: k.ReservationKey? ==> Held(t, k) == Held(u, k)
    ensures Total(Allocated(x), t) == Total(Allocated(x), u)
  {
    forall k ensures ValueIn(Allocated(x), t, k) == ValueIn(Allocated(x), u, k) {
      HeldValue(x, t, u, k);
    }
    TotalFrame(Allocated(x), t, u);
  }

  lemma HeldValue(x: Target, t: Tables, u: Tables, k: Key)
    requires Tidy(t) && Tidy(u)
    requires k.ReservationKey? ==> Held(t, k) == Held(u, k)
    ensures ValueIn(Allocated(x), t, k) == ValueIn(Allocated(x), u, k)
  {
    assert !k.ReservationKey? ==> Held(t, k) == [] == Held(u, k);
    assert ValueIn(Allocated(x), t, k) == if k.pk == x.pk then QtyAt(Held(t, k), x.location, x.stock) else 0;
    assert ValueIn(Allocated(x), u, k) == if k.pk == x.pk then QtyAt(Held(u, k), x.location, x.stock) else 0;
  }

  lemma LogFrame(m: Measure, t: Tables, u: Tables)
    requires Tidy(t) && Tidy(u) && !m.Allocated?
    requires forall k: Key :: k.MovementKey? ==> Same(t, u, k)
    ensures Total(m, t) == Total(m, u)
  {
    forall k ensures ValueIn(m, t, k) == ValueIn(m, u, k) {
      LogValue(m, t, u, k);
    }
    TotalFrame(m, t, u);
  }

  lemma LogValue(m: Measure, t: Tables, u: Tables, k: Key)
    requires Tidy(t) && Tidy(u) && !m.Allocated?
    requires k.MovementKey? ==> Same(t, u, k)
    ensures ValueIn(m, t, k) == ValueIn(m, u, k)
  {
  }

  /** Writes to other kinds of record leave every equation as it was. */
  lemma LedgerFrame(t: Tables, u: Tables)
    requires LedgerHolds(t) && Tidy(t) && Tidy(u)
    requires forall k: Key :: LogKind(k) ==> Same(t, u, k)
    requires forall k: Key :: k.ReservationKey? ==> Held(t, k) == Held(u, k)
    ensures LedgerHolds(u)
  {
    forall x ensures LedgerAt(u, x) {
      assert LedgerAt(t, x);
      LedgerFrameAt(t, u, x);
    }
  }

  lemma LedgerFrameAt(t: Tables, u: Tables, x: Target)
    requires LedgerAt(t, x) && Tidy(t) && Tidy(u)
    requires forall k: Key :: LogKind(k) ==> Same(t, u, k)
    requires forall k: Key :: k.ReservationKey? ==> Held(t, k) == Held(u, k)
    ensures LedgerAt(u, x)
  {
    HeldFrame(x, t, u);
    LogFrame(MovedOnHand(x), t, u);
    LogFrame(MovedReserved(x), t, u);
    LogFrame(MovedAvailable(x), t, u);
    CountsFrame(t, u, x);
  }

  lemma CountsFrame(t: Tables, u: Tables, x: Target)
    requires Same(t, u, StockKey(x.pk, x.location, x.stock))
    ensures StockAt(t, x) == StockAt(u, x)
  {
  }

  // ----- stock changes -----

  predicate DistinctStocks(changes: seq<Change>) {
    forall i, j :: 0 <= i < j < |changes| ==> changes[i].stock != changes[j].stock
  }

  /** A change whose movement record says exactly how its stock record moved. */
  predicate Balanced(c: Change) {
    && c.after.state.onHand - OnHandOf(c.before) == c.movement.deltas.onHand
    && c.after.state.reserved - ReservedOf(c.before) == c.movement.deltas.reserved
    && c.movement.deltas.available == c.movement.deltas.onHand - c.movement.deltas.reserved
    && c.movement.stock == c.stock && c.movement.location == c.location
    && (c.before.Some? ==> c.before.value.available == c.before.value.state.Available())
  }

  /** The two records that a change writes. */
  predicate KeyOf(pk: Partition, key: string, c: Change, k: Key) {
    k == StockKey(pk, c.location, c.stock) || k == MoveKey(pk, key, c)
  }

  predicate WritesChange(ws: Writes, pk: Partition, key: string, c: Change) {
    var sk, mk := StockKey(pk, c.location, c.stock), MoveKey(pk, key, c);
    && sk in ws && ws[sk] == StockWrite(c)
    && mk in ws && ws[mk] == Put(MovementItem(c.movement), Absent)
  }

  lemma {:induction false} StockWritesAt(pk: Partition, key: string, changes: seq<Change>)
    requires DistinctStocks(changes)
    ensures forall i :: 0 <= i < |changes| ==> WritesChange(StockWrites(pk, key, changes), pk, key, changes[i])
  {
    if changes != [] {
      var n := |changes| - 1;
      var init := changes[..n];
      StockWritesAt(pk, key, init);
      forall i | 0 <= i < |changes| ensures WritesChange(StockWrites(pk, key, changes), pk, key, changes[i]) {
        if i < n { assert init[i] == changes[i] && WritesChange(StockWrites(pk, key, init), pk, key, init[i]); }
      }
    }
  }

  /** Every stock write belongs to one of the changes. */
  lemma {:induction false} StockWriteSource(pk: Partition, key: string, changes: seq<Change>, k: Key) returns (i: nat)
    requires k in StockWrites(pk, key, changes)
    ensures i < |changes| && KeyOf(pk, key, changes[i], k)
  {
    var n := |changes| - 1;
    if KeyOf(pk, key, changes[n], k) {
      i := n;
    } else {
      i := StockWriteSource(pk, key, changes[..n], k);
    }
  }

  lemma {:induction false} StockWriteCount(pk: Partition, key: string, changes: seq<Change>)
    requires DistinctStocks(changes)
    ensures |StockWrites(pk, key, changes)| == 2 * |changes|
  {
    if changes != [] {
      var n := |changes| - 1;
      var init := changes[..n];
      StockWriteCount(pk, key, init);
      var ws, c := StockWrites(pk, key, init), changes[n];
      forall k | k in ws ensures !KeyOf(pk, key, c, k) {
        var i := StockWriteSource(pk, key, init, k);
        assert init[i] == changes[i];
      }
    }
  }

  /** How far the changes move the reserved count of one stock. */
  function ReservedShift(changes: seq<Change>, location: Id, stock: Id): int {
    if changes == [] then 0
    else
      var c := changes[|changes| - 1];
      ReservedShift(changes[..|changes| - 1], location, stock)
      + (if c.location == location && c.stock == stock then c.movement.deltas.reserved else 0)
  }

  lemma {:induction false} ShiftAt(changes: seq<Change>, location: Id, stock: Id)
    requires DistinctStocks(changes)
    ensures forall i :: 0 <= i < |changes| && changes[i].location == location && changes[i].stock == stock ==>
      ReservedShift(changes, location, stock) == changes[i].movement.deltas.reserved
    ensures (forall i :: 0 <= i < |changes| ==> changes[i].location != location || changes[i].stock != stock) ==>
      ReservedShift(changes, location, stock) == 0
  {
    if changes != [] {
      var n := |changes| - 1;
      ShiftAt(changes[..n], location, stock);
      assert forall i :: 0 <= i < n ==> changes[..n][i] == changes[i];
    }
  }

  /** The stock part of a transaction: counts and log move together, and no reservation changes. */
  lemma StockMoves(t: Tables, pk: Partition, key: string, changes: seq<Change>, x: Target)
    requires LedgerAt(t, x) && Tidy(t) && DistinctStocks(changes)
    requires forall i :: 0 <= i < |changes| ==> Balanced(changes[i])
    requires Holds(t, StockWrites(pk, key, changes))
    ensures LogMatches(Apply(t, StockWrites(pk, key, changes)), x)
    ensures ReservedAt(Apply(t, StockWrites(pk, key, changes)), x) - ReservedAt(t, x)
         == (if pk == x.pk then ReservedShift(changes, x.location, x.stock) else 0)
  {
    ShiftAt(changes, x.location, x.stock);
    if i :| 0 <= i < |changes| && pk == x.pk && changes[i].location == x.location && changes[i].stock == x.stock {
      CountsMove(t, pk, key, changes, i);
      LogFollows(t, pk, key, changes, i);
    } else {
      CountsStay(t, pk, key, changes, x);
      LogRests(t, pk, key, changes, x);
    }
  }

  lemma LogFollows(t: Tables, pk: Partition, key: string, changes: seq<Change>, i: nat)
    requires Tidy(t) && DistinctStocks(changes) && i < |changes| && Holds(t, StockWrites(pk, key, changes))
    requires forall j :: 0 <= j < |changes| ==> Balanced(changes[j])
    ensures var x, d := Target(pk, changes[i].location, changes[i].stock), changes[i].movement.deltas;
      var u := Apply(t, StockWrites(pk, key, changes));
      && Total(MovedOnHand(x), u) == Total(MovedOnHand(x), t) + d.onHand
      && Total(MovedReserved(x), u) == Total(MovedReserved(x), t) + d.reserved
      && Total(MovedAvailable(x), u) == Total(MovedAvailable(x), t) + d.available
  {
    var x := Target(pk, changes[i].location, changes[i].stock);
    LogMoves(MovedOnHand(x), t, pk, key, changes, i);
    LogMoves(MovedReserved(x), t, pk, key, changes, i);
    LogMoves(MovedAvailable(x), t, pk, key, changes, i);
  }

  lemma LogRests(t: Tables, pk: Partition, key: string, changes: seq<Change>, x: Target)
    requires Tidy(t) && DistinctStocks(changes) && Holds(t, StockWrites(pk, key, changes))
    requires forall i :: 0 <= i < |changes| ==> Balanced(changes[i])
    requires forall i :: 0 <= i < |changes| ==> x != Target(pk, changes[i].location, changes[i].stock)
    ensures var u := Apply(t, StockWrites(pk, key, changes));
      && Total(MovedOnHand(x), u) == Total(MovedOnHand(x), t)
      && Total(MovedReserved(x), u) == Total(MovedReserved(x), t)
      && Total(MovedAvailable(x), u) == Total(MovedAvailable(x), t)
  {
    LogStays(MovedOnHand(x), t, pk, key, changes);
    LogStays(MovedReserved(x), t, pk, key, changes);
    LogStays(MovedAvailable(x), t, pk, key, changes);
  }

  lemma CountsMove(t: Tables, pk: Partition, key: string, changes: seq<Change>, i: nat)
    requires DistinctStocks(changes) && i < |changes| && Balanced(changes[i])
    requires Holds(t, StockWrites(pk, key, changes))
    ensures var x, c := Target(pk, changes[i].location, changes[i].stock), changes[i];
      var u := Apply(t, StockWrites(pk, key, changes));
      && OnHandAt(u, x) - OnHandAt(t, x) == c.movement.deltas.onHand
      && ReservedAt(u, x) - ReservedAt(t, x) == c.movement.deltas.reserved
  {
    var ws, c := StockWrites(pk, key, changes), changes[i];
    StockWritesAt(pk, key, changes);
    var sk := StockKey(pk, c.location, c.stock);
    assert ws[sk] == StockWrite(c);
    assert Satisfied(ws[sk].condition, Lookup(t, sk));
    assert Apply(t, ws)[sk] == StockItem(c.after);
  }

  lemma CountsStay(t: Tables, pk: Partition, key: string, changes: seq<Change>, x: Target)
    requires DistinctStocks(changes)
    requires forall i :: 0 <= i < |changes| ==> x != Target(pk, changes[i].location, changes[i].stock)
    ensures StockAt(Apply(t, StockWrites(pk, key, changes)), x) == StockAt(t, x)
  {
    var ws, sk := StockWrites(pk, key, changes), StockKey(x.pk, x.location, x.stock);
    StockWritesAt(pk, key, changes);
    if sk in ws {
      var i := StockWriteSource(pk, key, changes, sk);
      assert false;
    }
    CountsFrame(t, Apply(t, ws), x);
  }

  lemma StockWriteKinds(pk: Partition, key: string, changes: seq<Change>)
    requires DistinctStocks(changes)
    ensures forall k :: k in StockWrites(pk, key, changes) ==>
      && LogKind(k) && StockWrites(pk, key, changes)[k].Put?
      && (StockWrites(pk, key, changes)[k].item.MovementItem? <==> k.MovementKey?)
      && !StockWrites(pk, key, changes)[k].item.ReservationItem?
  {
    var ws := StockWrites(pk, key, changes);
    StockWritesAt(pk, key, changes);
    forall k | k in ws
      ensures LogKind(k) && ws[k].Put? && (ws[k].item.MovementItem? <==> k.MovementKey?) && !ws[k].item.ReservationItem?
    {
      var i := StockWriteSource(pk, key, changes, k);
    }
  }

  lemma StockKinds(t: Tables, pk: Partition, key: string, changes: seq<Change>)
    requires Tidy(t) && DistinctStocks(changes)
    ensures Tidy(Apply(t, StockWrites(pk, key, changes)))
    ensures forall k :: k in StockWrites(pk, key, changes) ==> LogKind(k)
  {
    StockWriteKinds(pk, key, changes);
  }

  /** Changes made for a list of allocations shift the reserved counts by what the list holds. */
  lemma {:induction false} ShiftIsQty(changes: seq<Change>, allocations: seq<Allocation>, sign: int)
    requires |changes| == |allocations|
    requires forall i :: 0 <= i < |changes| ==>
      && changes[i].location == allocations[i].location && changes[i].stock == allocations[i].stock
      && changes[i].movement.deltas.reserved == sign * allocations[i].quantity
    ensures forall location, stock :: ReservedShift(changes, location, stock) == sign * QtyAt(allocations, location, stock)
  {
    if changes != [] {
      var n := |changes| - 1;
      ShiftIsQty(changes[..n], allocations[..n], sign);
    }
  }

  /** A movement written for another stock adds nothing to this one's sums. */
  lemma OtherMovement(m: Measure, t: Tables, pk: Partition, key: string, changes: seq<Change>, j: Key)
    requires Tidy(t) && DistinctStocks(changes) && !m.Allocated?
    requires forall i :: 0 <= i < |changes| ==> Balanced(changes[i])
    requires Holds(t, StockWrites(pk, key, changes))
    requires forall i :: 0 <= i < |changes| && j == MoveKey(pk, key, changes[i]) ==>
      m.target != Target(pk, changes[i].location, changes[i].stock)
    ensures ValueIn(m, t, j) == ValueIn(m, Apply(t, StockWrites(pk, key, changes)), j)
  {
    var ws := StockWrites(pk, key, changes);
    StockWritesAt(pk, key, changes);
    if j in ws && j.MovementKey? {
      var n := StockWriteSource(pk, key, changes, j);
      assert ws[j] == Put(MovementItem(changes[n].movement), Absent);
      assert Satisfied(ws[j].condition, Lookup(t, j));
      assert Balanced(changes[n]);
      NoValue(m, j, changes[n].movement);
    } else {
      StockKinds(t, pk, key, changes);
      assert j.MovementKey? ==> Same(t, Apply(t, ws), j);
      LogValue(m, t, Apply(t, ws), j);
    }
  }

  lemma NoValue(m: Measure, k: Key, movement: MovementRec)
    requires !m.Allocated? && m.target != Target(k.pk, movement.location, movement.stock)
    ensures Value(m, k, MovementItem(movement)) == 0
  {
  }

  lemma LogMoves(m: Measure, t: Tables, pk: Partition, key: string, changes: seq<Change>, i: nat)
    requires Tidy(t) && DistinctStocks(changes) && !m.Allocated?
    requires forall i :: 0 <= i < |changes| ==> Balanced(changes[i])
    requires Holds(t, StockWrites(pk, key, changes))
    requires i < |changes| && m.target == Target(pk, changes[i].location, changes[i].stock)
    ensures var mk := MoveKey(pk, key, changes[i]);
      Total(m, Apply(t, StockWrites(pk, key, changes))) - Total(m, t) == Value(m, mk, MovementItem(changes[i].movement))
  {
    var ws, mk := StockWrites(pk, key, changes), MoveKey(pk, key, changes[i]);
    forall j | j != mk ensures ValueIn(m, t, j) == ValueIn(m, Apply(t, ws), j) {
      OtherMovement(m, t, pk, key, changes, j);
    }
    TotalChange(m, t, Apply(t, ws), mk);
    StockWritesAt(pk, key, changes);
    assert Satisfied(ws[mk].condition, Lookup(t, mk));
  }

  lemma LogStays(m: Measure, t: Tables, pk: Partition, key: string, changes: seq<Change>)
    requires Tidy(t) && DistinctStocks(changes) && !m.Allocated?
    requires forall i :: 0 <= i < |changes| ==> Balanced(changes[i])
    requires Holds(t, StockWrites(pk, key, changes))
    requires forall i :: 0 <= i < |changes| ==> m.target != Target(pk, changes[i].location, changes[i].stock)
    ensures Total(m, Apply(t, StockWrites(pk, key, changes))) == Total(m, t)
  {
    var u := Apply(t, StockWrites(pk, key, changes));
    forall j ensures ValueIn(m, t, j) == ValueIn(m, u, j) {
      OtherMovement(m, t, pk, key, changes, j);
    }
    TotalFrame(m, t, u);
  }

  /**
   * Balanced stock changes, together with the one reservation that gains or gives up the same units,
   * keep every ledger equation. `u` is the state after the stock part and `v` after the reservation part.
   */
  lemma LedgerMoves(t: Tables, v: Tables, pk: Partition, key: string, changes: seq<Change>, rk: Key)
    requires LedgerHolds(t) && Tidy(t) && Tidy(v) && DistinctStocks(changes)
    requires forall i :: 0 <= i < |changes| ==> Balanced(changes[i])
    requires Holds(t, StockWrites(pk, key, changes))
    requires rk.ReservationKey? && rk.pk == pk
    requires forall k: Key :: LogKind(k) ==> Same(Apply(t, StockWrites(pk, key, changes)), v, k)
    requires forall k: Key :: k.ReservationKey? && k != rk ==> Held(t, k) == Held(v, k)
    requires forall location, stock ::
      ReservedShift(changes, location, stock)
        == QtyAt(Held(v, rk), location, stock) - QtyAt(Held(t, rk), location, stock)
    ensures LedgerHolds(v)
  {
    forall x ensures LedgerAt(v, x) {
      assert LedgerAt(t, x);
      LedgerMovesAt(t, v, pk, key, changes, rk, x);
    }
  }

  lemma LedgerMovesAt(t: Tables, v: Tables, pk: Partition, key: string, changes: seq<Change>, rk: Key, x: Target)
    requires LedgerAt(t, x) && Tidy(t) && Tidy(v) && DistinctStocks(changes)
    requires forall i :: 0 <= i < |changes| ==> Balanced(changes[i])
    requires Holds(t, StockWrites(pk, key, changes))
    requires rk.ReservationKey? && rk.pk == pk
    requires forall k: Key :: LogKind(k) ==> Same(Apply(t, StockWrites(pk, key, changes)), v, k)
    requires forall k: Key :: k.ReservationKey? && k != rk ==> Held(t, k) == Held(v, k)
    requires ReservedShift(changes, x.location, x.stock)
        == QtyAt(Held(v, rk), x.location, x.stock) - QtyAt(Held(t, rk), x.location, x.stock)
    ensures LedgerAt(v, x)
  {
    var u := Apply(t, StockWrites(pk, key, changes));
    StockKinds(t, pk, key, changes);
    StockMoves(t, pk, key, changes, x);
    LogFrame(MovedOnHand(x), u, v);
    LogFrame(MovedReserved(x), u, v);
    LogFrame(MovedAvailable(x), u, v);
    var sk := StockKey(x.pk, x.location, x.stock);
    assert LogKind(sk) && Same(u, v, sk);
    CountsFrame(u, v, x);
    HeldMoves(t, v, rk, x);
  }

  lemma HeldMoves(t: Tables, v: Tables, rk: Key, x: Target)
    requires Tidy(t) && Tidy(v) && rk.ReservationKey?
    requires forall k: Key :: k.ReservationKey? && k != rk ==> Held(t, k) == Held(v, k)
    ensures Total(Allocated(x), v) - Total(Allocated(x), t)
      == if rk.pk == x.pk then QtyAt(Held(v, rk), x.location, x.stock) - QtyAt(Held(t, rk), x.location, x.stock)
         else 0
  {
    forall j | j != rk ensures ValueIn(Allocated(x), t, j) == ValueIn(Allocated(x), v, j) {
      HeldValue(x, t, v, j);
    }
    TotalChange(Allocated(x), t, v, rk);
    HeldAt(x, t, rk);
    HeldAt(x, v, rk);
  }

  lemma HeldAt(x: Target, t: Tables, k: Key)
    ensures ValueIn(Allocated(x), t, k) == if k.pk == x.pk then QtyAt(Held(t, k), x.location, x.stock) else 0
  {
  }
}
