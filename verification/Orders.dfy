/** Checkout orders and their aggregation by stock: src/domain/orders.py and the head of reserve_checkout. */
module Orders {
  import opened Basics
  import opened Ordering
  import opened Records

  /** What the PendingOrder and CheckoutLine constructors enforce. */
  predicate OrderValid(o: PendingOrder) {
    && 1 <= |o.lines| <= MAX_CHECKOUT_LINES
    && (forall i :: 0 <= i < |o.lines| ==>
          && 1 <= o.lines[i].quantity <= MAX_CHECKOUT_LINE_QUANTITY
          && 0 <= o.lines[i].amountMinor <= MAX_AMOUNT_MINOR)
    && (forall i, j :: 0 <= i < j < |o.lines| ==>
          o.lines[i].line != o.lines[j].line && o.lines[i].offer != o.lines[j].offer)
  }

  function OrderTotal(lines: seq<Line>): int {
    if lines == [] then 0
    else OrderTotal(lines[..|lines| - 1]) + lines[|lines| - 1].amountMinor * lines[|lines| - 1].quantity
  }

  /** Units of one stock over all lines. */
  function Wanted(lines: seq<Line>, stock: Id): int {
    if lines == [] then 0
    else Wanted(lines[..|lines| - 1], stock)
         + (if lines[|lines| - 1].stock == Some(stock) then lines[|lines| - 1].quantity else 0)
  }

  /** The order unit by unit: the stock that each unit is taken from, and its price. */
  function Units(lines: seq<Line>): seq<(Option<Id>, int)> {
    if lines == [] then []
    else
      var l := lines[|lines| - 1];
      Units(lines[..|lines| - 1]) + (if l.quantity <= 0 then [] else seq(l.quantity, _ => (l.stock, l.amountMinor)))
  }

  function Prices(units: seq<(Option<Id>, int)>): int {
    if units == [] then 0 else Prices(units[..|units| - 1]) + units[|units| - 1].1
  }

  function Taken(units: seq<(Option<Id>, int)>, stock: Id): int {
    if units == [] then 0 else Taken(units[..|units| - 1], stock) + (if units[|units| - 1].0 == Some(stock) then 1 else 0)
  }

  lemma {:induction false} MoreUnits(units: seq<(Option<Id>, int)>, n: nat, unit: (Option<Id>, int), stock: Id)
    ensures Prices(units + seq(n, _ => unit)) == Prices(units) + unit.1 * n
    ensures Taken(units + seq(n, _ => unit), stock) == Taken(units, stock) + (if unit.0 == Some(stock) then n else 0)
  {
    if n == 0 {
      assert units + seq(0, _ => unit) == units;
    } else {
      var all := units + seq(n, _ => unit);
      MoreUnits(units, n - 1, unit, stock);
      assert all[..|all| - 1] == units + seq(n - 1, _ => unit);
      assert all[|all| - 1] == unit;
    }
  }

  /** An order costs the prices of its units, and asks a stock for as many as it takes of it. */
  lemma {:induction false} ChargedByUnit(lines: seq<Line>, stock: Id)
    requires forall i :: 0 <= i < |lines| ==> lines[i].quantity >= 1
    ensures OrderTotal(lines) == Prices(Units(lines)) && Wanted(lines, stock) == Taken(Units(lines), stock)
  {
    if lines != [] {
      var l := lines[|lines| - 1];
      ChargedByUnit(lines[..|lines| - 1], stock);
      MoreUnits(Units(lines[..|lines| - 1]), l.quantity, (l.stock, l.amountMinor), stock);
    }
  }

  function StocksOf(lines: seq<Line>): set<Id> {
    set i | 0 <= i < |lines| && lines[i].stock.Some? :: lines[i].stock.value
  }

  function LinesOf(lines: seq<Line>, stock: Id): set<Id> {
    set i | 0 <= i < |lines| && lines[i].stock == Some(stock) :: lines[i].line
  }

  /** The allocations of an order: one per tracked stock, in stock order, with summed units and sorted line ids. */
  predicate Aggregates(allocations: seq<Allocation>, lines: seq<Line>, location: Id) {
    && (forall i, j :: 0 <= i < j < |allocations| ==> Below(allocations[i].stock, allocations[j].stock))
    && (forall s :: s in StocksOf(lines) ==> exists i :: 0 <= i < |allocations| && allocations[i].stock == s)
    && (forall i :: 0 <= i < |allocations| ==> AllocationFor(allocations[i], lines, location))
  }

  predicate AllocationFor(a: Allocation, lines: seq<Line>, location: Id) {
    && a.stock in StocksOf(lines) && a.location == location
    && a.quantity == Wanted(lines, a.stock)
    && Increasing(a.lines)
    && (set l | l in a.lines) == LinesOf(lines, a.stock)
  }

  /** What `_reservation` checks of a stored allocation list: distinct stocks, positive units, lines present. */
  predicate AllocationsValid(allocations: seq<Allocation>) {
    && (forall i, j :: 0 <= i < j < |allocations| ==> allocations[i].stock != allocations[j].stock)
    && (forall i :: 0 <= i < |allocations| ==> allocations[i].quantity > 0 && allocations[i].lines != [])
  }

  lemma {:induction false} WantedPositive(lines: seq<Line>, stock: Id)
    requires forall i :: 0 <= i < |lines| ==> lines[i].quantity >= 1
    ensures Wanted(lines, stock) >= 0
    ensures stock in StocksOf(lines) ==> Wanted(lines, stock) > 0
  {
    if lines != [] {
      var init := lines[..|lines| - 1];
      WantedPositive(init, stock);
      if stock in StocksOf(lines) && lines[|lines| - 1].stock != Some(stock) {
        var i :| 0 <= i < |lines| && lines[i].stock == Some(stock);
        assert init[i].stock == Some(stock);
      }
    }
  }

  /** Aggregation never loses or invents units: the allocations of a valid order pass the stored-record check. */
  lemma AggregatesValid(allocations: seq<Allocation>, o: PendingOrder, location: Id)
    requires OrderValid(o) && Aggregates(allocations, o.lines, location)
    ensures AllocationsValid(allocations)
    ensures |allocations| <= MAX_CHECKOUT_LINES
  {
    forall i, j | 0 <= i < j < |allocations| ensures allocations[i].stock != allocations[j].stock {
      BelowIrreflexive(allocations[i].stock);
    }
    forall i | 0 <= i < |allocations| ensures allocations[i].quantity > 0 && allocations[i].lines != [] {
      WantedPositive(o.lines, allocations[i].stock);
      var k :| 0 <= k < |o.lines| && o.lines[k].stock == Some(allocations[i].stock);
      assert o.lines[k].line in LinesOf(o.lines, allocations[i].stock);
      assert AllocationFor(allocations[i], o.lines, location);
      assert o.lines[k].line in allocations[i].lines;
    }
    var stocks := set i | 0 <= i < |allocations| :: allocations[i].stock;
    DistinctCount(allocations);
    StocksCount(o.lines);
    assert stocks <= StocksOf(o.lines);
    SubsetCount(stocks, StocksOf(o.lines));
  }

  lemma SubsetCount<T>(a: set<T>, b: set<T>)
    requires a <= b
    ensures |a| <= |b|
  {
    assert b == a + (b - a);
  }

  lemma {:induction false} DistinctCount(allocations: seq<Allocation>)
    requires forall i, j :: 0 <= i < j < |allocations| ==> allocations[i].stock != allocations[j].stock
    ensures |set i | 0 <= i < |allocations| :: allocations[i].stock| == |allocations|
  {
    if allocations != [] {
      var n := |allocations| - 1;
      var init := allocations[..n];
      DistinctCount(init);
      var few := set i | 0 <= i < |init| :: init[i].stock;
      var all := set i | 0 <= i < |allocations| :: allocations[i].stock;
      assert all == few + {allocations[n].stock} by {
        forall s | s in all ensures s in few + {allocations[n].stock} {
          var i :| 0 <= i < |allocations| && allocations[i].stock == s;
          if i < n { assert init[i].stock == s; }
        }
        forall s | s in few ensures s in all {
          var i :| 0 <= i < |init| && init[i].stock == s;
          assert allocations[i].stock == s;
        }
        assert allocations[n].stock in all;
      }
    }
  }

  lemma {:induction false} StocksCount(lines: seq<Line>)
    ensures |StocksOf(lines)| <= |lines|
  {
    if lines != [] {
      var n := |lines| - 1;
      var init := lines[..n];
      StocksCount(init);
      var last := if lines[n].stock.Some? then {lines[n].stock.value} else {};
      forall s | s in StocksOf(lines) ensures s in StocksOf(init) + last {
        var i :| 0 <= i < |lines| && lines[i].stock == Some(s);
        if i < n { assert init[i].stock == Some(s); }
      }
      SubsetCount(StocksOf(lines), StocksOf(init) + last);
    }
  }
}
