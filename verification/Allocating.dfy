/** The head of reserve_checkout: checkout lines aggregated into one allocation per tracked stock, in stock order. */
module Allocating {
  import opened Basics
  import opened Ordering
  import opened Records
  import opened Orders

  /** Units and line ids wanted of one stock. */
  datatype Requirement = Requirement(quantity: int, lines: seq<Id>)

  predicate Meets(requirement: Requirement, lines: seq<Line>, stock: Id) {
    requirement.quantity == Wanted(lines, stock) && (set l | l in requirement.lines) == LinesOf(lines, stock)
  }

  lemma OneMoreLine(lines: seq<Line>, i: nat)
    requires i < |lines|
    ensures StocksOf(lines[..i + 1]) == StocksOf(lines[..i]) + (if lines[i].stock.Some? then {lines[i].stock.value} else {})
    ensures forall s :: Wanted(lines[..i + 1], s)
                     == Wanted(lines[..i], s) + (if lines[i].stock == Some(s) then lines[i].quantity else 0)
    ensures forall s :: LinesOf(lines[..i + 1], s)
                     == LinesOf(lines[..i], s) + (if lines[i].stock == Some(s) then {lines[i].line} else {})
  {
    var init, more := lines[..i], lines[..i + 1];
    assert more[..i] == init && more[i] == lines[i];
    assert StocksOf(more) == StocksOf(init) + (if lines[i].stock.Some? then {lines[i].stock.value} else {}) by {
      forall s | s in StocksOf(init) ensures s in StocksOf(more) {
        var j :| 0 <= j < |init| && init[j].stock == Some(s);
        assert more[j].stock == Some(s);
      }
      forall s | s in StocksOf(more) && Some(s) != lines[i].stock ensures s in StocksOf(init) {
        var j :| 0 <= j < |more| && more[j].stock == Some(s);
        assert init[j].stock == Some(s);
      }
    }
    forall s
      ensures LinesOf(more, s) == LinesOf(init, s) + (if lines[i].stock == Some(s) then {lines[i].line} else {})
    {
      forall l | l in LinesOf(init, s) ensures l in LinesOf(more, s) {
        var j :| 0 <= j < |init| && init[j].stock == Some(s) && init[j].line == l;
        assert more[j].stock == Some(s) && more[j].line == l;
      }
      forall l | l in LinesOf(more, s) && !(lines[i].stock == Some(s) && l == lines[i].line) ensures l in LinesOf(init, s) {
        var j :| 0 <= j < |more| && more[j].stock == Some(s) && more[j].line == l;
        assert init[j].stock == Some(s) && init[j].line == l;
      }
    }
  }

  lemma {:induction false} NothingWanted(lines: seq<Line>, stock: Id)
    requires stock !in StocksOf(lines)
    ensures Wanted(lines, stock) == 0 && LinesOf(lines, stock) == {}
  {
    if lines != [] {
      var n := |lines| - 1;
      OneMoreLine(lines, n);
      assert lines[..n + 1] == lines;
      NothingWanted(lines[..n], stock);
    }
  }

  /** The `requirements` dictionary, filled line by line. */
  method Requirements(lines: seq<Line>) returns (requirements: map<Id, Requirement>)
    ensures requirements.Keys == StocksOf(lines)
    ensures forall s :: s in requirements ==> Meets(requirements[s], lines, s)
  {
    requirements := map[];
    var i := 0;
    while i < |lines|
      invariant 0 <= i <= |lines|
      invariant requirements.Keys == StocksOf(lines[..i])
      invariant forall s :: s in requirements ==> Meets(requirements[s], lines[..i], s)
    {
      OneMoreLine(lines, i);
      if lines[i].stock.Some? {
        var stock := lines[i].stock.value;
        if stock !in requirements { NothingWanted(lines[..i], stock); }
        var requirement := if stock in requirements then requirements[stock] else Requirement(0, []);
        var more := Requirement(requirement.quantity + lines[i].quantity, requirement.lines + [lines[i].line]);
        assert (set l | l in more.lines) == (set l | l in requirement.lines) + {lines[i].line};
        requirements := requirements[stock := more];
      }
      i := i + 1;
    }
    assert lines[..i] == lines;
  }

  /** The allocations, sorted by stock, each with its line ids sorted. */
  method Allocate(lines: seq<Line>, location: Id) returns (allocations: seq<Allocation>)
    ensures Aggregates(allocations, lines, location)
  {
    var requirements := Requirements(lines);
    var stocks := Sorted(requirements.Keys);
    allocations := [];
    var i := 0;
    while i < |stocks|
      invariant 0 <= i <= |stocks| && |allocations| == i
      invariant forall j :: 0 <= j < i ==> allocations[j].stock == stocks[j]
      invariant forall j :: 0 <= j < i ==> AllocationFor(allocations[j], lines, location)
    {
      assert stocks[i] in requirements.Keys;
      var requirement := requirements[stocks[i]];
      assert Meets(requirement, lines, stocks[i]);
      var ids := Sorted(set l | l in requirement.lines);
      assert (set l | l in ids) == LinesOf(lines, stocks[i]);
      allocations := allocations + [Allocation(stocks[i], location, requirement.quantity, ids)];
      i := i + 1;
    }
    forall s | s in StocksOf(lines) ensures exists j :: 0 <= j < |allocations| && allocations[j].stock == s {
      assert s in stocks;
      var j :| 0 <= j < |stocks| && stocks[j] == s;
      assert allocations[j].stock == s;
    }
  }
}
