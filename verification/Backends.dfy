/**
 * The table backend as its callers see it: single reads and one transaction, each at its own moment,
 * with any number of other callers' transactions in between and with replies that may be lost.
 */
module Backends {
  import opened Basics
  import opened Records
  import opened Protocol
  import opened Runs

  // ----- transaction plans -----

  /** One entry of a plan, aimed at one record. */
  datatype Action = Action(key: Key, write: Write)

  function WritesOf(plan: seq<Action>): Writes {
    if plan == [] then map[] else WritesOf(plan[..|plan| - 1])[plan[|plan| - 1].key := plan[|plan| - 1].write]
  }

  predicate DistinctTargets(plan: seq<Action>) {
    forall i, j :: 0 <= i < j < |plan| ==> plan[i].key != plan[j].key
  }

  lemma {:induction false} WritesOfConcat(a: seq<Action>, b: seq<Action>)
    ensures WritesOf(a + b) == WritesOf(a) + WritesOf(b)
  {
    if b == [] {
      assert a + b == a;
    } else {
      assert (a + b)[..|a + b| - 1] == a + b[..|b| - 1];
      WritesOfConcat(a, b[..|b| - 1]);
    }
  }

  /** A plan that writes as many records as it has actions aims at each only once. */
  lemma {:induction false} DistinctBySize(plan: seq<Action>)
    ensures |WritesOf(plan)| <= |plan|
    ensures |WritesOf(plan)| == |plan| ==> DistinctTargets(plan)
    ensures forall i :: 0 <= i < |plan| ==> plan[i].key in WritesOf(plan)
  {
    if plan != [] {
      var n := |plan| - 1;
      DistinctBySize(plan[..n]);
      assert forall i :: 0 <= i < n ==> plan[..n][i] == plan[i];
    }
  }

  /** `_validate_transaction_plan`, short of the encoded size. */
  method ValidatePlan(plan: seq<Action>) returns (refusal: Option<Error>)
    ensures refusal.None? <==> 1 <= |plan| <= MAX_TRANSACTION_ACTIONS && DistinctTargets(plan)
    ensures refusal.Some? ==> refusal.value == LimitExceeded
  {
    if |plan| == 0 || |plan| > MAX_TRANSACTION_ACTIONS {
      return Some(LimitExceeded);
    }
    var targets: set<Key> := {};
    var i := 0;
    while i < |plan|
      invariant 0 <= i <= |plan|
      invariant targets == set j | 0 <= j < i :: plan[j].key
      invariant DistinctTargets(plan[..i])
    {
      if plan[i].key in targets {
        var j :| 0 <= j < i && plan[j].key == plan[i].key;
        return Some(LimitExceeded);
      }
      targets := targets + {plan[i].key};
      i := i + 1;
    }
    assert plan[..i] == plan;
    return None;
  }

  // ----- the backend -----

  /** One executed transaction, and whether this caller issued it. */
  datatype Entry = Entry(op: Op, own: bool)

  ghost function OpsOf(log: seq<Entry>): (ops: seq<Op>)
    ensures |ops| == |log|
  {
    seq(|log|, i requires 0 <= i < |log| => log[i].op)
  }

  /** This caller's own transactions. */
  ghost function Mine(log: seq<Entry>): seq<Op> {
    if log == [] then []
    else Mine(log[..|log| - 1]) + (if log[|log| - 1].own then [log[|log| - 1].op] else [])
  }

  lemma MineSnoc(log: seq<Entry>, e: Entry)
    ensures Mine(log + [e]) == Mine(log) + (if e.own then [e.op] else [])
  {
    assert (log + [e])[..|log|] == log;
  }

  lemma OpsSnoc(log: seq<Entry>, e: Entry)
    ensures OpsOf(log + [e]) == OpsOf(log) + [e.op]
  {
  }

  /** Every record that a plan puts is stored as it was put. */
  ghost predicate Stored(t: Tables, ws: Writes) {
    forall k :: k in ws && ws[k].Put? ==> k in t && t[k] == ws[k].item
  }

  class Backend {
    var tables: Tables
    var seen: set<(Key, Item)>
    ghost var log: seq<Entry>

    /** The tables are what the logged transactions, from empty tables on, made of them. */
    ghost predicate Valid()
      reads this
    {
      World(tables, seen) == Run(OpsOf(log))
    }

    constructor ()
      ensures Valid() && tables == map[] && log == []
    {
      tables, seen, log := map[], {}, [];
    }

    /** Any number of other callers' transactions, of any kind and planned from anything stored so far. */
    method Interfere()
      requires Valid()
      modifies this
      ensures Valid() && old(log) <= log && Mine(log) == Mine(old(log)) && old(seen) <= seen
    {
      var n: nat := *;
      while n > 0
        invariant Valid() && old(log) <= log && Mine(log) == Mine(old(log)) && old(seen) <= seen
      {
        var op: Op := *;
        var w := Exec(World(tables, seen), op);
        RunStep(OpsOf(log), op);
        OpsSnoc(log, Entry(op, false));
        MineSnoc(log, Entry(op, false));
        tables, seen, log := w.tables, w.seen, log + [Entry(op, false)];
        n := n - 1;
      }
    }

    /** A consistent read of one record, at a moment of its own. */
    method Get(k: Key) returns (item: Option<Item>)
      requires Valid()
      modifies this
      ensures Valid() && old(log) <= log && Mine(log) == Mine(old(log)) && old(seen) <= seen
      ensures item == Lookup(tables, k) && (item.Some? ==> (k, item.value) in seen)
    {
      Interfere();
      item := Lookup(tables, k);
      RunKeeps(OpsOf(log));
    }

    /** A read that may fail to get through. */
    method TryGet(k: Key) returns (reached: bool, item: Option<Item>)
      requires Valid()
      modifies this
      ensures Valid() && old(log) <= log && Mine(log) == Mine(old(log)) && old(seen) <= seen
      ensures reached ==> item == Lookup(tables, k)
    {
      reached, item := *, None;
      if reached { item := Get(k); }
      else { Interfere(); }
    }

    /** The writes of a transaction whose conditions hold, all at once. */
    method Commit(ws: Writes, ghost op: Op)
      requires Valid() && PlanOf(op) == Ok(ws) && ReadsOf(op) <= seen && Holds(tables, ws)
      modifies this
      ensures Valid() && tables == Apply(old(tables), ws) && log == old(log) + [Entry(op, true)] && old(seen) <= seen
      ensures Mine(log) == Mine(old(log)) + [op] && Stored(tables, ws)
    {
      RunStep(OpsOf(log), op);
      OpsSnoc(log, Entry(op, true));
      MineSnoc(log, Entry(op, true));
      tables := Apply(tables, ws);
      seen := seen + tables.Items;
      log := log + [Entry(op, true)];
    }

    /**
     * One transaction: all of the plan or nothing, judged on the tables of that moment. The reply may be lost
     * whether or not the transaction arrived.
     */
    method Transact(plan: seq<Action>, ghost op: Op) returns (reply: Reply)
      requires Valid()
      requires PlanOf(op) == Ok(WritesOf(plan)) && ReadsOf(op) <= seen
      modifies this
      ensures Valid() && old(log) <= log && old(seen) <= seen
      ensures Mine(log) == Mine(old(log)) || (Mine(log) == Mine(old(log)) + [op] && Stored(tables, WritesOf(plan)))
      ensures reply == Applied ==> Mine(log) == Mine(old(log)) + [op]
      ensures reply == Refused ==> Mine(log) == Mine(old(log)) && !Holds(tables, WritesOf(plan))
    {
      Interfere();
      var arrives: bool := *;
      var heard: bool := *;
      if arrives && Holds(tables, WritesOf(plan)) {
        Commit(WritesOf(plan), op);
        reply := if heard then Applied else Lost;
      } else {
        reply := if arrives && heard then Refused else Lost;
      }
    }
  }

  lemma SeenGrows(ops: seq<Op>, later: seq<Op>)
    requires ops <= later
    ensures Run(ops).seen <= Run(later).seen && Advances(Run(ops).tables, Run(later).tables)
  {
    RunAdvances(ops, later[|ops|..]);
    assert ops + later[|ops|..] == later;
  }
}
