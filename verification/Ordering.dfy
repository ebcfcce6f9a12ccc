/** Code-point order on strings: Python's `sorted`, and the order of sort keys in a partition. */
module Ordering {
  predicate Below(a: string, b: string) {
    if b == "" then false
    else if a == "" then true
    else if a[0] != b[0] then a[0] < b[0]
    else Below(a[1..], b[1..])
  }

  lemma {:induction false} BelowIrreflexive(a: string)
    ensures !Below(a, a)
  {
    if a != "" { BelowIrreflexive(a[1..]); }
  }

  lemma {:induction false} BelowTotal(a: string, b: string)
    ensures a == b || Below(a, b) || Below(b, a)
  {
    if a != "" && b != "" && a[0] == b[0] {
      BelowTotal(a[1..], b[1..]);
      assert a == [a[0]] + a[1..] && b == [b[0]] + b[1..];
    }
  }

  lemma {:induction false} BelowTransitive(a: string, b: string, c: string)
    requires Below(a, b) && Below(b, c)
    ensures Below(a, c)
  {
    if a != "" && a[0] == b[0] == c[0] {
      BelowTransitive(a[1..], b[1..], c[1..]);
    }
  }

  /** A common prefix does not matter. */
  lemma {:induction false} BelowAfterPrefix(p: string, a: string, b: string)
    ensures Below(p + a, p + b) == Below(a, b)
  {
    if p == "" {
      assert p + a == a && p + b == b;
    } else {
      assert (p + a)[1..] == p[1..] + a && (p + b)[1..] == p[1..] + b;
      BelowAfterPrefix(p[1..], a, b);
    }
  }

  predicate Increasing(s: seq<string>) {
    forall i, j :: 0 <= i < j < |s| ==> Below(s[i], s[j])
  }

  /** `sorted` on a collection without repetitions. */
  method Sorted(values: set<string>) returns (sorted: seq<string>)
    ensures Increasing(sorted)
    ensures forall v :: v in sorted <==> v in values
  {
    sorted := [];
    var rest := values;
    while rest != {}
      invariant rest <= values
      invariant forall v :: v in sorted <==> v in values && v !in rest
      invariant Increasing(sorted)
      decreases rest
    {
      var next :| next in rest;
      sorted := Insert(sorted, next);
      rest := rest - {next};
    }
  }

  /** Insertion into an increasing sequence that does not hold the value yet. */
  method Insert(s: seq<string>, v: string) returns (r: seq<string>)
    requires Increasing(s) && v !in s
    ensures Increasing(r) && forall x :: x in r <==> x in s || x == v
  {
    var i := 0;
    while i < |s| && Below(s[i], v)
      invariant 0 <= i <= |s|
      invariant forall j :: 0 <= j < i ==> Below(s[j], v)
    {
      i := i + 1;
    }
    r := s[..i] + [v] + s[i..];
    if i < |s| {
      BelowTotal(s[i], v);
      forall j | i < j < |s| ensures Below(v, s[j]) {
        BelowTransitive(v, s[i], s[j]);
      }
    }
    forall x ensures x in r <==> x in s || x == v {
      assert s == s[..i] + s[i..];
    }
  }

  lemma HasElement(s: seq<string>)
    requires s != []
    ensures exists v :: v in s
  {
    assert s[0] in s;
  }

  lemma TailsAgree(a: seq<string>, b: seq<string>)
    requires Increasing(a) && Increasing(b) && a != [] && b != [] && a[0] == b[0]
    requires forall v :: v in a <==> v in b
    ensures forall v :: v in a[1..] <==> v in b[1..]
  {
    BelowIrreflexive(a[0]);
    forall v | v in a[1..] ensures v in b[1..] {
      var i :| 1 <= i < |a| && a[i] == v;
      assert v in b;
      var j :| 0 <= j < |b| && b[j] == v;
      assert j != 0 && v == b[1..][j - 1];
    }
    forall v | v in b[1..] ensures v in a[1..] {
      var i :| 1 <= i < |b| && b[i] == v;
      assert v in a;
      var j :| 0 <= j < |a| && a[j] == v;
      assert j != 0 && v == a[1..][j - 1];
    }
  }

  /** An increasing listing of a set is unique, so `sorted` is a function. */
  lemma {:induction false} IncreasingUnique(a: seq<string>, b: seq<string>)
    requires Increasing(a) && Increasing(b)
    requires forall v :: v in a <==> v in b
    ensures a == b
  {
    if a == [] {
      if b != [] { HasElement(b); }
    } else {
      assert a[0] in b;
      var i :| 0 <= i < |b| && b[i] == a[0];
      assert b[0] in a;
      var j :| 0 <= j < |a| && a[j] == b[0];
      if i != 0 {
        if j != 0 { BelowTransitive(a[0], a[j], b[i]); }
        BelowIrreflexive(a[0]);
        assert false;
      }
      TailsAgree(a, b);
      IncreasingUnique(a[1..], b[1..]);
      assert a == [a[0]] + a[1..] && b == [b[0]] + b[1..];
    }
  }
}
