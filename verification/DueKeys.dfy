/**
 * Due markers: their index keys order them by time, and listing what is due through a stale index never calls a
 * marker of the store invalid. src/storage.py 938-1039, 1755-1790 and 2467-2482.
 */
module DueKeys {
  import opened Basics
  import opened Records
  import opened Ordering
  import opened Decimals
  import opened SortKeys

  const WIDTH: nat := 20

  /** `_due_key`. */
  function MarkerText(epoch: nat, rid: Id): string {
    Join(["RESERVATION_DUE", Padded(epoch, WIDTH), rid])
  }

  /** What follows the time in an index key. */
  function IndexTail(scope: Scope, rid: Id): (s: string)
    ensures |s| > 1 && s[0] == '#' && s[1] == 'T'
  {
    "#TENANT#" + scope.tenant + "#DRAFT#" + scope.draft + "#DOMAIN#" + scope.domain + "#RESERVATION#" + rid
  }

  /** `_due_index_key`. */
  function IndexKey(scope: Scope, epoch: nat, rid: Id): string {
    Padded(epoch, WIDTH) + IndexTail(scope, rid)
  }

  function RangeStart(): string {
    Zeros(WIDTH) + "#"
  }

  function RangeEnd(through: nat): string {
    Padded(through, WIDTH) + "#\U{FFFF}"
  }

  /** `BETWEEN :start AND :end`. */
  predicate InRange(key: string, through: nat) {
    !Below(key, RangeStart()) && !Below(RangeEnd(through), key)
  }

  lemma {:induction false} PaddedZero(w: nat)
    requires w > 0
    ensures Padded(0, w) == Zeros(w)
  {
    if w > 1 {
      PaddedZero(w - 1);
      ZerosFrom(w);
    } else {
      assert Zeros(0) + ['0'] == ['0'];
    }
  }

  lemma {:induction false} ZerosFrom(w: nat)
    requires w > 0
    ensures Zeros(w) == Zeros(w - 1) + ['0']
  {
  }

  /** Below 10^20 a marker lies in the query range exactly when it is due, whatever its scope and reservation are. */
  lemma RangeIsTime(scope: Scope, epoch: nat, rid: Id, through: nat)
    requires epoch < Pow10(WIDTH) && through < Pow10(WIDTH)
    ensures InRange(IndexKey(scope, epoch, rid), through) <==> epoch <= through
  {
    var tail := IndexTail(scope, rid);
    PaddedZero(WIDTH);
    PaddedOrder(epoch, 0, WIDTH, tail, "#");
    PaddedOrder(through, epoch, WIDTH, "#\U{FFFF}", tail);
    TailInside(tail);
  }

  lemma TailInside(tail: string)
    requires |tail| > 1 && tail[0] == '#' && tail[1] == 'T'
    ensures !Below(tail, "#") && !Below("#\U{FFFF}", tail)
  {
    assert tail[1..] != "" && tail[1..][0] == 'T';
    assert "#\U{FFFF}"[1..] == "\U{FFFF}" && "#"[1..] == "";
  }

  // ----- beyond the width -----

  /** How many digits the time of a key has: twenty, or more when twenty do not suffice. */
  function Width(n: nat): (w: nat)
    ensures w >= WIDTH
  {
    |Padded(n, WIDTH)|
  }

  lemma WidthOrder(a: nat, b: nat)
    requires Width(a) < Width(b)
    ensures a < b && Width(b) > WIDTH
  {
    DecimalWidth(a, Width(a));
    DecimalWidth(b, Width(a));
  }

  /**
   * What the query range compares: times of one width as numbers, otherwise the shorter time with as many leading
   * digits of the longer one.
   */
  predicate InOrder(epoch: nat, through: nat) {
    var e, t := Width(epoch), Width(through);
    if e == t then epoch <= through
    else if e > t then epoch / Pow10(e - t) < through
    else epoch <= through / Pow10(t - e)
  }

  lemma FromZero(p: string, w: nat, tail: string)
    requires AllDigits(p) && |p| >= w && |tail| > 1 && tail[0] == '#' && tail[1] == 'T'
    ensures !Below(p + tail, Zeros(w) + "#")
  {
    var head, rest := p[..w], p[w..] + tail;
    assert p + tail == head + rest;
    BelowByBlocks(head, rest, Zeros(w), "#");
    DigitOrder(head, Zeros(w));
    ValueOfZeros(w);
    TailInside(tail);
    if |p| > w { NotBelowMark(rest); } else { assert rest == tail; }
  }

  /** A digit comes after the mark that ends a time. */
  lemma NotBelowMark(rest: string)
    requires rest != "" && IsDigit(rest[0])
    ensures !Below(rest, "#") && Below("#\U{FFFF}", rest)
  {
    assert "#"[0] == '#' && "#\U{FFFF}"[0] == '#';
  }

  lemma SameWidth(p: string, q: string, tail: string)
    requires AllDigits(p) && AllDigits(q) && |p| == |q| && |tail| > 1 && tail[0] == '#' && tail[1] == 'T'
    ensures Below(q + "#\U{FFFF}", p + tail) <==> Value(q) < Value(p)
  {
    BelowByBlocks(q, "#\U{FFFF}", p, tail);
    DigitOrder(q, p);
    TailInside(tail);
  }

  lemma LongerKey(p: string, q: string, tail: string)
    requires AllDigits(p) && AllDigits(q) && |p| > |q|
    ensures Below(q + "#\U{FFFF}", p + tail) <==> Value(q) <= Value(p) / Pow10(|p| - |q|)
  {
    var head, rest := p[..|q|], p[|q|..] + tail;
    assert p + tail == head + rest;
    BelowByBlocks(q, "#\U{FFFF}", head, rest);
    DigitOrder(q, head);
    LeadingValue(p, |q|);
    NotBelowMark(rest);
  }

  lemma DigitAfterMark(rest: string, tail: string)
    requires rest != "" && IsDigit(rest[0]) && tail != "" && tail[0] == '#'
    ensures !Below(rest, tail)
  {
  }

  lemma BelowLeading(head: string, rest: string, p: string, tail: string)
    requires AllDigits(head) && AllDigits(p) && |head| == |p| && rest != "" && IsDigit(rest[0]) && tail != "" && tail[0] == '#'
    ensures Below(head + rest, p + tail) <==> Value(head) < Value(p)
  {
    BelowByBlocks(head, rest, p, tail);
    DigitOrder(head, p);
    DigitAfterMark(rest, tail);
  }

  lemma SplitAt(q: string, end: string, n: nat)
    requires n < |q|
    ensures q + end == q[..n] + (q[n..] + end)
    ensures (q[n..] + end)[0] == q[n]
  {
  }

  lemma LongerEnd(p: string, q: string, tail: string, end: string)
    requires AllDigits(p) && AllDigits(q) && |p| < |q| && tail != "" && tail[0] == '#'
    ensures AllDigits(q[..|p|])
    ensures Below(q + end, p + tail) <==> Value(q[..|p|]) < Value(p)
  {
    SplitAt(q, end, |p|);
    BelowLeading(q[..|p|], q[|p|..] + end, p, tail);
  }

  /** For any two times: exactly when a marker lies in the query range. */
  lemma RangeExactly(scope: Scope, epoch: nat, rid: Id, through: nat)
    ensures InRange(IndexKey(scope, epoch, rid), through) <==> InOrder(epoch, through)
  {
    var p, q, tail := Padded(epoch, WIDTH), Padded(through, WIDTH), IndexTail(scope, rid);
    PaddedValue(epoch, WIDTH);
    PaddedValue(through, WIDTH);
    FromZero(p, WIDTH, tail);
    if |p| == |q| {
      SameWidth(p, q, tail);
    } else if |p| > |q| {
      LongerKey(p, q, tail);
    } else {
      LongerEnd(p, q, tail, "#\U{FFFF}");
      LeadingValue(q, |p|);
    }
  }

  /** For any two times: exactly when lying in the query range is the same as being due. */
  lemma RightExactly(scope: Scope, epoch: nat, rid: Id, through: nat)
    ensures (InRange(IndexKey(scope, epoch, rid), through) <==> epoch <= through)
       <==> var e, t := Width(epoch), Width(through);
            && (e > t ==> through <= epoch / Pow10(e - t))
            && (e < t ==> epoch <= through / Pow10(t - e))
  {
    RangeExactly(scope, epoch, rid, through);
    if Width(epoch) > Width(through) { WidthOrder(through, epoch); }
    if Width(epoch) < Width(through) { WidthOrder(epoch, through); }
  }

  /** Due markers are found by time for all times below the bound. */
  predicate RightBelow(scope: Scope, rid: Id, bound: nat) {
    forall epoch: nat, through: nat :: epoch < bound && through < bound ==>
      (InRange(IndexKey(scope, epoch, rid), through) <==> epoch <= through)
  }

  lemma TenTimes(w: nat)
    requires w > 0
    ensures Pow10(w) == 10 * Pow10(w - 1)
  {
  }

  /** A power of ten needs one digit more than the width that it exceeds. */
  lemma OneMoreDigit(w: nat)
    requires w > 0
    ensures |Padded(Pow10(w), w)| == w + 1 && |Padded(2 * Pow10(w - 1), w)| == w
    ensures Pow10(w) / Pow10(1) < 2 * Pow10(w - 1) < Pow10(w)
  {
    TenTimes(w);
    TenTimes(w + 1);
    TenTimes(1);
    DecimalWidth(Pow10(w), w);
    DecimalWidth(Pow10(w), w + 1);
    DecimalWidth(2 * Pow10(w - 1), w);
  }

  /** With twenty-one digits the order breaks: a marker at 10^20 is in range long before it is due. */
  lemma PastTheWidth(scope: Scope, rid: Id)
    ensures InRange(IndexKey(scope, Pow10(WIDTH), rid), 2 * Pow10(WIDTH - 1)) && Pow10(WIDTH) > 2 * Pow10(WIDTH - 1)
  {
    OneMoreDigit(WIDTH);
    RangeExactly(scope, Pow10(WIDTH), rid, 2 * Pow10(WIDTH - 1));
  }

  /** Ten to the twentieth is the largest bound below which the index order is the order of time. */
  lemma RightBelowExactly(scope: Scope, rid: Id, bound: nat)
    ensures RightBelow(scope, rid, bound) <==> bound <= Pow10(WIDTH)
  {
    if bound <= Pow10(WIDTH) {
      forall epoch: nat, through: nat | epoch < bound && through < bound
        ensures InRange(IndexKey(scope, epoch, rid), through) <==> epoch <= through
      {
        RangeIsTime(scope, epoch, rid, through);
      }
    } else {
      PastTheWidth(scope, rid);
    }
  }
}
