/**
 * Public offers, listed page by page: bounded work per call, and all pages together are the simple filter of the
 * catalog. src/catalog_storage.py 537-578, over the query interface of 728-761.
 */
module Catalogs {
  import opened Basics
  import opened Ordering

  const MAX_LIST_SIZE: int := 100
  const MAX_PUBLIC_SCAN_PAGES: nat := 2
  const PREFIX: string := "OFFER#"

  datatype PublicOffer = PublicOffer(version: Id, item: Id, amountMinor: int, currency: string, displayName: string)

  /** A stored offer version; an unsound one is refused when it is read back. */
  datatype Row = Row(key: string, sound: bool, active: bool, offer: PublicOffer)

  predicate SafeChar(c: char) {
    'a' <= c <= 'z' || '0' <= c <= '9' || c == '.' || c == '_' || c == '-'
  }

  predicate SafeId(s: string) {
    && 1 <= |s| <= 64 && (forall i :: 0 <= i < |s| ==> SafeChar(s[i]))
    && ('a' <= s[0] <= 'z' || '0' <= s[0] <= '9')
  }

  /** `_storage_cursor` accepts it. */
  predicate CursorValid(cursor: Option<string>) {
    cursor.Some? ==> PREFIX <= cursor.value && SafeId(cursor.value[|PREFIX|..])
  }

  /** The offers of one partition as the table keeps them: by key, each key once. */
  predicate Catalog(rows: seq<Row>) {
    && (forall i, j :: 0 <= i < j < |rows| ==> Below(rows[i].key, rows[j].key))
    && (forall i :: 0 <= i < |rows| ==> CursorValid(Some(rows[i].key)))
  }

  /** Where a query that starts after the cursor begins. The cursor need not be a stored key. */
  function After(rows: seq<Row>, cursor: Option<string>): (p: nat)
    ensures p <= |rows|
  {
    if cursor.None? || rows == [] || Below(cursor.value, rows[0].key) then 0 else 1 + After(rows[1..], cursor)
  }

  /** The simple filter. */
  function Actives(rows: seq<Row>): (offers: seq<PublicOffer>)
    ensures |offers| <= |rows|
  {
    if rows == [] then []
    else Actives(rows[..|rows| - 1]) + (if rows[|rows| - 1].active then [rows[|rows| - 1].offer] else [])
  }

  /** The filter keeps the offers of exactly the active rows. */
  lemma {:induction false} ActivesAre(rows: seq<Row>, offer: PublicOffer)
    ensures offer in Actives(rows) <==> exists i :: 0 <= i < |rows| && rows[i].active && rows[i].offer == offer
  {
    if rows != [] {
      var init := rows[..|rows| - 1];
      ActivesAre(init, offer);
      if i :| 0 <= i < |init| && init[i].active && init[i].offer == offer {
        assert rows[i].active && rows[i].offer == offer;
      }
      if i :| 0 <= i < |rows| && rows[i].active && rows[i].offer == offer {
        if i < |init| { assert init[i].active && init[i].offer == offer; }
      }
    }
  }

  lemma ActivesSnoc(rows: seq<Row>, from: nat, to: nat)
    requires from <= to < |rows|
    ensures Actives(rows[from..to + 1]) == Actives(rows[from..to]) + (if rows[to].active then [rows[to].offer] else [])
  {
    assert rows[from..to + 1][..to - from] == rows[from..to];
  }

  lemma ActivesNext(rows: seq<Row>, items: seq<Row>, from: nat, p: nat, k: nat)
    requires from <= p && k < |items| && p + |items| <= |rows| && items == rows[p..p + |items|]
    ensures Actives(rows[from..p + (k + 1)]) == Actives(rows[from..p + k]) + (if items[k].active then [items[k].offer] else [])
  {
    ActivesSnoc(rows, from, p + k);
    assert items[k] == rows[p + k];
  }

  lemma {:induction false} ActivesConcat(a: seq<Row>, b: seq<Row>)
    ensures Actives(a + b) == Actives(a) + Actives(b)
  {
    if b == [] {
      assert a + b == a;
    } else {
      assert (a + b)[..|a + b| - 1] == a + b[..|b| - 1];
      ActivesConcat(a, b[..|b| - 1]);
    }
  }

  lemma {:induction false} AfterRow(rows: seq<Row>, i: nat)
    requires Catalog(rows) && i < |rows|
    ensures After(rows, Some(rows[i].key)) == i + 1
  {
    if i == 0 {
      BelowIrreflexive(rows[0].key);
      if |rows| > 1 { assert rows[1..][0] == rows[1]; }
    } else {
      BelowAsymmetric(rows[0].key, rows[i].key);
      assert rows[1..][i - 1] == rows[i];
      AfterRow(rows[1..], i - 1);
    }
  }

  lemma BelowAsymmetric(a: string, b: string)
    requires Below(a, b)
    ensures !Below(b, a)
  {
    if Below(b, a) {
      BelowTransitive(a, b, a);
      BelowIrreflexive(a);
    }
  }

  /** One answer of the query interface: some rows after the cursor, and where they end unless nothing is left. */
  ghost predicate Page(rows: seq<Row>, limit: int, cursor: Option<string>, items: seq<Row>, next: Option<string>) {
    var p := After(rows, cursor);
    && |items| <= limit && p + |items| <= |rows| && items == rows[p..p + |items|]
    && (next.None? ==> p + |items| == |rows|)
    && (next.Some? ==> items != [] && next.value == items[|items| - 1].key)
  }

  /** What one call lists: the active offers of a stretch of rows after the cursor, and the end of that stretch. */
  ghost predicate ListsTo(rows: seq<Row>, cursor: Option<string>, requested: int, offers: seq<PublicOffer>, next: Option<string>, end: nat) {
    && After(rows, cursor) <= end <= |rows|
    && offers == Actives(rows[After(rows, cursor)..end]) && |offers| <= requested
    && (next.None? ==> end == |rows|)
    && (next.Some? ==> After(rows, cursor) < end && next.value == rows[end - 1].key)
  }

  ghost predicate Lists(rows: seq<Row>, cursor: Option<string>, requested: int, offers: seq<PublicOffer>, next: Option<string>) {
    exists end: nat :: ListsTo(rows, cursor, requested, offers, next, end)
  }

  lemma EndsAt(rows: seq<Row>, cursor: Option<string>, requested: int, offers: seq<PublicOffer>, next: Option<string>, end: nat)
    requires ListsTo(rows, cursor, requested, offers, next, end)
    ensures Lists(rows, cursor, requested, offers, next)
  {
  }

  /** Where a page ends, as a cursor. */
  lemma PageEnd(rows: seq<Row>, items: seq<Row>, p: nat, k: nat)
    requires Catalog(rows) && 0 < k <= |items| && p + |items| <= |rows| && items == rows[p..p + |items|]
    ensures items[k - 1] == rows[p + k - 1] && CursorValid(Some(items[k - 1].key)) && After(rows, Some(items[k - 1].key)) == p + k
  {
    AfterRow(rows, p + k - 1);
  }

  /** Some stored offer is refused when it is read back. */
  ghost predicate HasUnsound(rows: seq<Row>) {
    exists x :: x in rows && !x.sound
  }

  class CatalogStore {
    /** The offers of the partition, unchanged while they are paged through. */
    const rows: seq<Row>

    constructor (rows: seq<Row>)
      ensures this.rows == rows
    {
      this.rows := rows;
    }

    /** `query_prefix`: how many rows an answer holds is up to the table, at least one unless none are left. */
    method QueryPrefix(limit: int, cursor: Option<string>) returns (items: seq<Row>, next: Option<string>)
      requires limit > 0
      ensures Page(rows, limit, cursor, items, next)
    {
      var p := After(rows, cursor);
      var n: nat :| n <= limit && n <= |rows| - p && (n == 0 ==> p == |rows|);
      var ends: bool := *;
      items := rows[p..p + n];
      next := if n == 0 || (ends && p + n == |rows|) then None else Some(rows[p + n - 1].key);
    }

    /** One page of the scan, up to the row that fills the result; `filled` says that one did. */
    method Scan(items: seq<Row>, requested: int, before: seq<PublicOffer>, ghost from: nat, ghost p: nat)
      returns (r: Result<seq<PublicOffer>>, filled: bool, inspected: nat)
      requires |before| < requested && from <= p && p + |items| <= |rows| && items == rows[p..p + |items|]
      requires before == Actives(rows[from..p])
      ensures inspected <= |items|
      ensures r.Err? ==> r.error == Conflict && HasUnsound(rows)
      ensures r.Ok? ==> r.value == Actives(rows[from..p + inspected])
      ensures r.Ok? && filled ==> |r.value| == requested && 0 < inspected
      ensures r.Ok? && !filled ==> |r.value| < requested && inspected == |items|
    {
      var result := before;
      inspected := 0;
      while inspected < |items|
        invariant 0 <= inspected <= |items| && |result| < requested
        invariant result == Actives(rows[from..p + inspected])
      {
        var row := items[inspected];
        if !row.sound {
          assert rows[p + inspected] == row;
          return Err(Conflict), false, inspected;
        }
        ActivesNext(rows, items, from, p, inspected);
        inspected := inspected + 1;
        if row.active {
          result := result + [row.offer];
          if |result| == requested {
            return Ok(result), true, inspected;
          }
        }
      }
      return Ok(result), false, inspected;
    }

    /** One query and the scan of its page: what is listed now, the last row inspected, and whether more may follow. */
    method ReadPage(cursor: Option<string>, requested: int, before: seq<PublicOffer>, ghost from: nat, ghost p: nat)
      returns (r: Result<seq<PublicOffer>>, filled: bool, next: Option<string>, more: bool, last: Option<string>, ghost end: nat)
      requires Catalog(rows) && |before| < requested && from <= p == After(rows, cursor) && before == Actives(rows[from..p])
      ensures p <= end <= |rows|
      ensures r.Err? ==> r.error == Conflict && HasUnsound(rows)
      ensures r.Ok? ==> r.value == Actives(rows[from..end]) && (filled <==> |r.value| == requested) && |r.value| <= requested
      ensures r.Ok? && (filled || next.Some?) ==>
        p < end && last == Some(rows[end - 1].key) && CursorValid(last) && After(rows, last) == end
      ensures r.Ok? && !more ==> end == |rows|
      ensures r.Ok? && !filled ==> more == next.Some? && (next.Some? ==> next == last)
    {
      var items;
      items, next := QueryPrefix(MAX_LIST_SIZE, cursor);
      var inspected;
      r, filled, inspected := Scan(items, requested, before, from, p);
      end := p + inspected;
      more := inspected < |items| || next.Some?;
      last := if inspected > 0 then Some(items[inspected - 1].key) else None;
      if inspected > 0 { PageEnd(rows, items, p, inspected); }
    }

    /** `list_public_offers`, and how many queries it made. */
    method ListPublicOffers(limit: int, cursor: Option<string>) returns (r: Result<(seq<PublicOffer>, Option<string>)>, ghost queries: nat)
      requires Catalog(rows)
      ensures r == Err(InvalidInput) <==> !(1 <= limit <= MAX_LIST_SIZE) || !CursorValid(cursor)
      ensures r.Err? && r.error != InvalidInput ==> r.error == Conflict && HasUnsound(rows)
      ensures r.Ok? ==> Lists(rows, cursor, limit, r.value.0, r.value.1) && CursorValid(r.value.1)
      ensures queries <= MAX_PUBLIC_SCAN_PAGES
      ensures r.Ok? && r.value.1.Some? && |r.value.0| < limit ==> queries == MAX_PUBLIC_SCAN_PAGES
    {
      queries := 0;
      if !(1 <= limit <= MAX_LIST_SIZE) || !CursorValid(cursor) {
        return Err(InvalidInput), 0;
      }
      ghost var from := After(rows, cursor);
      ghost var p := from;
      var pageCursor, result, lastInspected := cursor, [], cursor;
      var page := 0;
      assert rows[from..from] == [];
      while page < MAX_PUBLIC_SCAN_PAGES
        invariant 0 <= page < MAX_PUBLIC_SCAN_PAGES && queries == page
        invariant from <= p == After(rows, pageCursor) && |result| < limit && result == Actives(rows[from..p])
      {
        var scanned, filled, next, more, last;
        scanned, filled, next, more, last, p := ReadPage(pageCursor, limit, result, from, p);
        queries := queries + 1;
        if scanned.Err? {
          return Err(Conflict), queries;
        }
        result := scanned.value;
        lastInspected := if last.Some? then last else lastInspected;
        if filled {
          var end := if more then lastInspected else None;
          EndsAt(rows, cursor, limit, result, end, p);
          return Ok((result, end)), queries;
        }
        if next.None? {
          EndsAt(rows, cursor, limit, result, None, p);
          return Ok((result, None)), queries;
        }
        if next == pageCursor || lastInspected.None? {
          assert false;
        }
        if page == MAX_PUBLIC_SCAN_PAGES - 1 {
          EndsAt(rows, cursor, limit, result, lastInspected, p);
          return Ok((result, lastInspected)), queries;
        }
        pageCursor := next;
        page := page + 1;
      }
      assert false;
    }
  }

  // ----- paging to exhaustion -----

  /** One call of list_public_offers and its answer. */
  datatype Call = Call(cursor: Option<string>, requested: int, offers: seq<PublicOffer>, next: Option<string>)

  /** Calls from the start on, each with the cursor that the one before returned, with any limits. */
  ghost predicate Paging(rows: seq<Row>, calls: seq<Call>) {
    && (forall i :: 0 <= i < |calls| ==> Lists(rows, calls[i].cursor, calls[i].requested, calls[i].offers, calls[i].next))
    && (calls != [] ==> calls[0].cursor.None?)
    && (forall i :: 0 < i < |calls| ==> calls[i].cursor == calls[i - 1].next && calls[i].cursor.Some?)
  }

  function Listed(calls: seq<Call>): seq<PublicOffer> {
    if calls == [] then [] else Listed(calls[..|calls| - 1]) + calls[|calls| - 1].offers
  }

  /** Where the paging stands after its last call. */
  ghost function Reached(rows: seq<Row>, calls: seq<Call>): (end: nat)
    requires calls != [] && Paging(rows, calls)
    ensures var x := calls[|calls| - 1]; ListsTo(rows, x.cursor, x.requested, x.offers, x.next, end)
  {
    var x := calls[|calls| - 1];
    var end: nat :| ListsTo(rows, x.cursor, x.requested, x.offers, x.next, end);
    end
  }

  lemma OneCall(rows: seq<Row>, x: Call, end: nat)
    requires ListsTo(rows, x.cursor, x.requested, x.offers, x.next, end)
    ensures Actives(rows[..end]) == Actives(rows[..After(rows, x.cursor)]) + x.offers
  {
    var from := After(rows, x.cursor);
    assert rows[..from] + rows[from..end] == rows[..end];
    ActivesConcat(rows[..from], rows[from..end]);
  }

  lemma FewerCalls(rows: seq<Row>, calls: seq<Call>)
    requires |calls| > 1 && Paging(rows, calls)
    ensures Paging(rows, calls[..|calls| - 1])
    ensures calls[|calls| - 1].cursor == calls[..|calls| - 1][|calls| - 2].next && calls[|calls| - 1].cursor.Some?
  {
  }

  /** Where a call starts that follows others. */
  lemma CallStarts(rows: seq<Row>, x: Call, y: Call, end: nat)
    requires Catalog(rows) && ListsTo(rows, x.cursor, x.requested, x.offers, x.next, end) && y.cursor == x.next && x.next.Some?
    ensures After(rows, y.cursor) == end
  {
    AfterRow(rows, end - 1);
  }

  /** After each call the listed offers are the active ones of all rows up to where the paging stands. */
  lemma {:induction false} PagingLists(rows: seq<Row>, calls: seq<Call>)
    requires Catalog(rows) && calls != [] && Paging(rows, calls)
    ensures Listed(calls) == Actives(rows[..Reached(rows, calls)])
    ensures |calls| <= Reached(rows, calls) + 1
    ensures calls[|calls| - 1].next.Some? ==> |calls| <= Reached(rows, calls)
  {
    var x := calls[|calls| - 1];
    OneCall(rows, x, Reached(rows, calls));
    if |calls| == 1 {
      assert calls[..0] == [] && rows[..0] == [];
    } else {
      var init := calls[..|calls| - 1];
      FewerCalls(rows, calls);
      PagingLists(rows, init);
      CallStarts(rows, init[|init| - 1], x, Reached(rows, init));
    }
  }

  /**
   * Paging until no cursor comes back lists exactly the active offers, in key order and each once, in at most one
   * call more than there are rows, whatever the limits and however the table cuts its pages.
   */
  lemma PagingIsTheFilter(rows: seq<Row>, calls: seq<Call>)
    requires Catalog(rows) && calls != [] && Paging(rows, calls) && calls[|calls| - 1].next.None?
    ensures Listed(calls) == Actives(rows) && |calls| <= |rows| + 1
  {
    PagingLists(rows, calls);
    assert rows[..|rows|] == rows;
  }

  /** Every cursor lies behind the one it was got with, so no call can come round to where it was. */
  lemma CursorsIncrease(rows: seq<Row>, cursor: Option<string>, requested: int, offers: seq<PublicOffer>, next: Option<string>)
    requires Catalog(rows) && cursor.Some? && Lists(rows, cursor, requested, offers, next) && next.Some?
    ensures Below(cursor.value, next.value)
  {
    var end: nat :| ListsTo(rows, cursor, requested, offers, next, end);
    AfterIsAbove(rows, cursor.value, end - 1);
  }

  lemma {:induction false} AfterIsAbove(rows: seq<Row>, cursor: string, i: nat)
    requires Catalog(rows) && After(rows, Some(cursor)) <= i < |rows|
    ensures Below(cursor, rows[i].key)
  {
    if Below(cursor, rows[0].key) {
      if i > 0 { BelowTransitive(cursor, rows[0].key, rows[i].key); }
    } else {
      AfterIsAbove(rows[1..], cursor, i - 1);
    }
  }
}
