/** Listing due reservations through an index that may be stale. src/storage.py 938-1039. */
module DueLists {
  import opened Basics
  import opened Records
  import opened Decimals
  import opened DueKeys
  import opened Protocol
  import opened Parts
  import opened Runs
  import opened Backends
  import opened Calls

  const MAX_DUE_PAGE_SIZE: int := 100
  const MAX_DUE_QUERY_PAGES: int := 5

  /** What the index keeps of a marker: its table key, its partition and its range key. */
  datatype IndexEntry = IndexEntry(key: Key, partition: Environment, dueKey: string)

  function EntryOf(k: Key, due: DueRec): IndexEntry {
    IndexEntry(k, due.scope.environment, IndexKey(due.scope, due.reconcileAfter, due.reservation))
  }

  datatype Listed =
    | DueReservation(scope: Scope, reservation: Id, order: Id, attempt: Id, reconcileAfter: nat, marker: Key)
    | InvalidDueMarker(marker: Key)

  /** One index entry against its table row; None for an entry that is passed over. */
  function Classify(e: IndexEntry, current: Option<Item>, environment: Environment, through: nat): Option<Listed> {
    if e.partition != environment then None
    else if !e.key.DueKey? then Some(InvalidDueMarker(e.key))
    else match current
      case None => None
      case Some(item) =>
        if !item.DueItem? then Some(InvalidDueMarker(e.key)) else
        var due := item.due;
        if MarkerText(e.key.reconcileAfter, e.key.reservation) != MarkerText(due.reconcileAfter, due.reservation)
           || e.dueKey != IndexKey(due.scope, due.reconcileAfter, due.reservation)
           || due.scope.environment != environment || due.reconcileAfter > through
        then Some(InvalidDueMarker(e.key))
        else Some(DueReservation(due.scope, due.reservation, due.order, due.attempt, due.reconcileAfter, e.key))
  }

  /** The entry is what the index kept of a marker that was stored at some moment, and lies in the query range. */
  ghost predicate Indexed(seen: set<(Key, Item)>, e: IndexEntry, environment: Environment, through: nat) {
    exists due :: (e.key, DueItem(due)) in seen && e == EntryOf(e.key, due) && due.scope.environment == environment && InRange(e.dueKey, through)
  }

  /** A marker as the store writes it. */
  predicate Proper(k: Key, due: DueRec) {
    k.DueKey? && due.reconcileAfter == k.reconcileAfter && due.reservation == k.reservation && due.scope.Pk() == k.pk
  }

  lemma SeenMarker(w: World, k: Key, due: DueRec)
    requires WorldInv(w) && (k, DueItem(due)) in w.seen
    ensures Proper(k, due)
    ensures k in w.tables ==> w.tables[k] == DueItem(due)
  {
    assert Was(w.tables, k, DueItem(due)) && Sound(w.tables, k);
  }

  /** However stale the entry is, its row is gone or is the due reservation that the entry announced. */
  lemma StaleEntryIsSafe(w: World, e: IndexEntry, due: DueRec, environment: Environment, through: nat)
    requires WorldInv(w) && (e.key, DueItem(due)) in w.seen && e == EntryOf(e.key, due)
    requires due.scope.environment == environment && InRange(e.dueKey, through)
    requires e.key.DueKey? && e.key.reconcileAfter < Pow10(WIDTH) && through < Pow10(WIDTH)
    ensures Classify(e, Lookup(w.tables, e.key), environment, through)
         == if e.key !in w.tables then None
            else Some(DueReservation(due.scope, due.reservation, due.order, due.attempt, due.reconcileAfter, e.key))
    ensures due.reconcileAfter <= through
  {
    SeenMarker(w, e.key, due);
    RangeIsTime(due.scope, due.reconcileAfter, due.reservation, through);
  }

  /** What a listed marker says: a due reservation was stored so; an invalid one lies beyond the twenty-digit width. */
  ghost predicate Listable(seen: set<(Key, Item)>, x: Listed, environment: Environment, through: nat) {
    match x
    case DueReservation(scope, rid, order, attempt, epoch, k) =>
      && (k, DueItem(DueRec(scope, rid, order, attempt, epoch))) in seen
      && scope.environment == environment && epoch <= through && Proper(k, DueRec(scope, rid, order, attempt, epoch))
    case InvalidDueMarker(k) => k.DueKey? && (k.reconcileAfter >= Pow10(WIDTH) || through >= Pow10(WIDTH))
  }

  /** A standing marker is listed or called invalid, and it is listed only when it is due. */
  lemma ClassifiedAs(e: IndexEntry, due: DueRec, environment: Environment, through: nat)
    requires e == EntryOf(e.key, due) && Proper(e.key, due) && due.scope.environment == environment
    ensures Classify(e, Some(DueItem(due)), environment, through)
         == Some(if due.reconcileAfter > through then InvalidDueMarker(e.key)
                 else DueReservation(due.scope, due.reservation, due.order, due.attempt, due.reconcileAfter, e.key))
    ensures Classify(e, None, environment, through) == None
  {
  }

  lemma ProperIsListable(w: World, e: IndexEntry, due: DueRec, environment: Environment, through: nat)
    requires Proper(e.key, due) && (e.key, DueItem(due)) in w.seen && (e.key in w.tables ==> w.tables[e.key] == DueItem(due))
    requires due.scope.environment == environment && InRange(e.dueKey, through) && e == EntryOf(e.key, due)
    ensures var x := Classify(e, Lookup(w.tables, e.key), environment, through);
      x.Some? ==> Listable(w.seen, x.value, environment, through)
  {
    ClassifiedAs(e, due, environment, through);
    if due.reconcileAfter > through && due.reconcileAfter < Pow10(WIDTH) && through < Pow10(WIDTH) {
      RangeIsTime(due.scope, due.reconcileAfter, due.reservation, through);
    }
  }

  lemma ClassifiedIsListable(w: World, e: IndexEntry, environment: Environment, through: nat)
    requires WorldInv(w) && Indexed(w.seen, e, environment, through)
    ensures var x := Classify(e, Lookup(w.tables, e.key), environment, through);
      x.Some? ==> Listable(w.seen, x.value, environment, through)
  {
    var due :| (e.key, DueItem(due)) in w.seen && e == EntryOf(e.key, due) && due.scope.environment == environment && InRange(e.dueKey, through);
    SeenMarker(w, e.key, due);
    ProperIsListable(w, e, due, environment, through);
  }

  /** `query_due`: a page of an eventually consistent index, any entry of which may be out of date. */
  method QueryDue(backend: Backend, environment: Environment, through: nat, limit: nat, cursor: Option<nat>)
    returns (page: seq<IndexEntry>, next: Option<nat>)
    requires backend.Valid()
    modifies backend
    ensures backend.Valid() && old(backend.log) <= backend.log && Mine(backend.log) == Mine(old(backend.log))
    ensures |page| <= limit && AllIndexed(backend.seen, page, environment, through)
  {
    backend.Interfere();
    page, next := [], *;
    var n: nat := *;
    while n > 0 && |page| < limit
      invariant |page| <= limit && AllIndexed(backend.seen, page, environment, through)
      decreases n
    {
      var k: Key, due: DueRec := *, *;
      if (k, DueItem(due)) in backend.seen && due.scope.environment == environment && InRange(EntryOf(k, due).dueKey, through) {
        page := page + [EntryOf(k, due)];
      }
      n := n - 1;
    }
  }

  ghost predicate AllIndexed(seen: set<(Key, Item)>, es: seq<IndexEntry>, environment: Environment, through: nat) {
    forall e :: e in es ==> Indexed(seen, e, environment, through)
  }

  lemma IndexedStays(seen: set<(Key, Item)>, more: set<(Key, Item)>, es: seq<IndexEntry>, environment: Environment, through: nat)
    requires seen <= more && AllIndexed(seen, es, environment, through)
    ensures AllIndexed(more, es, environment, through)
  {
    forall e | e in es ensures Indexed(more, e, environment, through) {
      var due :| (e.key, DueItem(due)) in seen && e == EntryOf(e.key, due) && due.scope.environment == environment && InRange(e.dueKey, through);
      assert (e.key, DueItem(due)) in more;
    }
  }

  function Flat(pages: seq<seq<IndexEntry>>): seq<IndexEntry> {
    if pages == [] then [] else Flat(pages[..|pages| - 1]) + pages[|pages| - 1]
  }

  lemma {:induction false} FlatIsBounded(pages: seq<seq<IndexEntry>>, limit: nat)
    requires forall p :: p in pages ==> |p| <= limit
    ensures |Flat(pages)| <= limit * |pages|
  {
    if pages != [] {
      FlatIsBounded(pages[..|pages| - 1], limit);
      assert limit * |pages| == limit * (|pages| - 1) + limit;
    }
  }

  lemma PagesAreBounded(pages: seq<seq<IndexEntry>>, limit: nat, maxPages: nat)
    requires (forall p :: p in pages ==> |p| <= limit) && |pages| <= maxPages
    ensures |Flat(pages)| <= limit * maxPages
  {
    FlatIsBounded(pages, limit);
    MorePages(limit, |pages|, maxPages);
  }

  lemma {:induction false} MorePages(limit: nat, some: nat, all: nat)
    requires some <= all
    ensures limit * some <= limit * all
    decreases all
  {
    if some < all {
      MorePages(limit, some, all - 1);
      assert limit * all == limit * (all - 1) + limit;
    }
  }

  /** All pages of the query, one after the other, at most `maxPages` of them; fewer only if the index says that there are no more. */
  method GatherDue(backend: Backend, environment: Environment, through: nat, limit: nat, maxPages: nat)
    returns (items: seq<IndexEntry>, ghost pages: seq<seq<IndexEntry>>, ghost last: Option<nat>)
    requires backend.Valid()
    modifies backend
    ensures backend.Valid() && old(backend.log) <= backend.log && Mine(backend.log) == Mine(old(backend.log))
    ensures AllIndexed(backend.seen, items, environment, through) && (forall p :: p in pages ==> |p| <= limit)
    ensures items == Flat(pages) && |pages| <= maxPages && (|pages| < maxPages ==> last.None?)
  {
    items, pages := [], [];
    var cursor: Option<nat> := None;
    var page := 0;
    while page < maxPages
      invariant backend.Valid() && old(backend.log) <= backend.log && Mine(backend.log) == Mine(old(backend.log))
      invariant page == |pages| <= maxPages && items == Flat(pages) && (forall p :: p in pages ==> |p| <= limit)
      invariant AllIndexed(backend.seen, items, environment, through)
    {
      ghost var seen, log := backend.seen, backend.log;
      var more;
      more, cursor := QueryDue(backend, environment, through, limit, cursor);
      SeenGrows(OpsOf(log), OpsOf(backend.log));
      IndexedStays(seen, backend.seen, items, environment, through);
      assert (pages + [more])[..|pages|] == pages;
      items, pages := items + more, pages + [more];
      page := page + 1;
      if cursor.None? { break; }
    }
    last := cursor;
  }

  /** A marker that was stored and is gone does not come back. */
  lemma GoneStaysGone(w: World, u: Tables, k: Key, due: DueRec)
    requires WorldInv(w) && (k, DueItem(due)) in w.seen && k !in w.tables && Advances(w.tables, u)
    ensures k !in u
  {
    SeenMarker(w, k, due);
    assert Was(w.tables, k, DueItem(due));
  }

  /** The marker of the entry is listed, unless it is gone by now or beyond the width. */
  ghost predicate Covered(t: Tables, e: IndexEntry, due: seq<Listed>, through: nat) {
    e.key in t && e.key.DueKey? && e.key.reconcileAfter < Pow10(WIDTH) && through < Pow10(WIDTH) ==>
      exists x :: x in due && x.DueReservation? && x.marker == e.key
  }

  lemma CoverageStays(t: Tables, u: Tables, items: seq<IndexEntry>, seen: set<(Key, Item)>, due: seq<Listed>, environment: Environment, through: nat)
    requires WorldInv(World(t, seen)) && Advances(t, u) && AllIndexed(seen, items, environment, through)
    requires forall e :: e in items ==> Covered(t, e, due, through)
    ensures forall e :: e in items ==> Covered(u, e, due, through)
  {
    forall e | e in items ensures Covered(u, e, due, through) {
      var m :| (e.key, DueItem(m)) in seen && e == EntryOf(e.key, m) && m.scope.environment == environment && InRange(e.dueKey, through);
      if e.key !in t { GoneStaysGone(World(t, seen), u, e.key, m); }
    }
  }

  lemma OneMoreCovered(w: World, e: IndexEntry, due: seq<Listed>, environment: Environment, through: nat)
    requires WorldInv(w) && Indexed(w.seen, e, environment, through)
    ensures var x := Classify(e, Lookup(w.tables, e.key), environment, through);
      Covered(w.tables, e, WithListed(due, x), through)
  {
    var m :| (e.key, DueItem(m)) in w.seen && e == EntryOf(e.key, m) && m.scope.environment == environment && InRange(e.dueKey, through);
    SeenMarker(w, e.key, m);
    if e.key in w.tables && e.key.reconcileAfter < Pow10(WIDTH) && through < Pow10(WIDTH) {
      StaleEntryIsSafe(w, e, m, environment, through);
      var x := DueReservation(m.scope, m.reservation, m.order, m.attempt, m.reconcileAfter, e.key);
      assert x in due + [x];
    }
  }

  lemma MoreListed(t: Tables, items: seq<IndexEntry>, due: seq<Listed>, x: Listed, through: nat)
    requires forall e :: e in items ==> Covered(t, e, due, through)
    ensures forall e :: e in items ==> Covered(t, e, due + [x], through)
  {
    forall e | e in items ensures Covered(t, e, due + [x], through) {
      if exists y :: y in due && y.DueReservation? && y.marker == e.key {
        var y :| y in due && y.DueReservation? && y.marker == e.key;
        assert y in due + [x];
      }
    }
  }

  /** What has been listed so far, of the entries looked at so far. */
  ghost predicate Progress(w: World, done: seq<IndexEntry>, due: seq<Listed>, environment: Environment, through: nat) {
    && (forall e :: e in done ==> Indexed(w.seen, e, environment, through) && Covered(w.tables, e, due, through))
    && (forall x :: x in due ==> Listable(w.seen, x, environment, through))
  }

  lemma ProgressStays(v: World, w: World, done: seq<IndexEntry>, due: seq<Listed>, environment: Environment, through: nat)
    requires WorldInv(v) && Advances(v.tables, w.tables) && v.seen <= w.seen && Progress(v, done, due, environment, through)
    ensures Progress(w, done, due, environment, through)
  {
    IndexedStays(v.seen, w.seen, done, environment, through);
    CoverageStays(v.tables, w.tables, done, v.seen, due, environment, through);
  }

  function WithListed(due: seq<Listed>, x: Option<Listed>): seq<Listed> {
    if x.Some? then due + [x.value] else due
  }

  lemma OneMore(w: World, done: seq<IndexEntry>, e: IndexEntry, due: seq<Listed>, x: Option<Listed>, environment: Environment, through: nat)
    requires Progress(w, done, due, environment, through) && Indexed(w.seen, e, environment, through)
    requires x.Some? ==> Listable(w.seen, x.value, environment, through)
    requires Covered(w.tables, e, WithListed(due, x), through)
    ensures Progress(w, done + [e], WithListed(due, x), environment, through)
  {
    if x.Some? { MoreListed(w.tables, done, due, x.value, through); }
  }

  lemma EntryStep(w: World, done: seq<IndexEntry>, e: IndexEntry, due: seq<Listed>, environment: Environment, through: nat)
    requires WorldInv(w) && Progress(w, done, due, environment, through) && Indexed(w.seen, e, environment, through)
    ensures Progress(w, done + [e], WithListed(due, Classify(e, Lookup(w.tables, e.key), environment, through)), environment, through)
  {
    ClassifiedIsListable(w, e, environment, through);
    OneMoreCovered(w, e, due, environment, through);
    OneMore(w, done, e, due, Classify(e, Lookup(w.tables, e.key), environment, through), environment, through);
  }

  /** One entry: its row is read at a moment of its own and classified. */
  method ListEntry(backend: Backend, e: IndexEntry, environment: Environment, through: nat, due: seq<Listed>, ghost done: seq<IndexEntry>)
    returns (more: seq<Listed>)
    requires backend.Valid() && Indexed(backend.seen, e, environment, through)
    requires Progress(World(backend.tables, backend.seen), done, due, environment, through)
    modifies backend
    ensures backend.Valid() && old(backend.log) <= backend.log && Mine(backend.log) == Mine(old(backend.log))
    ensures |more| <= |due| + 1 && old(backend.seen) <= backend.seen
    ensures Progress(World(backend.tables, backend.seen), done + [e], more, environment, through)
  {
    ghost var log := backend.log;
    var current := backend.Get(e.key);
    ListedStep(log, backend.log, e, due, done, environment, through);
    var x := Classify(e, current, environment, through);
    more := WithListed(due, x);
  }

  lemma OneLonger(items: seq<IndexEntry>, i: nat)
    requires i < |items|
    ensures items[..i] + [items[i]] == items[..i + 1]
  {
  }

  /** What was listed when the tables were `v` is listed well now, and so is one more entry. */
  lemma ListedStep(before: seq<Entry>, after: seq<Entry>, e: IndexEntry, due: seq<Listed>, done: seq<IndexEntry>, environment: Environment,
                   through: nat)
    requires before <= after && Indexed(WorldAt(before).seen, e, environment, through)
    requires Progress(WorldAt(before), done, due, environment, through)
    ensures Progress(WorldAt(after), done + [e], WithListed(due, Classify(e, Lookup(WorldAt(after).tables, e.key), environment, through)),
                     environment, through)
  {
    SeenGrows(OpsOf(before), OpsOf(after));
    RunKeeps(OpsOf(before));
    RunKeeps(OpsOf(after));
    IndexedStays(WorldAt(before).seen, WorldAt(after).seen, [e], environment, through);
    ProgressStays(WorldAt(before), WorldAt(after), done, due, environment, through);
    EntryStep(WorldAt(after), done, e, due, environment, through);
  }

  /**
   * The loop of `list_due_reservations` over the entries found: nothing that the store wrote is called invalid, and
   * every entry whose marker still stands at the end is listed.
   */
  method ListEntries(backend: Backend, items: seq<IndexEntry>, environment: Environment, through: nat) returns (due: seq<Listed>)
    requires backend.Valid() && AllIndexed(backend.seen, items, environment, through)
    modifies backend
    ensures backend.Valid() && old(backend.log) <= backend.log && Mine(backend.log) == Mine(old(backend.log))
    ensures |due| <= |items| && Progress(World(backend.tables, backend.seen), items, due, environment, through)
  {
    due := [];
    var i := 0;
    while i < |items|
      invariant 0 <= i <= |items| && |due| <= i
      invariant backend.Valid() && old(backend.log) <= backend.log && Mine(backend.log) == Mine(old(backend.log))
      invariant AllIndexed(backend.seen, items, environment, through)
      invariant Progress(World(backend.tables, backend.seen), items[..i], due, environment, through)
    {
      ghost var seen := backend.seen;
      due := ListEntry(backend, items[i], environment, through, due, items[..i]);
      IndexedStays(seen, backend.seen, items, environment, through);
      OneLonger(items, i);
      i := i + 1;
    }
    assert items[..i] == items;
  }

  /** `list_due_reservations`. */
  method ListDueReservations(backend: Backend, environment: Environment, through: nat, limit: int, maxPages: int)
    returns (r: Result<seq<Listed>>)
    requires backend.Valid()
    modifies backend
    ensures backend.Valid() && old(backend.log) <= backend.log && Mine(backend.log) == Mine(old(backend.log))
    ensures r == Err(InvalidInput) <==> !(1 <= limit <= MAX_DUE_PAGE_SIZE && 1 <= maxPages <= MAX_DUE_QUERY_PAGES)
    ensures r.Err? ==> r.error == InvalidInput
    ensures r.Ok? ==> |r.value| <= limit * maxPages && forall x :: x in r.value ==> Listable(backend.seen, x, environment, through)
  {
    if !(1 <= limit <= MAX_DUE_PAGE_SIZE) || !(1 <= maxPages <= MAX_DUE_QUERY_PAGES) {
      return Err(InvalidInput);
    }
    ghost var pages, last;
    var items;
    items, pages, last := GatherDue(backend, environment, through, limit, maxPages);
    PagesAreBounded(pages, limit, maxPages);
    var due := ListEntries(backend, items, environment, through);
    r := Ok(due);
  }
}
