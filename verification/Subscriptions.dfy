/**
 * Subscription projections: whatever the order, the repetitions and the races of event deliveries, what is kept is the
 * event with the largest source revision. src/subscription_storage.py 65-155.
 */
module Subscriptions {
  import opened Basics
  import R = Records

  const MAX_EVENT_FUTURE_SKEW: nat := 300

  datatype Status = ActiveNow | PastDue | CanceledNow

  datatype Event = Event(id: Id, subscription: Id, offer: Id, status: Status, periodEnd: nat, source: int, occurredAt: nat)

  datatype Projection =
    Projection(domain: string, offer: Id, status: Status, periodEnd: nat, source: int, occurredAt: nat, lastEvent: Id, lastHash: Event, revision: int)

  datatype Answer = Answer(subscription: Id, offer: Id, status: Status, periodEnd: nat, revision: int, stale: bool)

  /** An inbox record of this store, or of a payment or refund event: all kinds of events share the inbox keys. */
  datatype Receipt = Receipt(domain: string, event: Event, answer: Answer, processedAt: nat) | Foreign

  datatype SubKey = SubKey(pk: R.Partition, subscription: Id)
  datatype EventKey = EventKey(pk: R.Partition, event: Id)

  datatype Tables = Tables(projections: map<SubKey, Projection>, receipts: map<EventKey, Receipt>)

  /** The tables, and every projection that was ever in them. The receipts are the inbox records of the shared table. */
  datatype World = World(tables: Tables, seen: set<(SubKey, Projection)>)

  const EMPTY: World := World(Tables(map[], map[]), {})

  /** One delivery of an event, planned on the projection that it read. */
  datatype Op = Op(scope: R.Scope, event: Event, now: nat, read: Option<Projection>)
  {
    function At(): SubKey {
      SubKey(scope.Pk(), event.subscription)
    }

    function Inbox(): EventKey {
      EventKey(scope.Pk(), event.id)
    }
  }

  function Projected(scope: R.Scope, e: Event, revision: int): Projection {
    Projection(scope.domain, e.offer, e.status, e.periodEnd, e.source, e.occurredAt, e.id, e, revision)
  }

  function AnswerOf(subscription: Id, p: Projection, stale: bool): Answer {
    Answer(subscription, p.offer, p.status, p.periodEnd, p.revision, stale)
  }

  /** The projection that a delivery writes; None for a stale event, which only leaves its receipt. */
  function Update(op: Op): Result<Option<Projection>> {
    var e := op.event;
    if e.occurredAt > op.now + MAX_EVENT_FUTURE_SKEW || e.source <= 0 then Err(InvalidInput)
    else match op.read
      case None => Ok(Some(Projected(op.scope, e, 1)))
      case Some(p) =>
        if p.domain != op.scope.domain then Err(Conflict)
        else if e.source < p.source then Ok(None)
        else if e.source == p.source then Err(Conflict)
        else Ok(Some(Projected(op.scope, e, p.revision + 1)))
  }

  predicate Holds(t: Tables, op: Op) {
    && op.Inbox() !in t.receipts
    && (Update(op).Ok? && Update(op).value.Some? ==>
          match op.read
          case None => op.At() !in t.projections
          case Some(p) =>
            && op.At() in t.projections
            && var q := t.projections[op.At()];
               q.revision == p.revision && q.lastEvent == p.lastEvent && q.source == p.source)
  }

  predicate Commits(w: World, op: Op) {
    Update(op).Ok? && (op.read.Some? ==> (op.At(), op.read.value) in w.seen) && Holds(w.tables, op)
  }

  function Exec(w: World, op: Op): World {
    if !Commits(w, op) then w else
    var u := Update(op).value;
    var p := if u.Some? then u.value else op.read.value;
    var receipt := Receipt(op.scope.domain, op.event, AnswerOf(op.event.subscription, p, u.None?), op.now);
    World(Tables(if u.Some? then w.tables.projections[op.At() := u.value] else w.tables.projections,
                 w.tables.receipts[op.Inbox() := receipt]),
          if u.Some? then w.seen + {(op.At(), u.value)} else w.seen)
  }

  /** One transaction on the shared inbox: a delivery here, or a payment or refund event that takes its id. */
  datatype Step = Deliver(op: Op) | Take(inbox: EventKey)

  function Advance(w: World, s: Step): World {
    match s
    case Deliver(op) => Exec(w, op)
    case Take(i) => if i in w.tables.receipts then w else World(w.tables.(receipts := w.tables.receipts[i := Foreign]), w.seen)
  }

  function Run(steps: seq<Step>): World {
    if steps == [] then EMPTY else Advance(Run(steps[..|steps| - 1]), steps[|steps| - 1])
  }

  // ----- the invariant -----

  /** The receipt is about this subscription. */
  predicate About(k: SubKey, i: EventKey, x: Receipt) {
    x.Receipt? && i.pk == k.pk && x.event.subscription == k.subscription
  }

  /** The projection shows the event, and no other recorded event of the subscription is as late. */
  ghost predicate Latest(t: Tables, k: SubKey, p: Projection) {
    var i := EventKey(k.pk, p.lastEvent);
    && i in t.receipts && About(k, i, t.receipts[i]) && Shows(p, t.receipts[i].event)
    && forall j :: j in t.receipts && About(k, j, t.receipts[j]) && j != i ==> t.receipts[j].event.source < p.source
  }

  predicate Shows(p: Projection, e: Event) {
    && p.offer == e.offer && p.status == e.status && p.periodEnd == e.periodEnd && p.source == e.source
    && p.occurredAt == e.occurredAt && p.lastEvent == e.id && p.lastHash == e
  }

  ghost predicate AllLatest(t: Tables) {
    forall k {:trigger Latest(t, k, t.projections[k])} :: k in t.projections ==> Latest(t, k, t.projections[k])
  }

  ghost predicate AllFiled(t: Tables) {
    forall i :: i in t.receipts && t.receipts[i].Receipt? ==>
      t.receipts[i].event.id == i.event && SubKey(i.pk, t.receipts[i].event.subscription) in t.projections
  }

  ghost predicate AllSeen(w: World) {
    && (forall k, p :: (k, p) in w.seen ==> k in w.tables.projections && p.source <= w.tables.projections[k].source)
    && (forall k :: k in w.tables.projections ==> (k, w.tables.projections[k]) in w.seen)
  }

  ghost predicate Inv(w: World) {
    AllLatest(w.tables) && AllFiled(w.tables) && AllSeen(w)
  }

  /** One more receipt, of an older event or of another subscription, leaves the latest one the latest. */
  lemma LatestStays(t: Tables, u: Tables, k: SubKey, p: Projection, i: EventKey, x: Receipt)
    requires Latest(t, k, p) && i !in t.receipts && u.receipts == t.receipts[i := x]
    requires About(k, i, x) ==> x.event.source < p.source
    ensures Latest(u, k, p)
  {
  }

  lemma LatestMoves(t: Tables, u: Tables, k: SubKey, p: Projection, i: EventKey, x: Receipt)
    requires i !in t.receipts && u.receipts == t.receipts[i := x] && i == EventKey(k.pk, p.lastEvent)
    requires About(k, i, x) && Shows(p, x.event)
    requires forall j :: j in t.receipts && About(k, j, t.receipts[j]) ==> t.receipts[j].event.source < p.source
    ensures Latest(u, k, p)
  {
  }

  /** All recorded events of a subscription are at most as late as its projection. */
  lemma NoneIsLater(w: World, k: SubKey, source: int)
    requires Inv(w) && (k in w.tables.projections ==> w.tables.projections[k].source < source)
    ensures forall j :: j in w.tables.receipts && About(k, j, w.tables.receipts[j]) ==> w.tables.receipts[j].event.source < source
  {
    if k in w.tables.projections { assert Latest(w.tables, k, w.tables.projections[k]); }
  }

  /** What a committed delivery does to the tables. */
  ghost predicate Recorded(w: World, v: World, op: Op, p: Option<Projection>) {
    && op.Inbox() !in w.tables.receipts && op.Inbox() in v.tables.receipts
    && v.tables.receipts == w.tables.receipts[op.Inbox() := v.tables.receipts[op.Inbox()]]
    && v.tables.receipts[op.Inbox()].Receipt? && v.tables.receipts[op.Inbox()].event == op.event
    && v.tables.projections == (if p.Some? then w.tables.projections[op.At() := p.value] else w.tables.projections)
    && v.seen == (if p.Some? then w.seen + {(op.At(), p.value)} else w.seen)
  }

  lemma ExecRecords(w: World, op: Op)
    requires Commits(w, op)
    ensures Recorded(w, Exec(w, op), op, Update(op).value)
  {
  }

  /** A newer event was planned on the projection as it stands. */
  lemma NewerIsNewer(w: World, op: Op)
    requires Inv(w) && Commits(w, op) && Update(op).value.Some?
    ensures op.At() in w.tables.projections ==> w.tables.projections[op.At()].source < op.event.source
    ensures Shows(Update(op).value.value, op.event)
  {
  }

  lemma StaleIsOlder(w: World, op: Op)
    requires Inv(w) && Commits(w, op) && Update(op).value.None?
    ensures op.At() in w.tables.projections && op.event.source < w.tables.projections[op.At()].source
  {
    assert (op.At(), op.read.value) in w.seen;
  }

  lemma StaleKeeps(w: World, v: World, op: Op)
    requires Inv(w) && Recorded(w, v, op, None)
    requires op.At() in w.tables.projections && op.event.source < w.tables.projections[op.At()].source
    ensures Inv(v)
  {
    forall l | l in v.tables.projections ensures Latest(v.tables, l, v.tables.projections[l]) {
      LatestStays(w.tables, v.tables, l, w.tables.projections[l], op.Inbox(), v.tables.receipts[op.Inbox()]);
    }
  }

  lemma NewerIsLatest(w: World, v: World, op: Op, p: Projection)
    requires Inv(w) && Recorded(w, v, op, Some(p)) && Shows(p, op.event)
    requires op.At() in w.tables.projections ==> w.tables.projections[op.At()].source < op.event.source
    ensures AllLatest(v.tables)
  {
    var k := op.At();
    NoneIsLater(w, k, p.source);
    LatestMoves(w.tables, v.tables, k, p, op.Inbox(), v.tables.receipts[op.Inbox()]);
    forall l | l in v.tables.projections ensures Latest(v.tables, l, v.tables.projections[l]) {
      if l != k { LatestStays(w.tables, v.tables, l, w.tables.projections[l], op.Inbox(), v.tables.receipts[op.Inbox()]); }
    }
  }

  lemma NewerKeeps(w: World, v: World, op: Op, p: Projection)
    requires Inv(w) && Recorded(w, v, op, Some(p)) && Shows(p, op.event)
    requires op.At() in w.tables.projections ==> w.tables.projections[op.At()].source < op.event.source
    ensures Inv(v)
  {
    NewerIsLatest(w, v, op, p);
    NewerIsFiled(w, v, op, p);
    NewerIsSeen(w, v, op.At(), p);
  }

  lemma NewerIsFiled(w: World, v: World, op: Op, p: Projection)
    requires AllFiled(w.tables) && Recorded(w, v, op, Some(p))
    ensures AllFiled(v.tables)
  {
    forall i | i in v.tables.receipts && v.tables.receipts[i].Receipt?
      ensures v.tables.receipts[i].event.id == i.event && SubKey(i.pk, v.tables.receipts[i].event.subscription) in v.tables.projections
    {
      if i != op.Inbox() { assert v.tables.receipts[i] == w.tables.receipts[i]; }
    }
  }

  lemma NewerIsSeen(w: World, v: World, k: SubKey, p: Projection)
    requires AllSeen(w) && v.tables.projections == w.tables.projections[k := p] && v.seen == w.seen + {(k, p)}
    requires k in w.tables.projections ==> w.tables.projections[k].source < p.source
    ensures AllSeen(v)
  {
  }

  lemma ExecKeeps(w: World, op: Op)
    requires Inv(w)
    ensures Inv(Exec(w, op))
  {
    if Commits(w, op) {
      ExecRecords(w, op);
      if Update(op).value.Some? {
        NewerIsNewer(w, op);
        NewerKeeps(w, Exec(w, op), op, Update(op).value.value);
      } else {
        StaleIsOlder(w, op);
        StaleKeeps(w, Exec(w, op), op);
      }
    }
  }

  /** A payment or refund event that takes an id changes nothing here. */
  lemma TakeKeeps(w: World, v: World, i: EventKey)
    requires Inv(w) && i !in w.tables.receipts && v == World(w.tables.(receipts := w.tables.receipts[i := Foreign]), w.seen)
    ensures Inv(v)
  {
    forall l | l in v.tables.projections ensures Latest(v.tables, l, v.tables.projections[l]) {
      LatestStays(w.tables, v.tables, l, w.tables.projections[l], i, Foreign);
    }
    TakeFiles(w.tables, v.tables, i);
  }

  lemma TakeFiles(t: Tables, u: Tables, i: EventKey)
    requires AllFiled(t) && i !in t.receipts && u == t.(receipts := t.receipts[i := Foreign])
    ensures AllFiled(u)
  {
    forall j | j in u.receipts && u.receipts[j].Receipt?
      ensures u.receipts[j].event.id == j.event && SubKey(j.pk, u.receipts[j].event.subscription) in u.projections
    {
      assert u.receipts[j] == t.receipts[j];
    }
  }

  lemma AdvanceKeeps(w: World, s: Step)
    requires Inv(w)
    ensures Inv(Advance(w, s))
  {
    match s
    case Deliver(op) => ExecKeeps(w, op);
    case Take(i) => if i !in w.tables.receipts { TakeKeeps(w, Advance(w, s), i); }
  }

  lemma {:induction false} RunKeeps(ops: seq<Step>)
    ensures Inv(Run(ops))
  {
    if ops != [] {
      RunKeeps(ops[..|ops| - 1]);
      AdvanceKeeps(Run(ops[..|ops| - 1]), ops[|ops| - 1]);
    }
  }

  /** Whoever has recorded the latest event of a subscription finds it in the projection. */
  lemma LatestIsShown(w: World, k: SubKey, i: EventKey)
    requires Inv(w) && i in w.tables.receipts && About(k, i, w.tables.receipts[i])
    requires forall j :: j in w.tables.receipts && About(k, j, w.tables.receipts[j]) ==>
      w.tables.receipts[j].event.source <= w.tables.receipts[i].event.source
    ensures k in w.tables.projections && Shows(w.tables.projections[k], w.tables.receipts[i].event)
  {
    assert SubKey(i.pk, w.tables.receipts[i].event.subscription) == k;
    assert Latest(w.tables, k, w.tables.projections[k]);
  }

  /**
   * After any interleaving of deliveries, with stale reads, races and repetitions, and with other kinds of events that
   * take inbox ids, a subscription's projection shows the recorded event with the largest source revision.
   */
  lemma ShowsTheLatest(ops: seq<Step>, k: SubKey, i: EventKey)
    requires var t := Run(ops).tables; i in t.receipts && About(k, i, t.receipts[i])
    requires var t := Run(ops).tables; forall j :: j in t.receipts && About(k, j, t.receipts[j]) ==>
      t.receipts[j].event.source <= t.receipts[i].event.source
    ensures k in Run(ops).tables.projections && Shows(Run(ops).tables.projections[k], Run(ops).tables.receipts[i].event)
  {
    RunKeeps(ops);
    LatestIsShown(Run(ops), k, i);
  }

  // ----- what the answers say -----

  /** The answer says what the event said. */
  predicate Repeats(answer: Answer, e: Event) {
    answer.offer == e.offer && answer.status == e.status && answer.periodEnd == e.periodEnd
  }

  /** A recorded event that was shown when it came, at this revision of its projection. */
  predicate WasShown(t: Tables, k: SubKey, j: EventKey, revision: int) {
    && j in t.receipts && About(k, j, t.receipts[j])
    && !t.receipts[j].answer.stale && t.receipts[j].answer.revision == revision
  }

  /** A stale event came after a later one, which its answer repeats; any other answer repeats the event itself. */
  ghost predicate Truthful(t: Tables, pk: R.Partition, e: Event, answer: Answer) {
    && answer.subscription == e.subscription
    && if answer.stale
       then exists j :: WasShown(t, SubKey(pk, e.subscription), j, answer.revision)
              && e.source < t.receipts[j].event.source && Repeats(answer, t.receipts[j].event)
       else Repeats(answer, e)
  }

  ghost predicate AnswersTrue(t: Tables) {
    forall i :: i in t.receipts && t.receipts[i].Receipt? ==> Truthful(t, i.pk, t.receipts[i].event, t.receipts[i].answer)
  }

  /** Every projection that ever was showed an event that is recorded. */
  predicate Showed(t: Tables, k: SubKey, p: Projection) {
    var j := EventKey(k.pk, p.lastEvent);
    WasShown(t, k, j, p.revision) && Shows(p, t.receipts[j].event)
  }

  ghost predicate AllShowed(w: World) {
    forall k, p :: (k, p) in w.seen ==> Showed(w.tables, k, p)
  }

  lemma MoreReceipts(t: Tables, u: Tables, pk: R.Partition, e: Event, answer: Answer)
    requires Truthful(t, pk, e, answer) && forall j :: j in t.receipts ==> j in u.receipts && u.receipts[j] == t.receipts[j]
    ensures Truthful(u, pk, e, answer)
  {
    if answer.stale {
      var j :| WasShown(t, SubKey(pk, e.subscription), j, answer.revision)
        && e.source < t.receipts[j].event.source && Repeats(answer, t.receipts[j].event);
      assert WasShown(u, SubKey(pk, e.subscription), j, answer.revision);
    }
  }

  /** The answer to a delivery that is committed, from what it read. */
  lemma AnswerIsTrue(w: World, op: Op)
    requires AllShowed(w) && Commits(w, op)
    ensures var x := Exec(w, op).tables.receipts[op.Inbox()];
      && x.Receipt? && x.event == op.event && Truthful(Exec(w, op).tables, op.scope.Pk(), op.event, x.answer)
      && (Update(op).value.Some? ==> Showed(Exec(w, op).tables, op.At(), Update(op).value.value))
  {
    if Update(op).value.None? {
      var k, p := op.At(), op.read.value;
      assert Showed(w.tables, k, p);
      var u, j := Exec(w, op).tables, EventKey(k.pk, p.lastEvent);
      assert WasShown(u, k, j, p.revision) && op.event.source < u.receipts[j].event.source;
    }
  }

  lemma StillTrue(w: World, v: World)
    requires AnswersTrue(w.tables) && AllShowed(w)
    requires forall j :: j in w.tables.receipts ==> j in v.tables.receipts && v.tables.receipts[j] == w.tables.receipts[j]
    ensures forall i :: i in w.tables.receipts && w.tables.receipts[i].Receipt? ==>
      Truthful(v.tables, i.pk, w.tables.receipts[i].event, w.tables.receipts[i].answer)
    ensures forall k, p :: (k, p) in w.seen ==> Showed(v.tables, k, p)
  {
    forall i | i in w.tables.receipts && w.tables.receipts[i].Receipt?
      ensures Truthful(v.tables, i.pk, w.tables.receipts[i].event, w.tables.receipts[i].answer)
    {
      MoreReceipts(w.tables, v.tables, i.pk, w.tables.receipts[i].event, w.tables.receipts[i].answer);
    }
    forall k, p | (k, p) in w.seen ensures Showed(v.tables, k, p) {
      assert Showed(w.tables, k, p);
    }
  }

  /**
   * After any run every recorded answer is true: that of an event which was applied repeats the event, and that of a stale
   * event repeats a later recorded event of the subscription, one that was applied, with the revision that it was given.
   */
  lemma {:induction false} AnswersAreTrue(ops: seq<Step>)
    ensures AnswersTrue(Run(ops).tables) && AllShowed(Run(ops))
  {
    if ops != [] {
      var w, s := Run(ops[..|ops| - 1]), ops[|ops| - 1];
      AnswersAreTrue(ops[..|ops| - 1]);
      StillTrue(w, Advance(w, s));
      if s.Deliver? && Commits(w, s.op) {
        AnswerIsTrue(w, s.op);
      }
    }
  }

  /** Of two projections that a subscription ever had, the later one has the greater revision. */
  ghost predicate Rising(w: World) {
    forall k, p, q :: (k, p) in w.seen && (k, q) in w.seen ==> (p.source < q.source <==> p.revision < q.revision)
  }

  lemma NewestRises(w: World, v: World, k: SubKey, u: Projection)
    requires Rising(w) && v.seen == w.seen + {(k, u)}
    requires forall p :: (k, p) in w.seen ==> p.source < u.source && p.revision < u.revision
    ensures Rising(v)
  {
  }

  lemma {:induction false} RevisionsRise(ops: seq<Step>)
    ensures Rising(Run(ops))
  {
    if ops != [] {
      var w, s := Run(ops[..|ops| - 1]), ops[|ops| - 1];
      RevisionsRise(ops[..|ops| - 1]);
      RunKeeps(ops[..|ops| - 1]);
      if s.Deliver? && Commits(w, s.op) && Update(s.op).value.Some? {
        forall p | (s.op.At(), p) in w.seen ensures p.source < Update(s.op).value.value.source && p.revision < Update(s.op).value.value.revision {
          NewestIsNext(w, s.op, p);
        }
        NewestRises(w, Advance(w, s), s.op.At(), Update(s.op).value.value);
      }
    }
  }

  lemma NewestIsNext(w: World, op: Op, p: Projection)
    requires Inv(w) && Rising(w) && Commits(w, op) && Update(op).value.Some? && (op.At(), p) in w.seen
    ensures p.source < Update(op).value.value.source && p.revision < Update(op).value.value.revision
  {
    NewerIsNewer(w, op);
    var q := w.tables.projections[op.At()];
    assert (op.At(), q) in w.seen;
  }

  // ----- delivery orders -----

  datatype Delivery = Delivery(event: Event, now: nat)

  function Current(w: World, k: SubKey): Option<Projection> {
    if k in w.tables.projections then Some(w.tables.projections[k]) else None
  }

  function DeliveryOp(w: World, scope: R.Scope, d: Delivery): Op {
    Op(scope, d.event, d.now, Current(w, SubKey(scope.Pk(), d.event.subscription)))
  }

  /** Deliveries one after the other, in the order of the list, when other kinds of events have taken some ids. */
  function Delivered(scope: R.Scope, taken: set<EventKey>, ds: seq<Delivery>): World {
    if ds == [] then World(Tables(map[], map i | i in taken :: Foreign), {})
    else var w := Delivered(scope, taken, ds[..|ds| - 1]); Exec(w, DeliveryOp(w, scope, ds[|ds| - 1]))
  }

  /** No delivery comes before its event could have occurred. */
  predicate Timely(ds: seq<Delivery>) {
    forall i :: 0 <= i < |ds| ==> ds[i].event.source > 0 && ds[i].event.occurredAt <= ds[i].now + MAX_EVENT_FUTURE_SKEW
  }

  /** Different events have different ids, and within a subscription different source revisions. */
  predicate Distinct(ds: seq<Delivery>) {
    forall i, j :: 0 <= i < |ds| && 0 <= j < |ds| && ds[i].event != ds[j].event ==>
      && ds[i].event.id != ds[j].event.id
      && (ds[i].event.subscription == ds[j].event.subscription ==> ds[i].event.source != ds[j].event.source)
  }

  /** The inbox holds the taken ids, and beside them exactly the delivered events. */
  ghost predicate Exactly(w: World, scope: R.Scope, taken: set<EventKey>, ds: seq<Delivery>) {
    && (forall i :: 0 <= i < |ds| && EventKey(scope.Pk(), ds[i].event.id) !in taken ==> Filed(w, scope, ds[i].event))
    && (forall k :: k in taken ==> k in w.tables.receipts)
    && (forall k :: k in w.tables.receipts ==> if k in taken then w.tables.receipts[k] == Foreign else Delivers(w.tables.receipts[k], k, scope, ds))
    && (forall k :: k in w.tables.projections ==> w.tables.projections[k].domain == scope.domain)
  }

  predicate Filed(w: World, scope: R.Scope, e: Event) {
    var k := EventKey(scope.Pk(), e.id);
    k in w.tables.receipts && w.tables.receipts[k].Receipt? && w.tables.receipts[k].event == e
  }

  ghost predicate Delivers(x: Receipt, k: EventKey, scope: R.Scope, ds: seq<Delivery>) {
    x.Receipt? && k.pk == scope.Pk() && exists i :: 0 <= i < |ds| && ds[i].event == x.event
  }

  lemma DeliversMore(x: Receipt, k: EventKey, scope: R.Scope, ds: seq<Delivery>, d: Delivery)
    requires Delivers(x, k, scope, ds)
    ensures Delivers(x, k, scope, ds + [d])
  {
    var i :| 0 <= i < |ds| && ds[i].event == x.event;
    assert (ds + [d])[i] == ds[i];
  }

  /** A new event is recorded: it is neither known nor ambiguous. */
  lemma OneMoreRecorded(w: World, scope: R.Scope, taken: set<EventKey>, ds: seq<Delivery>, d: Delivery)
    requires Inv(w) && Exactly(w, scope, taken, ds) && Timely(ds + [d]) && Distinct(ds + [d])
    requires EventKey(scope.Pk(), d.event.id) !in w.tables.receipts
    ensures Commits(w, DeliveryOp(w, scope, d))
  {
    var op := DeliveryOp(w, scope, d);
    assert (ds + [d])[|ds|] == d;
    if op.At() in w.tables.projections {
      var p := w.tables.projections[op.At()];
      assert Latest(w.tables, op.At(), p);
      var k := EventKey(scope.Pk(), p.lastEvent);
      assert Delivers(w.tables.receipts[k], k, scope, ds);
      var i :| 0 <= i < |ds| && ds[i].event == w.tables.receipts[k].event;
      assert (ds + [d])[i] == ds[i];
    }
  }

  lemma StillExactly(w: World, scope: R.Scope, taken: set<EventKey>, ds: seq<Delivery>, d: Delivery)
    requires Exactly(w, scope, taken, ds) && (EventKey(scope.Pk(), d.event.id) in taken || Filed(w, scope, d.event))
    ensures Exactly(w, scope, taken, ds + [d])
  {
    forall k | k in w.tables.receipts && k !in taken ensures Delivers(w.tables.receipts[k], k, scope, ds + [d]) {
      DeliversMore(w.tables.receipts[k], k, scope, ds, d);
    }
  }

  lemma NowExactly(w: World, v: World, scope: R.Scope, taken: set<EventKey>, ds: seq<Delivery>, d: Delivery, p: Option<Projection>)
    requires Exactly(w, scope, taken, ds) && Recorded(w, v, DeliveryOp(w, scope, d), p) && (p.Some? ==> p.value.domain == scope.domain)
    ensures Exactly(v, scope, taken, ds + [d])
  {
    var inbox := EventKey(scope.Pk(), d.event.id);
    assert inbox !in taken;
    forall k | k in v.tables.receipts && k !in taken ensures Delivers(v.tables.receipts[k], k, scope, ds + [d]) {
      if k == inbox {
        assert (ds + [d])[|ds|] == d;
      } else {
        DeliversMore(w.tables.receipts[k], k, scope, ds, d);
      }
    }
    forall i | 0 <= i < |ds + [d]| && EventKey(scope.Pk(), (ds + [d])[i].event.id) !in taken ensures Filed(v, scope, (ds + [d])[i].event) {
      if i < |ds| { assert Filed(w, scope, ds[i].event); }
    }
  }

  lemma OneMoreDelivery(w: World, scope: R.Scope, taken: set<EventKey>, ds: seq<Delivery>, d: Delivery)
    requires Inv(w) && Exactly(w, scope, taken, ds) && Timely(ds + [d]) && Distinct(ds + [d])
    ensures Exactly(Exec(w, DeliveryOp(w, scope, d)), scope, taken, ds + [d])
  {
    var op := DeliveryOp(w, scope, d);
    if op.Inbox() in w.tables.receipts {
      if op.Inbox() !in taken { KnownIsSame(w, scope, taken, ds, d); }
      StillExactly(w, scope, taken, ds, d);
    } else {
      OneMoreRecorded(w, scope, taken, ds, d);
      ExecRecords(w, op);
      NowExactly(w, Exec(w, op), scope, taken, ds, d, Update(op).value);
    }
  }

  ghost predicate Done(scope: R.Scope, taken: set<EventKey>, ds: seq<Delivery>) {
    Inv(Delivered(scope, taken, ds)) && Exactly(Delivered(scope, taken, ds), scope, taken, ds)
  }

  lemma NothingDelivered(scope: R.Scope, taken: set<EventKey>, ds: seq<Delivery>)
    requires ds == []
    ensures Done(scope, taken, ds)
  {
  }

  lemma DeliverOne(w: World, v: World, scope: R.Scope, taken: set<EventKey>, init: seq<Delivery>, d: Delivery)
    requires Inv(w) && Exactly(w, scope, taken, init) && Timely(init + [d]) && Distinct(init + [d]) && v == Exec(w, DeliveryOp(w, scope, d))
    ensures Inv(v) && Exactly(v, scope, taken, init + [d])
  {
    ExecKeeps(w, DeliveryOp(w, scope, d));
    OneMoreDelivery(w, scope, taken, init, d);
  }

  lemma DeliverLast(scope: R.Scope, taken: set<EventKey>, ds: seq<Delivery>)
    requires ds != [] && Timely(ds) && Distinct(ds) && Done(scope, taken, ds[..|ds| - 1])
    ensures Done(scope, taken, ds)
  {
    var init, d := ds[..|ds| - 1], ds[|ds| - 1];
    assert init + [d] == ds;
    DeliverOne(Delivered(scope, taken, init), Delivered(scope, taken, ds), scope, taken, init, d);
  }

  lemma FewerDeliveries(ds: seq<Delivery>)
    requires ds != [] && Timely(ds) && Distinct(ds)
    ensures Timely(ds[..|ds| - 1]) && Distinct(ds[..|ds| - 1])
  {
  }

  lemma {:induction false} AllRecorded(scope: R.Scope, taken: set<EventKey>, ds: seq<Delivery>)
    requires Timely(ds) && Distinct(ds)
    ensures Done(scope, taken, ds)
  {
    if ds == [] {
      NothingDelivered(scope, taken, ds);
    } else {
      FewerDeliveries(ds);
      AllRecorded(scope, taken, ds[..|ds| - 1]);
      DeliverLast(scope, taken, ds);
    }
  }

  lemma KnownIsSame(w: World, scope: R.Scope, taken: set<EventKey>, ds: seq<Delivery>, d: Delivery)
    requires Inv(w) && Exactly(w, scope, taken, ds) && Distinct(ds + [d])
    requires EventKey(scope.Pk(), d.event.id) in w.tables.receipts && EventKey(scope.Pk(), d.event.id) !in taken
    ensures Filed(w, scope, d.event)
  {
    var k := EventKey(scope.Pk(), d.event.id);
    assert Delivers(w.tables.receipts[k], k, scope, ds);
    var i :| 0 <= i < |ds| && ds[i].event == w.tables.receipts[k].event;
    assert (ds + [d])[i] == ds[i] && (ds + [d])[|ds|] == d;
  }

  /** The event's id was not taken by a payment or refund event. */
  predicate Free(scope: R.Scope, taken: set<EventKey>, e: Event) {
    EventKey(scope.Pk(), e.id) !in taken
  }

  /**
   * Convergence: every delivery order of a set of events, with any repetitions, ends with each subscription showing,
   * of the events whose ids no other kind of event has taken, the one with the largest source revision.
   */
  lemma Converges(scope: R.Scope, taken: set<EventKey>, ds: seq<Delivery>, m: nat)
    requires Timely(ds) && Distinct(ds) && m < |ds| && Free(scope, taken, ds[m].event)
    requires forall i :: 0 <= i < |ds| && Free(scope, taken, ds[i].event) && ds[i].event.subscription == ds[m].event.subscription ==>
      ds[i].event.source <= ds[m].event.source
    ensures var k, t := SubKey(scope.Pk(), ds[m].event.subscription), Delivered(scope, taken, ds).tables;
      k in t.projections && Shows(t.projections[k], ds[m].event)
  {
    AllRecorded(scope, taken, ds);
    var w, k, i := Delivered(scope, taken, ds), SubKey(scope.Pk(), ds[m].event.subscription), EventKey(scope.Pk(), ds[m].event.id);
    assert Filed(w, scope, ds[m].event);
    forall j | j in w.tables.receipts && About(k, j, w.tables.receipts[j])
      ensures w.tables.receipts[j].event.source <= w.tables.receipts[i].event.source
    {
      assert Delivers(w.tables.receipts[j], j, scope, ds);
      var n :| 0 <= n < |ds| && ds[n].event == w.tables.receipts[j].event;
      assert Free(scope, taken, ds[n].event);
    }
    LatestIsShown(w, k, i);
  }

  // ----- the store -----

  /** `_receipt_result`. */
  function RecallEvent(x: Receipt, domain: string, e: Event): Result<Answer> {
    if x.Foreign? || x.domain != domain || x.event != e then Err(Conflict) else Ok(x.answer)
  }

  ghost predicate EventRecorded(t: Tables, scope: R.Scope, e: Event, answer: Answer) {
    var i := EventKey(scope.Pk(), e.id);
    i in t.receipts && RecallEvent(t.receipts[i], scope.domain, e) == Ok(answer)
  }

  lemma RecordedIsTrue(ops: seq<Step>, scope: R.Scope, e: Event)
    requires EventKey(scope.Pk(), e.id) in Run(ops).tables.receipts
    ensures forall answer :: EventRecorded(Run(ops).tables, scope, e, answer) ==> Truthful(Run(ops).tables, scope.Pk(), e, answer)
  {
    AnswersAreTrue(ops);
  }

  class SubscriptionProjectionStore {
    var tables: Tables
    var seen: set<(SubKey, Projection)>
    /** All transactions so far, and those of this caller. */
    ghost var ops: seq<Step>
    ghost var mine: seq<Op>

    ghost predicate Valid()
      reads this
    {
      World(tables, seen) == Run(ops)
    }

    constructor ()
      ensures Valid() && ops == [] && mine == []
    {
      tables, seen, ops, mine := EMPTY.tables, EMPTY.seen, [], [];
    }

    /** Any number of other callers' transactions. */
    method Interfere()
      requires Valid()
      modifies this
      ensures Valid() && old(ops) <= ops && mine == old(mine)
    {
      var n: nat := *;
      while n > 0
        invariant Valid() && old(ops) <= ops && mine == old(mine)
      {
        var step: Step := *;
        assert (ops + [step])[..|ops|] == ops;
        var w := Advance(World(tables, seen), step);
        tables, seen, ops := w.tables, w.seen, ops + [step];
        n := n - 1;
      }
    }

    method GetReceipt(i: EventKey) returns (x: Option<Receipt>)
      requires Valid()
      modifies this
      ensures Valid() && old(ops) <= ops && mine == old(mine)
      ensures x == if i in tables.receipts then Some(tables.receipts[i]) else None
    {
      Interfere();
      x := if i in tables.receipts then Some(tables.receipts[i]) else None;
    }

    method GetProjection(k: SubKey) returns (p: Option<Projection>)
      requires Valid()
      modifies this
      ensures Valid() && old(ops) <= ops && mine == old(mine)
      ensures p == Current(World(tables, seen), k) && (p.Some? ==> (k, p.value) in seen)
    {
      Interfere();
      RunKeeps(ops);
      p := if k in tables.projections then Some(tables.projections[k]) else None;
    }

    /** The projection and the receipt, or the receipt alone, or nothing. */
    method Transact(op: Op) returns (reply: Reply)
      requires Valid() && Update(op).Ok? && (op.read.Some? ==> (op.At(), op.read.value) in seen)
      modifies this
      ensures Valid() && old(ops) <= ops
      ensures mine == old(mine) || (mine == old(mine) + [op] && op.Inbox() in tables.receipts && Written(tables.receipts[op.Inbox()], op))
      ensures reply == Applied ==> mine == old(mine) + [op]
      ensures reply == Refused ==> mine == old(mine) && !Holds(tables, op)
    {
      ghost var before := ops;
      Interfere();
      SeenStays(before, ops);
      var arrives: bool := *;
      var heard: bool := *;
      if arrives && Holds(tables, op) {
        assert (ops + [Deliver(op)])[..|ops|] == ops;
        var w := Exec(World(tables, seen), op);
        tables, seen, ops, mine := w.tables, w.seen, ops + [Deliver(op)], mine + [op];
        reply := if heard then Applied else Lost;
      } else {
        reply := if arrives && heard then Refused else Lost;
      }
    }

    /**
     * `apply_verified_event`. As in the fiscal store's single writes, nothing looks for the receipt after a lost reply: the
     * backend's own exception passes through, and the caller does not know whether the event was recorded.
     */
    method ApplyVerifiedEvent(scope: R.Scope, e: Event, now: nat) returns (r: Result<Answer>)
      requires Valid()
      modifies this
      ensures Valid() && old(ops) <= ops
      ensures mine == old(mine) || exists read :: mine == old(mine) + [Op(scope, e, now, read)]
      ensures r == Err(InvalidInput) <==> e.source <= 0 || e.occurredAt > now + MAX_EVENT_FUTURE_SKEW
      ensures r.Ok? ==> EventRecorded(tables, scope, e, r.value) && Truthful(tables, scope.Pk(), e, r.value)
      ensures r == Err(Conflict) ==> mine == old(mine)
      ensures r == Err(Conflict) && ops == old(ops) ==> !Commits(World(tables, seen), DeliveryOp(World(tables, seen), scope, Delivery(e, now)))
      ensures var i := EventKey(scope.Pk(), e.id);
        i in old(tables.receipts) && r != Err(InvalidInput) ==> mine == old(mine) && r == RecallEvent(old(tables.receipts[i]), scope.domain, e)
    {
      if e.source <= 0 || e.occurredAt > now + MAX_EVENT_FUTURE_SKEW {
        return Err(InvalidInput);
      }
      ghost var start := ops;
      var i := EventKey(scope.Pk(), e.id);
      var x := GetReceipt(i);
      if i in Run(start).tables.receipts { ReceiptStays(start, ops, i); }
      if x.Some? {
        RecordedIsTrue(ops, scope, e);
        return RecallEvent(x.value, scope.domain, e);
      }
      ghost var looked := ops;
      var current := GetProjection(SubKey(scope.Pk(), e.subscription));
      assert ops == start ==> looked == ops;
      if Update(Op(scope, e, now, current)).Err? {
        return Err(Conflict);
      }
      var op := Op(scope, e, now, current);
      assert ops == looked ==> Holds(tables, op);
      r := SendEvent(op);
      if r.Ok? { RecordedIsTrue(ops, scope, e); }
    }

    method SendEvent(op: Op) returns (r: Result<Answer>)
      requires Valid() && Update(op).Ok? && (op.read.Some? ==> (op.At(), op.read.value) in seen)
      modifies this
      ensures Valid() && old(ops) <= ops
      ensures mine == old(mine) || mine == old(mine) + [op]
      ensures r.Ok? ==> EventRecorded(tables, op.scope, op.event, r.value)
      ensures r.Err? ==> r.error in {Conflict, Unplanned}
      ensures r == Err(Conflict) ==> mine == old(mine) && (ops != old(ops) || !Holds(old(tables), op))
    {
      var reply := Transact(op);
      assert reply == Refused ==> ops != old(ops) || !Holds(old(tables), op);
      var u := Update(op).value;
      if reply == Applied {
        return Ok(AnswerOf(op.event.subscription, if u.Some? then u.value else op.read.value, u.None?));
      }
      if reply == Lost {
        return Err(Unplanned);
      }
      var x := GetReceipt(op.Inbox());
      r := if x.Some? then RecallEvent(x.value, op.scope.domain, op.event) else Err(Conflict);
    }
  }

  predicate Written(x: Receipt, op: Op)
    requires Update(op).Ok?
  {
    var u := Update(op).value;
    x.Receipt? && x.domain == op.scope.domain && x.event == op.event
    && x.answer == AnswerOf(op.event.subscription, if u.Some? then u.value else op.read.value, u.None?)
  }

  lemma {:induction false} SeenStays(ops: seq<Step>, later: seq<Step>)
    requires ops <= later
    ensures Run(ops).seen <= Run(later).seen
    decreases |later|
  {
    if |ops| < |later| {
      SeenStays(ops, later[..|later| - 1]);
    } else {
      assert ops == later;
    }
  }

  lemma {:induction false} ReceiptStays(ops: seq<Step>, later: seq<Step>, i: EventKey)
    requires ops <= later && i in Run(ops).tables.receipts
    ensures i in Run(later).tables.receipts && Run(later).tables.receipts[i] == Run(ops).tables.receipts[i]
    decreases |later|
  {
    if |ops| < |later| {
      ReceiptStays(ops, later[..|later| - 1], i);
    } else {
      assert ops == later;
    }
  }
}
