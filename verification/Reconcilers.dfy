/** The five-minute reconciler: what it does to each due reservation, on what evidence. src/reconciliation.py 51-143. */
module Reconcilers {
  import opened Basics
  import opened Records
  import opened Plans
  import opened Protocol
  import opened Runs
  import opened Backends
  import opened Calls
  import opened DueLists
  import opened Stores
  import ReceiptTruth

  const RECONCILIATION_WORK_LIMIT: int := 25

  /** The status that a lookup brings; a gateway that raises brings LookupFailed, and it may answer anything else. */
  datatype Found = FoundPaid | FoundUnpaid | FoundNotCreated | FoundPending | FoundUnknown | LookupFailed | FoundOther

  /** What one status lookup of this run said about one due reservation, after the first `at` transactions. */
  datatype Lookup = Lookup(scope: Scope, reservation: Id, found: Found, at: nat)

  datatype Decision = CommitNow(reason: Reason) | ReleaseNow(reason: Reason) | Hold(next: nat)

  /** `reconciliation_outcome`. */
  function ReconciliationOutcome(found: Found, now: nat): Result<Decision> {
    match found
    case FoundPaid => Ok(CommitNow(CanonicalPaid))
    case FoundUnpaid => Ok(ReleaseNow(CanonicalTerminalUnpaid))
    case FoundNotCreated => Ok(ReleaseNow(CanonicalNotCreated))
    case FoundPending => Ok(Hold(now + RECONCILER_INTERVAL_SECONDS))
    case FoundUnknown => Ok(Hold(now + RECONCILER_INTERVAL_SECONDS))
    case LookupFailed => Ok(Hold(now + RECONCILER_INTERVAL_SECONDS))
    case FoundOther => Err(InvalidInput)
  }

  datatype Counts = Counts(processed: nat, committed: nat, released: nat, deferred: nat, failed: nat)
  {
    /** Every item is processed or failed once; a failed one may still have been deferred. */
    predicate Balanced(items: nat) {
      && committed + released <= processed <= committed + released + deferred <= processed + failed
      && processed + failed <= items
    }
  }

  // ----- what a transaction of the reconciler may be -----

  /** The operation ends the reservation in the way that the lookup's finding calls for. */
  predicate EndsAs(op: Op, x: Lookup) {
    && (op.FinishOp? || op.AcknowledgeOp?)
    && op.scope == x.scope && op.finish.reservation == x.reservation
    && match x.found
       case FoundPaid => op.finish.status == Committed && op.finish.reason == CanonicalPaid
       case FoundUnpaid => op.finish.status == Released && op.finish.reason == CanonicalTerminalUnpaid
       case FoundNotCreated => op.finish.status == Released && op.finish.reason == CanonicalNotCreated
       case _ => false
  }

  /** The transaction at place `i` may be a run's own: a deferral, or an end for which this run had found the evidence. */
  ghost predicate Justified(op: Op, i: nat, lookups: seq<Lookup>) {
    op.DeferOp? || exists x :: x in lookups && x.at <= i && EndsAs(op, x)
  }

  /** All that this caller committed between the two moments was justified when it was committed. */
  ghost predicate ActsOn(lookups: seq<Lookup>, before: seq<Entry>, after: seq<Entry>) {
    && before <= after
    && forall i :: |before| <= i < |after| && after[i].own ==> Justified(after[i].op, i, lookups)
  }

  /** The own entries of a stretch of the log are those that it adds to this caller's transactions. */
  lemma {:induction false} OwnAreMine(before: seq<Entry>, after: seq<Entry>)
    requires before <= after
    ensures Mine(before) <= Mine(after)
    ensures forall i :: |before| <= i < |after| && after[i].own ==> after[i].op in Mine(after)[|Mine(before)|..]
    decreases |after|
  {
    if |before| < |after| {
      var n := |after| - 1;
      OwnAreMine(before, after[..n]);
      var added := Mine(after[..n])[|Mine(before)|..];
      assert Mine(after)[|Mine(before)|..] == added + (if after[n].own then [after[n].op] else []);
      forall i | |before| <= i < |after| && after[i].own ensures after[i].op in Mine(after)[|Mine(before)|..] {
        if i < n { assert after[..n][i] == after[i]; }
      }
    } else {
      assert before == after;
    }
  }

  lemma QuietActs(lookups: seq<Lookup>, before: seq<Entry>, after: seq<Entry>)
    requires Quiet(before, after)
    ensures ActsOn(lookups, before, after)
  {
    OwnAreMine(before, after);
  }

  lemma ActsTransitive(lookups: seq<Lookup>, more: seq<Lookup>, a: seq<Entry>, b: seq<Entry>, c: seq<Entry>)
    requires ActsOn(lookups, a, b) && ActsOn(more, b, c) && lookups <= more
    ensures ActsOn(more, a, c)
  {
    ActsMore(lookups, more, a, b);
    forall i | |a| <= i < |c| && c[i].own ensures Justified(c[i].op, i, more) {
      if i < |b| { assert c[i] == b[i]; }
    }
  }

  /** A transaction that carries a deferral's receipt is a deferral. */
  lemma DeferralActs(scope: Scope, rid: Id, next: nat, key: string, lookups: seq<Lookup>, before: seq<Entry>, after: seq<Entry>)
    requires OnceAtMost(DeferCall(scope, rid, next, key), before, after)
    ensures ActsOn(lookups, before, after)
  {
    OwnAreMine(before, after);
    if Mine(after) != Mine(before) {
      var op :| Mine(after) == Mine(before) + [op] && Serves(op, DeferCall(scope, rid, next, key));
      assert Mine(after)[|Mine(before)|..] == [op];
    }
  }

  /** A transaction that carries a completion's receipt ends that reservation, in the receipt's way. */
  lemma ServesFinish(op: Op, call: Call, scope: Scope, x: Lookup)
    requires Serves(op, call) && call.pk == scope.Pk() && call.domain == scope.domain && x.scope == scope
    requires call.request.FinishRequest? && call.request.reservation == x.reservation
    requires match x.found
             case FoundPaid => call.request.status == Committed && call.request.reason == CanonicalPaid
             case FoundUnpaid => call.request.status == Released && call.request.reason == CanonicalTerminalUnpaid
             case FoundNotCreated => call.request.status == Released && call.request.reason == CanonicalNotCreated
             case _ => false
    ensures EndsAs(op, x)
  {
  }

  // ----- the reconciler -----

  /** What became of one due reservation. */
  datatype Step = DidCommit | DidRelease | DidDefer | Failed(deferred: bool) | StopsAfterFailure | Stops | Raises

  function Count(c: Counts, s: Step): Counts {
    match s
    case DidCommit => c.(processed := c.processed + 1, committed := c.committed + 1)
    case DidRelease => c.(processed := c.processed + 1, released := c.released + 1)
    case DidDefer => c.(processed := c.processed + 1, deferred := c.deferred + 1)
    case Failed(deferred) => c.(failed := c.failed + 1, deferred := if deferred then c.deferred + 1 else c.deferred)
    case StopsAfterFailure => c.(failed := c.failed + 1)
    case _ => c
  }

  /** The step that goes with a finding when the store accepts it. */
  function StepFor(found: Found): Option<Step> {
    match found
    case FoundPaid => Some(DidCommit)
    case FoundUnpaid => Some(DidRelease)
    case FoundNotCreated => Some(DidRelease)
    case FoundOther => None
    case _ => Some(DidDefer)
  }

  /** The payment event that the reconciler makes of a finding. */
  function PaymentOf(due: Listed, found: Found, key: string, now: nat): PaymentEvent
    requires due.DueReservation?
  {
    PaymentEvent("reconcile-" + key, if found == FoundPaid then Succeeded else PaymentKind.TerminalUnpaid, now,
                 due.reservation, due.order, due.attempt)
  }

  function ReleaseOf(due: Listed, key: string): Finish
    requires due.DueReservation?
  {
    Finish(due.reservation, Released, CanonicalNotCreated, "reconcile:" + key, None)
  }

  /** What the finding calls for is in the tables: its receipt, or the release that was there already. */
  ghost predicate Carried(due: Listed, found: Found, key: string, now: nat, t: Tables) {
    due.DueReservation?
    && match found
       case FoundPaid => Answers(EventCall(due.scope, PaymentHash(PaymentOf(due, found, key, now), due.scope)), t)
       case FoundUnpaid => Answers(EventCall(due.scope, PaymentHash(PaymentOf(due, found, key, now), due.scope)), t)
       case FoundNotCreated => Answers(FinishCall(due.scope, ReleaseOf(due, key)), t) || IsReleased(due, t)
       case FoundOther => false
       case _ => Answers(DeferCall(due.scope, due.reservation, now + RECONCILER_INTERVAL_SECONDS, "reconcile:" + key), t)
  }

  ghost predicate Answers(call: Call, t: Tables) {
    call.Receipt() in t && Recall(call, t[call.Receipt()]).Ok?
  }

  ghost predicate IsReleased(due: Listed, t: Tables)
    requires due.DueReservation?
  {
    var rk := ReservationKey(due.scope.Pk(), due.reservation);
    rk in t && t[rk].ReservationItem? && t[rk].reservation.status == Released && t[rk].reservation.reason == Some(CanonicalNotCreated)
  }

  /** What a finding that ends a reservation calls for. */
  function EndFor(found: Found): Option<(ReservationStatus, Reason)> {
    match found
    case FoundPaid => Some((Committed, CanonicalPaid))
    case FoundUnpaid => Some((Released, CanonicalTerminalUnpaid))
    case FoundNotCreated => Some((Released, CanonicalNotCreated))
    case _ => None
  }

  /** A counted end is an end: the reservation itself is committed or released, for the reason that was found. */
  lemma CountedIsEnded(due: Listed, found: Found, key: string, now: nat, log: seq<Entry>)
    requires Carried(due, found, key, now, TablesAt(log)) && EndFor(found).Some?
    ensures var t, rk := TablesAt(log), ReservationKey(due.scope.Pk(), due.reservation);
      && rk in t && t[rk].ReservationItem?
      && t[rk].reservation.status == EndFor(found).value.0 && t[rk].reservation.reason == Some(EndFor(found).value.1)
  {
    var call := if found == FoundNotCreated then FinishCall(due.scope, ReleaseOf(due, key))
                else EventCall(due.scope, PaymentHash(PaymentOf(due, found, key, now), due.scope));
    if Answers(call, TablesAt(log)) { ReceiptTruth.ReceiptsAreTrue(OpsOf(log), call.Receipt()); }
  }

  lemma CarriedStays(due: Listed, found: Found, key: string, now: nat, before: seq<Entry>, after: seq<Entry>)
    requires before <= after && Carried(due, found, key, now, TablesAt(before))
    ensures Carried(due, found, key, now, TablesAt(after))
  {
    match found
    case FoundPaid => AnswersStays(EventCall(due.scope, PaymentHash(PaymentOf(due, found, key, now), due.scope)), before, after);
    case FoundUnpaid => AnswersStays(EventCall(due.scope, PaymentHash(PaymentOf(due, found, key, now), due.scope)), before, after);
    case FoundNotCreated =>
      if Answers(FinishCall(due.scope, ReleaseOf(due, key)), TablesAt(before)) {
        AnswersStays(FinishCall(due.scope, ReleaseOf(due, key)), before, after);
      } else {
        ReleasedStays(due, before, after);
      }
    case FoundOther =>
    case _ => AnswersStays(DeferCall(due.scope, due.reservation, now + RECONCILER_INTERVAL_SECONDS, "reconcile:" + key), before, after);
  }

  lemma AnswersStays(call: Call, before: seq<Entry>, after: seq<Entry>)
    requires before <= after && Answers(call, TablesAt(before))
    ensures Answers(call, TablesAt(after))
  {
    ReceiptStays(before, after, call.Receipt());
  }

  lemma ReleasedStays(due: Listed, before: seq<Entry>, after: seq<Entry>)
    requires before <= after && due.DueReservation? && IsReleased(due, TablesAt(before))
    ensures IsReleased(due, TablesAt(after))
  {
    OpsPrefix(before, after);
    var a, b := OpsOf(before), OpsOf(after);
    RunAdvances(a, b[|a|..]);
    assert a + b[|a|..] == b;
    var rk := ReservationKey(due.scope.Pk(), due.reservation);
    assert Stays(TablesAt(before)[rk], TablesAt(after)[rk]);
  }

  class ReservationReconciler {
    const store: CommerceStore
    /** The digest of a marker key and a status, or of a marker key and the word for failure. */
    const digest: (Key, Option<Found>) -> string

    constructor (store: CommerceStore, digest: (Key, Option<Found>) -> string)
      ensures this.store == store && this.digest == digest
    {
      this.store, this.digest := store, digest;
    }

    /** Enough time left, not enough, or an exception from the clock. */
    method HasTimeBudget() returns (enough: Option<bool>)
    {
      enough := *;
    }

    /** `_revalidate`: the published policy is available and is that of the scope. */
    method Revalidate(scope: Scope) returns (matches: bool)
    {
      matches := *;
    }

    /** `_status`: the provider's answer, or None when the published payment binding is invalid. */
    method LookUp(scope: Scope, order: Id, attempt: Id) returns (found: Option<Found>)
    {
      found := *;
    }

    /** The mutation that the finding calls for; None when it raises. */
    method Act(due: Listed, found: Found, now: nat) returns (step: Option<Step>)
      requires store.backend.Valid() && due.DueReservation?
      modifies store.backend
      ensures store.backend.Valid()
      ensures ActsOn([Lookup(due.scope, due.reservation, found, |old(store.backend.log)|)], old(store.backend.log), store.backend.log)
      ensures step.Some? ==> step == StepFor(found) && Carried(due, found, digest(due.marker, Some(found)), now, TablesAt(store.backend.log))
      ensures found == FoundOther ==> store.backend.log == old(store.backend.log)
    {
      ghost var start := store.backend.log;
      ghost var x := Lookup(due.scope, due.reservation, found, |start|);
      var decision := ReconciliationOutcome(found, now);
      if decision.Err? {
        return None;
      }
      var key := digest(due.marker, Some(found));
      if found == FoundPaid || found == FoundUnpaid {
        var e := PaymentOf(due, found, key, now);
        var r := store.ApplyPaymentEvent(due.scope, e, now);
        FinishActs(EventCall(due.scope, PaymentHash(e, due.scope)), due.scope, x, start, store.backend.log);
        return if r.Err? then None else Some(if found == FoundPaid then DidCommit else DidRelease);
      }
      if decision.value.ReleaseNow? {
        var f := ReleaseOf(due, key).(reason := decision.value.reason);
        var r := store.FinishReservation(due.scope, f, now);
        if Quiet(start, store.backend.log) { QuietActs([x], start, store.backend.log); }
        else { FinishActs(FinishCall(due.scope, f), due.scope, x, start, store.backend.log); }
        return if r.Err? then None else Some(DidRelease);
      }
      var r := store.DeferReservation(due.scope, due.reservation, decision.value.next, "reconcile:" + key, now);
      DeferralActs(due.scope, due.reservation, decision.value.next, "reconcile:" + key, [x], start, store.backend.log);
      step := if r.Err? then None else Some(DidDefer);
    }

    /** The handler of an exception: count it, and try to defer the reservation. */
    method DeferFailure(due: Listed, now: nat) returns (step: Step)
      requires store.backend.Valid() && due.DueReservation?
      modifies store.backend
      ensures store.backend.Valid() && ActsOn([], old(store.backend.log), store.backend.log)
      ensures step.Failed? || step.StopsAfterFailure? || step.Raises?
    {
      var enough := HasTimeBudget();
      if enough.None? {
        QuietActs([], store.backend.log, store.backend.log);
        return Raises;
      }
      if !enough.value {
        QuietActs([], store.backend.log, store.backend.log);
        return StopsAfterFailure;
      }
      ghost var start := store.backend.log;
      var next, key := now + RECONCILER_INTERVAL_SECONDS, "reconcile-failure:" + digest(due.marker, None);
      var r := store.DeferReservation(due.scope, due.reservation, next, key, now);
      DeferralActs(due.scope, due.reservation, next, key, [], start, store.backend.log);
      step := Failed(r.Ok?);
    }

    /** One due reservation up to the point where it is handled; None when an exception is raised on the way. */
    method TryDue(due: Listed, now: nat) returns (step: Option<Step>, ghost found: Option<Found>)
      requires store.backend.Valid() && due.DueReservation?
      modifies store.backend
      ensures store.backend.Valid() && ActsOn(LookupsOf(due, found, |old(store.backend.log)|), old(store.backend.log), store.backend.log)
      ensures step.Some? && !step.value.Stops? ==>
        && found.Some? && step == StepFor(found.value)
        && Carried(due, found.value, digest(due.marker, found), now, TablesAt(store.backend.log))
    {
      found := None;
      QuietActs([], store.backend.log, store.backend.log);
      var matches := Revalidate(due.scope);
      if !matches {
        return None, None;
      }
      var enough := HasTimeBudget();
      if enough != Some(true) {
        return if enough.None? then None else Some(Stops), None;
      }
      var answer := LookUp(due.scope, due.order, due.attempt);
      if answer.None? {
        return None, None;
      }
      enough := HasTimeBudget();
      if enough != Some(true) {
        return if enough.None? then None else Some(Stops), None;
      }
      step := Act(due, answer.value, now);
      found := answer;
    }

    /** The body of the loop of `run`. The quarantine of an invalid marker is not part of this model. */
    method HandleDue(due: Listed, now: nat) returns (step: Step, ghost found: Option<Found>)
      requires store.backend.Valid()
      modifies store.backend
      ensures store.backend.Valid() && Handles(due, step, found, now, old(store.backend.log), store.backend.log)
      ensures due.InvalidDueMarker? ==> step == Failed(false) && store.backend.log == old(store.backend.log)
    {
      ghost var start := store.backend.log;
      if due.InvalidDueMarker? {
        QuietActs([], start, start);
        return Failed(false), None;
      }
      var tried;
      tried, found := TryDue(due, now);
      if tried.Some? {
        return tried.value, found;
      }
      ghost var after := store.backend.log;
      step := DeferFailure(due, now);
      ActsMore([], LookupsOf(due, found, |start|), after, store.backend.log);
      ActsTransitive(LookupsOf(due, found, |start|), LookupsOf(due, found, |start|), start, after, store.backend.log);
    }

    /** What the counters of a run stand for: every counted outcome, with the finding behind it, is in the tables. */
    ghost predicate Accounts(c: Counts, handled: seq<(Listed, Found)>, now: nat, t: Tables) {
      && |handled| == c.processed
      && c.committed == CommittedOf(handled) && c.released == ReleasedOf(handled)
      && forall x :: x in handled ==> Carried(x.0, x.1, digest(x.0.marker, Some(x.1)), now, t)
    }

    /** The state of a run after `items` items. */
    ghost predicate Stage(c: Counts, items: nat, lookups: seq<Lookup>, handled: seq<(Listed, Found)>, now: nat, start: seq<Entry>, log: seq<Entry>) {
      ActsOn(lookups, start, log) && c.Balanced(items) && Accounts(c, handled, now, TablesAt(log))
    }

    ghost predicate Handles(due: Listed, step: Step, found: Option<Found>, now: nat, before: seq<Entry>, after: seq<Entry>) {
      && ActsOn(LookupsOf(due, found, |before|), before, after)
      && (step in {DidCommit, DidRelease, DidDefer} ==>
            && found.Some? && Some(step) == StepFor(found.value)
            && Carried(due, found.value, digest(due.marker, found), now, TablesAt(after)))
    }

    ghost function MoreHandled(handled: seq<(Listed, Found)>, due: Listed, step: Step, found: Option<Found>): seq<(Listed, Found)>
      requires step in {DidCommit, DidRelease, DidDefer} ==> found.Some?
    {
      if step in {DidCommit, DidRelease, DidDefer} then handled + [(due, found.value)] else handled
    }

    lemma OneStep(c: Counts, items: nat, lookups: seq<Lookup>, handled: seq<(Listed, Found)>, now: nat, start: seq<Entry>,
                  due: Listed, step: Step, found: Option<Found>, before: seq<Entry>, after: seq<Entry>)
      requires Stage(c, items, lookups, handled, now, start, before) && Handles(due, step, found, now, before, after)
      ensures Stage(Count(c, step), items + 1, lookups + LookupsOf(due, found, |before|), MoreHandled(handled, due, step, found), now, start, after)
    {
      var more := lookups + LookupsOf(due, found, |before|);
      ActsMore(LookupsOf(due, found, |before|), more, before, after);
      ActsTransitive(lookups, more, start, before, after);
      AccountsStay(c, handled, now, before, after);
      if step in {DidCommit, DidRelease, DidDefer} { CountOne(handled, (due, found.value)); }
    }

    /**
     * `run`: at most twenty-five due reservations, each ended only on this run's own evidence for that end. On normal
     * return the counters balance and account for what is in the tables.
     */
    method Run(environment: Environment, now: nat) returns (r: Result<Counts>, ghost lookups: seq<Lookup>, ghost handled: seq<(Listed, Found)>)
      requires store.backend.Valid()
      modifies store.backend
      ensures store.backend.Valid() && ActsOn(lookups, old(store.backend.log), store.backend.log)
      ensures r.Ok? ==> r.value.Balanced(25) && Accounts(r.value, handled, now, TablesAt(store.backend.log))
    {
      ghost var start := store.backend.log;
      lookups, handled := [], [];
      var c := Counts(0, 0, 0, 0, 0);
      QuietActs([], start, start);
      var enough := HasTimeBudget();
      if enough != Some(true) {
        return if enough.None? then Err(Unplanned) else Ok(c), lookups, handled;
      }
      var listed := ListDueReservations(store.backend, environment, now, RECONCILIATION_WORK_LIMIT, 1);
      QuietActs([], start, store.backend.log);
      var i := 0;
      while i < |listed.value|
        invariant 0 <= i <= |listed.value| <= 25 && store.backend.Valid()
        invariant Stage(c, i, lookups, handled, now, start, store.backend.log)
      {
        enough := HasTimeBudget();
        if enough != Some(true) {
          return if enough.None? then Err(Unplanned) else Ok(c), lookups, handled;
        }
        ghost var before, found := store.backend.log, None;
        var step;
        step, found := HandleDue(listed.value[i], now);
        OneStep(c, i, lookups, handled, now, start, listed.value[i], step, found, before, store.backend.log);
        lookups, handled := lookups + LookupsOf(listed.value[i], found, |before|), MoreHandled(handled, listed.value[i], step, found);
        if step.Raises? {
          return Err(Unplanned), lookups, handled;
        }
        c := Count(c, step);
        i := i + 1;
        if step.Stops? || step.StopsAfterFailure? {
          break;
        }
      }
      r := Ok(c);
    }

    lemma AccountsStay(c: Counts, handled: seq<(Listed, Found)>, now: nat, before: seq<Entry>, after: seq<Entry>)
      requires before <= after && Accounts(c, handled, now, TablesAt(before))
      ensures Accounts(c, handled, now, TablesAt(after))
    {
      forall x | x in handled ensures Carried(x.0, x.1, digest(x.0.marker, Some(x.1)), now, TablesAt(after)) {
        CarriedStays(x.0, x.1, digest(x.0.marker, Some(x.1)), now, before, after);
      }
    }
  }

  /** How many of the handled reservations were committed. */
  ghost function CommittedOf(handled: seq<(Listed, Found)>): nat {
    if handled == [] then 0
    else CommittedOf(handled[..|handled| - 1]) + (if StepFor(handled[|handled| - 1].1) == Some(DidCommit) then 1 else 0)
  }

  ghost function ReleasedOf(handled: seq<(Listed, Found)>): nat {
    if handled == [] then 0
    else ReleasedOf(handled[..|handled| - 1]) + (if StepFor(handled[|handled| - 1].1) == Some(DidRelease) then 1 else 0)
  }

  lemma CountOne(handled: seq<(Listed, Found)>, x: (Listed, Found))
    ensures CommittedOf(handled + [x]) == CommittedOf(handled) + (if StepFor(x.1) == Some(DidCommit) then 1 else 0)
    ensures ReleasedOf(handled + [x]) == ReleasedOf(handled) + (if StepFor(x.1) == Some(DidRelease) then 1 else 0)
  {
    assert (handled + [x])[..|handled|] == handled;
  }

  ghost function LookupsOf(due: Listed, found: Option<Found>, at: nat): seq<Lookup> {
    if due.DueReservation? && found.Some? then [Lookup(due.scope, due.reservation, found.value, at)] else []
  }

  /** More evidence justifies no less. */
  lemma ActsMore(lookups: seq<Lookup>, more: seq<Lookup>, before: seq<Entry>, after: seq<Entry>)
    requires ActsOn(lookups, before, after) && forall x :: x in lookups ==> x in more
    ensures ActsOn(more, before, after)
  {
    forall i | |before| <= i < |after| && after[i].own ensures Justified(after[i].op, i, more) {
      if !after[i].op.DeferOp? {
        var x :| x in lookups && x.at <= i && EndsAs(after[i].op, x);
        assert x in more;
      }
    }
  }

  lemma FinishActs(call: Call, scope: Scope, x: Lookup, before: seq<Entry>, after: seq<Entry>)
    requires OnceAtMost(call, before, after) && call.pk == scope.Pk() && call.domain == scope.domain && x.scope == scope && x.at <= |before|
    requires call.request.FinishRequest? && call.request.reservation == x.reservation
    requires match x.found
             case FoundPaid => call.request.status == Committed && call.request.reason == CanonicalPaid
             case FoundUnpaid => call.request.status == Released && call.request.reason == CanonicalTerminalUnpaid
             case FoundNotCreated => call.request.status == Released && call.request.reason == CanonicalNotCreated
             case _ => false
    ensures ActsOn([x], before, after)
  {
    OwnAreMine(before, after);
    if Mine(after) != Mine(before) {
      var op :| Mine(after) == Mine(before) + [op] && Serves(op, call);
      ServesFinish(op, call, scope, x);
      assert Mine(after)[|Mine(before)|..] == [op];
      assert x in [x];
    }
  }
}
