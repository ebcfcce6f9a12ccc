/** What holds of migration requests over whole runs. */
module MigrationGuarantees {
  import opened Basics
  import opened MigrationRecords
  import opened MigrationSteps
  import opened MigrationRuns

  lemma RunStep(ops: seq<Op>, op: Op)
    ensures Run(ops + [op]) == Exec(Run(ops), op)
  {
    assert (ops + [op])[..|ops|] == ops;
  }

  lemma {:induction false} RunStays(ops: seq<Op>, more: seq<Op>, k: RequestKey)
    requires k in Run(ops).tables.requests
    ensures k in Run(ops + more).tables.requests && Stays(Run(ops).tables.requests[k], Run(ops + more).tables.requests[k])
    ensures (k, Run(ops).tables.requests[k]) in Run(ops + more).seen
    decreases |more|
  {
    if more == [] {
      assert ops + more == ops;
      RunKeeps(ops);
    } else {
      var n := |more| - 1;
      RunStays(ops, more[..n], k);
      RunKeeps(ops + more[..n]);
      ExecKeeps(Run(ops + more[..n]), more[n]);
      RunStep(ops + more[..n], more[n]);
      assert ops + more[..n] + [more[n]] == ops + more;
    }
  }

  // ----- every record a writer leaves can be read again, with exact exceptions -----

  /** The writes whose record the next read refuses. */
  predicate Strands(op: Op) {
    match op
    case PrepareOp(_, _, _, _) => false
    case ApproveOp(_, now, r, _, _, _, _) => r.storageRevision >= MAX_INTEGER || now < r.createdAt
    case CommandOp(_, _, r, c) => r.storageRevision >= MAX_INTEGER || StrandsPreview(r, c) || StrandsUnapproved(r, c)
    case EventOp(_, now, r, e, _) =>
      e.bound.revision >= r.revision
      && (r.storageRevision >= MAX_INTEGER || now < r.createdAt || StrandsProgress(r, e))
  }

  /** A write leaves a record that the next read refuses exactly if it strands. */
  predicate Tells(op: Op)
    requires Update(op).Ok?
  {
    if Update(op).value.Some? then Readable(Update(op).value.value) <==> !Strands(op) else !Strands(op)
  }

  lemma PreparationWrites(op: Op)
    requires op.PrepareOp? && Update(op).Ok?
    ensures BriefValid(op.brief) && Positive(op.now) && Update(op) == Ok(Some(Prepared(op.brief, op.key, op.now)))
  {
  }

  lemma ReadableTells(op: Op, r: Record)
    requires op.PrepareOp? && Update(op) == Ok(Some(r)) && Readable(r)
    ensures Tells(op)
  {
  }

  lemma PreparationStrands(op: Op)
    requires op.PrepareOp? && Update(op).Ok?
    ensures Tells(op)
  {
    PreparationWrites(op);
    PreparedIsReadable(op.brief, op.key, op.now);
    ReadableTells(op, Prepared(op.brief, op.key, op.now));
  }

  lemma ApprovalStrands(op: Op)
    requires op.ApproveOp? && Update(op).Ok?
    ensures Tells(op)
  {
    ApprovedIsReadable(op.read, op.dryRunRevision, op.dryRunHash, op.actor, op.key, op.now);
  }

  lemma CommandStrands(op: Op)
    requires op.CommandOp? && Update(op).Ok?
    ensures Tells(op)
  {
    CommandedIsReadable(op.read, op.command, op.now);
  }

  lemma EventMoves(op: Op)
    requires op.EventOp? && Update(op).Ok?
    ensures EventUpdate(op.read, op.data, op.event, op.now) == Update(op)
    ensures Update(op).value.Some? <==> op.data.bound.revision >= op.read.revision
  {
  }

  lemma EventStrands(op: Op)
    requires op.EventOp? && Update(op).Ok?
    ensures Tells(op)
  {
    EventMoves(op);
    if Update(op).value.Some? { EventedIsReadable(op.read, op.data, op.event, op.now); }
  }

  lemma StrandsExactly(op: Op)
    requires Update(op).Ok?
    ensures Tells(op)
  {
    if op.PrepareOp? {
      PreparationStrands(op);
    } else if op.ApproveOp? {
      ApprovalStrands(op);
    } else if op.CommandOp? {
      CommandStrands(op);
    } else {
      EventStrands(op);
    }
  }

  ghost predicate AllReadable(w: World) {
    forall k :: k in w.tables.requests ==> Readable(w.tables.requests[k])
  }

  /** Somewhere in the run a stranding write was committed. */
  predicate Stranded(ops: seq<Op>) {
    ops != []
    && var n := |ops| - 1;
       Stranded(ops[..n]) || (Commits(Run(ops[..n]), ops[n]) && Strands(ops[n]))
  }

  lemma OneMoreReadable(w: World, v: World, at: RequestKey, u: Record)
    requires AllReadable(w) && v.tables.requests == w.tables.requests[at := u]
    ensures AllReadable(v) <==> Readable(u)
  {
    assert v.tables.requests[at] == u;
  }

  lemma ExecReadable(w: World, op: Op)
    requires WorldInv(w) && AllReadable(w)
    ensures AllReadable(Exec(w, op)) <==> !(Commits(w, op) && Strands(op))
  {
    if Commits(w, op) {
      StrandsExactly(op);
      if Update(op).value.Some? { OneMoreReadable(w, Exec(w, op), op.at, Update(op).value.value); }
    }
  }

  /** An unreadable record blocks every later call: it is never written again. */
  lemma UnreadableIsStuck(ops: seq<Op>, more: seq<Op>, k: RequestKey)
    requires k in Run(ops).tables.requests && !Readable(Run(ops).tables.requests[k])
    ensures k in Run(ops + more).tables.requests && Run(ops + more).tables.requests[k] == Run(ops).tables.requests[k]
    decreases |more|
  {
    if more == [] {
      assert ops + more == ops;
    } else {
      var n := |more| - 1;
      UnreadableIsStuck(ops, more[..n], k);
      RunKeeps(ops + more[..n]);
      RunStep(ops + more[..n], more[n]);
      assert ops + more[..n] + [more[n]] == ops + more;
      var w, op := Run(ops + more[..n]), more[n];
      if Commits(w, op) && op.at == k && !op.PrepareOp? && Update(op).value.Some? { ReadIsCurrent(w, op); }
    }
  }

  lemma UnreadableStays(ops: seq<Op>, op: Op)
    requires !AllReadable(Run(ops))
    ensures !AllReadable(Run(ops + [op]))
  {
    var k :| k in Run(ops).tables.requests && !Readable(Run(ops).tables.requests[k]);
    UnreadableIsStuck(ops, [op], k);
  }

  /**
   * The strict read-time validator is an invariant exactly of the runs without a stranding write: all records of a
   * run are readable at its end if and only if no write in it was one of the listed exceptions.
   */
  lemma {:induction false} ReadableExactly(ops: seq<Op>)
    ensures AllReadable(Run(ops)) <==> !Stranded(ops)
  {
    if ops != [] {
      var n := |ops| - 1;
      var init := ops[..n];
      ReadableExactly(init);
      RunKeeps(init);
      if Stranded(init) {
        UnreadableStays(init, ops[n]);
        assert init + [ops[n]] == ops;
      } else {
        ExecReadable(Run(init), ops[n]);
      }
    }
  }

  // ----- states and revisions -----

  /** Between two consecutive moments a request stands still or takes one step of the transition table. */
  lemma RunsFollowTheTable(ops: seq<Op>, op: Op, k: RequestKey)
    requires k in Run(ops).tables.requests
    ensures k in Run(ops + [op]).tables.requests
    ensures var a, b := Run(ops).tables.requests[k], Run(ops + [op]).tables.requests[k]; a == b || Follows(a, b)
  {
    RunKeeps(ops);
    RunStep(ops, op);
    if Commits(Run(ops), op) && op.at == k && !op.PrepareOp? && Update(op).value.Some? {
      ReadIsCurrent(Run(ops), op);
      CommitFollows(Run(ops), op);
    }
  }

  /** Over any stretch of a run revisions only grow, what identifies a request stays, and a canceled request stays canceled. */
  lemma RevisionsOnlyGrow(ops: seq<Op>, more: seq<Op>, k: RequestKey)
    requires k in Run(ops).tables.requests
    ensures k in Run(ops + more).tables.requests
    ensures var a, b := Run(ops).tables.requests[k], Run(ops + more).tables.requests[k];
      && a.revision <= b.revision && a.stateRevision <= b.stateRevision && a.storageRevision <= b.storageRevision
      && a.Identity() == b.Identity() && (a.job.Some? ==> b.job == a.job) && (a.state == Canceled ==> b.state == Canceled)
  {
    RunStays(ops, more, k);
  }

  /** Where a request can get to from a state, by any number of steps. */
  predicate Leads(a: State, b: State) {
    match a
    case Draft => true
    case Previewing => b != Draft
    case AwaitingApproval => b != Draft && b != Previewing
    case Scheduled => b != Draft && b != Previewing && b != AwaitingApproval
    case Running => b != Draft && b != Previewing && b != AwaitingApproval
    case Paused => b != Draft && b != Previewing && b != AwaitingApproval
    case Completed => b == Completed || b == CancelRequested || b == Canceling || b == Canceled
    case CompletedWithErrors => b == CompletedWithErrors || b == CancelRequested || b == Canceling || b == Canceled
    case CancelRequested => b == CancelRequested || b == Canceling || b == Canceled
    case Canceling => b == Canceling || b == Canceled
    case Canceled => b == Canceled
  }

  /**
   * Over any stretch of a run: a preview is never made again, what is being executed never waits for approval again, a
   * result never turns into the other one or goes back to work, and a cancellation is never taken back.
   */
  lemma {:induction false} PhasesNeverReturn(ops: seq<Op>, more: seq<Op>, k: RequestKey)
    requires k in Run(ops).tables.requests
    ensures k in Run(ops + more).tables.requests && Leads(Run(ops).tables.requests[k].state, Run(ops + more).tables.requests[k].state)
    decreases |more|
  {
    if more == [] {
      assert ops + more == ops;
    } else {
      var n := |more| - 1;
      PhasesNeverReturn(ops, more[..n], k);
      RunsFollowTheTable(ops + more[..n], more[n], k);
      assert ops + more[..n] + [more[n]] == ops + more;
      LeadsOn(Run(ops).tables.requests[k].state, Run(ops + more[..n]).tables.requests[k].state, Run(ops + more).tables.requests[k].state);
    }
  }

  lemma LeadsOn(a: State, b: State, c: State)
    requires Leads(a, b) && (c == b || c in NextStates(b))
    ensures Leads(a, c)
  {
  }

  /**
   * Every stored request replaces an offer by another one of the same currency and recurrence, for an amount in bounds, with
   * a canary of at most 25 and at most five at a time; and its hash is taken over exactly that.
   */
  lemma {:induction false} EveryBriefIsSound(ops: seq<Op>, k: RequestKey)
    requires k in Run(ops).tables.requests
    ensures var r := Run(ops).tables.requests[k];
      && r.hashed == r.brief && r.brief.source.version != r.brief.target.version
      && r.brief.source.terms.currency == r.brief.target.terms.currency && r.brief.source.terms.recurrence == r.brief.target.terms.recurrence
      && r.brief.source.hashed == r.brief.source.terms && r.brief.target.hashed == r.brief.target.terms
      && r.brief.source.revision >= 1 && r.brief.target.revision >= 1
      && 0 <= r.brief.source.terms.amountMinor <= MAX_AMOUNT_MINOR && 0 <= r.brief.target.terms.amountMinor <= MAX_AMOUNT_MINOR
      && 1 <= r.brief.canarySize <= 25 && 1 <= r.brief.concurrency <= 5
  {
    var init, op := ops[..|ops| - 1], ops[|ops| - 1];
    assert init + [op] == ops;
    if k in Run(init).tables.requests {
      EveryBriefIsSound(init, k);
      RunsFollowTheTable(init, op, k);
    }
  }

  // ----- the approval gate -----

  /** Nothing is executed without an approval of exactly the stored dry run, given before the preview expired. */
  lemma ApprovalGate(ops: seq<Op>, k: RequestKey)
    requires k in Run(ops).tables.requests
    requires Run(ops).tables.requests[k].state in {Scheduled, Running, Paused, Completed, CompletedWithErrors}
    ensures var r := Run(ops).tables.requests[k];
      && r.approval.Some? && r.previewExpiresAt.Some?
      && r.dryRunRevision == Some(r.approval.value.dryRunRevision) && r.dryRunHash == Some(r.approval.value.dryRunHash)
      && r.approval.value.approvedAt < r.previewExpiresAt.value
  {
    RunKeeps(ops);
  }

  /** Once given, an approval and the dry run it approves never change. */
  lemma ApprovalIsFinal(ops: seq<Op>, more: seq<Op>, k: RequestKey)
    requires k in Run(ops).tables.requests && Run(ops).tables.requests[k].approval.Some?
    ensures k in Run(ops + more).tables.requests
    ensures var a, b := Run(ops).tables.requests[k], Run(ops + more).tables.requests[k];
      && b.approval == a.approval && b.approvalKey == a.approvalKey
      && b.dryRunRevision == a.dryRunRevision && b.dryRunHash == a.dryRunHash && b.previewExpiresAt == a.previewExpiresAt
  {
    RunStays(ops, more, k);
  }

  // ----- progress reports -----

  /** A progress report that was applied, not only recorded as stale. */
  predicate Applies(op: Op) {
    op.EventOp? && op.data.Progressed? && Update(op).Ok? && Update(op).value.Some?
  }

  lemma WrittenStays(ops: seq<Op>, op: Op, more: seq<Op>)
    requires Commits(Run(ops), op) && Update(op).value.Some?
    ensures var t := Run(ops + [op] + more).tables; op.at in t.requests && Stays(Update(op).value.value, t.requests[op.at])
  {
    RunStep(ops, op);
    RunStays(ops + [op], more, op.at);
  }

  /** A record that a run wrote is the one that a later write was made from, or evolved into it. */
  lemma WrittenThenRead(ops: seq<Op>, i: nat, j: nat)
    requires i < j < |ops| && Commits(Run(ops[..i]), ops[i]) && Commits(Run(ops[..j]), ops[j]) && ops[i].at == ops[j].at
    requires Update(ops[i]).value.Some? && Update(ops[j]).value.Some? && !ops[j].PrepareOp?
    ensures Stays(Update(ops[i]).value.value, ops[j].read)
  {
    WrittenStays(ops[..i], ops[i], ops[i + 1..j]);
    assert ops[..i] + [ops[i]] + ops[i + 1..j] == ops[..j];
    RunKeeps(ops[..j]);
    ReadIsCurrent(Run(ops[..j]), ops[j]);
  }

  lemma AppliedIsLast(op: Op)
    requires Applies(op)
    ensures var u := Update(op).value.value;
      && u.lastProgress == Some(Snapshot(op.data.bound.revision, op.data.state, op.data.counts))
      && u.lastProgressRevision == Some(op.data.bound.revision)
  {
  }

  /** For each revision at most one snapshot is ever applied, although only the last one is remembered. */
  lemma OneSnapshotPerRevision(ops: seq<Op>, i: nat, j: nat)
    requires i < j < |ops| && Commits(Run(ops[..i]), ops[i]) && Commits(Run(ops[..j]), ops[j])
    requires Applies(ops[i]) && Applies(ops[j]) && ops[i].at == ops[j].at
    requires ops[i].data.bound.revision == ops[j].data.bound.revision
    ensures ops[i].data.state == ops[j].data.state && ops[i].data.counts == ops[j].data.counts
  {
    WrittenThenRead(ops, i, j);
    AppliedIsLast(ops[i]);
    SameSnapshot(Update(ops[i]).value.value, ops[j]);
  }

  lemma SameSnapshot(u: Record, op: Op)
    requires Applies(op) && Stays(u, op.read) && u.lastProgress.Some?
    requires u.lastProgressRevision == Some(u.lastProgress.value.revision) && u.lastProgress.value.revision == op.data.bound.revision
    ensures u.lastProgress.value.state == op.data.state && u.lastProgress.value.counts == op.data.counts
  {
  }

  // ----- receipts -----

  lemma {:induction false} ReceiptsStay(ops: seq<Op>, more: seq<Op>)
    ensures forall k :: k in Run(ops).tables.commands ==>
      k in Run(ops + more).tables.commands && Run(ops + more).tables.commands[k] == Run(ops).tables.commands[k]
    ensures forall k :: k in Run(ops).tables.events ==>
      k in Run(ops + more).tables.events && Run(ops + more).tables.events[k] == Run(ops).tables.events[k]
    decreases |more|
  {
    if more == [] {
      assert ops + more == ops;
    } else {
      var n := |more| - 1;
      ReceiptsStay(ops, more[..n]);
      RunStep(ops + more[..n], more[n]);
      assert ops + more[..n] + [more[n]] == ops + more;
      ExecKeepsReceipts(Run(ops + more[..n]), more[n]);
    }
  }

  lemma ExecKeepsReceipts(w: World, op: Op)
    ensures forall k :: k in w.tables.commands ==> k in Exec(w, op).tables.commands && Exec(w, op).tables.commands[k] == w.tables.commands[k]
    ensures forall k :: k in w.tables.events ==> k in Exec(w, op).tables.events && Exec(w, op).tables.events[k] == w.tables.events[k]
  {
  }

  predicate SameRecord(a: Op, b: Op) {
    || (a.CommandOp? && b.CommandOp? && a.at.partition == b.at.partition
        && a.command.operation == b.command.operation && a.command.key == b.command.key)
    || (a.EventOp? && b.EventOp? && a.at.partition == b.at.partition && a.data.bound.dedupe == b.data.bound.dedupe)
  }

  lemma RecordedAlready(ops: seq<Op>, op: Op, more: seq<Op>, again: Op)
    requires Commits(Run(ops), op) && SameRecord(op, again)
    ensures !Commits(Run(ops + [op] + more), again)
  {
    RunStep(ops, op);
    ReceiptsStay(ops + [op], more);
  }

  /** A command result is recorded once per operation and idempotency key, an event once per dedupe key. */
  lemma RecordedOnce(ops: seq<Op>, i: nat, j: nat)
    requires i < j < |ops| && Commits(Run(ops[..i]), ops[i])
    requires SameRecord(ops[i], ops[j])
    ensures !Commits(Run(ops[..j]), ops[j])
  {
    RecordedAlready(ops[..i], ops[i], ops[i + 1..j], ops[j]);
    assert ops[..i] + [ops[i]] + ops[i + 1..j] == ops[..j];
  }
}
