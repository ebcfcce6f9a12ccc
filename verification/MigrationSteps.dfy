/** One write at a time: when it leaves a record that the next read accepts, and how it moves the state. */
module MigrationSteps {
  import opened Basics
  import opened MigrationRecords

  // ----- exactly when a write leaves a readable record -----

  lemma BlankIsReadable(r: Record)
    requires r.hashed == r.brief && r.updatedAt == r.createdAt && r.state == Draft && r.revision == 0 && r.stateRevision == 0
    requires r.storageRevision == 1 && r.job.None? && r.NoDryRun() && r.counts.Valid() && r.approval.None? && r.approvalKey.None?
    requires r.lastCommand.None? && r.lastProgress.None? && r.lastProgressRevision.None?
    ensures Readable(r) <==> BriefValid(r.brief) && Positive(r.createdAt)
  {
  }

  lemma PreparedIsReadable(brief: Brief, key: string, now: int)
    ensures Readable(Prepared(brief, key, now)) <==> BriefValid(brief) && Positive(now)
  {
    BlankIsReadable(Prepared(brief, key, now));
  }

  lemma ApprovedIsReadable(r: Record, dryRunRevision: int, dryRunHash: string, actor: string, key: string, now: int)
    requires Readable(r) && Approved(r, dryRunRevision, dryRunHash, actor, key, now).Ok?
    ensures Readable(Approved(r, dryRunRevision, dryRunHash, actor, key, now).value)
        <==> r.storageRevision < MAX_INTEGER && r.createdAt <= now <= MAX_INTEGER
  {
  }

  /** A command other than the preview, recorded while the request goes on previewing. */
  predicate StrandsPreview(r: Record, c: Command) {
    r.state == Previewing && c.operation != Preview && !(c.result.status == Accepted && c.result.revision > r.revision)
  }

  /** A pause or a resumption, recorded although nothing was approved that could be paused. */
  predicate StrandsUnapproved(r: Record, c: Command) {
    c.operation in {Controlled(Pause), Controlled(Resume)} && r.approval.None?
  }

  /** What `_command_result` and record_command_result accept. */
  predicate CommandValid(c: Command) {
    Positive(c.result.revision) && c.result.status != Pending && (c.operation == Preview ==> c.result.status == Accepted)
  }

  lemma CommandedIsReadable(r: Record, c: Command, now: int)
    requires Readable(r) && CommandValid(c) && Positive(now) && Commanded(r, c, now).Ok?
    ensures Readable(Commanded(r, c, now).value)
        <==> r.storageRevision < MAX_INTEGER && !StrandsPreview(r, c)
             && !StrandsUnapproved(r, c)
  {
  }

  /** A progress report that skips the preview result, or that cancels what was never approved. */
  predicate StrandsProgress(r: Record, e: Event) {
    e.Progressed?
    && ((r.state == Previewing && e.state == AwaitingApproval)
        || (e.state == Canceling && !(r.HasDryRun() && r.approval.Some?)))
  }

  lemma EventedIsReadable(r: Record, e: Event, event: Id, now: int)
    requires Readable(r) && EventValid(e) && EventUpdate(r, e, event, now).Ok? && EventUpdate(r, e, event, now).value.Some?
    ensures Readable(EventUpdate(r, e, event, now).value.value)
        <==> r.storageRevision < MAX_INTEGER && r.createdAt <= now <= MAX_INTEGER && !StrandsProgress(r, e)
  {
  }

  // ----- how a write moves the state -----

  /** One write: the state follows the transition table, and the revisions say so. */
  predicate Follows(a: Record, b: Record) {
    && b.Identity() == a.Identity() && b.storageRevision == a.storageRevision + 1
    && (b.state == a.state || b.state in NextStates(a.state))
    && a.revision <= b.revision && a.stateRevision <= b.stateRevision <= b.revision
    && (b.state != a.state ==>
          || a.stateRevision < b.stateRevision
          || (a.state == CancelRequested && b.state == Canceled && b.revision == a.revision && b.lastEvent.Some? && b.lastEvent.value.1.Finished?))
    && (a.job.Some? ==> b.job == a.job)
    && (a.approval.Some? ==>
          && b.approval == a.approval && b.approvalKey == a.approvalKey
          && b.dryRunRevision == a.dryRunRevision && b.dryRunHash == a.dryRunHash && b.previewExpiresAt == a.previewExpiresAt)
  }

  /** Execution states stand behind an approval of exactly the stored dry run, given before it expired. */
  predicate Gated(r: Record) {
    && (r.approval.Some? ==>
          && r.dryRunRevision == Some(r.approval.value.dryRunRevision) && r.dryRunHash == Some(r.approval.value.dryRunHash)
          && r.previewExpiresAt.Some? && r.approval.value.approvedAt < r.previewExpiresAt.value)
    && (r.state in {Scheduled, Running, Paused, Completed, CompletedWithErrors} ==> r.approval.Some?)
  }

  lemma ApprovedFollows(r: Record, dryRunRevision: int, dryRunHash: string, actor: string, key: string, now: int)
    requires Readable(r) && Gated(r) && Approved(r, dryRunRevision, dryRunHash, actor, key, now).Ok?
    ensures var u := Approved(r, dryRunRevision, dryRunHash, actor, key, now).value; Follows(r, u) && Gated(u)
  {
  }

  lemma CommandedFollows(r: Record, c: Command, now: int)
    requires Readable(r) && Gated(r) && CommandValid(c) && Commanded(r, c, now).Ok?
    ensures var u := Commanded(r, c, now).value; Follows(r, u) && Gated(u)
  {
  }

  lemma EventedFollows(r: Record, e: Event, event: Id, now: int)
    requires Readable(r) && Gated(r) && EventValid(e) && EventUpdate(r, e, event, now).Ok? && EventUpdate(r, e, event, now).value.Some?
    ensures var u := EventUpdate(r, e, event, now).value.value; Follows(r, u) && Gated(u)
  {
  }

  // ----- a command result and the event that reports the same change -----

  /** The parts of a record that commands and events compete for. */
  predicate SameOutcome(a: Record, b: Record) {
    && a.state == b.state && a.revision == b.revision && a.stateRevision == b.stateRevision && a.counts == b.counts
    && a.approval == b.approval && a.lastCommand == b.lastCommand && a.job == b.job
    && a.lastProgressRevision == b.lastProgressRevision && a.lastProgress == b.lastProgress
    && a.dryRunRevision == b.dryRunRevision && a.dryRunHash == b.dryRunHash && a.storageRevision == b.storageRevision
  }

  /** An accepted command and the progress event that reports the same new state at the same new revision. */
  predicate SameChange(r: Record, c: Command, e: Event, commandAt: int, eventAt: int) {
    && Readable(r) && r.job.Some? && CommandValid(c) && EventValid(e) && e.Progressed?
    && c.result.status == Accepted && c.result.revision == r.revision + 1 && Commanded(r, c, commandAt).Ok?
    && TargetOf(c.operation) != r.state && e.state == TargetOf(c.operation) && e.bound.revision == r.revision + 1
    && e.bound.connection == r.brief.connection && r.job == Some(e.bound.job)
    && r.storageRevision + 1 < MAX_INTEGER && r.createdAt <= commandAt <= MAX_INTEGER && r.createdAt <= eventAt <= MAX_INTEGER
  }

  /** What both orders come to. */
  predicate Changed(r: Record, c: Command, e: Event, u: Record)
    requires e.Progressed?
  {
    && Readable(u) && u.state == e.state && u.revision == r.revision + 1 && u.stateRevision == r.revision + 1 && u.counts == e.counts
    && u.approval == r.approval && u.lastCommand == Some(c) && u.job == r.job
    && u.lastProgressRevision == Some(e.bound.revision) && u.lastProgress == Some(Snapshot(e.bound.revision, e.state, e.counts))
    && u.dryRunRevision == r.dryRunRevision && u.dryRunHash == r.dryRunHash && u.storageRevision == r.storageRevision + 2
  }

  lemma CommandThenEvent(r: Record, c: Command, e: Event, event: Id, commandAt: int, eventAt: int)
    requires SameChange(r, c, e, commandAt, eventAt)
    ensures var first := Commanded(r, c, commandAt).value;
      && Readable(first) && EventUpdate(first, e, event, eventAt).Ok? && EventUpdate(first, e, event, eventAt).value.Some?
      && Changed(r, c, e, EventUpdate(first, e, event, eventAt).value.value)
  {
    CommandedIsReadable(r, c, commandAt);
    EventedIsReadable(Commanded(r, c, commandAt).value, e, event, eventAt);
  }

  lemma EventThenCommand(r: Record, c: Command, e: Event, event: Id, commandAt: int, eventAt: int)
    requires SameChange(r, c, e, commandAt, eventAt)
    ensures EventUpdate(r, e, event, eventAt).Ok? && EventUpdate(r, e, event, eventAt).value.Some?
    ensures var first := EventUpdate(r, e, event, eventAt).value.value;
      Readable(first) && Commanded(first, c, commandAt).Ok? && Changed(r, c, e, Commanded(first, c, commandAt).value)
  {
    EventedIsReadable(r, e, event, eventAt);
    CommandedIsReadable(EventUpdate(r, e, event, eventAt).value.value, c, commandAt);
  }

  /**
   * Confluence: an accepted command and the progress event that reports the same new state at the same new revision
   * may arrive in either order; both are applied, every record on the way is readable, and the outcome is the same.
   */
  lemma CommandAndEventCommute(r: Record, c: Command, e: Event, event: Id, commandAt: int, eventAt: int)
    requires SameChange(r, c, e, commandAt, eventAt)
    ensures var first := Commanded(r, c, commandAt).value;
      && Readable(first) && EventUpdate(first, e, event, eventAt).Ok? && EventUpdate(first, e, event, eventAt).value.Some?
    ensures EventUpdate(r, e, event, eventAt).Ok? && EventUpdate(r, e, event, eventAt).value.Some?
    ensures var first := EventUpdate(r, e, event, eventAt).value.value; Readable(first) && Commanded(first, c, commandAt).Ok?
    ensures var one := EventUpdate(Commanded(r, c, commandAt).value, e, event, eventAt).value.value;
      var two := Commanded(EventUpdate(r, e, event, eventAt).value.value, c, commandAt).value;
      SameOutcome(one, two) && Readable(one) && Readable(two)
  {
    CommandThenEvent(r, c, e, event, commandAt, eventAt);
    EventThenCommand(r, c, e, event, commandAt, eventAt);
  }
}
