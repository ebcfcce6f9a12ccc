/** Each exception of MigrationGuarantees.ReadableExactly is needed: a run from empty tables reaches it. */
module MigrationExceptions {
  import opened Basics
  import opened MigrationRecords
  import opened MigrationSteps
  import opened MigrationRuns
  import opened MigrationGuarantees
  import opened MigrationClocks
  import opened Decimals

  /** A request that the next call can read, still early in its life. */
  predicate Standing(w: World, at: RequestKey, r: Record) {
    && at in w.tables.requests && w.tables.requests[at] == r && (at, r) in w.seen
    && Readable(r) && r.storageRevision <= r.revision + 1 < 9 && 1 < r.createdAt < 1_000_000_000
  }

  /** The preparation that a run starts with. */
  predicate Prepares(op: Op) {
    op.PrepareOp? && BriefValid(op.brief) && 1 < op.now < 1_000_000_000
  }

  /** A record as its preparation leaves it. */
  predicate Fresh(r: Record, now: int) {
    Readable(r) && r.storageRevision == 1 && r.createdAt == now && r.state == Draft && r.job.None? && r.revision == 0
  }

  lemma PreparedIsFresh(op: Op)
    requires Prepares(op)
    ensures Update(op).Ok? && Update(op).value.Some? && Fresh(Update(op).value.value, op.now)
  {
    BlankIsFresh(Update(op).value.value);
  }

  lemma BlankIsFresh(r: Record)
    requires r.hashed == r.brief && r.updatedAt == r.createdAt && r.state == Draft && r.revision == 0 && r.stateRevision == 0
    requires r.storageRevision == 1 && r.job.None? && r.NoDryRun() && r.counts.Valid() && r.approval.None? && r.approvalKey.None?
    requires r.lastCommand.None? && r.lastProgress.None? && r.lastProgressRevision.None? && BriefValid(r.brief) && Positive(r.createdAt)
    ensures Fresh(r, r.createdAt)
  {
    BlankIsReadable(r);
  }

  lemma PrepareCommits(w: World, op: Op)
    requires Prepares(op) && op.at !in w.tables.requests
    ensures Commits(w, op) && !Strands(op)
  {
  }

  /** A committed write puts its record into the table and among those that can be read. */
  lemma WriteStands(w: World, op: Op)
    requires Commits(w, op) && Update(op).value.Some?
    ensures var r := Update(op).value.value;
      op.at in Exec(w, op).tables.requests && Exec(w, op).tables.requests[op.at] == r && (op.at, r) in Exec(w, op).seen
  {
  }

  /** The provider's acceptance of the preview. */
  predicate AcceptsPreview(op: Op) {
    && op.CommandOp? && op.command.operation == Preview && op.command.result.status == CommandStatus.Accepted
    && op.command.result.revision == 1 && op.now == op.read.createdAt
  }

  lemma PreviewStands(w: World, op: Op)
    requires AcceptsPreview(op) && Standing(w, op.at, op.read) && op.read.state == Draft && op.read.job.None? && op.read.revision == 0
    requires CommandKey(op.at.partition, op.command.operation, op.command.key) !in w.tables.commands
    ensures Commits(w, op) && !Strands(op) && Update(op).Ok? && Update(op).value.Some?
    ensures var r := Update(op).value.value;
      && Standing(Exec(w, op), op.at, r) && r.state == Previewing && r.createdAt == op.read.createdAt
      && r.job == Some(op.command.result.job) && r.revision == 1 && r.brief == op.read.brief
    ensures Exec(w, op).tables.events == w.tables.events
    ensures forall k :: k in Exec(w, op).tables.commands ==> k in w.tables.commands || k.operation == Preview
  {
    CommandedIsReadable(op.read, op.command, op.now);
  }

  /** What the last operation of a run does to its readability. */
  lemma Extends(run: seq<Op>, op: Op)
    ensures Run(run + [op]) == Exec(Run(run), op)
    ensures Stranded(run + [op]) <==> Stranded(run) || (Commits(Run(run), op) && Strands(op))
    ensures AllReadable(Run(run + [op])) <==> !Stranded(run + [op])
  {
    assert (run + [op])[..|run|] == run;
    ReadableExactly(run + [op]);
  }

  /** A run at one moment, all its controls let through by prepare_control. */
  ghost predicate Calm(run: seq<Op>, now: int) {
    Admitted(run) && forall i :: 0 <= i < |run| ==> run[i].now == now
  }

  lemma CalmForward(run: seq<Op>, now: int)
    requires Calm(run, now) && 0 < now <= MAX_INTEGER
    ensures Forward(run) && Admitted(run)
  {
  }

  lemma CalmSnoc(run: seq<Op>, op: Op, now: int)
    requires Calm(run, now) && op.now == now && Admits(Run(run), op)
    ensures Calm(run + [op], now)
  {
    assert (run + [op])[..|run|] == run;
  }

  /** A request that previews at its first revision, at the end of a run without a stranding write. */
  ghost predicate PreviewsAfter(run: seq<Op>, at: RequestKey, r: Record) {
    var w := Run(run);
    !Stranded(run) && Standing(w, at, r) && r.state == Previewing && r.revision == 1 && w.tables.events == map[]
    && forall k :: k in w.tables.commands ==> k.operation == Preview
  }

  /** A committed write that strands nothing carries its record into the run. */
  lemma Lift(run: seq<Op>, op: Op, r: Record)
    requires !Stranded(run) && Commits(Run(run), op) && !Strands(op) && Update(op).value == Some(r) && Standing(Exec(Run(run), op), op.at, r)
    ensures !Stranded(run + [op]) && Standing(Run(run + [op]), op.at, r)
    ensures Run(run + [op]) == Exec(Run(run), op)
  {
    Extends(run, op);
  }

  lemma FreshStands(w: World, op: Op, r: Record)
    requires Commits(w, op) && Update(op).value == Some(r) && Fresh(r, op.now) && 1 < op.now < 1_000_000_000
    ensures Standing(Exec(w, op), op.at, r)
  {
    WriteStands(w, op);
  }

  lemma PrepareRun(run: seq<Op>, prepare: Op, r: Record)
    requires Prepares(prepare) && Update(prepare).Ok? && Update(prepare).value == Some(r) && Fresh(r, prepare.now)
    requires !Stranded(run) && prepare.at !in Run(run).tables.requests
    ensures !Stranded(run + [prepare]) && Standing(Run(run + [prepare]), prepare.at, r)
    ensures Run(run + [prepare]) == Exec(Run(run), prepare)
  {
    PrepareCommits(Run(run), prepare);
    FreshStands(Run(run), prepare, r);
    Lift(run, prepare, r);
  }

  lemma PrepareKeepsReceipts(w: World, op: Op)
    requires op.PrepareOp?
    ensures Exec(w, op).tables.commands == w.tables.commands && Exec(w, op).tables.events == w.tables.events
  {
  }

  /** The provider's acceptance starts the preview of a prepared request. */
  lemma PreviewRun(run: seq<Op>, preview: Op, p: Record)
    requires AcceptsPreview(preview) && Standing(Run(run), preview.at, preview.read)
    requires !Stranded(run) && Run(run).tables.commands == map[] && Run(run).tables.events == map[]
    requires preview.read.state == Draft && preview.read.job.None? && preview.read.revision == 0
    requires Update(preview).Ok? && Update(preview).value == Some(p)
    ensures PreviewsAfter(run + [preview], preview.at, p)
    ensures p.job == Some(preview.command.result.job) && p.createdAt == preview.now && p.brief == preview.read.brief
  {
    PreviewStands(Run(run), preview);
    Lift(run, preview, p);
  }

  lemma PreviewUpdates(op: Op)
    requires AcceptsPreview(op) && Readable(op.read) && op.read.state == Draft && op.read.job.None? && op.read.revision == 0
    requires 1 < op.now
    ensures Update(op).Ok? && Update(op).value.Some?
  {
  }

  function PreviewCommand(key: string, job: Id): Command {
    Command(Preview, key, key, key, CommandResult(job, CommandStatus.Accepted, job, 1))
  }

  lemma NoRun(now: int) returns (run: seq<Op>)
    ensures Calm(run, now) && !Stranded(run)
    ensures Run(run).tables.commands == map[] && Run(run).tables.events == map[] && Run(run).tables.requests == map[]
  {
    run := [];
  }

  lemma PreparedRecord(prepare: Op) returns (r: Record)
    requires Prepares(prepare)
    ensures Update(prepare).Ok? && Update(prepare).value == Some(r) && Fresh(r, prepare.now) && r.brief == prepare.brief
  {
    PreparedIsFresh(prepare);
    r := Update(prepare).value.value;
  }

  lemma DraftRun(run: seq<Op>, prepare: Op, r: Record)
    requires Prepares(prepare) && Update(prepare).Ok? && Update(prepare).value == Some(r) && Fresh(r, prepare.now)
    requires !Stranded(run) && prepare.at !in Run(run).tables.requests
    ensures !Stranded(run + [prepare]) && Standing(Run(run + [prepare]), prepare.at, r)
    ensures Run(run + [prepare]).tables.commands == Run(run).tables.commands && Run(run + [prepare]).tables.events == Run(run).tables.events
  {
    PrepareRun(run, prepare, r);
    PrepareKeepsReceipts(Run(run), prepare);
  }

  lemma ReachDraft(none: seq<Op>, prepare: Op) returns (r: Record)
    requires Prepares(prepare)
    requires !Stranded(none) && prepare.at !in Run(none).tables.requests
    requires Run(none).tables.commands == map[] && Run(none).tables.events == map[]
    ensures var run := none + [prepare];
      !Stranded(run) && Standing(Run(run), prepare.at, r) && Run(run).tables.commands == map[] && Run(run).tables.events == map[]
    ensures Fresh(r, prepare.now) && r.brief == prepare.brief
  {
    r := PreparedRecord(prepare);
    DraftRun(none, prepare, r);
  }

  /** From empty tables, any valid request can be brought to its preview. */
  lemma Reach(at: RequestKey, brief: Brief, key: string, job: Id, now: int) returns (run: seq<Op>, r: Record)
    requires BriefValid(brief) && 1 < now < 1_000_000_000
    ensures PreviewsAfter(run, at, r) && r.job == Some(job) && r.brief == brief && r.createdAt == now && Calm(run, now)
  {
    var none := NoRun(now);
    var prepare := PrepareOp(at, now, brief, key);
    var blank := ReachDraft(none, prepare);
    var draft := none + [prepare];
    var preview := CommandOp(at, now, blank, PreviewCommand(key, job));
    PreviewUpdates(preview);
    r := Update(preview).value.value;
    PreviewRun(draft, preview, r);
    CalmSnoc(none, prepare, now);
    CalmSnoc(draft, preview, now);
    run := draft + [preview];
  }

  // ----- a progress report that skips the preview result, or cancels what was never approved -----

  /** A progress report at the next revision, from the provider and the connection that the request is bound to. */
  predicate Reports(op: Op) {
    && op.EventOp? && op.data.Progressed? && op.data.counts == op.read.counts && op.data.bound.occurredAt == op.now
    && op.data.bound.revision == op.read.revision + 1 && op.data.bound.connection == op.read.brief.connection
    && op.read.job == Some(op.data.bound.job)
  }

  lemma ReportCommits(w: World, op: Op)
    requires Reports(op) && Standing(w, op.at, op.read) && op.read.createdAt - 1 <= op.now <= op.read.createdAt
    requires EventKey(op.at.partition, op.data.bound.dedupe) !in w.tables.events
    requires !Terminal(op.data.state) && op.data.state !in {Scheduled, Running}
    requires op.data.state == op.read.state || op.data.state in NextStates(op.read.state)
    ensures Commits(w, op)
    ensures Strands(op) <==> op.now < op.read.createdAt || StrandsProgress(op.read, op.data)
  {
  }

  function Report(at: RequestKey, r: Record, state: State, key: Id, now: int): (op: Op)
    requires r.job.Some?
    ensures Reports(op) && op.at == at && op.read == r && op.now == now && op.data.state == state && op.data.bound.dedupe == key
  {
    EventOp(at, now, r, Progressed(Binding(r.job.value, r.brief.connection, r.revision + 1, key, now), state, r.counts), key)
  }

  /** A progress report may move a request past its preview result; the next read then misses the dry run. */
  lemma ProgressSkipsPreview(at: RequestKey, brief: Brief, key: string, job: Id, now: int) returns (run: seq<Op>, op: Op)
    requires BriefValid(brief) && 1 < now < 1_000_000_000
    ensures !Stranded(run) && Commits(Run(run), op) && !AllReadable(Run(run + [op]))
    ensures Forward(run + [op]) && Admitted(run + [op])
    ensures op.EventOp? && op.now == op.read.createdAt && op.read.state == Previewing
    ensures op.data.Progressed? && op.data.state == AwaitingApproval
  {
    var r;
    run, r := Reach(at, brief, key, job, now);
    op := Report(at, r, AwaitingApproval, key, now);
    ReportCommits(Run(run), op);
    Extends(run, op);
    CalmSnoc(run, op, now);
    CalmForward(run + [op], now);
  }

  /** A progress report may carry a server time before the request was prepared. */
  lemma ClockRunsBackwards(at: RequestKey, brief: Brief, key: string, job: Id, now: int) returns (run: seq<Op>, op: Op)
    requires BriefValid(brief) && 1 < now < 1_000_000_000
    ensures !Stranded(run) && Commits(Run(run), op) && !AllReadable(Run(run + [op]))
    ensures op.EventOp? && op.now == op.read.createdAt - 1 && !StrandsProgress(op.read, op.data)
  {
    var r;
    run, r := Reach(at, brief, key, job, now);
    op := Report(at, r, Previewing, key, now - 1);
    ReportCommits(Run(run), op);
    Extends(run, op);
  }

  // ----- commands that cancel a preview -----

  /** The result of canceling a request while it previews. */
  predicate Cancels(op: Op) {
    && op.CommandOp? && op.command.operation == Controlled(Cancel)
    && op.read.state == Previewing && op.now == op.read.createdAt && op.read.job == Some(op.command.result.job)
    && op.command.result.status in {CommandStatus.Accepted, CommandStatus.NeedsReview}
  }

  lemma CancelCommits(w: World, op: Op)
    requires Cancels(op) && Standing(w, op.at, op.read) && 1 <= op.command.result.revision <= op.read.revision + 1
    requires op.command.result.status == CommandStatus.NeedsReview ==> op.command.result.revision == op.read.revision
    requires CommandKey(op.at.partition, op.command.operation, op.command.key) !in w.tables.commands
    ensures Commits(w, op) && Admits(w, op)
    ensures Strands(op) <==> op.command.result.revision <= op.read.revision
  {
    assert Controllable(op.read, Cancel, op.read.revision);

  }

  function Cancellation(at: RequestKey, r: Record, status: CommandStatus, revision: int, key: string): (op: Op)
    requires r.job.Some? && r.state == Previewing && status in {CommandStatus.Accepted, CommandStatus.NeedsReview}
    ensures Cancels(op) && op.at == at && op.read == r && op.now == r.createdAt && op.command.key == key
    ensures op.command.result.status == status && op.command.result.revision == revision
  {
    CommandOp(at, r.createdAt, r, Command(Controlled(Cancel), key, key, key, CommandResult(key, status, r.job.value, revision)))
  }

  /** An accepted cancellation of a preview takes effect, without a dry run or an approval. */
  lemma CancelStands(w: World, op: Op, r: Record)
    requires Cancels(op) && Standing(w, op.at, op.read) && op.read.revision == 1 && Commits(w, op) && !Strands(op)
    requires op.command.result.status == CommandStatus.Accepted && op.command.result.revision == 2 && Update(op).value == Some(r)
    ensures Standing(Exec(w, op), op.at, r) && r.state == CancelRequested && r.job.Some? && !r.HasDryRun()
    ensures r.createdAt == op.read.createdAt && r.revision == 2 && Exec(w, op).tables.events == w.tables.events
  {
    CommandedIsReadable(op.read, op.command, op.now);
  }

  /** A cancellation that the provider wants reviewed is recorded over the preview command that the validator asks for. */
  lemma CommandWhilePreviewing(at: RequestKey, brief: Brief, key: string, job: Id, now: int) returns (run: seq<Op>, op: Op)
    requires BriefValid(brief) && 1 < now < 1_000_000_000
    ensures !Stranded(run) && Commits(Run(run), op) && !AllReadable(Run(run + [op]))
    ensures Forward(run + [op]) && Admitted(run + [op])
    ensures op.CommandOp? && op.now == op.read.createdAt && op.read.state == Previewing && op.command.operation == Controlled(Cancel)
    ensures Update(op).value.Some? && Update(op).value.value.state == Previewing
  {
    var r;
    run, r := Reach(at, brief, key, job, now);
    op := Cancellation(at, r, CommandStatus.NeedsReview, 1, key);
    CancelCommits(Run(run), op);
    Extends(run, op);
    CalmSnoc(run, op, now);
    CalmForward(run + [op], now);
  }

  /** An accepted cancellation of a preview, and the provider's report that it is canceling. */
  lemma CancelingUnapproved(at: RequestKey, brief: Brief, key: string, job: Id, now: int) returns (run: seq<Op>, op: Op)
    requires BriefValid(brief) && 1 < now < 1_000_000_000
    ensures !Stranded(run) && Commits(Run(run), op) && !AllReadable(Run(run + [op]))
    ensures Forward(run + [op]) && Admitted(run + [op])
    ensures op.EventOp? && op.now == op.read.createdAt && op.read.state == CancelRequested && !op.read.HasDryRun()
    ensures op.data.Progressed? && op.data.state == Canceling
  {
    var r;
    run, r := Reach(at, brief, key, job, now);
    var cancel := Cancellation(at, r, CommandStatus.Accepted, 2, key);
    var canceled := CancelRun(run, cancel);
    CalmSnoc(run, cancel, now);
    run := run + [cancel];
    op := Report(at, canceled, Canceling, key, now);
    ReportCommits(Run(run), op);
    Extends(run, op);
    CalmSnoc(run, op, now);
    CalmForward(run + [op], now);
  }

  lemma CancelRun(run: seq<Op>, cancel: Op) returns (r: Record)
    requires Cancels(cancel) && PreviewsAfter(run, cancel.at, cancel.read)
    requires cancel.command.result.status == CommandStatus.Accepted && cancel.command.result.revision == 2
    ensures Admits(Run(run), cancel)
    ensures !Stranded(run + [cancel]) && Standing(Run(run + [cancel]), cancel.at, r) && r.state == CancelRequested && r.job.Some?
    ensures !r.HasDryRun() && r.createdAt == cancel.read.createdAt && Run(run + [cancel]).tables.events == map[]
  {
    CancelCommits(Run(run), cancel);
    r := Update(cancel).value.value;
    CancelStands(Run(run), cancel, r);
    Lift(run, cancel, r);
  }

  // ----- requests that wait for their approval -----

  /** A request whose preview is ready, at the end of a run without a stranding write. */
  ghost predicate AwaitsAfter(run: seq<Op>, at: RequestKey, r: Record) {
    var w := Run(run);
    && !Stranded(run) && Standing(w, at, r) && r.state == AwaitingApproval && r.HasDryRun() && r.approval.None? && r.job.Some?
    && r.revision == 2 && r.createdAt < r.previewExpiresAt.value && Positive(r.dryRunRevision.value)
    && (forall k :: k in w.tables.commands ==> k.operation == Preview)
    && (forall k :: k in w.tables.events ==> AllDigits(k.dedupe) && Value(k.dedupe) < r.storageRevision)
  }

  /** The provider's report that the preview of a request is ready. */
  predicate Announces(op: Op) {
    && op.EventOp? && op.data.PreviewReady? && op.data.counts.Valid() && op.data.bound.occurredAt == op.now && op.now == op.read.createdAt
    && op.data.bound.revision == op.read.revision + 1 && op.data.bound.connection == op.read.brief.connection
    && op.read.job == Some(op.data.bound.job) && op.data.dryRunRevision == 1 && op.data.expiresAt == op.now + 1
  }

  function Announcement(at: RequestKey, r: Record, hash: string): (op: Op)
    requires r.job.Some? && Readable(r)
    ensures Announces(op) && op.at == at && op.read == r && op.now == r.createdAt && op.data.dryRunHash == hash
    ensures op.data.bound.dedupe == Decimal(r.storageRevision)
  {
    EventOp(at, r.createdAt, r,
            PreviewReady(Binding(r.job.value, r.brief.connection, r.revision + 1, Decimal(r.storageRevision), r.createdAt), 1, hash,
                         r.createdAt + 1, r.counts), Decimal(r.storageRevision))
  }

  lemma AnnounceCommits(w: World, op: Op)
    requires Announces(op) && Standing(w, op.at, op.read) && op.read.state == Previewing && op.read.revision == 1
    requires EventKey(op.at.partition, op.data.bound.dedupe) !in w.tables.events
    ensures Commits(w, op) && !Strands(op) && Update(op).value.Some?
    ensures var u := Update(op).value.value;
      && u.state == AwaitingApproval && u.HasDryRun() && u.approval.None? && u.job == op.read.job && u.revision == 2
      && u.createdAt == op.read.createdAt < u.previewExpiresAt.value && u.dryRunRevision == Some(1) && u.dryRunHash == Some(op.data.dryRunHash)
      && u.brief == op.read.brief && u.storageRevision == op.read.storageRevision + 1
  {
  }

  /** The records stored with an event: its receipt is all that is new beside the request. */
  lemma EventReceipts(w: World, op: Op)
    requires op.EventOp? && Commits(w, op)
    ensures Exec(w, op).tables.commands == w.tables.commands
    ensures forall k :: k in Exec(w, op).tables.events ==> k in w.tables.events || k.dedupe == op.data.bound.dedupe
  {
  }

  /** A preview that is reported ready awaits its approval. */
  lemma AnnounceRun(run: seq<Op>, op: Op) returns (r: Record)
    requires Announces(op) && PreviewsAfter(run, op.at, op.read) && op.data.bound.dedupe == Decimal(op.read.storageRevision)
    ensures AwaitsAfter(run + [op], op.at, r)
    ensures r.job == op.read.job && r.brief == op.read.brief && r.createdAt == op.read.createdAt
    ensures r.dryRunRevision == Some(1) && r.dryRunHash == Some(op.data.dryRunHash)
  {
    AnnounceCommits(Run(run), op);
    StrandsExactly(op);
    r := Update(op).value.value;
    WriteStands(Run(run), op);
    Lift(run, op, r);
    EventReceipts(Run(run), op);
    ValueOfDecimal(op.read.storageRevision);
  }

  /** From empty tables, any valid request can be brought to where it waits for its approval. */
  lemma ReachApproval(at: RequestKey, brief: Brief, key: string, job: Id, hash: string, now: int) returns (run: seq<Op>, r: Record)
    requires BriefValid(brief) && 1 < now < 1_000_000_000
    ensures AwaitsAfter(run, at, r) && r.createdAt == now && r.brief == brief && r.job == Some(job) && Calm(run, now)
    ensures r.dryRunRevision == Some(1) && r.dryRunHash == Some(hash)
  {
    var previews, p := Reach(at, brief, key, job, now);
    var op := Announcement(at, p, hash);
    r := AnnounceRun(previews, op);
    CalmSnoc(previews, op, now);
    run := previews + [op];
  }

  /** An approval of the stored dry run. */
  predicate Approves(op: Op) {
    && op.ApproveOp? && op.read.dryRunRevision == Some(op.dryRunRevision) && op.read.dryRunHash == Some(op.dryRunHash)
    && 0 < op.now <= op.read.createdAt
  }

  lemma ApproveCommits(run: seq<Op>, op: Op)
    requires Approves(op) && AwaitsAfter(run, op.at, op.read)
    ensures Commits(Run(run), op) && (Strands(op) <==> op.now < op.read.createdAt)
  {
  }

  /** An approval may carry a server time before the request was prepared. */
  lemma ApprovalClockRunsBackwards(at: RequestKey, brief: Brief, key: string, job: Id, hash: string, now: int)
    returns (run: seq<Op>, op: Op)
    requires BriefValid(brief) && 1 < now < 1_000_000_000
    ensures !Stranded(run) && Commits(Run(run), op) && !AllReadable(Run(run + [op]))
    ensures op.ApproveOp? && op.now == op.read.createdAt - 1 && Calm(run, now)
  {
    var r;
    run, r := ReachApproval(at, brief, key, job, hash, now);
    op := ApproveOp(at, now - 1, r, 1, hash, key, key);
    ApproveCommits(run, op);
    Extends(run, op);
  }

  // ----- a pause that nothing admitted -----

  /** The result of pausing a request that the provider wants reviewed. */
  predicate Pauses(op: Op) {
    && op.CommandOp? && op.command.operation == Controlled(Pause) && op.command.result.status == CommandStatus.NeedsReview
    && op.command.result.revision == op.read.revision && op.read.job == Some(op.command.result.job) && op.now == op.read.createdAt
  }

  lemma PauseCommits(run: seq<Op>, op: Op)
    requires Pauses(op) && AwaitsAfter(run, op.at, op.read)
    ensures Commits(Run(run), op) && Strands(op)
  {
    assert CommandKey(op.at.partition, op.command.operation, op.command.key) !in Run(run).tables.commands;
  }

  /** A pause recorded without prepare_control strands a request that is not approved yet. */
  lemma PauseUnapproved(at: RequestKey, brief: Brief, key: string, job: Id, hash: string, now: int) returns (run: seq<Op>, op: Op)
    requires BriefValid(brief) && 1 < now < 1_000_000_000
    ensures !Stranded(run) && Commits(Run(run), op) && !AllReadable(Run(run + [op]))
    ensures op.CommandOp? && op.now == op.read.createdAt && op.read.state == AwaitingApproval && op.read.approval.None? && Calm(run, now)
  {
    var r;
    run, r := ReachApproval(at, brief, key, job, hash, now);
    op := CommandOp(at, now, r, Command(Controlled(Pause), key, key, key, CommandResult(key, CommandStatus.NeedsReview, job, 2)));
    PauseCommits(run, op);
    Extends(run, op);
  }

  // ----- the cap on storage revisions -----

  /** A request that can still be read and reported on, its reports numbered by its storage revision. */
  ghost predicate ReportedTo(run: seq<Op>, at: RequestKey, r: Record) {
    var w := Run(run);
    && !Stranded(run) && at in w.tables.requests && w.tables.requests[at] == r && (at, r) in w.seen
    && Readable(r) && r.job.Some? && 1 < r.createdAt < 1_000_000_000
    && forall k :: k in w.tables.events ==> AllDigits(k.dedupe) && Value(k.dedupe) < r.storageRevision
  }

  /** The provider's report that an item needs review, at the revision of the request. */
  predicate Reviews(op: Op) {
    && op.EventOp? && Readable(op.read) && op.data.ItemNeedsReview? && op.data.bound.occurredAt == op.now && op.now == op.read.createdAt
    && op.data.bound.revision == op.read.revision && op.data.bound.connection == op.read.brief.connection
    && op.read.job == Some(op.data.bound.job) && op.data.bound.dedupe == Decimal(op.read.storageRevision)
  }

  function Review(at: RequestKey, r: Record, item: Id): (op: Op)
    requires r.job.Some? && Readable(r)
    ensures Reviews(op) && op.at == at && op.read == r && op.now == r.createdAt
  {
    EventOp(at, r.createdAt, r,
            ItemNeedsReview(Binding(r.job.value, r.brief.connection, r.revision, Decimal(r.storageRevision), r.createdAt), item, item),
            Decimal(r.storageRevision))
  }

  lemma ReviewCommits(w: World, op: Op)
    requires Reviews(op) && op.at in w.tables.requests && w.tables.requests[op.at] == op.read && (op.at, op.read) in w.seen
    requires Readable(op.read) && op.read.revision > 0 && 1 < op.read.createdAt < 1_000_000_000
    requires EventKey(op.at.partition, op.data.bound.dedupe) !in w.tables.events
    ensures Commits(w, op) && (Strands(op) <==> op.read.storageRevision >= MAX_INTEGER) && Update(op).value.Some?
    ensures var u := Update(op).value.value;
      && u.storageRevision == op.read.storageRevision + 1 && u.createdAt == op.read.createdAt && u.job == op.read.job
      && u.brief == op.read.brief && u.state == op.read.state && u.approval == op.read.approval && u.revision == op.read.revision
  {
  }

  lemma ReviewIsNew(run: seq<Op>, op: Op)
    requires Reviews(op) && ReportedTo(run, op.at, op.read)
    ensures Commits(Run(run), op) && (Strands(op) <==> op.read.storageRevision >= MAX_INTEGER) && Update(op).value.Some?
    ensures var u := Update(op).value.value;
      && u.storageRevision == op.read.storageRevision + 1 && u.createdAt == op.read.createdAt && u.job == op.read.job
  {
    ValueOfDecimal(op.read.storageRevision);
    assert op.read.state != Draft;
    ReviewCommits(Run(run), op);
  }

  /** One more report on an item raises the storage revision by one. */
  lemma ReviewRun(run: seq<Op>, op: Op) returns (u: Record)
    requires Reviews(op) && ReportedTo(run, op.at, op.read) && op.read.storageRevision < MAX_INTEGER
    ensures ReportedTo(run + [op], op.at, u) && u.storageRevision == op.read.storageRevision + 1 && u.createdAt == op.read.createdAt
  {
    ReviewIsNew(run, op);
    u := Update(op).value.value;
    StrandsExactly(op);
    Extends(run, op);
    WriteStands(Run(run), op);
    EventReceipts(Run(run), op);
    ValueOfDecimal(op.read.storageRevision);
  }

  /** Reports on items alone can raise the storage revision to its cap. */
  lemma {:induction false} Exhaust(run: seq<Op>, at: RequestKey, r: Record, item: Id) returns (longer: seq<Op>, u: Record)
    requires ReportedTo(run, at, r) && r.storageRevision <= MAX_INTEGER && Calm(run, r.createdAt)
    ensures ReportedTo(longer, at, u) && u.storageRevision == MAX_INTEGER && u.createdAt == r.createdAt && Calm(longer, r.createdAt)
    decreases MAX_INTEGER - r.storageRevision
  {
    if r.storageRevision == MAX_INTEGER {
      longer, u := run, r;
    } else {
      var op := Review(at, r, item);
      var next := ReviewRun(run, op);
      CalmSnoc(run, op, r.createdAt);
      longer, u := Exhaust(run + [op], at, next, item);
    }
  }

  /** A record at the largest storage revision is stranded by the next report of any kind. */
  lemma StorageCap(at: RequestKey, brief: Brief, key: string, job: Id, now: int) returns (run: seq<Op>, op: Op)
    requires BriefValid(brief) && 1 < now < 1_000_000_000
    ensures !Stranded(run) && Commits(Run(run), op) && !AllReadable(Run(run + [op]))
    ensures op.EventOp? && op.data.ItemNeedsReview? && op.read.storageRevision == MAX_INTEGER
    ensures Forward(run + [op]) && Admitted(run + [op])
  {
    var previews, p := Reach(at, brief, key, job, now);
    var r;
    run, r := Exhaust(previews, at, p, key);
    op := Review(at, r, key);
    ReviewIsNew(run, op);
    Extends(run, op);
    CalmSnoc(run, op, now);
    CalmForward(run + [op], now);
  }
}
