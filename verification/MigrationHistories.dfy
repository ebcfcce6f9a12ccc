/**
 * What was recorded of a request, told one result after the other, and the laws of controls. A story knows nothing of
 * conflicts, keys, replays or stale reads: it only takes over what each applied result says.
 */
module MigrationHistories {
  import opened Basics
  import opened MigrationRecords
  import opened MigrationSteps
  import opened MigrationRuns
  import opened MigrationGuarantees

  datatype Story =
    Story(state: State, revision: int, stateRevision: int, job: Option<Id>, counts: Counts, dryRun: Option<(int, string, int)>,
          approval: Option<Approval>, command: Option<Command>, review: Option<(Id, string)>, event: Option<(Id, Event)>,
          progress: Option<Snapshot>, createdAt: int, updatedAt: int, writes: nat)
  {
    /** The request is now in this state, reported at this revision. */
    function In(next: State, at: int): Story {
      this.(state := next, revision := at, stateRevision := if next == state then stateRevision else at)
    }
  }

  function Beginning(now: int): Story {
    Story(Draft, 0, 0, None, Counts(0, 0, 0, 0, 0), None, None, None, None, None, None, now, now, 1)
  }

  /** A command result names the job; one that is accepted at the next revision moves the request. */
  function AfterCommand(s: Story, c: Command, now: int): Story {
    var x := c.result;
    var told := s.(job := Some(x.job), command := Some(c), updatedAt := if s.updatedAt < now then now else s.updatedAt,
                   writes := s.writes + 1);
    if x.status != Accepted || x.revision != s.revision + 1 then told else
    told.(revision := x.revision, stateRevision := x.revision,
          state := match c.operation
                   case Preview => Previewing
                   case Execute => Scheduled
                   case Controlled(Pause) => Paused
                   case Controlled(Resume) => Running
                   case Controlled(Cancel) => CancelRequested)
  }

  function AfterEvent(s: Story, e: Event, event: Id, now: int): Story {
    var told := s.(event := Some((event, e)), updatedAt := now, writes := s.writes + 1);
    match e
    case PreviewReady(b, v, h, x, c) => told.In(AwaitingApproval, b.revision).(dryRun := Some((v, h, x)), counts := c)
    case Progressed(b, state, c) => told.In(state, b.revision).(counts := c, progress := Some(Snapshot(b.revision, state, c)))
    case ItemNeedsReview(b, item, reason) => told.(revision := b.revision, review := Some((item, reason)))
    case Finished(b, state, c) => told.In(state, b.revision).(counts := c)
  }

  function After(s: Story, op: Op): Story {
    match op
    case PrepareOp(_, now, _, _) => Beginning(now)
    case ApproveOp(_, now, _, v, h, actor, _) =>
      s.(approval := Some(Approval(v, h, actor, now)), updatedAt := now, writes := s.writes + 1)
    case CommandOp(_, now, _, c) => AfterCommand(s, c, now)
    case EventOp(_, now, _, e, event) => AfterEvent(s, e, event, now)
  }

  /** The operation is committed and writes the request; a stale event is committed without writing it. */
  predicate AppliedTo(w: World, op: Op, at: RequestKey) {
    Commits(w, op) && op.at == at && Update(op).value.Some?
  }

  function StoryOf(ops: seq<Op>, at: RequestKey): Story {
    if ops == [] then Beginning(0) else
    var init, op := ops[..|ops| - 1], ops[|ops| - 1];
    if AppliedTo(Run(init), op, at) then After(StoryOf(init, at), op) else StoryOf(init, at)
  }

  predicate Tells(r: Record, s: Story) {
    && r.state == s.state && r.revision == s.revision && r.stateRevision == s.stateRevision && r.job == s.job && r.counts == s.counts
    && (match s.dryRun
        case None => r.NoDryRun()
        case Some(d) => r.dryRunRevision == Some(d.0) && r.dryRunHash == Some(d.1) && r.previewExpiresAt == Some(d.2))
    && r.approval == s.approval && r.lastCommand == s.command && r.lastReview == s.review && r.lastEvent == s.event
    && r.lastProgress == s.progress && r.createdAt == s.createdAt && r.updatedAt == s.updatedAt && r.storageRevision == s.writes
  }

  lemma PrepareTells(op: Op, s: Story)
    requires op.PrepareOp? && Update(op).Ok?
    ensures Update(op).value.Some? && Tells(Update(op).value.value, After(s, op))
  {
  }

  lemma ApproveTells(op: Op, s: Story)
    requires op.ApproveOp? && Update(op).Ok? && Tells(op.read, s)
    ensures Update(op).value.Some? && Tells(Update(op).value.value, After(s, op))
  {
  }

  lemma CommandTells(op: Op, s: Story)
    requires op.CommandOp? && Update(op).Ok? && Tells(op.read, s)
    ensures Update(op).value.Some? && Tells(Update(op).value.value, After(s, op))
  {
  }

  /** What an applied event leaves, whatever it is. */
  lemma EventMovesTo(op: Op)
    requires op.EventOp? && Update(op).Ok? && Update(op).value.Some?
    ensures Evented(op.read, op.data, op.event, op.now) == Ok(Update(op).value.value)
  {
  }

  lemma EventTells(op: Op, s: Story)
    requires op.EventOp? && Update(op).Ok? && Update(op).value.Some? && Tells(op.read, s)
    ensures Tells(Update(op).value.value, After(s, op))
  {
    EventMovesTo(op);
    EventedTells(op.read, s, op.data, op.event, op.now);
  }

  lemma EventedTells(r: Record, s: Story, e: Event, event: Id, now: int)
    requires Tells(r, s) && Evented(r, e, event, now).Ok?
    ensures Tells(Evented(r, e, event, now).value, AfterEvent(s, e, event, now))
  {
  }

  lemma UpdateTells(op: Op, s: Story)
    requires Update(op).Ok? && Update(op).value.Some? && (!op.PrepareOp? ==> Tells(op.read, s))
    ensures Tells(Update(op).value.value, After(s, op))
  {
    if op.PrepareOp? { PrepareTells(op, s); }
    else if op.ApproveOp? { ApproveTells(op, s); }
    else if op.CommandOp? { CommandTells(op, s); }
    else { EventTells(op, s); }
  }

  /**
   * After any run, whatever was read when and refused or repeated in between, a stored request says exactly what its
   * story says: its counts are those of the last applied event that carries any, and zero before; its dry run is that of
   * the last preview result, its review note that of the last item; it is where the last move left it.
   */
  lemma {:induction false} TellsItsStory(ops: seq<Op>, at: RequestKey)
    requires at in Run(ops).tables.requests
    ensures Tells(Run(ops).tables.requests[at], StoryOf(ops, at))
  {
    var init, op := ops[..|ops| - 1], ops[|ops| - 1];
    if at in Run(init).tables.requests { TellsItsStory(init, at); }
    RunKeeps(init);
    if AppliedTo(Run(init), op, at) {
      if !op.PrepareOp? { ReadIsCurrent(Run(init), op); }
      UpdateTells(op, StoryOf(init, at));
    }
  }

  // ----- what the call answers -----

  /** The public part of a story. */
  predicate Answers(p: Projection, s: Story) {
    && p.job == s.job && p.state == s.state && p.revision == s.revision && p.counts == s.counts
    && (p.commandStatus.Some? <==> s.command.Some?) && (s.command.Some? ==> p.commandStatus == Some(s.command.value.result.status))
    && (match s.dryRun
        case None => p.dryRunRevision.None? && p.dryRunHash.None? && p.expiresAt.None?
        case Some(d) => p.dryRunRevision == Some(d.0) && p.dryRunHash == Some(d.1) && p.expiresAt == Some(d.2))
  }

  lemma TellsAnswers(r: Record, s: Story)
    requires Tells(r, s)
    ensures Answers(Project(r), s)
  {
  }

  /** A recorded command result is answered with the story up to it. */
  lemma CommandAnswersItsStory(ops: seq<Op>, op: Op)
    requires Commits(Run(ops), op) && op.CommandOp?
    ensures var t, k := Run(ops + [op]).tables, CommandKey(op.at.partition, op.command.operation, op.command.key);
      && k in t.commands && t.commands[k].command == op.command && t.commands[k].createdAt == op.now
      && Answers(t.commands[k].result, StoryOf(ops + [op], op.at))
  {
    RunStep(ops, op);
    TellsItsStory(ops + [op], op.at);
    TellsAnswers(Run(ops + [op]).tables.requests[op.at], StoryOf(ops + [op], op.at));
  }

  /** A recorded event too, and it says whether it came too late to change anything. */
  lemma EventAnswersItsStory(ops: seq<Op>, op: Op)
    requires Commits(Run(ops), op) && op.EventOp?
    ensures var t, k := Run(ops + [op]).tables, EventKey(op.at.partition, op.data.bound.dedupe);
      && k in t.events && t.events[k].data == op.data && t.events[k].event == op.event && t.events[k].processedAt == op.now
      && (t.events[k].stale <==> op.data.bound.revision < op.read.revision)
      && (!t.events[k].stale ==> Answers(t.events[k].result, StoryOf(ops + [op], op.at)))
      && (t.events[k].stale ==> t.events[k].result == Project(op.read) && (op.at, op.read) in Run(ops).seen)
  {
    RunStep(ops, op);
    if op.data.bound.revision >= op.read.revision {
      TellsItsStory(ops + [op], op.at);
      TellsAnswers(Run(ops + [op]).tables.requests[op.at], StoryOf(ops + [op], op.at));
    }
  }

  // ----- controls -----

  /**
   * An accepted result at the next revision leaves the request in the state that its operation names. Right after an
   * accepted pause a resume is let through and a pause is refused, the other way round after a resume, and after a
   * cancellation nothing is let through.
   */
  lemma AcceptedLeads(ops: seq<Op>, op: Op)
    requires Commits(Run(ops), op) && op.CommandOp? && op.command.result.status == Accepted
    requires op.command.result.revision == op.read.revision + 1
    ensures op.at in Run(ops + [op]).tables.requests
    ensures var b := Run(ops + [op]).tables.requests[op.at];
      && b.revision == b.stateRevision == op.command.result.revision && b.counts == op.read.counts
      && match op.command.operation
         case Preview => b.state == Previewing
         case Execute => b.state == Scheduled && Controllable(b, Pause, b.revision) && !Controllable(b, Resume, b.revision)
         case Controlled(Pause) => b.state == Paused && Controllable(b, Resume, b.revision) && !Controllable(b, Pause, b.revision)
         case Controlled(Resume) => b.state == Running && Controllable(b, Pause, b.revision) && !Controllable(b, Resume, b.revision)
         case Controlled(Cancel) => b.state == CancelRequested && forall control :: !Controllable(b, control, b.revision)
  {
    RunStep(ops, op);
  }

  lemma AcceptsControl(r: Record, c: Command, now: int)
    requires Readable(r) && c.operation.Controlled? && c.result.status == Accepted && Positive(c.result.revision)
    requires Controllable(r, c.operation.control, c.result.revision - 1) && r.job == Some(c.result.job)
    ensures CommandValid(c) && Commanded(r, c, now).Ok?
  {
  }

  /**
   * A control that was let through, and that the provider accepts at the next revision for the request's job, is taken
   * unless its key was used: what `prepare_control` allows never meets a refused transition.
   */
  lemma LetThroughIsTaken(w: World, at: RequestKey, c: Command, now: int)
    requires WorldInv(w) && at in w.tables.requests && Readable(w.tables.requests[at]) && Positive(now)
    requires c.operation.Controlled? && c.result.status == Accepted && Positive(c.result.revision)
    requires var r := w.tables.requests[at]; Controllable(r, c.operation.control, c.result.revision - 1) && r.job == Some(c.result.job)
    ensures Commits(w, CommandOp(at, now, w.tables.requests[at], c)) <==> CommandKey(at.partition, c.operation, c.key) !in w.tables.commands
  {
    AcceptsControl(w.tables.requests[at], c, now);
  }

  /** A result at a revision that the request has reached by itself is recorded all the same, and moves nothing. */
  lemma LateIsTaken(w: World, at: RequestKey, c: Command, now: int)
    requires WorldInv(w) && at in w.tables.requests && Readable(w.tables.requests[at]) && Positive(now) && CommandValid(c)
    requires c.result.revision <= w.tables.requests[at].revision
    ensures var r := w.tables.requests[at];
      Commits(w, CommandOp(at, now, r, c))
      <==> && CommandKey(at.partition, c.operation, c.key) !in w.tables.commands && r.job in {None, Some(c.result.job)}
           && (c.operation == Execute ==> r.approval.Some?)
  {
  }

  /** Exactly the dry run that waits for it can be approved, once, and before its preview expires. */
  lemma ApprovalIsTaken(w: World, at: RequestKey, dryRunRevision: int, dryRunHash: string, actor: string, key: string, now: int)
    requires WorldInv(w) && at in w.tables.requests && Readable(w.tables.requests[at]) && Positive(now)
    ensures var r := w.tables.requests[at];
      Commits(w, ApproveOp(at, now, r, dryRunRevision, dryRunHash, actor, key))
      <==> && r.state == AwaitingApproval && r.approval.None? && r.dryRunRevision == Some(dryRunRevision)
           && r.dryRunHash == Some(dryRunHash) && r.previewExpiresAt.Some? && now < r.previewExpiresAt.value
  {
  }

  // ----- events -----

  /** The report contradicts the one that was applied last, at the same revision. */
  predicate Contradicts(r: Record, e: Event) {
    e.Progressed? && r.lastProgressRevision == Some(e.bound.revision) && r.lastProgress != Some(Snapshot(e.bound.revision, e.state, e.counts))
  }

  /** An event at the request's revision or a later one says something that can have happened since. */
  predicate Possible(r: Record, e: Event) {
    match e
    case PreviewReady(b, _, _, _, _) => r.state == Previewing && b.revision > r.revision
    case Progressed(b, s, _) =>
      && (s == r.state || (s in NextStates(r.state) && b.revision > r.stateRevision))
      && (s in {Scheduled, Running} ==> r.approval.Some?)
    case ItemNeedsReview(_, _, _) => true
    case Finished(b, s, _) =>
      || (s == r.state && b.revision > r.revision)
      || (s in NextStates(r.state) && (b.revision > r.stateRevision || (r.state == CancelRequested && s == Canceled)))
  }

  lemma TakenExactly(r: Record, e: Event, event: Id, now: int)
    requires Readable(r)
    ensures EventUpdate(r, e, event, now).Ok?
        <==> && r.brief.connection == e.bound.connection && r.job == Some(e.bound.job) && !Contradicts(r, e)
             && (e.bound.revision >= r.revision ==> Possible(r, e))
  {
  }

  /**
   * Exactly the new events that are bound to the request, contradict no applied report of their revision, and are either
   * stale or possible can be recorded.
   */
  lemma EventIsTaken(w: World, at: RequestKey, e: Event, event: Id, now: int)
    requires WorldInv(w) && at in w.tables.requests && Readable(w.tables.requests[at])
    requires EventValid(e) && NonNegative(now) && e.bound.occurredAt <= now + EVENT_CLOCK_SKEW
    ensures var r := w.tables.requests[at];
      Commits(w, EventOp(at, now, r, e, event))
      <==> && EventKey(at.partition, e.bound.dedupe) !in w.tables.events
           && r.brief.connection == e.bound.connection && r.job == Some(e.bound.job) && !Contradicts(r, e)
           && (e.bound.revision >= r.revision ==> Possible(r, e))
  {
    TakenExactly(w.tables.requests[at], e, event, now);
  }
}
