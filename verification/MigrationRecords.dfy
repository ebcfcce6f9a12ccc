/** Migration requests: the stored record, its strict read-time validator, and its writers. src/migration_storage.py. */
module MigrationRecords {
  import opened Basics

  /** `_positive_int` and `_nonnegative_int` stop here. */
  const MAX_INTEGER: int := 9_999_999_999

  const EVENT_CLOCK_SKEW: int := 300
  const MAX_COMMAND_ATTEMPTS: nat := 8

  predicate Positive(n: int) {
    1 <= n <= MAX_INTEGER
  }

  predicate NonNegative(n: int) {
    0 <= n <= MAX_INTEGER
  }

  datatype State =
    | Draft | Previewing | AwaitingApproval | Scheduled | Running | Paused
    | CancelRequested | Canceling | Completed | CompletedWithErrors | Canceled

  predicate Terminal(s: State) {
    s in {Completed, CompletedWithErrors, Canceled}
  }

  /** `_TRANSITIONS`. */
  function NextStates(s: State): set<State> {
    match s
    case Draft => {Previewing, Canceled}
    case Previewing => {AwaitingApproval, CancelRequested, Canceled}
    case AwaitingApproval => {Scheduled, CancelRequested, Canceled}
    case Scheduled => {Running, Paused, CancelRequested, Canceling, Completed, CompletedWithErrors, Canceled}
    case Running => {Paused, CancelRequested, Canceling, Completed, CompletedWithErrors, Canceled}
    case Paused => {Scheduled, Running, CancelRequested, Canceling, Canceled}
    case CancelRequested => {Canceling, Canceled}
    case Canceling => {Canceled}
    case Completed => {CancelRequested}
    case CompletedWithErrors => {CancelRequested}
    case Canceled => {}
  }

  datatype Control = Pause | Resume | Cancel

  /** `_CONTROL_STATES`. */
  function ControlStates(c: Control): set<State> {
    match c
    case Pause => {Scheduled, Running}
    case Resume => {Paused}
    case Cancel => {Previewing, AwaitingApproval, Scheduled, Running, Paused, Completed, CompletedWithErrors}
  }

  datatype Operation = Preview | Execute | Controlled(control: Control)

  datatype CommandStatus = Accepted | Pending | NeedsReview

  datatype CommandResult = CommandResult(command: Id, status: CommandStatus, job: Id, revision: int)

  datatype Command = Command(operation: Operation, key: string, request: string, actor: string, result: CommandResult)

  datatype Counts = Counts(total: int, pending: int, applied: int, needsReview: int, failed: int)
  {
    /** `_counts`. */
    predicate Valid() {
      && NonNegative(total) && NonNegative(pending) && NonNegative(applied) && NonNegative(needsReview) && NonNegative(failed)
      && total == pending + applied + needsReview + failed
    }
  }

  const ZERO_COUNTS: Counts := Counts(0, 0, 0, 0, 0)

  /** What a progress hash is taken over. */
  datatype Snapshot = Snapshot(revision: int, state: State, counts: Counts)

  datatype Approval = Approval(dryRunRevision: int, dryRunHash: string, actor: string, approvedAt: int)

  /** An offer as it is bound into a request; its content hash is taken over the terms. */
  datatype Terms = Terms(amountMinor: int, currency: string, recurrence: string)
  datatype Offer = Offer(version: Id, revision: int, terms: Terms, hashed: Terms)

  datatype Policy = NextRenewal | ImmediateProrated

  /** Everything about a request that is fixed when it is prepared, and what its request hash is taken over. */
  datatype Brief =
    Brief(domain: string, connection: Id, source: Offer, target: Offer, policy: Policy, canarySize: int, concurrency: int, actor: string)

  predicate OfferValid(o: Offer) {
    Positive(o.revision) && 0 <= o.terms.amountMinor <= MAX_AMOUNT_MINOR && o.hashed == o.terms
  }

  /** `_valid_offer_pair` and the bounds that preparation checks. */
  predicate BriefValid(b: Brief) {
    && OfferValid(b.source) && OfferValid(b.target)
    && b.source.version != b.target.version
    && b.source.terms.currency == b.target.terms.currency && b.source.terms.recurrence == b.target.terms.recurrence
    && 1 <= b.canarySize <= 25 && 1 <= b.concurrency <= 5
  }

  datatype Record =
    Record(brief: Brief, hashed: Brief, key: string, createdAt: int, updatedAt: int, state: State, revision: int,
           job: Option<Id>, dryRunRevision: Option<int>, dryRunHash: Option<string>, previewExpiresAt: Option<int>,
           counts: Counts, approval: Option<Approval>, approvalKey: Option<string>, lastCommand: Option<Command>,
           lastReview: Option<(Id, string)>, lastEvent: Option<(Id, Event)>, lastProgress: Option<Snapshot>,
           lastProgressRevision: Option<int>, stateRevision: int, storageRevision: int)
  {
    predicate HasDryRun() {
      dryRunRevision.Some? && dryRunHash.Some? && previewExpiresAt.Some?
    }

    predicate NoDryRun() {
      dryRunRevision.None? && dryRunHash.None? && previewExpiresAt.None?
    }

    /** The fields that no writer touches after preparation. */
    function Identity(): (Brief, Brief, string, int) {
      (brief, hashed, key, createdAt)
    }
  }

  datatype Event =
    | PreviewReady(bound: Binding, dryRunRevision: int, dryRunHash: string, expiresAt: int, counts: Counts)
    | Progressed(bound: Binding, state: State, counts: Counts)
    | ItemNeedsReview(bound: Binding, item: Id, reason: string)
    | Finished(bound: Binding, state: State, counts: Counts)

  /** What every provider event names. */
  datatype Binding = Binding(job: Id, connection: Id, revision: int, dedupe: Id, occurredAt: int)

  /** `_event_data`: the parsed bounds of an event. */
  predicate EventValid(e: Event) {
    && Positive(e.bound.revision) && NonNegative(e.bound.occurredAt)
    && match e
       case PreviewReady(_, r, _, x, c) => Positive(r) && Positive(x) && c.Valid()
       case Progressed(_, s, c) => !Terminal(s) && c.Valid()
       case ItemNeedsReview(_, _, _) => true
       case Finished(_, s, c) => Terminal(s) && c.Valid()
  }

  // ----- the read-time validator -----

  predicate CommandReadable(c: Command, r: Record) {
    && Positive(c.result.revision) && c.result.status != Pending
    && Some(c.result.job) == r.job && c.result.revision <= r.revision
    && (c.operation in {Execute, Controlled(Pause), Controlled(Resume)} ==> r.approval.Some?)
  }

  predicate ApprovalReadable(r: Record) {
    match r.approval
    case None => r.approvalKey.None?
    case Some(a) =>
      && Positive(a.dryRunRevision) && Positive(a.approvedAt) && r.approvalKey.Some?
      && r.dryRunRevision == Some(a.dryRunRevision) && r.dryRunHash == Some(a.dryRunHash)
  }

  predicate ProgressReadable(r: Record) {
    && (r.lastProgressRevision.None? <==> r.lastProgress.None?)
    && (r.lastProgressRevision.Some? ==> Positive(r.lastProgressRevision.value) && r.lastProgressRevision.value <= r.revision)
  }

  predicate StateReadable(r: Record) {
    && (r.state == Draft ==>
          r.revision == 0 && r.stateRevision == 0 && r.job.None? && r.NoDryRun() && r.approval.None? && r.lastCommand.None?)
    && (r.state != Draft ==> r.revision != 0 && r.stateRevision != 0 && r.job.Some?)
    && (r.state == Previewing ==>
          r.NoDryRun() && r.approval.None? && r.lastCommand.Some? && r.lastCommand.value.operation == Preview)
    && (r.state == AwaitingApproval ==> r.HasDryRun())
    && (r.state in {Scheduled, Running, Paused, Canceling, Completed, CompletedWithErrors} ==> r.HasDryRun() && r.approval.Some?)
  }

  /** `_validated_stored_request`. */
  predicate Readable(r: Record) {
    && BriefValid(r.brief) && r.hashed == r.brief
    && Positive(r.createdAt) && Positive(r.updatedAt) && r.createdAt <= r.updatedAt
    && NonNegative(r.revision) && NonNegative(r.stateRevision) && r.stateRevision <= r.revision && Positive(r.storageRevision)
    && (r.HasDryRun() || r.NoDryRun())
    && (r.HasDryRun() ==> Positive(r.dryRunRevision.value) && Positive(r.previewExpiresAt.value))
    && r.counts.Valid() && ApprovalReadable(r) && ProgressReadable(r) && StateReadable(r)
    && (r.lastCommand.Some? ==> CommandReadable(r.lastCommand.value, r))
  }

  // ----- the public result -----

  datatype Projection =
    Projection(job: Option<Id>, state: State, revision: int, commandStatus: Option<CommandStatus>, dryRunRevision: Option<int>,
               dryRunHash: Option<string>, expiresAt: Option<int>, counts: Counts)

  /** `_public_projection`. */
  function Project(r: Record): Projection {
    Projection(r.job, r.state, r.revision, if r.lastCommand.None? then None else Some(r.lastCommand.value.result.status),
               r.dryRunRevision, r.dryRunHash, r.previewExpiresAt, r.counts)
  }

  // ----- the writers -----

  /** `prepare_preview`. */
  function Prepared(brief: Brief, key: string, now: int): Record {
    Record(brief, brief, key, now, now, Draft, 0, None, None, None, None, ZERO_COUNTS, None, None, None, None, None, None, None, 0, 1)
  }

  /** The approval part of `approve_execution`, for a request not approved yet. */
  function Approved(r: Record, dryRunRevision: int, dryRunHash: string, actor: string, key: string, now: int): Result<Record> {
    if r.approval.Some? then Err(Conflict)
    else if r.state != AwaitingApproval || r.job.None? || r.dryRunRevision != Some(dryRunRevision)
            || r.dryRunHash != Some(dryRunHash) || r.previewExpiresAt.None? || now >= r.previewExpiresAt.value then Err(Conflict)
    else Ok(r.(approval := Some(Approval(dryRunRevision, dryRunHash, actor, now)), approvalKey := Some(key), updatedAt := now,
               storageRevision := r.storageRevision + 1))
  }

  /** `prepare_control` lets a control command through. */
  predicate Controllable(r: Record, control: Control, expectedRevision: int) {
    r.job.Some? && r.revision == expectedRevision && r.state in ControlStates(control)
  }

  function TargetOf(operation: Operation): State {
    match operation
    case Preview => Previewing
    case Execute => Scheduled
    case Controlled(Pause) => Paused
    case Controlled(Resume) => Running
    case Controlled(Cancel) => CancelRequested
  }

  /** `_command_update`. */
  function Commanded(r: Record, c: Command, now: int): Result<Record> {
    var x := c.result;
    if r.job != None && r.job != Some(x.job) then Err(Conflict)
    else if c.operation == Execute && r.approval.None? then Err(Conflict)
    else if x.status == NeedsReview && x.revision > r.revision then Err(Conflict)
    else if x.revision > r.revision && x.revision != r.revision + 1 then Err(Conflict)
    else
      var target := TargetOf(c.operation);
      var moves := x.revision > r.revision && x.status == Accepted;
      if moves && target != r.state && target !in NextStates(r.state) then Err(Conflict)
      else
        Ok(r.(job := Some(x.job), revision := if x.revision > r.revision then x.revision else r.revision,
              state := if moves then target else r.state, stateRevision := if moves then x.revision else r.stateRevision,
              lastCommand := Some(c), updatedAt := if now > r.updatedAt then now else r.updatedAt,
              storageRevision := r.storageRevision + 1))
  }

  /** The state an event asks for. */
  function EventTarget(r: Record, e: Event): State {
    match e
    case PreviewReady(_, _, _, _, _) => AwaitingApproval
    case Progressed(_, s, _) => s
    case ItemNeedsReview(_, _, _) => r.state
    case Finished(_, s, _) => s
  }

  /** `_apply_event`. */
  function Evented(r: Record, e: Event, event: Id, now: int): Result<Record> {
    var target := EventTarget(r, e);
    if e.PreviewReady? && r.state != Previewing then Err(Conflict)
    else if e.Progressed? && target in {Scheduled, Running} && r.approval.None? then Err(Conflict)
    else if target != r.state && target !in NextStates(r.state) then Err(Conflict)
    else
      var moved := r.(state := target, revision := e.bound.revision,
                      stateRevision := if target != r.state then e.bound.revision else r.stateRevision, updatedAt := now,
                      lastEvent := Some((event, e)), storageRevision := r.storageRevision + 1);
      Ok(match e
         case PreviewReady(_, v, h, x, c) => moved.(dryRunRevision := Some(v), dryRunHash := Some(h), previewExpiresAt := Some(x), counts := c)
         case Progressed(b, s, c) => moved.(counts := c, lastProgressRevision := Some(b.revision), lastProgress := Some(Snapshot(b.revision, s, c)))
         case ItemNeedsReview(_, i, reason) => moved.(lastReview := Some((i, reason)))
         case Finished(_, _, c) => moved.(counts := c))
  }

  /** The same-revision events that reconcile rather than contradict. */
  predicate Reconciles(r: Record, e: Event) {
    match e
    case PreviewReady(_, _, _, _, _) => false
    case ItemNeedsReview(_, _, _) => true
    case Finished(b, s, _) => s in NextStates(r.state) && (b.revision > r.stateRevision || (r.state == CancelRequested && s == Canceled))
    case Progressed(b, s, _) => s == r.state || (s in NextStates(r.state) && b.revision > r.stateRevision)
  }

  /** `apply_verified_event` between its reads and its transaction: None for a stale event, which only leaves a receipt. */
  function EventUpdate(r: Record, e: Event, event: Id, now: int): Result<Option<Record>> {
    if r.brief.connection != e.bound.connection || r.job != Some(e.bound.job) then Err(Conflict)
    else if e.Progressed? && r.lastProgressRevision == Some(e.bound.revision)
            && r.lastProgress != Some(Snapshot(e.bound.revision, e.state, e.counts)) then Err(Conflict)
    else if e.bound.revision == r.revision && !Reconciles(r, e) then Err(Conflict)
    else if e.bound.revision < r.revision then Ok(None)
    else match Evented(r, e, event, now)
         case Err(error) => Err(error)
         case Ok(u) => Ok(Some(u))
  }
}
