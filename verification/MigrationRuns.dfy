/**
 * Runs of the migration store: preparation, approvals, command results and provider events of any number of
 * requests, interleaved, each committing a record made from one that it read at an earlier moment.
 */
module MigrationRuns {
  import opened Basics
  import opened MigrationRecords
  import opened MigrationSteps

  /** `request` stands for the digest of scope and idempotency key that names a request inside a partition. */
  datatype RequestKey = RequestKey(partition: string, request: Id)
  datatype CommandKey = CommandKey(partition: string, operation: Operation, key: string)
  datatype EventKey = EventKey(partition: string, dedupe: Id)

  datatype CommandReceipt = CommandReceipt(domain: string, request: Id, command: Command, result: Projection, createdAt: int)
  datatype EventReceipt = EventReceipt(domain: string, request: Id, event: Id, data: Event, result: Projection, stale: bool, processedAt: int)

  datatype Tables =
    Tables(requests: map<RequestKey, Record>, commands: map<CommandKey, CommandReceipt>, events: map<EventKey, EventReceipt>)

  /** The tables, and every request record that was ever in them. */
  datatype World = World(tables: Tables, seen: set<(RequestKey, Record)>)

  const EMPTY: World := World(Tables(map[], map[], map[]), {})

  /** One attempted transaction with the record it was planned from. */
  datatype Op =
    | PrepareOp(at: RequestKey, now: int, brief: Brief, key: string)
    | ApproveOp(at: RequestKey, now: int, read: Record, dryRunRevision: int, dryRunHash: string, actor: string, key: string)
    | CommandOp(at: RequestKey, now: int, read: Record, command: Command)
    | EventOp(at: RequestKey, now: int, read: Record, data: Event, event: Id)

  /** The record that the operation writes; None for a stale event, which writes only its receipt. */
  function Update(op: Op): Result<Option<Record>> {
    match op
    case PrepareOp(_, now, brief, key) =>
      if BriefValid(brief) && Positive(now) then Ok(Some(Prepared(brief, key, now))) else Err(InvalidInput)
    case ApproveOp(_, now, r, v, h, actor, key) =>
      if !Readable(r) then Err(Conflict) else
      if !Positive(v) || !Positive(now) then Err(InvalidInput) else
      (match Approved(r, v, h, actor, key, now) case Err(e) => Err(e) case Ok(u) => Ok(Some(u)))
    case CommandOp(_, now, r, c) =>
      if !Readable(r) then Err(Conflict) else
      if !CommandValid(c) || !Positive(now) then Err(InvalidInput) else
      (match Commanded(r, c, now) case Err(e) => Err(e) case Ok(u) => Ok(Some(u)))
    case EventOp(_, now, r, e, event) =>
      if !Readable(r) then Err(Conflict) else
      if !EventValid(e) || !NonNegative(now) || e.bound.occurredAt > now + EVENT_CLOCK_SKEW then Err(InvalidInput) else
      EventUpdate(r, e, event, now)
  }

  predicate WasRead(w: World, op: Op) {
    match op
    case PrepareOp(_, _, _, _) => true
    case ApproveOp(at, _, r, _, _, _, _) => (at, r) in w.seen
    case CommandOp(at, _, r, _) => (at, r) in w.seen
    case EventOp(at, _, r, _, _) => (at, r) in w.seen
  }

  predicate SameStorage(w: World, at: RequestKey, r: Record) {
    at in w.tables.requests && w.tables.requests[at].storageRevision == r.storageRevision
  }

  /** The conditions of the transaction, on the tables as they are now. */
  predicate Holds(w: World, op: Op) {
    match op
    case PrepareOp(at, _, _, _) => at !in w.tables.requests
    case ApproveOp(at, _, r, _, _, _, _) => SameStorage(w, at, r)
    case CommandOp(at, _, r, c) => SameStorage(w, at, r) && CommandKey(at.partition, c.operation, c.key) !in w.tables.commands
    case EventOp(at, now, r, e, event) =>
      && EventKey(at.partition, e.bound.dedupe) !in w.tables.events
      && (Update(op).Ok? && Update(op).value.Some? ==> SameStorage(w, at, r))
  }

  predicate Commits(w: World, op: Op) {
    Update(op).Ok? && WasRead(w, op) && Holds(w, op)
  }

  function ReceiptOf(op: Op, updated: Option<Record>): (t: (map<CommandKey, CommandReceipt>, map<EventKey, EventReceipt>))
    requires op.CommandOp? ==> updated.Some?
  {
    match op
    case CommandOp(at, now, r, c) =>
      (map[CommandKey(at.partition, c.operation, c.key) := CommandReceipt(r.brief.domain, at.request, c, Project(updated.value), now)], map[])
    case EventOp(at, now, r, e, event) =>
      (map[], map[EventKey(at.partition, e.bound.dedupe) :=
                    EventReceipt(r.brief.domain, at.request, event, e, Project(if updated.Some? then updated.value else r), updated.None?, now)])
    case _ => (map[], map[])
  }

  function Exec(w: World, op: Op): World {
    if !Commits(w, op) then w else
    var updated := Update(op).value;
    var receipts := ReceiptOf(op, updated);
    var requests := if updated.Some? then w.tables.requests[op.at := updated.value] else w.tables.requests;
    World(Tables(requests, w.tables.commands + receipts.0, w.tables.events + receipts.1),
          w.seen + (if updated.Some? then {(op.at, updated.value)} else {}))
  }

  function Run(ops: seq<Op>): World {
    if ops == [] then EMPTY else Exec(Run(ops[..|ops| - 1]), ops[|ops| - 1])
  }

  // ----- what every version of a record keeps towards every later one -----

  predicate Evolves(a: Record, b: Record) {
    && a.storageRevision < b.storageRevision && a.Identity() == b.Identity()
    && a.revision <= b.revision && a.stateRevision <= b.stateRevision
    && (a.state == Canceled ==> b.state == Canceled)
    && (a.job.Some? ==> b.job == a.job)
    && (a.approval.Some? ==>
          && b.approval == a.approval && b.approvalKey == a.approvalKey
          && b.dryRunRevision == a.dryRunRevision && b.dryRunHash == a.dryRunHash && b.previewExpiresAt == a.previewExpiresAt)
    && ProgressKept(a, b)
  }

  /** An applied progress report stays the last one of its revision, or the record has moved past that revision. */
  predicate ProgressKept(a: Record, b: Record) {
    a.lastProgress.Some? && a.lastProgressRevision == Some(a.lastProgress.value.revision) ==>
      || b.revision > a.lastProgress.value.revision
      || (b.lastProgress == a.lastProgress && b.lastProgressRevision == a.lastProgressRevision)
  }

  predicate Stays(a: Record, b: Record) {
    a == b || Evolves(a, b)
  }

  predicate ProgressSound(r: Record) {
    && (r.lastProgress.Some? <==> r.lastProgressRevision.Some?)
    && (r.lastProgress.Some? ==> r.lastProgressRevision == Some(r.lastProgress.value.revision) && r.lastProgressRevision.value <= r.revision)
  }

  ghost predicate WorldInv(w: World) {
    && (forall k :: k in w.tables.requests ==> (k, w.tables.requests[k]) in w.seen)
    && (forall k, r :: (k, r) in w.seen ==> k in w.tables.requests && Stays(r, w.tables.requests[k]))
    && (forall k :: k in w.tables.requests ==> Gated(w.tables.requests[k]) && ProgressSound(w.tables.requests[k]))
    && (forall k, r :: (k, r) in w.seen ==> ProgressSound(r))
  }

  lemma StaysTransitive(a: Record, b: Record, c: Record)
    requires Stays(a, b) && Stays(b, c) && ProgressSound(a) && ProgressSound(b)
    ensures Stays(a, c)
  {
  }

  /** The record that a committing operation was planned from is the stored one. */
  lemma ReadIsCurrent(w: World, op: Op)
    requires WorldInv(w) && Commits(w, op) && !op.PrepareOp? && Update(op).value.Some?
    ensures op.at in w.tables.requests && w.tables.requests[op.at] == op.read
  {
  }

  /** Every committed write of an existing record follows the transition table and keeps the gate. */
  lemma CommitFollows(w: World, op: Op)
    requires WorldInv(w) && Commits(w, op) && !op.PrepareOp? && Update(op).value.Some?
    ensures Follows(op.read, Update(op).value.value) && Gated(Update(op).value.value)
  {
    ReadIsCurrent(w, op);
    match op
    case ApproveOp(_, now, r, v, h, actor, key) => ApprovedFollows(r, v, h, actor, key, now);
    case CommandOp(_, now, r, c) => CommandedFollows(r, c, now);
    case EventOp(_, now, r, e, event) => EventedFollows(r, e, event, now);
  }

  /** What an operation does to the memory of progress reports. */
  lemma ProgressMoves(op: Op)
    requires !op.PrepareOp? && Update(op).Ok? && Update(op).value.Some? && ProgressSound(op.read)
    ensures ProgressKept(op.read, Update(op).value.value) && ProgressSound(Update(op).value.value)
  {
  }

  lemma CommitEvolves(w: World, op: Op)
    requires WorldInv(w) && Commits(w, op) && !op.PrepareOp? && Update(op).value.Some?
    ensures Evolves(op.read, Update(op).value.value) && ProgressSound(Update(op).value.value)
  {
    ReadIsCurrent(w, op);
    CommitFollows(w, op);
    ProgressMoves(op);
  }

  /** A committed record is gated, and every earlier version of it evolved into it. */
  lemma UpdateKeeps(w: World, op: Op, r: Record)
    requires WorldInv(w) && Commits(w, op) && Update(op).value.Some?
    ensures Gated(Update(op).value.value) && ProgressSound(Update(op).value.value)
    ensures (op.at, r) in w.seen ==> Stays(r, Update(op).value.value)
  {
    if !op.PrepareOp? {
      ReadIsCurrent(w, op);
      CommitFollows(w, op);
      CommitEvolves(w, op);
      if (op.at, r) in w.seen { StaysTransitive(r, op.read, Update(op).value.value); }
    }
  }

  lemma ExecKeeps(w: World, op: Op)
    requires WorldInv(w)
    ensures WorldInv(Exec(w, op)) && w.seen <= Exec(w, op).seen
  {
    if Commits(w, op) && Update(op).value.Some? {
      var u := Update(op).value.value;
      forall r ensures Gated(u) && ProgressSound(u) && ((op.at, r) in w.seen ==> Stays(r, u)) {
        UpdateKeeps(w, op, r);
      }
      WriteKeeps(w, Exec(w, op), op.at, u);
    }
  }

  lemma WriteKeeps(w: World, v: World, at: RequestKey, u: Record)
    requires WorldInv(w) && v.tables.requests == w.tables.requests[at := u] && v.seen == w.seen + {(at, u)}
    requires Gated(u) && ProgressSound(u) && forall r :: (at, r) in w.seen ==> Stays(r, u)
    ensures WorldInv(v)
  {
  }

  lemma EmptyInv()
    ensures WorldInv(EMPTY)
  {
  }

  lemma {:induction false} RunKeeps(ops: seq<Op>)
    ensures WorldInv(Run(ops))
  {
    if ops == [] {
      EmptyInv();
    } else {
      RunKeeps(ops[..|ops| - 1]);
      ExecKeeps(Run(ops[..|ops| - 1]), ops[|ops| - 1]);
    }
  }
}
