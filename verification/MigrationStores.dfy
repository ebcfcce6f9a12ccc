/**
 * The migration request store's methods, over tables that other callers write at any moment and with replies that
 * may be lost. src/migration_storage.py, class MigrationRequestStore.
 */
module MigrationStores {
  import opened Basics
  import opened MigrationRecords
  import opened MigrationSteps
  import opened MigrationRuns
  import opened MigrationGuarantees
  import opened MigrationApprovals

  // ----- receipts and their replay -----

  /** `_validated_public_projection`. */
  predicate Publishable(p: Projection) {
    && p.job.Some? && p.state != Draft && Positive(p.revision) && p.commandStatus != Some(Pending) && p.counts.Valid()
    && (p.dryRunRevision.Some? ==> Positive(p.dryRunRevision.value)) && (p.expiresAt.Some? ==> Positive(p.expiresAt.value))
  }

  /** `_command_receipt_lookup`; the replay of a recorded result also compares the provider's answer. */
  function RecallCommand(x: CommandReceipt, domain: string, request: Id, hash: string, answer: Option<CommandResult>): Result<Projection> {
    if x.domain != domain || x.request != request || x.command.request != hash then Err(Conflict)
    else if !Publishable(x.result) || x.result.job != Some(x.command.result.job) || x.result.revision < x.command.result.revision then Err(Conflict)
    else if answer.Some? && x.command.result != answer.value then Err(Conflict)
    else Ok(x.result)
  }

  /** `_event_replay`. */
  function RecallEvent(x: EventReceipt, domain: string, request: Id, e: Event, event: Id): Result<(Projection, bool)> {
    if x.domain != domain || x.request != request || x.event != event || x.data != e then Err(Conflict)
    else if !Publishable(x.result) || x.result.job != Some(e.bound.job) then Err(Conflict)
    else Ok((x.result, x.stale))
  }

  /** What any recorded answer to a command result says of it. */
  predicate SpeaksOf(p: Projection, c: Command) {
    p.job == Some(c.result.job) && p.revision >= c.result.revision && p.commandStatus == Some(c.result.status)
  }

  /** What a recorded answer to an event says of it: an event that was applied is the state of things, a stale one is behind it. */
  predicate SaysOf(p: Projection, e: Event, stale: bool) {
    && p.job == Some(e.bound.job)
    && if stale then e.bound.revision < p.revision
       else
         && p.revision == e.bound.revision
         && match e
            case PreviewReady(_, v, h, x, c) =>
              p.state == AwaitingApproval && p.counts == c && p.dryRunRevision == Some(v) && p.dryRunHash == Some(h) && p.expiresAt == Some(x)
            case Progressed(_, s, c) => p.state == s && p.counts == c
            case ItemNeedsReview(_, _, _) => true
            case Finished(_, s, c) => p.state == s && p.counts == c
  }

  /** The answer to a result that was recorded upon the record that was read: accepted at the next revision, it moves the request. */
  predicate MovedBy(p: Projection, read: Record, c: Command) {
    && SpeaksOf(p, c) && p.counts == read.counts
    && if c.result.status == Accepted && c.result.revision == read.revision + 1
       then p.revision == c.result.revision
            && match c.operation
               case Preview => p.state == Previewing
               case Execute => p.state == Scheduled
               case Controlled(Pause) => p.state == Paused
               case Controlled(Resume) => p.state == Running
               case Controlled(Cancel) => p.state == CancelRequested
       else p.revision == read.revision && p.state == read.state
  }

  predicate CommandReceiptSound(x: CommandReceipt) {
    Publishable(x.result) && SpeaksOf(x.result, x.command)
  }

  predicate EventReceiptSound(x: EventReceipt) {
    Publishable(x.result) && SaysOf(x.result, x.data, x.stale)
  }

  lemma CommandIsPublished(op: Op)
    requires op.CommandOp? && Update(op).Ok?
    ensures var p := Project(Update(op).value.value);
      Publishable(p) && MovedBy(p, op.read, op.command)
  {
  }

  lemma EventIsPublished(op: Op)
    requires op.EventOp? && Update(op).Ok?
    ensures var p := Project(if Update(op).value.Some? then Update(op).value.value else op.read);
      Publishable(p) && SaysOf(p, op.data, Update(op).value.None?)
  {
  }

  ghost predicate ReceiptsSound(t: Tables) {
    && (forall k :: k in t.commands ==> CommandReceiptSound(t.commands[k]))
    && (forall k :: k in t.events ==> EventReceiptSound(t.events[k]))
  }

  lemma ExecKeepsReceiptsSound(w: World, op: Op)
    requires WorldInv(w) && ReceiptsSound(w.tables)
    ensures ReceiptsSound(Exec(w, op).tables)
  {
    if Commits(w, op) {
      if op.CommandOp? {
        CommandIsPublished(op);
      } else if op.EventOp? {
        EventIsPublished(op);
      }
    }
  }

  /** Every receipt that a run leaves passes the strict checks of its replay, and says what its command or event said. */
  lemma {:induction false} RunReceipts(ops: seq<Op>)
    ensures ReceiptsSound(Run(ops).tables)
  {
    if ops != [] {
      RunReceipts(ops[..|ops| - 1]);
      RunKeeps(ops[..|ops| - 1]);
      ExecKeepsReceiptsSound(Run(ops[..|ops| - 1]), ops[|ops| - 1]);
    }
  }

  /** `_preview_replay`. */
  function RecallPreview(x: Record, brief: Brief, key: string): Result<Record> {
    if !Readable(x) || x.brief.domain != brief.domain || x.hashed != brief || x.key != key then Err(Conflict) else Ok(x)
  }

  lemma PreparationReplays(op: Op)
    requires op.PrepareOp? && BriefValid(op.brief) && Positive(op.now)
    ensures Update(op).Ok? && Update(op).value.Some?
    ensures RecallPreview(Update(op).value.value, op.brief, op.key) == Ok(Update(op).value.value)
  {
    BlankIsReadable(Update(op).value.value);
  }

  // ----- what a failed call knows -----

  /** No approval with these arguments can be committed in this state. */
  ghost predicate Unapprovable(w: World, at: RequestKey, revision: int, hash: string, actor: string, key: string, now: int) {
    forall read :: !Commits(w, ApproveOp(at, now, read, revision, hash, actor, key))
  }

  ghost predicate Unrecordable(w: World, at: RequestKey, c: Command, now: int) {
    forall read :: !Commits(w, CommandOp(at, now, read, c))
  }

  /** A caller that reads the request now cannot apply the event. */
  ghost predicate Inapplicable(w: World, at: RequestKey, e: Event, event: Id, now: int) {
    at in w.tables.requests ==> !Commits(w, EventOp(at, now, w.tables.requests[at], e, event))
  }

  /** The request can be read by this caller now. */
  ghost predicate Available(t: Tables, at: RequestKey, domain: string) {
    at in t.requests && Readable(t.requests[at]) && t.requests[at].brief.domain == domain
  }

  /** The record and the receipt of a committed operation are stored. */
  ghost predicate Written(t: Tables, op: Op) {
    Update(op).Ok?
    && (Update(op).value.Some? ==> op.at in t.requests && t.requests[op.at] == Update(op).value.value)
    && match op
       case CommandOp(at, now, r, c) =>
         && CommandKey(at.partition, c.operation, c.key) in t.commands && Update(op).value.Some?
         && t.commands[CommandKey(at.partition, c.operation, c.key)]
            == CommandReceipt(r.brief.domain, at.request, c, Project(Update(op).value.value), now)
       case EventOp(at, now, r, e, event) =>
         && EventKey(at.partition, e.bound.dedupe) in t.events
         && t.events[EventKey(at.partition, e.bound.dedupe)]
            == EventReceipt(r.brief.domain, at.request, event, e, Project(if Update(op).value.Some? then Update(op).value.value else r),
                            Update(op).value.None?, now)
       case _ => true
  }

  lemma SeenStays(ops: seq<Op>, later: seq<Op>)
    requires ops <= later
    ensures Run(ops).seen <= Run(later).seen
    decreases |later|
  {
    if |ops| < |later| {
      var n := |later| - 1;
      SeenStays(ops, later[..n]);
    } else {
      assert ops == later;
    }
  }

  lemma CommandStays(ops: seq<Op>, later: seq<Op>, k: CommandKey)
    requires ops <= later && k in Run(ops).tables.commands
    ensures k in Run(later).tables.commands && Run(later).tables.commands[k] == Run(ops).tables.commands[k]
  {
    ReceiptsStay(ops, later[|ops|..]);
    assert ops + later[|ops|..] == later;
  }

  lemma EventStays(ops: seq<Op>, later: seq<Op>, k: EventKey)
    requires ops <= later && k in Run(ops).tables.events
    ensures k in Run(later).tables.events && Run(later).tables.events[k] == Run(ops).tables.events[k]
  {
    ReceiptsStay(ops, later[|ops|..]);
    assert ops + later[|ops|..] == later;
  }

  /** A stored request stays and evolves; once it cannot be read it stays as it is. */
  lemma RequestStays(ops: seq<Op>, later: seq<Op>, at: RequestKey)
    requires ops <= later && at in Run(ops).tables.requests
    ensures at in Run(later).tables.requests && Stays(Run(ops).tables.requests[at], Run(later).tables.requests[at])
    ensures !Readable(Run(ops).tables.requests[at]) ==> !Readable(Run(later).tables.requests[at])
  {
    var more := later[|ops|..];
    assert ops + more == later;
    RunStays(ops, more, at);
    if !Readable(Run(ops).tables.requests[at]) { UnreadableIsStuck(ops, more, at); }
  }

  /** How far an approval came: not to its write, or from the read at a moment to a reply and perhaps a reread. */
  datatype Course = Unsent | Sent(read: seq<Op>, reply: Reply, reached: bool)

  /** The transactions between two moments. */
  function Since(ops: seq<Op>, later: seq<Op>): seq<Op>
    requires ops <= later
  {
    later[|ops|..]
  }

  lemma SinceRun(ops: seq<Op>, later: seq<Op>)
    requires ops <= later
    ensures ops + Since(ops, later) == later
  {
  }

  // ----- the table and its methods -----

  class MigrationRequestStore {
    var tables: Tables
    var seen: set<(RequestKey, Record)>
    /** All transactions so far, and those of this caller. */
    ghost var ops: seq<Op>
    ghost var mine: seq<Op>

    ghost function Now(): World
      reads this
    {
      World(tables, seen)
    }

    ghost predicate Valid()
      reads this
    {
      Now() == Run(ops)
    }

    constructor ()
      ensures Valid() && ops == [] && mine == []
    {
      tables, seen, ops, mine := EMPTY.tables, EMPTY.seen, [], [];
    }

    /** Any number of other callers' transactions. */
    method Interfere()
      requires Valid()
      modifies this
      ensures Valid() && old(ops) <= ops && mine == old(mine)
    {
      var n: nat := *;
      while n > 0
        invariant Valid() && old(ops) <= ops && mine == old(mine)
      {
        var op: Op := *;
        RunStep(ops, op);
        var w := Exec(World(tables, seen), op);
        tables, seen, ops := w.tables, w.seen, ops + [op];
        n := n - 1;
      }
    }

    method Get(at: RequestKey) returns (r: Option<Record>)
      requires Valid()
      modifies this
      ensures Valid() && old(ops) <= ops && mine == old(mine)
      ensures r == if at in tables.requests then Some(tables.requests[at]) else None
      ensures r.Some? ==> (at, r.value) in seen
    {
      Interfere();
      RunKeeps(ops);
      r := if at in tables.requests then Some(tables.requests[at]) else None;
    }

    method GetCommand(k: CommandKey) returns (x: Option<CommandReceipt>)
      requires Valid()
      modifies this
      ensures Valid() && old(ops) <= ops && mine == old(mine)
      ensures x == if k in tables.commands then Some(tables.commands[k]) else None
    {
      Interfere();
      x := if k in tables.commands then Some(tables.commands[k]) else None;
    }

    method GetEvent(k: EventKey) returns (x: Option<EventReceipt>)
      requires Valid()
      modifies this
      ensures Valid() && old(ops) <= ops && mine == old(mine)
      ensures x == if k in tables.events then Some(tables.events[k]) else None
    {
      Interfere();
      x := if k in tables.events then Some(tables.events[k]) else None;
    }

    /** One transaction: its record and its receipt or nothing, judged on the tables of that moment. */
    method Transact(op: Op) returns (reply: Reply)
      requires Valid() && Update(op).Ok? && WasRead(Now(), op)
      modifies this
      ensures Valid() && old(ops) <= ops
      ensures mine == old(mine) || (mine == old(mine) + [op] && Written(tables, op))
      ensures reply == Applied ==> mine == old(mine) + [op]
      ensures reply == Refused ==> mine == old(mine) && !Holds(Now(), op)
    {
      ghost var before := ops;
      Interfere();
      SeenStays(before, ops);
      var arrives: bool := *;
      var heard: bool := *;
      if arrives && Holds(World(tables, seen), op) {
        RunStep(ops, op);
        var w := Exec(World(tables, seen), op);
        tables, seen, ops, mine := w.tables, w.seen, ops + [op], mine + [op];
        reply := if heard then Applied else Lost;
      } else {
        reply := if arrives && heard then Refused else Lost;
      }
    }

    /** `get_request`. */
    method GetRequest(at: RequestKey, domain: string) returns (r: Result<Record>)
      requires Valid()
      modifies this
      ensures Valid() && old(ops) <= ops && mine == old(mine)
      ensures r == if Available(tables, at, domain) then Ok(tables.requests[at]) else Err(Conflict)
      ensures r.Ok? ==> (at, r.value) in seen
    {
      var item := Get(at);
      r := if item.Some? && Readable(item.value) && item.value.brief.domain == domain then Ok(item.value) else Err(Conflict);
    }

    /** `prepare_control`: a control command is let through on the record as it stands, and nothing is written. */
    method PrepareControl(at: RequestKey, domain: string, control: Control, expectedRevision: int) returns (r: Result<Record>)
      requires Valid()
      modifies this
      ensures Valid() && old(ops) <= ops && mine == old(mine)
      ensures !Positive(expectedRevision) ==> r == Err(InvalidInput)
      ensures Positive(expectedRevision) ==>
        r == if Available(tables, at, domain) && Controllable(tables.requests[at], control, expectedRevision) then Ok(tables.requests[at])
             else Err(Conflict)
      ensures r.Ok? <==>
        && Positive(expectedRevision) && Available(tables, at, domain) && tables.requests[at].revision == expectedRevision
        && match control
           case Pause => tables.requests[at].state in {Scheduled, Running}
           case Resume => tables.requests[at].state == Paused
           case Cancel => tables.requests[at].state !in {Draft, CancelRequested, Canceling, Canceled}
      ensures r.Ok? ==> (at, r.value) in seen
    {
      if !Positive(expectedRevision) {
        return Err(InvalidInput);
      }
      r := GetRequest(at, domain);
      if r.Ok? && !Controllable(r.value, control, expectedRevision) {
        r := Err(Conflict);
      }
    }

    /** The write of a prepared request. */
    method SendPreview(op: Op) returns (reply: Reply, r: Record)
      requires Valid() && op.PrepareOp? && BriefValid(op.brief) && Positive(op.now)
      modifies this
      ensures Valid() && old(ops) <= ops && RecallPreview(r, op.brief, op.key) == Ok(r)
      ensures mine == old(mine) || (mine == old(mine) + [op] && op.at in tables.requests && tables.requests[op.at] == r)
      ensures reply == Applied ==> mine != old(mine)
      ensures reply == Refused ==> mine == old(mine) && op.at in tables.requests
    {
      PreparationReplays(op);
      r := Update(op).value.value;
      reply := Transact(op);
    }

    /** `prepare_preview`. A repeated call finds what the first one stored. */
    method PreparePreview(at: RequestKey, brief: Brief, key: string, now: int) returns (r: Result<Record>)
      requires Valid()
      modifies this
      ensures Valid() && old(ops) <= ops
      ensures mine == old(mine) || mine == old(mine) + [PrepareOp(at, now, brief, key)]
      ensures r == Err(InvalidInput) <==> !BriefValid(brief) || !Positive(now)
      ensures r.Err? ==> r.error in {InvalidInput, Conflict, OutcomeUnknown}
      ensures r.Ok? ==> at in tables.requests && tables.requests[at] == r.value && RecallPreview(r.value, brief, key).Ok?
      ensures r == Err(Conflict) ==> at in tables.requests && RecallPreview(tables.requests[at], brief, key).Err?
      ensures r == Err(Conflict) && mine != old(mine) ==> at in tables.requests && !Readable(tables.requests[at])
      ensures at in old(tables.requests) ==> mine == old(mine) && r != Err(OutcomeUnknown)
    {
      if !BriefValid(brief) || !Positive(now) {
        return Err(InvalidInput);
      }
      var item := Get(at);
      if item.Some? {
        return RecallPreview(item.value, brief, key);
      }
      ghost var start := ops;
      assert at in Run(old(ops)).tables.requests ==> at in Run(ops).tables.requests by {
        if at in Run(old(ops)).tables.requests { RequestStays(old(ops), ops, at); }
      }
      var reply, prepared := SendPreview(PrepareOp(at, now, brief, key));
      if reply == Applied {
        return Ok(prepared);
      }
      var reached: bool := *;
      if !reached {
        return Err(OutcomeUnknown);
      }
      ghost var sent := ops;
      item := Get(at);
      if at in Run(sent).tables.requests { RequestStays(sent, ops, at); }
      r := if item.Some? then RecallPreview(item.value, brief, key) else if reply == Refused then Err(Conflict) else Err(OutcomeUnknown);
    }

    /** `approve_execution` up to its write: what it answers at once, or the record to approve. */
    method GatherApproval(at: RequestKey, domain: string, revision: int, hash: string, actor: string, key: string, now: int)
      returns (answer: Option<Result<Record>>, current: Record)
      requires Valid() && Positive(revision) && Positive(now)
      modifies this
      ensures Valid() && old(ops) <= ops && mine == old(mine)
      ensures answer.None? ==>
        && Available(tables, at, domain) && tables.requests[at] == current && (at, current) in seen
        && Approved(current, revision, hash, actor, key, now).Ok?
      ensures answer.Some? && answer.value.Ok? ==>
        && Available(tables, at, domain) && tables.requests[at] == answer.value.value
        && RecallApproval(answer.value.value, revision, hash, actor, key).Ok?
      ensures answer.Some? && answer.value.Err? ==>
        && answer.value.error == Conflict
        && ((at in tables.requests ==> tables.requests[at].brief.domain == domain) ==> Unapprovable(Now(), at, revision, hash, actor, key, now))
    {
      var r := GetRequest(at, domain);
      ApprovalNeeds(ops, at, revision, hash, actor, key, now);
      if r.Err? {
        return Some(r), *;
      }
      current := r.value;
      if current.approval.Some? {
        return Some(RecallApproval(current, revision, hash, actor, key)), current;
      }
      if Approved(current, revision, hash, actor, key, now).Err? {
        return Some(Err(Conflict)), current;
      }
      answer := None;
    }

    /** The end of `approve_execution` when its write was not answered with success. */
    method RereadApproval(at: RequestKey, domain: string, revision: int, hash: string, actor: string, key: string, reply: Reply)
      returns (r: Result<Record>, reached: bool)
      requires Valid() && reply != Applied
      modifies this
      ensures Valid() && old(ops) <= ops && mine == old(mine)
      ensures r == if reached
                   then AfterApproval(if at in tables.requests then Some(tables.requests[at]) else None, domain, revision, hash, actor, key, reply)
                   else Err(OutcomeUnknown)
    {
      reached := *;
      if !reached {
        return Err(OutcomeUnknown), false;
      }
      var item := Get(at);
      r := AfterApproval(item, domain, revision, hash, actor, key, reply);
    }

    /** The write of an approval and what follows it. */
    method SendApproval(op: Op, domain: string) returns (r: Result<Record>, reply: Reply, reached: bool)
      requires Valid() && op.ApproveOp? && Update(op).Ok? && WasRead(Now(), op)
      requires Available(tables, op.at, domain) && tables.requests[op.at] == op.read && op.read.approval.None?
      modifies this
      ensures Valid() && old(ops) <= ops
      ensures mine == old(mine) || mine == old(mine) + [op]
      ensures r.Ok? ==>
        && op.at in tables.requests && tables.requests[op.at] == r.value
        && RecallApproval(r.value, op.dryRunRevision, op.dryRunHash, op.actor, op.key).Ok?
      ensures r.Err? && r.error != OutcomeUnknown ==> mine == old(mine)
      ensures reply == Applied ==> r.Ok?
      ensures reply == Refused ==> ops != old(ops)
      ensures reply != Applied && !reached ==> r == Err(OutcomeUnknown)
      ensures reply != Applied && reached ==>
        && (r == Err(Unplanned) <==> !Closed(old(ops), Since(old(ops), ops), op.at))
        && (r == Err(Conflict) ==> reply == Refused) && (r == Err(OutcomeUnknown) ==> reply == Lost)
      ensures r == Err(Unplanned) ==> Available(tables, op.at, domain) && tables.requests[op.at].approval.None?
      ensures r == Err(Conflict) || r == Err(OutcomeUnknown) || r == Err(Unplanned) || r.Ok?
    {
      ghost var start := ops;
      assert SameStorage(Run(start), op.at, op.read);
      reply := Transact(op);
      assert reply == Refused ==> ops != start;
      if reply == Applied {
        return Ok(Update(op).value.value), reply, true;
      }
      ghost var sent := ops;
      r, reached := RereadApproval(op.at, domain, op.dryRunRevision, op.dryRunHash, op.actor, op.key, reply);
      if mine != old(mine) { ApprovalHolds(sent, ops, op); }
      SinceRun(start, ops);
      UnplannedUnlessClosed(start, Since(start, ops), op.at, domain, op.dryRunRevision, op.dryRunHash, op.actor, op.key, reply);
    }

    /**
     * `approve_execution`. When its write was sent, did not succeed and the request could be read again, the caller
     * gets the undeclared exception exactly if since the first read nobody approved the request and nobody left it
     * unreadable. A conflict then means that somebody did.
     */
    method ApproveExecution(at: RequestKey, domain: string, revision: int, hash: string, actor: string, key: string, now: int)
      returns (r: Result<Record>, ghost course: Course)
      requires Valid()
      modifies this
      ensures Valid() && old(ops) <= ops
      ensures mine == old(mine) || exists read :: mine == old(mine) + [ApproveOp(at, now, read, revision, hash, actor, key)]
      ensures r == Err(InvalidInput) <==> !Positive(revision) || !Positive(now)
      ensures r.Ok? ==>
        && at in tables.requests && tables.requests[at] == r.value && RecallApproval(r.value, revision, hash, actor, key).Ok?
      ensures r.Err? && r.error != OutcomeUnknown ==> mine == old(mine)
      ensures course.Unsent? ==>
        && mine == old(mine) && r != Err(Unplanned) && r != Err(OutcomeUnknown)
        && (r == Err(Conflict) && (at in tables.requests ==> tables.requests[at].brief.domain == domain) ==>
              Unapprovable(Now(), at, revision, hash, actor, key, now))
      ensures course.Sent? ==> old(ops) <= course.read <= ops && Open(Run(course.read), at)
      ensures course.Sent? && course.reply == Applied ==> r.Ok?
      ensures course.Sent? && course.reply != Applied && !course.reached ==> r == Err(OutcomeUnknown)
      ensures course.Sent? && course.reply != Applied && course.reached ==>
        (r == Err(Unplanned) <==> !Closed(course.read, Since(course.read, ops), at))
      ensures r == Err(Unplanned) ==> Available(tables, at, domain) && tables.requests[at].approval.None?
      ensures course.Sent? && r == Err(Conflict) ==> course.reply == Refused && Closed(course.read, Since(course.read, ops), at)
    {
      if !Positive(revision) || !Positive(now) {
        return Err(InvalidInput), Unsent;
      }
      var answer, current := GatherApproval(at, domain, revision, hash, actor, key, now);
      if answer.Some? {
        return answer.value, Unsent;
      }
      ghost var read := ops;
      var reply, reached;
      r, reply, reached := SendApproval(ApproveOp(at, now, current, revision, hash, actor, key), domain);
      course := Sent(read, reply, reached);
    }

    /** `replay_command`. */
    method ReplayCommand(at: RequestKey, domain: string, operation: Operation, key: string, hash: string) returns (r: Result<Option<Projection>>)
      requires Valid()
      modifies this
      ensures Valid() && old(ops) <= ops && mine == old(mine)
      ensures operation == Preview <==> r == Err(InvalidInput)
      ensures operation != Preview ==>
        var k := CommandKey(at.partition, operation, key);
        if k !in tables.commands then r == Ok(None)
        else match RecallCommand(tables.commands[k], domain, at.request, hash, None)
             case Ok(p) => r == Ok(Some(p))
             case Err(e) => r == Err(e)
    {
      if operation == Preview {
        return Err(InvalidInput);
      }
      var x := GetCommand(CommandKey(at.partition, operation, key));
      if x.None? {
        return Ok(None);
      }
      var recalled := RecallCommand(x.value, domain, at.request, hash, None);
      r := if recalled.Ok? then Ok(Some(recalled.value)) else Err(recalled.error);
    }

    /** The transaction of a command result, and the look at its receipt when it was not answered with success. */
    method SendCommand(op: Op, domain: string) returns (r: Option<Result<Projection>>)
      requires Valid() && op.CommandOp? && Update(op).Ok? && WasRead(Now(), op) && op.read.brief.domain == domain
      modifies this
      ensures Valid() && old(ops) <= ops
      ensures mine == old(mine) || mine == old(mine) + [op]
      ensures r.None? ==> mine == old(mine) && (ops != old(ops) || !Holds(old(Now()), op))
      ensures r.Some? && r.value.Ok? ==> CommandRecorded(tables, op.at, domain, op.command, r.value.value)
      ensures r.Some? && r.value.Ok? && mine != old(mine) ==> MovedBy(r.value.value, op.read, op.command)
      ensures r.Some? && r.value.Err? && r.value.error != OutcomeUnknown ==>
        mine == old(mine) && CommandKey(op.at.partition, op.command.operation, op.command.key) in tables.commands
    {
      var k := CommandKey(op.at.partition, op.command.operation, op.command.key);
      var reply := Transact(op);
      assert reply == Refused ==> ops != old(ops) || !Holds(old(Now()), op);
      CommandIsPublished(op);
      if mine != old(mine) { CommandIsRecorded(ops, op); }
      if reply == Applied {
        return Some(Ok(Project(Update(op).value.value)));
      }
      var reached: bool := *;
      if !reached {
        return Some(Err(OutcomeUnknown));
      }
      ghost var sent := ops;
      var x := GetCommand(k);
      if mine != old(mine) { CommandStays(sent, ops, k); }
      r := if x.Some? then Some(RecallCommand(x.value, domain, op.at.request, op.command.request, Some(op.command.result)))
           else if reply == Refused then None
           else Some(Err(OutcomeUnknown));
    }

    /** One attempt to record a command; None asks for another attempt. */
    method AttemptCommand(at: RequestKey, domain: string, c: Command, now: int) returns (r: Option<Result<Projection>>)
      requires Valid() && CommandValid(c) && Positive(now)
      modifies this
      ensures Valid() && old(ops) <= ops
      ensures mine == old(mine)
           || exists read :: mine == old(mine) + [CommandOp(at, now, read, c)] && (r.Some? && r.value.Ok? ==> MovedBy(r.value.value, read, c))
      ensures r.None? ==> mine == old(mine) && ops != old(ops)
      ensures r.Some? && r.value.Ok? ==> CommandRecorded(tables, at, domain, c, r.value.value)
      ensures r.Some? && r.value.Err? && r.value.error != OutcomeUnknown ==> mine == old(mine)
      ensures r.Some? && r.value.Err? && r.value.error != OutcomeUnknown && ops == old(ops)
              && (at in tables.requests ==> tables.requests[at].brief.domain == domain) ==>
        Unrecordable(Now(), at, c, now)
      ensures var k := CommandKey(at.partition, c.operation, c.key);
        k in old(tables.commands) ==>
          mine == old(mine) && r == Some(RecallCommand(old(tables.commands[k]), domain, at.request, c.request, Some(c.result)))
    {
      var k := CommandKey(at.partition, c.operation, c.key);
      ghost var start := ops;
      var x := GetCommand(k);
      if k in Run(start).tables.commands { CommandStays(start, ops, k); }
      if x.Some? {
        return Some(RecallCommand(x.value, domain, at.request, c.request, Some(c.result)));
      }
      ghost var looked := ops;
      var current := GetRequest(at, domain);
      if current.Err? || Commanded(current.value, c, now).Err? {
        CommandNeeds(ops, at, c, now);
        return Some(Err(Conflict));
      }
      SeenStays(start, ops);
      var op := CommandOp(at, now, current.value, c);
      assert ops == looked ==> Holds(Now(), op);
      r := SendCommand(op, domain);
    }

    /** `record_command_result`: at most eight attempts, each after a refused one, and at most one of them committed. */
    method RecordCommandResult(at: RequestKey, domain: string, c: Command, now: int) returns (r: Result<Projection>)
      requires Valid()
      modifies this
      ensures Valid() && old(ops) <= ops
      ensures mine == old(mine)
           || exists read :: mine == old(mine) + [CommandOp(at, now, read, c)] && (r.Ok? ==> MovedBy(r.value, read, c))
      ensures r.Ok? ==> CommandValid(c) && CommandRecorded(tables, at, domain, c, r.value) && SpeaksOf(r.value, c)
      ensures r.Err? && r.error != OutcomeUnknown ==> mine == old(mine)
      ensures CommandValid(c) && Positive(now) && r.Err? && r.error != OutcomeUnknown && ops == old(ops)
              && (at in tables.requests ==> tables.requests[at].brief.domain == domain) ==>
        Unrecordable(Now(), at, c, now)
      ensures Positive(c.result.revision) && c.result.status == Pending ==> r == Err(OutcomeUnknown) && ops == old(ops)
      ensures var k := CommandKey(at.partition, c.operation, c.key);
        k in old(tables.commands) && CommandValid(c) && Positive(now) ==>
          mine == old(mine) && r == RecallCommand(old(tables.commands[k]), domain, at.request, c.request, Some(c.result))
    {
      if !Positive(c.result.revision) {
        return Err(InvalidInput);
      }
      if c.result.status == Pending {
        return Err(OutcomeUnknown);
      }
      if c.operation == Preview && c.result.status != Accepted {
        return Err(Conflict);
      }
      if !Positive(now) {
        return Err(InvalidInput);
      }
      ghost var k := CommandKey(at.partition, c.operation, c.key);
      ghost var start := ops;
      var attempt := 0;
      while attempt < MAX_COMMAND_ATTEMPTS
        invariant Valid() && start <= ops && mine == old(mine)
        invariant attempt == 0 ==> ops == start
        invariant attempt > 0 ==> ops != start && k !in Run(start).tables.commands
      {
        SeenStays(start, ops);
        var answer := AttemptCommand(at, domain, c, now);
        if answer.Some? {
          if answer.value.Ok? { RecordedSpeaks(ops, at, domain, c, answer.value.value); }
          return answer.value;
        }
        attempt := attempt + 1;
      }
      r := Err(OutcomeUnknown);
    }

    /** The transaction of an event, and the look at its receipt when it was not answered with success. */
    method SendEvent(op: Op) returns (r: Result<(Projection, bool)>)
      requires Valid() && op.EventOp? && Update(op).Ok? && WasRead(Now(), op)
      modifies this
      ensures Valid() && old(ops) <= ops
      ensures mine == old(mine) || mine == old(mine) + [op]
      ensures r.Ok? ==> EventRecorded(tables, op.at, op.read.brief.domain, op.data, op.event, r.value)
      ensures r.Err? && r.error != OutcomeUnknown ==>
        r.error == Conflict && mine == old(mine) && (ops != old(ops) || !Holds(old(Now()), op))
    {
      var k := EventKey(op.at.partition, op.data.bound.dedupe);
      var reply := Transact(op);
      assert reply == Refused ==> ops != old(ops) || !Holds(old(Now()), op);
      var updated := Update(op).value;
      if mine != old(mine) { EventIsRecorded(ops, op); }
      if reply == Applied {
        return Ok((Project(if updated.Some? then updated.value else op.read), updated.None?));
      }
      var reached: bool := *;
      if !reached {
        return Err(OutcomeUnknown);
      }
      ghost var sent := ops;
      var x := GetEvent(k);
      if mine != old(mine) { EventStays(sent, ops, k); }
      if k in Run(old(ops)).tables.events { EventStays(old(ops), ops, k); }
      r := if x.Some? then RecallEvent(x.value, op.read.brief.domain, op.at.request, op.data, op.event)
           else Err(if reply == Refused then Conflict else OutcomeUnknown);
    }

    /** `apply_verified_event` up to its write: what it answers at once, or the record to apply the event to. */
    method GatherEvent(at: RequestKey, domain: string, e: Event, event: Id, now: int)
      returns (answer: Option<Result<(Projection, bool)>>, current: Record)
      requires Valid() && EventValid(e) && NonNegative(now) && e.bound.occurredAt <= now + EVENT_CLOCK_SKEW
      modifies this
      ensures Valid() && old(ops) <= ops && mine == old(mine)
      ensures answer.None? ==>
        && (at, current) in seen && current.brief.domain == domain && Update(EventOp(at, now, current, e, event)).Ok?
        && (ops == old(ops) ==> Holds(Now(), EventOp(at, now, current, e, event)))
      ensures answer.Some? && answer.value.Ok? ==> EventRecorded(tables, at, domain, e, event, answer.value.value)
      ensures answer.Some? && answer.value.Err? ==>
        && answer.value.error == Conflict
        && (ops == old(ops) && (at in tables.requests ==> tables.requests[at].brief.domain == domain) ==> Inapplicable(Now(), at, e, event, now))
      ensures var k := EventKey(at.partition, e.bound.dedupe);
        k in old(tables.events) ==>
          answer == Some(RecallEvent(old(tables.events[k]), domain, at.request, e, event))
          || (answer == Some(Err(Conflict)) && !Bound(tables, at, domain, e))
    {
      ghost var start := ops;
      var k := EventKey(at.partition, e.bound.dedupe);
      var found := GetRequest(at, domain);
      if found.Err? {
        return Some(Err(Conflict)), *;
      }
      current := found.value;
      if current.brief.connection != e.bound.connection || current.job != Some(e.bound.job) {
        return Some(Err(Conflict)), current;
      }
      ghost var looked := ops;
      assert at in Run(looked).tables.requests && Run(looked).tables.requests[at] == current;
      var x := GetEvent(k);
      assert ops == start ==> looked == ops;
      if k in Run(start).tables.events { EventStays(start, ops, k); }
      if x.Some? {
        return Some(RecallEvent(x.value, domain, at.request, e, event)), current;
      }
      SeenStays(looked, ops);
      if EventUpdate(current, e, event, now).Err? {
        return Some(Err(Conflict)), current;
      }
      answer := None;
    }

    /** `apply_verified_event`; the flag of its answer says that the event was stale. */
    method ApplyVerifiedEvent(at: RequestKey, domain: string, e: Event, event: Id, now: int) returns (r: Result<(Projection, bool)>)
      requires Valid()
      modifies this
      ensures Valid() && old(ops) <= ops
      ensures mine == old(mine) || exists read :: mine == old(mine) + [EventOp(at, now, read, e, event)]
      ensures r == Err(InvalidInput) <==> !EventValid(e) || !NonNegative(now) || e.bound.occurredAt > now + EVENT_CLOCK_SKEW
      ensures r.Ok? ==> EventRecorded(tables, at, domain, e, event, r.value) && SaysOf(r.value.0, e, r.value.1)
      ensures r.Err? && r.error != OutcomeUnknown ==> mine == old(mine)
      ensures r == Err(Conflict) && ops == old(ops) && (at in tables.requests ==> tables.requests[at].brief.domain == domain) ==>
        Inapplicable(Now(), at, e, event, now)
      ensures var k := EventKey(at.partition, e.bound.dedupe);
        k in old(tables.events) && r != Err(InvalidInput) ==>
          && mine == old(mine)
          && (r == RecallEvent(old(tables.events[k]), domain, at.request, e, event)
              || (r == Err(Conflict) && !Bound(tables, at, domain, e)))
    {
      if !EventValid(e) || !NonNegative(now) || e.bound.occurredAt > now + EVENT_CLOCK_SKEW {
        return Err(InvalidInput);
      }
      var answer, current := GatherEvent(at, domain, e, event, now);
      if answer.Some? {
        if answer.value.Ok? { RecordedSays(ops, at, domain, e, event, answer.value.value); }
        return answer.value;
      }
      r := SendEvent(EventOp(at, now, current, e, event));
      if r.Ok? { RecordedSays(ops, at, domain, e, event, r.value); }
    }
  }

  /** The event speaks of the stored request, as this caller can read it. */
  ghost predicate Bound(t: Tables, at: RequestKey, domain: string, e: Event) {
    Available(t, at, domain) && t.requests[at].brief.connection == e.bound.connection && t.requests[at].job == Some(e.bound.job)
  }

  ghost predicate EventRecorded(t: Tables, at: RequestKey, domain: string, e: Event, event: Id, result: (Projection, bool)) {
    var k := EventKey(at.partition, e.bound.dedupe);
    k in t.events && RecallEvent(t.events[k], domain, at.request, e, event) == Ok(result)
  }

  lemma RecordedSays(ops: seq<Op>, at: RequestKey, domain: string, e: Event, event: Id, result: (Projection, bool))
    requires EventRecorded(Run(ops).tables, at, domain, e, event, result)
    ensures SaysOf(result.0, e, result.1)
  {
    RunReceipts(ops);
  }

  lemma EventIsRecorded(ops: seq<Op>, op: Op)
    requires op.EventOp? && Update(op).Ok? && Written(Run(ops).tables, op)
    ensures var updated := Update(op).value;
      EventRecorded(Run(ops).tables, op.at, op.read.brief.domain, op.data, op.event,
                    (Project(if updated.Some? then updated.value else op.read), updated.None?))
  {
    RunReceipts(ops);
  }

  ghost predicate CommandRecorded(t: Tables, at: RequestKey, domain: string, c: Command, p: Projection) {
    var k := CommandKey(at.partition, c.operation, c.key);
    k in t.commands && RecallCommand(t.commands[k], domain, at.request, c.request, Some(c.result)) == Ok(p)
  }

  lemma RecordedSpeaks(ops: seq<Op>, at: RequestKey, domain: string, c: Command, p: Projection)
    requires CommandRecorded(Run(ops).tables, at, domain, c, p)
    ensures SpeaksOf(p, c)
  {
    RunReceipts(ops);
  }

  lemma CommandIsRecorded(ops: seq<Op>, op: Op)
    requires op.CommandOp? && Update(op).Ok? && Written(Run(ops).tables, op)
    ensures CommandRecorded(Run(ops).tables, op.at, op.read.brief.domain, op.command, Project(Update(op).value.value))
  {
    RunReceipts(ops);
  }

  /** Only the stored record, readable and ready for the command, can take it. */
  lemma CommandNeeds(ops: seq<Op>, at: RequestKey, c: Command, now: int)
    ensures var t := Run(ops).tables;
      Unrecordable(Run(ops), at, c, now)
      || (at in t.requests && Readable(t.requests[at]) && Commanded(t.requests[at], c, now).Ok?
          && CommandKey(at.partition, c.operation, c.key) !in t.commands)
  {
    RunKeeps(ops);
    if !Unrecordable(Run(ops), at, c, now) {
      var read :| Commits(Run(ops), CommandOp(at, now, read, c));
      ReadIsCurrent(Run(ops), CommandOp(at, now, read, c));
    }
  }

  /** A written approval is found by every later reread that can read the request. */
  lemma ApprovalHolds(sent: seq<Op>, ops: seq<Op>, op: Op)
    requires sent <= ops && op.ApproveOp? && Update(op).Ok? && Written(Run(sent).tables, op)
    ensures op.at in Run(ops).tables.requests
    ensures Run(ops).tables.requests[op.at].approval.Some?
    ensures RecallApproval(Run(ops).tables.requests[op.at], op.dryRunRevision, op.dryRunHash, op.actor, op.key).Ok?
  {
    RequestStays(sent, ops, op.at);
  }

  /** Nothing but the stored record, readable and still to be approved, can be approved. */
  lemma ApprovalNeeds(ops: seq<Op>, at: RequestKey, revision: int, hash: string, actor: string, key: string, now: int)
    ensures var t := Run(ops).tables;
      Unapprovable(Run(ops), at, revision, hash, actor, key, now)
      || (at in t.requests && Readable(t.requests[at]) && Approved(t.requests[at], revision, hash, actor, key, now).Ok?)
  {
    RunKeeps(ops);
    if !Unapprovable(Run(ops), at, revision, hash, actor, key, now) {
      var read :| Commits(Run(ops), ApproveOp(at, now, read, revision, hash, actor, key));
      ReadIsCurrent(Run(ops), ApproveOp(at, now, read, revision, hash, actor, key));
    }
  }
}
