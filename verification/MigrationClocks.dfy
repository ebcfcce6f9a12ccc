/**
 * With a server clock that never runs backwards, and controls that prepare_control let through before they went to
 * the provider, only three kinds of write can strand a migration request.
 */
module MigrationClocks {
  import opened MigrationRecords
  import opened MigrationSteps
  import opened MigrationRuns
  import opened MigrationGuarantees

  /** Every operation's clock is positive, within range, and not before that of an earlier one. */
  predicate Forward(ops: seq<Op>) {
    && (forall i :: 0 <= i < |ops| ==> 0 < ops[i].now <= MAX_INTEGER)
    && (forall i, j :: 0 <= i < j < |ops| ==> ops[i].now <= ops[j].now)
  }

  /** A control whose result is recorded was let through on some version of its request. */
  ghost predicate Admits(w: World, op: Op) {
    op.CommandOp? && op.command.operation.Controlled? ==>
      exists a :: (op.at, a) in w.seen && Readable(a) && Controllable(a, op.command.operation.control, a.revision)
  }

  /** The callers of a run ask prepare_control before they record the result of a control. */
  ghost predicate Admitted(ops: seq<Op>) {
    ops != [] ==>
      var n := |ops| - 1;
      Admitted(ops[..n]) && (Commits(Run(ops[..n]), ops[n]) ==> Admits(Run(ops[..n]), ops[n]))
  }

  /**
   * A command recorded over a preview that goes on, a progress report that skips the preview result, a report of
   * canceling what was never approved; and any write of a record whose storage revision cannot grow any more.
   */
  predicate StrandsAnyway(op: Op) {
    match op
    case PrepareOp(_, _, _, _) => false
    case ApproveOp(_, _, r, _, _, _, _) => r.storageRevision >= MAX_INTEGER
    case CommandOp(_, _, r, c) => r.storageRevision >= MAX_INTEGER || StrandsPreview(r, c)
    case EventOp(_, _, r, e, _) => e.bound.revision >= r.revision && (r.storageRevision >= MAX_INTEGER || StrandsProgress(r, e))
  }

  predicate StrandedAnyway(ops: seq<Op>) {
    ops != []
    && var n := |ops| - 1;
       StrandedAnyway(ops[..n]) || (Commits(Run(ops[..n]), ops[n]) && StrandsAnyway(ops[n]))
  }

  ghost predicate CreatedBy(w: World, now: int) {
    forall k, r :: (k, r) in w.seen ==> r.createdAt <= now
  }

  lemma UpdateKeepsCreation(op: Op)
    requires Update(op).Ok? && Update(op).value.Some?
    ensures Update(op).value.value.createdAt == if op.PrepareOp? then op.now else op.read.createdAt
  {
  }

  lemma ExecCreates(w: World, op: Op, now: int)
    requires CreatedBy(w, now) && op.now <= now
    ensures CreatedBy(Exec(w, op), now)
  {
    if Commits(w, op) && Update(op).value.Some? { UpdateKeepsCreation(op); }
  }

  /** No request was created later than the clock of the last operation. */
  lemma {:induction false} CreatedInTime(ops: seq<Op>, now: int)
    requires forall i :: 0 <= i < |ops| ==> ops[i].now <= now
    ensures CreatedBy(Run(ops), now)
  {
    if ops != [] {
      CreatedInTime(ops[..|ops| - 1], now);
      ExecCreates(Run(ops[..|ops| - 1]), ops[|ops| - 1], now);
    }
  }

  lemma ControllableIsApproved(r: Record, control: Control)
    requires Readable(r) && Controllable(r, control, r.revision) && control != Cancel
    ensures r.approval.Some?
  {
  }

  lemma ApprovalStays(w: World, at: RequestKey, r: Record)
    requires WorldInv(w) && (at, r) in w.seen && r.approval.Some?
    ensures at in w.tables.requests && w.tables.requests[at].approval.Some?
  {
  }

  /** What can be paused or resumed was approved, and an approval is never withdrawn. */
  lemma AdmittedIsApproved(w: World, op: Op)
    requires WorldInv(w) && op.CommandOp? && op.at in w.tables.requests && w.tables.requests[op.at] == op.read && Admits(w, op)
    ensures !StrandsUnapproved(op.read, op.command)
  {
    if op.command.operation in {Controlled(Pause), Controlled(Resume)} {
      var a :| (op.at, a) in w.seen && Readable(a) && Controllable(a, op.command.operation.control, a.revision);
      ControllableIsApproved(a, op.command.operation.control);
      ApprovalStays(w, op.at, a);
    }
  }

  lemma ClockIsNoCause(w: World, op: Op)
    requires WorldInv(w) && Commits(w, op) && CreatedBy(w, op.now) && Admits(w, op)
    ensures Strands(op) <==> StrandsAnyway(op)
  {
    if op.CommandOp? {
      ReadIsCurrent(w, op);
      AdmittedIsApproved(w, op);
    }
  }

  lemma {:induction false} SameStranding(ops: seq<Op>)
    requires Forward(ops) && Admitted(ops)
    ensures Stranded(ops) <==> StrandedAnyway(ops)
  {
    if ops != [] {
      var n := |ops| - 1;
      SameStranding(ops[..n]);
      RunKeeps(ops[..n]);
      CreatedInTime(ops[..n], ops[n].now);
      if Commits(Run(ops[..n]), ops[n]) { ClockIsNoCause(Run(ops[..n]), ops[n]); }
    }
  }

  /** Under a clock that moves forward, with admitted controls, all requests can be read exactly if no write was one of the three kinds. */
  lemma ReadableUnderForwardClock(ops: seq<Op>)
    requires Forward(ops) && Admitted(ops)
    ensures AllReadable(Run(ops)) <==> !StrandedAnyway(ops)
  {
    SameStranding(ops);
    ReadableExactly(ops);
  }
}
