/**
 * How an approval ends whose write was not answered with success. `_replace` rereads the request and asks
 * `_approval_replay` about it, which takes the time of the stored approval even when there is none.
 * src/migration_storage.py 672-704 and 1295-1302.
 */
module MigrationApprovals {
  import opened Basics
  import opened MigrationRecords
  import opened MigrationRuns
  import opened MigrationGuarantees
  import opened MigrationExceptions

  /** What a call finds that already has an approval: the same one given with the same key, whenever it was. */
  function RecallApproval(x: Record, revision: int, hash: string, actor: string, key: string): Result<Record> {
    if x.approval.Some? && x.approval == Some(Approval(revision, hash, actor, x.approval.value.approvedAt)) && x.approvalKey == Some(key)
    then Ok(x) else Err(Conflict)
  }

  /** The end of `_replace` for an approval; taking the time of an approval that is not there is an exception of its own kind. */
  function AfterApproval(latest: Option<Record>, domain: string, revision: int, hash: string, actor: string, key: string, reply: Reply):
    (r: Result<Record>)
  {
    var failure := Err(if reply == Refused then Conflict else OutcomeUnknown);
    if latest.None? || !Readable(latest.value) || latest.value.brief.domain != domain then failure
    else if latest.value.approval.None? then Err(Unplanned)
    else match RecallApproval(latest.value, revision, hash, actor, key)
         case Ok(x) => Ok(x)
         case Err(_) => failure
  }

  /** A stored request that can be read and is not approved yet. */
  predicate Open(w: World, at: RequestKey) {
    at in w.tables.requests && Readable(w.tables.requests[at]) && w.tables.requests[at].approval.None?
  }

  /** Among the transactions after `ops`, one approved the request or left it unreadable. */
  predicate Closed(ops: seq<Op>, more: seq<Op>, at: RequestKey) {
    more != []
    && var n := |more| - 1;
       || Closed(ops, more[..n], at)
       || (Commits(Run(ops + more[..n]), more[n]) && more[n].at == at && (more[n].ApproveOp? || Strands(more[n])))
  }

  /** Only approvals approve. */
  lemma Approving(op: Op)
    requires !op.PrepareOp? && Update(op).Ok? && Update(op).value.Some? && op.read.approval.None?
    ensures Update(op).value.value.approval.Some? <==> op.ApproveOp?
  {
  }

  lemma StepCloses(w: World, op: Op, at: RequestKey)
    requires WorldInv(w) && Open(w, at)
    ensures Open(Exec(w, op), at) <==> !(Commits(w, op) && op.at == at && (op.ApproveOp? || Strands(op)))
  {
    if Commits(w, op) && op.at == at {
      StrandsExactly(op);
      if Update(op).value.Some? {
        ReadIsCurrent(w, op);
        Approving(op);
        assert Exec(w, op).tables.requests[at] == Update(op).value.value;
      }
    }
  }

  lemma ClosedStays(ops: seq<Op>, op: Op, at: RequestKey)
    requires at in Run(ops).tables.requests && !Open(Run(ops), at)
    ensures at in Run(ops + [op]).tables.requests && !Open(Run(ops + [op]), at)
  {
    RunStays(ops, [op], at);
    if !Readable(Run(ops).tables.requests[at]) { UnreadableIsStuck(ops, [op], at); }
  }

  /** A request stays open exactly as long as nobody approves it and nobody leaves it unreadable. */
  lemma {:induction false} OpenUntilClosed(ops: seq<Op>, more: seq<Op>, at: RequestKey)
    requires Open(Run(ops), at)
    ensures at in Run(ops + more).tables.requests
    ensures Open(Run(ops + more), at) <==> !Closed(ops, more, at)
    decreases |more|
  {
    if more == [] {
      assert ops + more == ops;
    } else {
      var n := |more| - 1;
      OpenUntilClosed(ops, more[..n], at);
      RunKeeps(ops + more[..n]);
      RunStep(ops + more[..n], more[n]);
      assert ops + more[..n] + [more[n]] == ops + more;
      if Open(Run(ops + more[..n]), at) {
        StepCloses(Run(ops + more[..n]), more[n], at);
      } else {
        ClosedStays(ops + more[..n], more[n], at);
      }
    }
  }

  /**
   * The reread after a failed approval ends in the undeclared exception if and only if, since the request was read,
   * nobody approved it and nobody left it unreadable: not this call, not another one, whatever else was written.
   */
  lemma UnplannedUnlessClosed(ops: seq<Op>, more: seq<Op>, at: RequestKey, domain: string, revision: int, hash: string, actor: string,
                              key: string, reply: Reply)
    requires Open(Run(ops), at) && Run(ops).tables.requests[at].brief.domain == domain
    ensures at in Run(ops + more).tables.requests
    ensures AfterApproval(Some(Run(ops + more).tables.requests[at]), domain, revision, hash, actor, key, reply) == Err(Unplanned)
        <==> !Closed(ops, more, at)
  {
    OpenUntilClosed(ops, more, at);
    RunStays(ops, more, at);
  }

  // ----- the exception is reached -----

  lemma ReviewedIsRefused(run: seq<Op>, approve: Op, review: Op)
    requires Approves(approve) && AwaitsAfter(run, approve.at, approve.read)
    requires Reviews(review) && review.at == approve.at && review.read == approve.read
    ensures Commits(Run(run), approve) && Commits(Run(run), review) && !Commits(Run(run + [review]), approve)
    ensures Open(Run(run), approve.at) && !Closed(run, [review], approve.at)
  {
    ApproveCommits(run, approve);
    ReviewIsNew(run, review);
    RunStep(run, review);
    assert [review][..0] == [] && run + [] == run;
    assert !Closed(run, [], approve.at);
  }

  /**
   * From empty tables: a request waits for its approval, and an approval of it could be committed. Without any other
   * transaction, the write that is lost on its way ends in the undeclared exception. With a single report on an item
   * before it, the write is refused and ends there as well.
   */
  lemma UnplannedIsReached(at: RequestKey, brief: Brief, key: string, job: Id, hash: string, now: int)
    returns (run: seq<Op>, approve: Op, review: Op)
    requires BriefValid(brief) && 1 < now < 1_000_000_000
    ensures !Stranded(run) && approve.ApproveOp? && approve.at == at && Commits(Run(run), approve)
    ensures approve.now == now && approve.dryRunRevision == 1 && approve.dryRunHash == hash && approve.actor == approve.key == key
    ensures review.EventOp? && review.data.ItemNeedsReview? && Commits(Run(run), review) && !Commits(Run(run + [review]), approve)
    ensures at in Run(run).tables.requests && at in Run(run + [review]).tables.requests
    ensures AfterApproval(Some(Run(run).tables.requests[at]), brief.domain, 1, hash, key, key, Lost) == Err(Unplanned)
    ensures AfterApproval(Some(Run(run + [review]).tables.requests[at]), brief.domain, 1, hash, key, key, Refused) == Err(Unplanned)
  {
    var r;
    run, r := ReachApproval(at, brief, key, job, hash, now);
    approve := ApproveOp(at, now, r, 1, hash, key, key);
    review := Review(at, r, key);
    ReviewedIsRefused(run, approve, review);
    UnplannedUnlessClosed(run, [review], at, brief.domain, 1, hash, key, key, Refused);
  }
}
