/** Fiscal claims: one redemption per access, at most five attempts, and the request's own small life cycle. */
module FiscalStores {
  import opened Basics
  import opened Records
  import opened Plans
  import opened Protocol
  import opened Runs
  import opened Idempotency
  import opened Backends
  import opened Calls
  import opened Refusals
  import opened Sending
  import opened Actions

  /** A redemption call; its receipt covers the order, the proof and the details. */
  datatype Claim = Claim(scope: Scope, order: Id, proof: string, details: string, key: string, now: nat)
  {
    function Receipt(): Key {
      FiscalReceiptKey(scope.Pk(), key)
    }

    function Request(): FiscalId {
      FiscalId(order, key)
    }

    function Op(a: AccessRec): Op {
      RedeemOp(scope, now, key, order, proof, details, a)
    }
  }

  /** `_idempotency_result`. */
  function RecallClaim(claim: Claim, item: Item): Result<FiscalId> {
    if item.FiscalReceiptItem? && item.fiscalReceipt.domain == claim.scope.domain && item.fiscalReceipt.order == claim.order
       && item.fiscalReceipt.proof == claim.proof && item.fiscalReceipt.details == claim.details
    then Ok(item.fiscalReceipt.request) else Err(Conflict)
  }

  ghost predicate ClaimRecorded(claim: Claim, t: Tables, id: FiscalId) {
    claim.Receipt() in t && RecallClaim(claim, t[claim.Receipt()]) == Ok(id)
  }

  ghost predicate RedeemedOnceAtMost(claim: Claim, before: seq<Entry>, after: seq<Entry>) {
    && before <= after
    && (Mine(after) == Mine(before) || exists a :: Mine(after) == Mine(before) + [claim.Op(a)])
  }

  /** No redemption of this claim can be committed in this state. */
  ghost predicate Unredeemable(claim: Claim, w: World) {
    forall a :: !Commits(w, claim.Op(a))
  }

  ghost predicate ClaimAnswered(claim: Claim, before: seq<Entry>, after: seq<Entry>, r: Result<FiscalId>) {
    && RedeemedOnceAtMost(claim, before, after)
    && (r.Ok? ==> ClaimRecorded(claim, TablesAt(after), r.value))
    && (r.Err? && r.error != OutcomeUnknown ==> Quiet(before, after) && (after == before ==> Unredeemable(claim, WorldAt(after))))
  }

  /** While its receipt exists, a claim writes nothing; the same claim gets its request, any other is refused. */
  ghost predicate ClaimReplays(claim: Claim, before: seq<Entry>, after: seq<Entry>, r: Result<FiscalId>) {
    claim.Receipt() in TablesAt(before) ==>
      && Quiet(before, after)
      && match RecallClaim(claim, TablesAt(before)[claim.Receipt()])
         case Ok(id) => r == Ok(id)
         case Err(_) => r.Err? && r.error in {NotFound, Conflict}
  }

  lemma FiscalReceiptStays(before: seq<Entry>, after: seq<Entry>, k: Key)
    requires before <= after && k.FiscalReceiptKey? && k in TablesAt(before)
    ensures k in TablesAt(after) && TablesAt(after)[k] == TablesAt(before)[k]
  {
    OpsPrefix(before, after);
    var a, b := OpsOf(before), OpsOf(after);
    WrittenOnce(a, b[|a|..], k);
    assert a + b[|a|..] == b;
  }

  /** What a redemption asks of the tables: its access as it was read, and an unused key. */
  predicate RedeemAsks(ws: Writes, claim: Claim, a: AccessRec) {
    var k := AccessKey(claim.scope.Pk(), claim.order);
    && k in ws && ws[k].condition == ClaimCondition(a) && claim.Receipt() in ws && ws[claim.Receipt()].condition == Absent
  }

  lemma RedeemPlanned(claim: Claim, a: AccessRec)
    requires PlanOf(claim.Op(a)).Ok?
    ensures RedeemAsks(PlanOf(claim.Op(a)).value, claim, a) && AccessReadable(a, claim.scope.domain) && Claimable(a, claim.proof, claim.now)
    ensures (AccessKey(claim.scope.Pk(), claim.order), AccessItem(a)) in ReadsOf(claim.Op(a))
  {
  }

  /** A redemption is planned from the access as it stands, and needs an unused key. */
  lemma RedemptionIsCurrent(w: World, claim: Claim, a: AccessRec)
    requires WorldInv(w) && Commits(w, claim.Op(a))
    ensures var k := AccessKey(claim.scope.Pk(), claim.order);
      && k in w.tables && w.tables[k] == AccessItem(a) && claim.Receipt() !in w.tables
      && AccessReadable(a, claim.scope.domain) && Claimable(a, claim.proof, claim.now)
  {
    var k, ws := AccessKey(claim.scope.Pk(), claim.order), PlanOf(claim.Op(a)).value;
    RedeemPlanned(claim, a);
    assert Satisfied(ws[k].condition, Lookup(w.tables, k));
    assert Satisfied(ws[claim.Receipt()].condition, Lookup(w.tables, claim.Receipt()));
    ReadWas(w, claim.Op(a), k, AccessItem(a));
  }

  /** The claim has used its access up, in an attempt of its own, and opened its request with its details. */
  predicate RedeemedSo(t: Tables, claim: Claim, a: AccessRec) {
    var pk, id := claim.scope.Pk(), FiscalId(claim.order, claim.key);
    var k, fk := AccessKey(pk, claim.order), FiscalRequestKey(pk, id);
    && k in t && t[k].AccessItem? && fk in t && t[fk].FiscalRequestItem?
    && var b, x := t[k].access, t[fk].fiscal;
    && b.state == Consumed && b.attempts == a.attempts + 1 && b.request == Some(id) && b.expiresAt == a.expiresAt && b.eligibleAt == a.eligibleAt
    && x.status == Requested && x.revision == 1 && x.details == claim.details && x.order == claim.order && x.createdAt == x.updatedAt == claim.now
  }

  /** A committed redemption leaves all of that, and its receipt. */
  lemma RedemptionLeaves(w: World, claim: Claim, a: AccessRec)
    requires Commits(w, claim.Op(a))
    ensures RedeemedSo(Exec(w, claim.Op(a)).tables, claim, a)
    ensures ClaimRecorded(claim, Exec(w, claim.Op(a)).tables, FiscalId(claim.order, claim.key))
  {
    RedeemPlanLeaves(w.tables, claim, a);
  }

  lemma RedeemPlanLeaves(t: Tables, claim: Claim, a: AccessRec)
    requires PlanOf(claim.Op(a)).Ok?
    ensures RedeemedSo(Apply(t, PlanOf(claim.Op(a)).value), claim, a)
    ensures ClaimRecorded(claim, Apply(t, PlanOf(claim.Op(a)).value), FiscalId(claim.order, claim.key))
  {
  }

  lemma RedemptionHolds(t: Tables, claim: Claim, a: AccessRec)
    requires Inv(t) && claim.Receipt() !in t
    requires var k := AccessKey(claim.scope.Pk(), claim.order); k in t && t[k] == AccessItem(a)
    requires AccessReadable(a, claim.scope.domain) && Claimable(a, claim.proof, claim.now)
    ensures var plan := RedeemPlan(claim.scope, claim.order, claim.proof, claim.details, claim.key, claim.now, a);
      plan.Ok? && Holds(t, plan.value)
  {
    assert Sound(t, FiscalRequestKey(claim.scope.Pk(), claim.Request())) && Sound(t, AccessKey(claim.scope.Pk(), claim.order));
  }

  /** A claimable access and an unused key are all a redemption needs. */
  lemma RedemptionCommits(w: World, claim: Claim, a: AccessRec)
    requires WorldInv(w) && claim.Receipt() !in w.tables
    requires var k := AccessKey(claim.scope.Pk(), claim.order); k in w.tables && w.tables[k] == AccessItem(a)
    requires AccessReadable(a, claim.scope.domain) && Claimable(a, claim.proof, claim.now)
    ensures Commits(w, claim.Op(a))
  {
    RedemptionHolds(w.tables, claim, a);
  }

  /** The access stands and may be claimed. */
  ghost predicate AccessStands(log: seq<Entry>, claim: Claim) {
    var t, k := TablesAt(log), AccessKey(claim.scope.Pk(), claim.order);
    && k in t && t[k].AccessItem? && AccessReadable(t[k].access, claim.scope.domain)
    && Claimable(t[k].access, claim.proof, claim.now)
  }

  lemma ClaimBlocked(log: seq<Entry>, claim: Claim)
    requires !AccessStands(log, claim) || claim.Receipt() in TablesAt(log)
    ensures Unredeemable(claim, WorldAt(log))
  {
    RunKeeps(OpsOf(log));
    forall a ensures !Commits(WorldAt(log), claim.Op(a)) {
      if Commits(WorldAt(log), claim.Op(a)) { RedemptionIsCurrent(WorldAt(log), claim, a); }
    }
  }

  lemma ClaimDecided(log: seq<Entry>, claim: Claim, a: AccessRec)
    requires Stands(log, AccessKey(claim.scope.Pk(), claim.order), AccessItem(a))
    requires AccessReadable(a, claim.scope.domain) && Claimable(a, claim.proof, claim.now)
    ensures Commits(WorldAt(log), claim.Op(a)) || Unredeemable(claim, WorldAt(log))
  {
    RunKeeps(OpsOf(log));
    if claim.Receipt() in TablesAt(log) { ClaimBlocked(log, claim); } else { RedemptionCommits(WorldAt(log), claim, a); }
  }

  /** The receipt of a claim stands beside its access, in one domain. */
  lemma ReceiptHasAccess(log: seq<Entry>, claim: Claim)
    requires claim.Receipt() in TablesAt(log)
    ensures TablesAt(log)[claim.Receipt()].FiscalReceiptItem?
    ensures RecallClaim(claim, TablesAt(log)[claim.Receipt()]).Ok? ==>
      && var k := AccessKey(claim.scope.Pk(), claim.order);
         k in TablesAt(log) && TablesAt(log)[k].AccessItem? && AccessReadable(TablesAt(log)[k].access, claim.scope.domain)
  {
    SoundAt(OpsOf(log), claim.Receipt());
    var x := TablesAt(log)[claim.Receipt()].fiscalReceipt;
    SoundAt(OpsOf(log), FiscalRequestKey(claim.scope.Pk(), x.request));
    SoundAt(OpsOf(log), AccessKey(claim.scope.Pk(), x.order));
  }

  // ----- the requests' life cycle -----

  /** A move of a fiscal request is planned from the request as it stands. */
  lemma MoveIsCurrent(w: World, scope: Scope, id: FiscalId, action: FiscalAction, revision: int, now: nat, x: FiscalRequestRec)
    requires WorldInv(w) && Commits(w, FiscalOp(scope, now, id, action, revision, x))
    ensures var k := FiscalRequestKey(scope.Pk(), id); k in w.tables && w.tables[k] == FiscalRequestItem(x)
  {
    var op, k := FiscalOp(scope, now, id, action, revision, x), FiscalRequestKey(scope.Pk(), id);
    MoveAsks(op);
    assert Satisfied(PlanOf(op).value[k].condition, Lookup(w.tables, k));
    ReadWas(w, op, k, FiscalRequestItem(x));
  }

  lemma MoveAsks(op: Op)
    requires op.FiscalOp? && PlanOf(op).Ok?
    ensures var k := FiscalRequestKey(op.scope.Pk(), op.request);
      && (k, FiscalRequestItem(op.stored)) in ReadsOf(op)
      && k in PlanOf(op).value && PlanOf(op).value[k].condition == RequestIs(op.stored.status, op.stored.revision)
  {
  }

  /** Exactly the moves that the tables of SUBMISSION_TRANSITIONS allow at the expected revision can be committed. */
  lemma MovePossible(w: World, scope: Scope, id: FiscalId, action: FiscalAction, revision: int, now: nat, x: FiscalRequestRec)
    requires WorldInv(w)
    requires var k := FiscalRequestKey(scope.Pk(), id); k in w.tables && w.tables[k] == FiscalRequestItem(x)
    ensures Commits(w, FiscalOp(scope, now, id, action, revision, x))
        <==> && x.domain == scope.domain && x.revision == revision
             && match action
                case MarkNeedsCorrection => x.status == Requested
                case MarkReady => x.status == Requested
                case MarkDelivered => x.status == Ready
                case Cancel => x.status == Requested || x.status == NeedsCorrection || x.status == Ready
                case Correct(_) => x.status == NeedsCorrection
  {
    var op, k := FiscalOp(scope, now, id, action, revision, x), FiscalRequestKey(scope.Pk(), id);
    assert (k, FiscalRequestItem(x)) in w.seen;
    StoredPositive(w.tables, k);
    MovePlanned(op);
    if PlanOf(op).Ok? { MoveHolds(w.tables, scope, id, x, PlanOf(op).value[k]); }
  }

  /** The request after the move, the status as TARGET_STATUS has it; a correction brings new details and asks again. */
  predicate MovedTo(x: FiscalRequestRec, action: FiscalAction, now: nat, y: FiscalRequestRec) {
    && y.domain == x.domain && y.order == x.order && y.createdAt == x.createdAt && y.revision == x.revision + 1 && y.updatedAt == now
    && match action
       case MarkNeedsCorrection => y.status == NeedsCorrection && y.details == x.details
       case MarkReady => y.status == Ready && y.details == x.details
       case MarkDelivered => y.status == Delivered && y.details == x.details
       case Cancel => y.status == Canceled && y.details == x.details
       case Correct(details) => y.status == Requested && y.details == details
  }

  /** A committed move leaves the stored request where its action leads. */
  lemma MoveLeads(w: World, scope: Scope, id: FiscalId, action: FiscalAction, revision: int, now: nat, x: FiscalRequestRec)
    requires WorldInv(w) && Commits(w, FiscalOp(scope, now, id, action, revision, x))
    ensures var t, u, k := w.tables, Exec(w, FiscalOp(scope, now, id, action, revision, x)).tables, FiscalRequestKey(scope.Pk(), id);
      k in t && t[k] == FiscalRequestItem(x) && k in u && u[k].FiscalRequestItem? && MovedTo(x, action, now, u[k].fiscal)
  {
    MoveIsCurrent(w, scope, id, action, revision, now, x);
    MoveWrites(FiscalOp(scope, now, id, action, revision, x));
  }

  lemma MoveWrites(op: Op)
    requires op.FiscalOp? && PlanOf(op).Ok?
    ensures var k := FiscalRequestKey(op.scope.Pk(), op.request);
      && k in PlanOf(op).value && PlanOf(op).value[k].Put? && PlanOf(op).value[k].item.FiscalRequestItem?
      && MovedTo(op.stored, op.action, op.now, PlanOf(op).value[k].item.fiscal)
  {
  }

  lemma MovePlanned(op: Op)
    requires op.FiscalOp? && op.stored.revision > 0
    ensures ReadsOf(op) == {(FiscalRequestKey(op.scope.Pk(), op.request), FiscalRequestItem(op.stored))}
    ensures PlanOf(op).Ok? <==>
      op.stored.domain == op.scope.domain && op.stored.revision == op.revision && FiscalNext(op.stored.status, op.action).Some?
    ensures var k := FiscalRequestKey(op.scope.Pk(), op.request);
      PlanOf(op).Ok? ==>
        && PlanOf(op).value.Keys == {k} && PlanOf(op).value == map[k := PlanOf(op).value[k]]
        && PlanOf(op).value[k].condition == RequestIs(op.stored.status, op.stored.revision)
  {
  }

  lemma StoredPositive(t: Tables, k: Key)
    requires Inv(t) && k.FiscalRequestKey? && k in t
    ensures t[k].FiscalRequestItem? && t[k].fiscal.revision > 0
  {
    assert Sound(t, k);
  }

  ghost predicate MoveImpossible(w: World, scope: Scope, id: FiscalId, action: FiscalAction, revision: int, now: nat) {
    forall x :: !Commits(w, FiscalOp(scope, now, id, action, revision, x))
  }

  /** What a read of a fiscal request finds to move. */
  ghost predicate Movable(log: seq<Entry>, scope: Scope, id: FiscalId, action: FiscalAction, revision: int) {
    var t, k := TablesAt(log), FiscalRequestKey(scope.Pk(), id);
    && k in t && t[k].FiscalRequestItem? && t[k].fiscal.domain == scope.domain
    && t[k].fiscal.revision == revision && FiscalNext(t[k].fiscal.status, action).Some?
  }

  lemma MoveDecided(log: seq<Entry>, scope: Scope, id: FiscalId, action: FiscalAction, revision: int, now: nat)
    ensures var t, k := TablesAt(log), FiscalRequestKey(scope.Pk(), id);
      if Movable(log, scope, id, action, revision) then Commits(WorldAt(log), FiscalOp(scope, now, id, action, revision, t[k].fiscal))
      else MoveImpossible(WorldAt(log), scope, id, action, revision, now)
  {
    RunKeeps(OpsOf(log));
    var w, k := WorldAt(log), FiscalRequestKey(scope.Pk(), id);
    if Movable(log, scope, id, action, revision) {
      MovePossible(w, scope, id, action, revision, now, w.tables[k].fiscal);
    } else {
      forall x ensures !Commits(w, FiscalOp(scope, now, id, action, revision, x)) {
        if Commits(w, FiscalOp(scope, now, id, action, revision, x)) {
          MoveIsCurrent(w, scope, id, action, revision, now, x);
          MovePossible(w, scope, id, action, revision, now, x);
        }
      }
    }
  }

  /** The request as the action leaves it. */
  function Moved(x: FiscalRequestRec, action: FiscalAction, now: nat): FiscalRequestRec
    requires FiscalNext(x.status, action).Some?
  {
    x.(status := FiscalNext(x.status, action).value, revision := x.revision + 1, updatedAt := now,
       details := if action.Correct? then action.details else x.details)
  }

  class FiscalStore {
    const backend: Backend

    constructor (backend: Backend)
      ensures this.backend == backend
    {
      this.backend := backend;
    }

    /** `_record_failed_attempt`: invalid details cost one of the five attempts. A lost reply is the backend's own exception. */
    method RecordFailedAttempt(scope: Scope, orderId: Id, proof: string, now: nat, a: AccessRec) returns (r: Result<AccessRec>)
      requires backend.Valid() && AccessReadable(a, scope.domain)
      requires (AccessKey(scope.Pk(), orderId), AccessItem(a)) in backend.seen
      modifies backend
      ensures backend.Valid() && old(backend.log) <= backend.log
      ensures Mine(backend.log) == Mine(old(backend.log))
           || Mine(backend.log) == Mine(old(backend.log)) + [AttemptOp(scope, now, orderId, proof, a)]
      ensures match r
              case Ok(b) =>
                && Mine(backend.log) == Mine(old(backend.log)) + [AttemptOp(scope, now, orderId, proof, a)]
                && b == a.(attempts := a.attempts + 1, revision := a.revision + 1)
                && Stands(backend.log, AccessKey(scope.Pk(), orderId), AccessItem(b)) && 1 <= b.attempts <= MAX_CLAIM_ATTEMPTS
              case Err(e) => e in {Conflict, Unplanned} && (e == Conflict ==> Quiet(old(backend.log), backend.log))
      ensures !Claimable(a, proof, now) ==> r == Err(Conflict)
    {
      if !Claimable(a, proof, now) {
        return Err(Conflict);
      }
      var attempted := a.(attempts := a.attempts + 1, revision := a.revision + 1);
      var action := Action(AccessKey(scope.Pk(), orderId), Put(AccessItem(attempted), ClaimCondition(a)));
      WritesOfOne(action);
      var reply := backend.Transact([action], AttemptOp(scope, now, orderId, proof, a));
      if reply == Applied {
        assert action.key in WritesOf([action]);
        return Ok(attempted);
      }
      return Err(if reply == Refused then Conflict else Unplanned);
    }

    /**
     * `redeem_claim`. Details that do not parse (`None`) cost an attempt; otherwise the claim consumes the access,
     * creates its one request, and records both under the caller's key.
     */
    method RedeemClaim(scope: Scope, orderId: Id, proof: string, details: Option<string>, key: string, now: nat)
      returns (r: Result<FiscalId>)
      requires backend.Valid()
      modifies backend
      ensures backend.Valid() && old(backend.log) <= backend.log
      ensures details.None? ==>
        && (Quiet(old(backend.log), backend.log)
            || exists a :: Mine(backend.log) == Mine(old(backend.log)) + [AttemptOp(scope, now, orderId, proof, a)])
        && r.Err? && (r.error == InvalidInput ==> Mine(backend.log) != Mine(old(backend.log)))
        && (r.error in {NotFound, Conflict} ==> Quiet(old(backend.log), backend.log))
      ensures details.Some? ==>
        && ClaimAnswered(Claim(scope, orderId, proof, details.value, key, now), old(backend.log), backend.log, r)
        && ClaimReplays(Claim(scope, orderId, proof, details.value, key, now), old(backend.log), backend.log, r)
        && (r.Ok? ==> r.value == FiscalId(orderId, key))
    {
      ghost var start := backend.log;
      var item := backend.Get(AccessKey(scope.Pk(), orderId));
      if item.None? || !item.value.AccessItem? || !AccessReadable(item.value.access, scope.domain) {
        if details.Some? {
          ClaimBlocked(backend.log, Claim(scope, orderId, proof, details.value, key, now));
          UnreadableNotRecorded(start, backend.log, Claim(scope, orderId, proof, details.value, key, now));
        }
        return Err(if item.None? then NotFound else Conflict);
      }
      var a := item.value.access;
      if details.None? {
        var attempted := RecordFailedAttempt(scope, orderId, proof, now, a);
        return Err(if attempted.Ok? then InvalidInput else attempted.error);
      }
      r := RedeemParsed(Claim(scope, orderId, proof, details.value, key, now), a, start);
    }

    /** A claim whose details parse, from the access that was read. */
    method RedeemParsed(claim: Claim, a: AccessRec, ghost start: seq<Entry>) returns (r: Result<FiscalId>)
      requires backend.Valid() && Quiet(start, backend.log) && AccessReadable(a, claim.scope.domain)
      requires (AccessKey(claim.scope.Pk(), claim.order), AccessItem(a)) in backend.seen
      requires backend.log == start ==> Stands(start, AccessKey(claim.scope.Pk(), claim.order), AccessItem(a))
      modifies backend
      ensures backend.Valid() && ClaimAnswered(claim, start, backend.log, r) && ClaimReplays(claim, start, backend.log, r)
      ensures r.Ok? ==> r.value == claim.Request()
    {
      var existing := backend.Get(claim.Receipt());
      if claim.Receipt() in TablesAt(start) { FiscalReceiptStays(start, backend.log, claim.Receipt()); }
      if existing.Some? {
        ClaimBlocked(backend.log, claim);
        RecordedRequest(backend.log, claim);
        return RecallClaim(claim, existing.value);
      }
      if !Claimable(a, claim.proof, claim.now) {
        if backend.log == start { ClaimBlocked(start, claim); }
        return Err(Conflict);
      }
      if backend.log == start { ClaimDecided(start, claim, a); }
      r := SendClaim(claim, a, start);
    }

    /** The three writes of a redemption in one transaction, and the receipt read again when it does not succeed. */
    method SendClaim(claim: Claim, a: AccessRec, ghost start: seq<Entry>) returns (r: Result<FiscalId>)
      requires backend.Valid() && Quiet(start, backend.log)
      requires AccessReadable(a, claim.scope.domain) && Claimable(a, claim.proof, claim.now)
      requires (AccessKey(claim.scope.Pk(), claim.order), AccessItem(a)) in backend.seen
      requires backend.log == start ==> Commits(WorldAt(start), claim.Op(a)) || Unredeemable(claim, WorldAt(start))
      modifies backend
      ensures backend.Valid() && ClaimAnswered(claim, start, backend.log, r)
      ensures r.Ok? ==> r.value == claim.Request()
    {
      var plan := RedeemActions(claim, a);
      RedeemList(claim, a);
      var reply := backend.Transact(plan, claim.Op(a));
      ghost var sent := backend.log;
      if Mine(sent) != Mine(start) { assert claim.Receipt() in WritesOf(plan); }
      if reply == Applied {
        return Ok(claim.Request());
      }
      assert reply == Refused ==> !Holds(TablesAt(sent), WritesOf(plan));
      var replay := backend.Get(claim.Receipt());
      if Mine(sent) != Mine(start) { FiscalReceiptStays(sent, backend.log, claim.Receipt()); }
      if replay.Some? {
        ClaimBlocked(backend.log, claim);
        RecordedRequest(backend.log, claim);
        return RecallClaim(claim, replay.value);
      }
      if reply == Refused && backend.log == start { assert sent == start; }
      return Err(if reply == Refused then Conflict else OutcomeUnknown);
    }

    /** `transition_request` and `correct_request`, which share `_replace_request`. */
    method MoveRequest(scope: Scope, id: FiscalId, action: FiscalAction, expectedRevision: int, now: nat)
      returns (r: Result<FiscalRequestRec>)
      requires backend.Valid()
      modifies backend
      ensures backend.Valid() && old(backend.log) <= backend.log
      ensures Mine(backend.log) == Mine(old(backend.log))
           || exists x ::
                && Mine(backend.log) == Mine(old(backend.log)) + [FiscalOp(scope, now, id, action, expectedRevision, x)]
                && (r.Ok? ==> MovedTo(x, action, now, r.value))
      ensures match r
              case Ok(y) =>
                && Mine(backend.log) != Mine(old(backend.log)) && y.revision == expectedRevision + 1
                && Stands(backend.log, FiscalRequestKey(scope.Pk(), id), FiscalRequestItem(y))
              case Err(e) =>
                && e in {NotFound, Conflict, Unplanned}
                && (e != Unplanned ==>
                      && Quiet(old(backend.log), backend.log)
                      && (backend.log == old(backend.log) ==> MoveImpossible(WorldAt(backend.log), scope, id, action, expectedRevision, now)))
    {
      ghost var start := backend.log;
      var k := FiscalRequestKey(scope.Pk(), id);
      var item := backend.Get(k);
      MoveDecided(backend.log, scope, id, action, expectedRevision, now);
      if item.None? || !item.value.FiscalRequestItem? {
        return Err(NotFound);
      }
      var x := item.value.fiscal;
      if x.domain != scope.domain || x.revision <= 0 || x.revision != expectedRevision || FiscalNext(x.status, action).None? {
        RunKeeps(OpsOf(backend.log));
        StoredPositive(backend.tables, k);
        return Err(Conflict);
      }
      r := ReplaceRequest(scope, id, action, now, x, start);
    }

    /** `_replace_request`: one conditional write. A lost reply is the backend's own exception. */
    method ReplaceRequest(scope: Scope, id: FiscalId, action: FiscalAction, now: nat, x: FiscalRequestRec, ghost start: seq<Entry>)
      returns (r: Result<FiscalRequestRec>)
      requires backend.Valid() && Quiet(start, backend.log)
      requires x.domain == scope.domain && x.revision > 0 && FiscalNext(x.status, action).Some?
      requires (FiscalRequestKey(scope.Pk(), id), FiscalRequestItem(x)) in backend.seen
      requires backend.log == start ==> Stands(start, FiscalRequestKey(scope.Pk(), id), FiscalRequestItem(x))
      modifies backend
      ensures backend.Valid() && start <= backend.log
      ensures Mine(backend.log) == Mine(start)
           || Mine(backend.log) == Mine(start) + [FiscalOp(scope, now, id, action, x.revision, x)]
      ensures match r
              case Ok(y) =>
                && Mine(backend.log) != Mine(start) && MovedTo(x, action, now, y)
                && Stands(backend.log, FiscalRequestKey(scope.Pk(), id), FiscalRequestItem(y))
              case Err(e) => e in {Conflict, Unplanned} && (e == Conflict ==> Quiet(start, backend.log) && backend.log != start)
    {
      var k, updated := FiscalRequestKey(scope.Pk(), id), Moved(x, action, now);
      var write := Action(k, Put(FiscalRequestItem(updated), RequestIs(x.status, x.revision)));
      WritesOfOne(write);
      if backend.log == start { MoveHolds(TablesAt(start), scope, id, x, write.write); }
      var reply := backend.Transact([write], FiscalOp(scope, now, id, action, x.revision, x));
      if reply == Applied {
        assert k in WritesOf([write]);
        return Ok(updated);
      }
      return Err(if reply == Refused then Conflict else Unplanned);
    }
  }

  lemma MoveHolds(t: Tables, scope: Scope, id: FiscalId, x: FiscalRequestRec, write: Write)
    requires write.condition == RequestIs(x.status, x.revision)
    requires var k := FiscalRequestKey(scope.Pk(), id); k in t && t[k] == FiscalRequestItem(x)
    ensures Holds(t, map[FiscalRequestKey(scope.Pk(), id) := write])
  {
  }

  /** Where the access cannot be read in the claim's domain, the claim has not been recorded. */
  lemma UnreadableNotRecorded(before: seq<Entry>, after: seq<Entry>, claim: Claim)
    requires before <= after
    requires var k := AccessKey(claim.scope.Pk(), claim.order);
      !(k in TablesAt(after) && TablesAt(after)[k].AccessItem? && AccessReadable(TablesAt(after)[k].access, claim.scope.domain))
    ensures claim.Receipt() in TablesAt(before) ==> RecallClaim(claim, TablesAt(before)[claim.Receipt()]).Err?
  {
    if claim.Receipt() in TablesAt(before) {
      ReceiptHasAccess(before, claim);
      if RecallClaim(claim, TablesAt(before)[claim.Receipt()]).Ok? {
        AccessStaysReadable(before, after, AccessKey(claim.scope.Pk(), claim.order), claim.scope.domain);
      }
    }
  }

  /** A recorded claim names the request that its order and key determine. */
  lemma RecordedRequest(log: seq<Entry>, claim: Claim)
    requires claim.Receipt() in TablesAt(log)
    ensures RecallClaim(claim, TablesAt(log)[claim.Receipt()]) in {Ok(claim.Request()), Err(Conflict)}
  {
    RunKeeps(OpsOf(log));
    assert Sound(TablesAt(log), claim.Receipt());
  }

  function RedeemActions(claim: Claim, a: AccessRec): seq<Action> {
    var pk, id := claim.scope.Pk(), claim.Request();
    [Action(AccessKey(pk, claim.order),
            Put(AccessItem(a.(state := Consumed, attempts := a.attempts + 1, revision := a.revision + 1, request := Some(id))), ClaimCondition(a))),
     Action(FiscalRequestKey(pk, id),
            Put(FiscalRequestItem(FiscalRequestRec(claim.scope.domain, claim.order, Requested, 1, claim.details, claim.now, claim.now)), Absent)),
     Action(claim.Receipt(),
            Put(FiscalReceiptItem(FiscalReceiptRec(claim.scope.domain, claim.order, claim.proof, claim.details, id, claim.now)), Absent))]
  }

  lemma RedeemList(claim: Claim, a: AccessRec)
    requires AccessReadable(a, claim.scope.domain) && Claimable(a, claim.proof, claim.now)
    ensures PlanOf(claim.Op(a)) == Ok(WritesOf(RedeemActions(claim, a)))
  {
    var plan := RedeemActions(claim, a);
    WritesOfThree(plan[0], plan[1], plan[2]);
  }

  /** A claim repeated after it was recorded, by anybody and at any time, changes nothing and gets the recorded answer. */
  lemma ClaimsReplay(claim: Claim, before: seq<Entry>, after: seq<Entry>)
    requires before <= after && claim.Receipt() in TablesAt(before)
    ensures claim.Receipt() in TablesAt(after)
    ensures RecallClaim(claim, TablesAt(after)[claim.Receipt()]) == RecallClaim(claim, TablesAt(before)[claim.Receipt()])
    ensures Unredeemable(claim, WorldAt(after))
  {
    FiscalReceiptStays(before, after, claim.Receipt());
    ClaimBlocked(after, claim);
  }
}
