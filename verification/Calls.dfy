/** What a call of the store promises, whatever other callers do meanwhile and whatever replies are lost. */
module Calls {
  import opened Basics
  import opened Records
  import opened Plans
  import opened Runs
  import opened Idempotency
  import opened Backends

  // ----- what a call promises -----

  /** What identifies a call: where its receipt lives, and what the receipt must say. */
  datatype Call = Call(pk: Partition, key: string, domain: string, request: Request)
  {
    function Receipt(): Key {
      ReceiptKey(pk, key)
    }
  }

  ghost function TablesAt(log: seq<Entry>): Tables {
    WorldAt(log).tables
  }

  /** `_validated_replay`: the recorded result, or a refusal when the key was used for something else. */
  function Recall(call: Call, item: Item): Result<Outcome> {
    if item.ReceiptItem? && item.receipt.domain == call.domain && item.receipt.request == call.request
    then Ok(item.receipt.result) else Err(Conflict)
  }

  /** Only other callers' transactions lie between the two moments. */
  ghost predicate Quiet(before: seq<Entry>, after: seq<Entry>) {
    before <= after && Mine(after) == Mine(before)
  }

  ghost predicate Serves(op: Op, call: Call) {
    && TicketOf(op).Some?
    && TicketOf(op).value.pk == call.pk && TicketOf(op).value.key == call.key
    && TicketOf(op).value.receipt.domain == call.domain && TicketOf(op).value.receipt.request == call.request
  }

  /** This caller committed nothing, or exactly one transaction, which carries the call's receipt. */
  ghost predicate OnceAtMost(call: Call, before: seq<Entry>, after: seq<Entry>) {
    && before <= after
    && (Mine(after) == Mine(before)
        || (exists op :: Mine(after) == Mine(before) + [op] && Serves(op, call)))
  }

  ghost predicate Recorded(call: Call, t: Tables, result: Outcome) {
    call.Receipt() in t && Recall(call, t[call.Receipt()]) == Ok(result)
  }

  /** Nothing that would answer the call can be committed in this state. */
  ghost predicate Hopeless(call: Call, w: World) {
    forall op :: Serves(op, call) ==> !Commits(w, op)
  }

  ghost function WorldAt(log: seq<Entry>): World {
    Run(OpsOf(log))
  }

  /**
   * A result is what the stored receipt says. A refusal means that this call wrote nothing, and one that nobody
   * else's transaction explains means that nothing could have been written. An unknown outcome means all or nothing.
   */
  ghost predicate Answered(call: Call, before: seq<Entry>, after: seq<Entry>, r: Result<Outcome>) {
    && OnceAtMost(call, before, after)
    && (r.Ok? ==> Recorded(call, TablesAt(after), r.value))
    && (r.Err? && r.error != OutcomeUnknown ==> Quiet(before, after) && (after == before ==> Hopeless(call, WorldAt(after))))
  }

  /** While its receipt exists, a call writes nothing and returns what the receipt says. */
  ghost predicate Replays(call: Call, before: seq<Entry>, after: seq<Entry>, r: Result<Outcome>) {
    call.Receipt() in TablesAt(before) ==> Quiet(before, after) && r == Recall(call, TablesAt(before)[call.Receipt()])
  }

  ghost predicate Settled(call: Call, before: seq<Entry>, after: seq<Entry>, r: Result<Outcome>) {
    Answered(call, before, after, r) && Replays(call, before, after, r)
  }

  lemma OpsPrefix(before: seq<Entry>, after: seq<Entry>)
    requires before <= after
    ensures OpsOf(before) <= OpsOf(after)
  {
  }

  lemma ReceiptStays(before: seq<Entry>, after: seq<Entry>, k: Key)
    requires before <= after && k.ReceiptKey? && k in TablesAt(before)
    ensures k in TablesAt(after) && TablesAt(after)[k] == TablesAt(before)[k]
  {
    OpsPrefix(before, after);
    var a, b := OpsOf(before), OpsOf(after);
    WrittenOnce(a, b[|a|..], k);
    assert a + b[|a|..] == b;
  }

  /** Other callers' transactions before a call's own part do not change what it promises. */
  lemma SettledEarlier(call: Call, start: seq<Entry>, before: seq<Entry>, after: seq<Entry>, r: Result<Outcome>)
    requires Quiet(start, before) && Settled(call, before, after, r)
    ensures Settled(call, start, after, r)
  {
    if call.Receipt() in TablesAt(start) { ReceiptStays(start, before, call.Receipt()); }
  }

  /** A call that found no receipt owes no replay. */
  lemma NothingToReplay(call: Call, start: seq<Entry>, before: seq<Entry>, after: seq<Entry>, r: Result<Outcome>)
    requires Quiet(start, before) && call.Receipt() !in TablesAt(before) && Answered(call, start, after, r)
    ensures Settled(call, start, after, r)
  {
    if call.Receipt() in TablesAt(start) { ReceiptStays(start, before, call.Receipt()); }
  }

  /** A key that carries a receipt is spent. */
  lemma ReceiptHopeless(call: Call, log: seq<Entry>)
    requires call.Receipt() in TablesAt(log)
    ensures Hopeless(call, WorldAt(log))
  {
    forall op | Serves(op, call) ensures !Commits(WorldAt(log), op) {
      if Commits(WorldAt(log), op) { ReceiptAppears(WorldAt(log), op); }
    }
  }

  function Else(r: Result<Option<Outcome>>, result: Outcome): Result<Outcome> {
    match r
    case Err(e) => Err(e)
    case Ok(None) => Ok(result)
    case Ok(Some(concurrent)) => Ok(concurrent)
  }

  /** A stored receipt with the call's own ticket answers the call. */
  lemma OwnReceipt(call: Call, op: Op, ws: Writes, t: Tables)
    requires PlanOf(op) == Ok(ws) && Serves(op, call) && Stored(t, ws)
    ensures Recorded(call, t, TicketOf(op).value.receipt.result)
  {
    TicketInPlan(op);
  }

  // ----- the calls -----

  function AdjustCall(scope: Scope, stock: Id, location: Id, delta: int, revision: nat, key: string): Call {
    Call(scope.Pk(), key, scope.domain, AdjustRequest(stock, location, delta, revision))
  }

  function DeferCall(scope: Scope, rid: Id, next: nat, key: string): Call {
    Call(scope.Pk(), key, scope.domain, DeferRequest(rid, next))
  }

  function CheckoutCall(scope: Scope, c: Checkout, key: string): Call {
    Call(scope.Pk(), key, scope.domain, c.Request())
  }

  function FinishCall(scope: Scope, f: Finish): Call {
    Call(scope.Pk(), f.key, scope.domain, f.Request(scope))
  }

  function EventFinish(e: PaymentEvent): Finish {
    Finish(e.reservation, EndOf(e.kind), EndReason(e.kind), IntegrationKey(e.event), Some(e))
  }

  function EventCall(scope: Scope, hash: EventHash): Call {
    Call(scope.Pk(), IntegrationKey(EventOf(hash)), scope.domain, RequestFor(hash))
  }
}
