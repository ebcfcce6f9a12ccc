/** The stored keys as text: fields separated by `#`, and no two records share one. */
module SortKeys {
  import opened Basics
  import opened Inventory
  import opened Records
  import opened Decimals

  /** A field that may stand between separators. */
  predicate Plain(s: string) {
    '#' !in s
  }

  function Join(fields: seq<string>): string
    requires fields != []
  {
    if |fields| == 1 then fields[0] else fields[0] + "#" + Join(fields[1..])
  }

  /** The text up to the first separator. */
  function Head(s: string): (h: string)
    ensures Plain(h) && |h| <= |s|
  {
    if s == "" || s[0] == '#' then "" else [s[0]] + Head(s[1..])
  }

  lemma {:induction false} HeadOf(p: string, rest: string)
    requires Plain(p)
    ensures Head(p) == p && Head(p + "#" + rest) == p
  {
    if p == "" {
      assert p + "#" + rest == "#" + rest;
    } else {
      HeadOf(p[1..], rest);
      assert (p + "#" + rest)[1..] == p[1..] + "#" + rest;
      assert p == [p[0]] + p[1..];
    }
  }

  /** Plain fields can be read back from their joined text. */
  lemma {:induction false} JoinInjective(a: seq<string>, b: seq<string>)
    requires a != [] && b != [] && Join(a) == Join(b)
    requires forall i :: 0 <= i < |a| ==> Plain(a[i])
    requires forall i :: 0 <= i < |b| ==> Plain(b[i])
    ensures a == b
  {
    HeadOf(a[0], if |a| == 1 then "" else Join(a[1..]));
    HeadOf(b[0], if |b| == 1 then "" else Join(b[1..]));
    assert a[0] == b[0];
    if |a| > 1 && |b| > 1 {
      assert Join(a)[|a[0]| + 1..] == Join(a[1..]) && Join(b)[|b[0]| + 1..] == Join(b[1..]);
      JoinInjective(a[1..], b[1..]);
      assert a == [a[0]] + a[1..] && b == [b[0]] + b[1..];
    }
  }

  // ----- the keys of the store -----

  /** What the hashed parts of keys are digests of. */
  datatype Hashed =
    | IdempotencyOf(idempotencyKey: string)
    | MovementOf(receipt: string, kind: MovementKind, location: Id, stock: Id)
    | MessageOf(message: OutboxId)
    | ClaimOf(claim: FiscalId)

  /** A digest as the model takes it: different values have different digests, and a digest is a plain field. */
  ghost predicate Digests(digest: Hashed -> string) {
    && (forall x :: Plain(digest(x)))
    && (forall x, y :: digest(x) == digest(y) ==> x == y)
  }

  function EnvironmentText(e: Environment): (s: string)
    ensures Plain(s)
  {
    match e
    case Test => "test"
    case Production => "production"
  }

  function PartitionFields(p: Partition): seq<string> {
    ["ENV", EnvironmentText(p.environment), "TENANT", p.tenant, "DRAFT", p.draft]
  }

  function SortFields(k: Key, digest: Hashed -> string): (fields: seq<string>)
    ensures fields != []
  {
    match k
    case StockKey(_, location, stock) => ["STOCK", location, stock]
    case MovementKey(_, stock, receipt, kind, location) => ["STOCK_MOVEMENT", stock, digest(MovementOf(receipt, kind, location, stock))]
    case ReservationKey(_, rid) => ["RESERVATION", rid]
    case DueKey(_, epoch, rid) => ["RESERVATION_DUE", Padded(epoch, 20), rid]
    case OrderKey(_, oid) => ["ORDER", oid]
    case BindingKey(_, attempt) => ["PAYMENT_ATTEMPT", attempt]
    case AccessKey(_, oid) => ["FISCAL_ACCESS", oid]
    case RefundKey(_, id) => ["REFUND", id]
    case InboxKey(_, event) => ["EVENT_INBOX", event]
    case OutboxKey(_, message) => ["OUTBOX", digest(MessageOf(message))]
    case ReceiptKey(_, key) => ["IDEMPOTENCY", digest(IdempotencyOf(key))]
    case FiscalRequestKey(_, id) => ["FISCAL_REQUEST", digest(ClaimOf(id))]
    case FiscalReceiptKey(_, key) => ["FISCAL_IDEMPOTENCY", digest(IdempotencyOf(key))]
  }

  /** The identifiers in a key are safe ones, without a separator. */
  predicate WellNamed(k: Key) {
    && Plain(k.pk.tenant) && Plain(k.pk.draft)
    && match k
       case StockKey(_, location, stock) => Plain(location) && Plain(stock)
       case MovementKey(_, stock, _, _, _) => Plain(stock)
       case ReservationKey(_, rid) => Plain(rid)
       case DueKey(_, _, rid) => Plain(rid)
       case OrderKey(_, oid) => Plain(oid)
       case BindingKey(_, attempt) => Plain(attempt)
       case AccessKey(_, oid) => Plain(oid)
       case RefundKey(_, id) => Plain(id)
       case InboxKey(_, event) => Plain(event)
       case _ => true
  }

  lemma DigitsArePlain(s: string)
    requires AllDigits(s)
    ensures Plain(s)
  {
  }

  lemma FieldsArePlain(k: Key, digest: Hashed -> string)
    requires WellNamed(k) && Digests(digest)
    ensures forall i :: 0 <= i < |SortFields(k, digest)| ==> Plain(SortFields(k, digest)[i])
    ensures forall i :: 0 <= i < |PartitionFields(k.pk)| ==> Plain(PartitionFields(k.pk)[i])
  {
    if k.DueKey? { DigitsArePlain(Padded(k.reconcileAfter, 20)); }
  }

  lemma PaddedInjective(a: nat, b: nat, w: nat)
    requires Padded(a, w) == Padded(b, w)
    ensures a == b
  {
    PaddedValue(a, w);
    PaddedValue(b, w);
  }

  lemma FieldsIdentify(k: Key, l: Key, digest: Hashed -> string)
    requires Digests(digest) && k.pk == l.pk && SortFields(k, digest) == SortFields(l, digest)
    ensures k == l
  {
    var a, b := SortFields(k, digest), SortFields(l, digest);
    assert a[0] == b[0];
    if k.DueKey? && l.DueKey? { assert a[1] == b[1]; PaddedInjective(k.reconcileAfter, l.reconcileAfter, 20); }
  }

  /**
   * Two of these records with safe identifiers never share a stored key, whatever tables they are in. Events of all
   * kinds, those of subscriptions included, have one inbox, so that one id means one key for all of them.
   */
  lemma KeysIdentify(k: Key, l: Key, digest: Hashed -> string)
    requires Digests(digest) && WellNamed(k) && WellNamed(l)
    ensures Join(PartitionFields(k.pk)) == Join(PartitionFields(l.pk)) && Join(SortFields(k, digest)) == Join(SortFields(l, digest))
        <==> k == l
  {
    if Join(PartitionFields(k.pk)) == Join(PartitionFields(l.pk)) && Join(SortFields(k, digest)) == Join(SortFields(l, digest)) {
      FieldsArePlain(k, digest);
      FieldsArePlain(l, digest);
      JoinInjective(PartitionFields(k.pk), PartitionFields(l.pk));
      PartitionsIdentify(k.pk, l.pk);
      JoinInjective(SortFields(k, digest), SortFields(l, digest));
      FieldsIdentify(k, l, digest);
    }
  }

  lemma PartitionsIdentify(p: Partition, q: Partition)
    requires PartitionFields(p) == PartitionFields(q)
    ensures p == q
  {
    assert PartitionFields(p)[1] == PartitionFields(q)[1] && PartitionFields(p)[3] == PartitionFields(q)[3]
        && PartitionFields(p)[5] == PartitionFields(q)[5];
    assert |"test"| != |"production"|;
  }
}
