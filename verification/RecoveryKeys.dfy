/**
 * The browser's checkout recovery key: a regular expression that accepts exactly the canonical unpadded base64url
 * texts of 32 bytes (sections 5 and 3.5 of RFC 4648). src/common/http.py 49-53 and 135-151.
 */
module RecoveryKeys {
  import opened Basics

  /** Two bits. Eight bits are four of them and six bits are three, the most significant first. */
  type Pair = p: nat | p < 4
  datatype Byte = Byte(a: Pair, b: Pair, c: Pair, d: Pair)
  datatype Sextet = Sextet(a: Pair, b: Pair, c: Pair)
  {
    function Value(): (v: nat)
      ensures v < 64
    {
      a * 16 + b * 4 + c
    }
  }

  function SextetOf(v: nat): (s: Sextet)
    requires v < 64
    ensures s.Value() == v
  {
    var quarter := v / 4;
    assert v == 4 * quarter + v % 4 && quarter == 4 * (quarter / 4) + quarter % 4;
    Sextet(quarter / 4, quarter % 4, v % 4)
  }

  const KEY_BYTES: nat := 32
  const NAMESPACE: string := "public-checkout-recovery-v1"

  /** The base64url alphabet, by value. */
  function Symbol(v: nat): char
    requires v < 64
  {
    if v < 26 then 'A' + v as char
    else if v < 52 then 'a' + (v - 26) as char
    else if v < 62 then '0' + (v - 52) as char
    else if v == 62 then '-' else '_'
  }

  /** The value of a symbol. The decoder takes the two symbols of the standard alphabet as well. */
  function SymbolValue(c: char): (v: Option<nat>)
    ensures v.Some? ==> v.value < 64
  {
    if 'A' <= c <= 'Z' then Some(c as int - 'A' as int)
    else if 'a' <= c <= 'z' then Some(c as int - 'a' as int + 26)
    else if '0' <= c <= '9' then Some(c as int - '0' as int + 52)
    else if c == '-' || c == '+' then Some(62)
    else if c == '_' || c == '/' then Some(63)
    else None
  }

  /** A character of the class [A-Za-z0-9_-]. */
  predicate InClass(c: char) {
    'A' <= c <= 'Z' || 'a' <= c <= 'z' || '0' <= c <= '9' || c == '_' || c == '-'
  }

  lemma SymbolsRoundTrip(v: nat, c: char)
    requires v < 64
    ensures InClass(Symbol(v)) && SymbolValue(Symbol(v)) == Some(v)
    ensures InClass(c) ==> SymbolValue(c).Some? && Symbol(SymbolValue(c).value) == c
  {
  }

  lemma BitsRoundTrip(s: Sextet)
    ensures SextetOf(s.Value()) == s
  {
  }

  // ----- eight bits and six bits -----

  /** Three bytes at a time; the bits that fill up the last sextet are zero. */
  function Sextets(b: seq<Byte>): (v: seq<Sextet>)
    ensures |v| % 4 != 1
  {
    if b == [] then []
    else
      var first := Sextet(b[0].a, b[0].b, b[0].c);
      if |b| == 1 then [first, Sextet(b[0].d, 0, 0)]
      else
        var second := Sextet(b[0].d, b[1].a, b[1].b);
        if |b| == 2 then [first, second, Sextet(b[1].c, b[1].d, 0)]
        else [first, second, Sextet(b[1].c, b[1].d, b[2].a), Sextet(b[2].b, b[2].c, b[2].d)] + Sextets(b[3..])
  }

  /** Four sextets at a time; the bits left over in the last one are dropped, whatever they are. */
  function Bytes(v: seq<Sextet>): (b: seq<Byte>)
    requires |v| % 4 != 1
  {
    if v == [] then []
    else
      var high := Byte(v[0].a, v[0].b, v[0].c, v[1].a);
      if |v| == 2 then [high]
      else
        var middle := Byte(v[1].b, v[1].c, v[2].a, v[2].b);
        if |v| == 3 then [high, middle]
        else [high, middle, Byte(v[2].c, v[3].a, v[3].b, v[3].c)] + Bytes(v[4..])
  }

  /** Sextets without superfluous bits in the last one. */
  predicate Tidy(v: seq<Sextet>) {
    && |v| % 4 != 1
    && (|v| % 4 == 2 ==> v[|v| - 1].b == 0 && v[|v| - 1].c == 0)
    && (|v| % 4 == 3 ==> v[|v| - 1].c == 0)
  }

  lemma {:induction false} BytesLength(v: seq<Sextet>)
    requires |v| % 4 != 1
    ensures |Bytes(v)| == |v| * 3 / 4
  {
    if |v| > 3 { BytesLength(v[4..]); }
  }

  lemma {:induction false} SextetsAreTidy(b: seq<Byte>)
    ensures Tidy(Sextets(b))
  {
    if |b| > 2 {
      SextetsAreTidy(b[3..]);
      assert Sextets(b)[4..] == Sextets(b[3..]);
      if |b| > 3 { assert Sextets(b)[|Sextets(b)| - 1] == Sextets(b[3..])[|Sextets(b)| - 5]; }
    }
  }

  lemma {:induction false} BytesOfSextets(b: seq<Byte>)
    ensures Bytes(Sextets(b)) == b
  {
    if |b| > 2 {
      BytesOfSextets(b[3..]);
      assert Sextets(b)[4..] == Sextets(b[3..]);
    }
  }

  lemma {:induction false} SextetsOfBytes(v: seq<Sextet>)
    requires Tidy(v)
    ensures Sextets(Bytes(v)) == v
  {
    if |v| > 3 {
      assert |v| > 4 ==> v[|v| - 1] == v[4..][|v| - 5];
      SextetsOfBytes(v[4..]);
      assert Bytes(v)[3..] == Bytes(v[4..]);
      assert v == [v[0], v[1], v[2], v[3]] + v[4..];
    }
  }

  lemma {:induction false} EncodedLength(b: seq<Byte>)
    ensures |Sextets(b)| == (|b| * 4 + 2) / 3
  {
    if |b| > 2 { EncodedLength(b[3..]); }
  }

  // ----- the texts -----

  function Text(v: seq<Sextet>): string {
    seq(|v|, i requires 0 <= i < |v| => Symbol(v[i].Value()))
  }

  predicate AllSymbols(s: string) {
    forall i :: 0 <= i < |s| ==> SymbolValue(s[i]).Some?
  }

  function Values(s: string): (v: seq<Sextet>)
    requires AllSymbols(s)
    ensures |v| == |s| && forall i :: 0 <= i < |s| ==> v[i] == SextetOf(SymbolValue(s[i]).value)
  {
    seq(|s|, i requires 0 <= i < |s| => SextetOf(SymbolValue(s[i]).value))
  }

  /** `urlsafe_b64encode` without the padding. */
  function Encode(b: seq<Byte>): string {
    Text(Sextets(b))
  }

  /** `b64decode` of the text with its padding put back. */
  function Decode(s: string): Option<seq<Byte>> {
    if AllSymbols(s) && |s| % 4 != 1 then Some(Bytes(Values(s))) else None
  }

  predicate Canonical(s: string) {
    (forall i :: 0 <= i < |s| ==> InClass(s[i])) && AllSymbols(s) && Tidy(Values(s))
  }

  lemma ValuesOfText(v: seq<Sextet>)
    ensures AllSymbols(Text(v)) && Values(Text(v)) == v && forall i :: 0 <= i < |v| ==> InClass(Text(v)[i])
  {
    forall i | 0 <= i < |v| ensures InClass(Text(v)[i]) && SymbolValue(Text(v)[i]) == Some(v[i].Value()) {
      SymbolsRoundTrip(v[i].Value(), 'A');
    }
    forall i | 0 <= i < |v| ensures Values(Text(v))[i] == v[i] {
      BitsRoundTrip(v[i]);
    }
  }

  lemma TextOfValues(s: string)
    requires AllSymbols(s) && forall i :: 0 <= i < |s| ==> InClass(s[i])
    ensures Text(Values(s)) == s
  {
    forall i | 0 <= i < |s| ensures Text(Values(s))[i] == s[i] {
      SymbolsRoundTrip(0, s[i]);
    }
  }

  /** Decoding undoes encoding, for any bytes, and encodings are canonical. */
  lemma DecodeEncode(b: seq<Byte>)
    ensures Canonical(Encode(b)) && Decode(Encode(b)) == Some(b)
  {
    SextetsAreTidy(b);
    BytesOfSextets(b);
    ValuesOfText(Sextets(b));
  }

  /** Encoding undoes decoding on canonical texts. */
  lemma EncodeDecode(s: string)
    requires Canonical(s)
    ensures Decode(s).Some? && Encode(Decode(s).value) == s && |Decode(s).value| == |s| * 3 / 4
  {
    SextetsOfBytes(Values(s));
    BytesLength(Values(s));
    TextOfValues(s);
  }

  // ----- the regular expression -----

  predicate InLastClass(c: char) {
    c in "AEIMQUYcgkosw048"
  }

  /** PUBLIC_CHECKOUT_RECOVERY_KEY_RE. */
  predicate Matches(s: string) {
    |s| == 43 && (forall i :: 0 <= i < 42 ==> InClass(s[i])) && InLastClass(s[42])
  }

  /** The last class is the symbols whose two lowest bits are zero. */
  lemma LastClass(c: char)
    ensures InLastClass(c) <==> InClass(c) && SymbolValue(c).value % 4 == 0
  {
    if InClass(c) && SymbolValue(c).value % 4 == 0 {
      assert c == "AEIMQUYcgkosw048"[SymbolValue(c).value / 4];
    }
  }

  lemma MatchIsCanonical(s: string)
    ensures Matches(s) <==> |s| == 43 && Canonical(s)
  {
    if |s| == 43 { LastClass(s[42]); }
  }

  /** The expression accepts exactly the encodings of 32 bytes. */
  lemma MatchesEncodings(s: string)
    ensures Matches(s) <==> exists b: seq<Byte> :: |b| == KEY_BYTES && Encode(b) == s
  {
    MatchIsCanonical(s);
    if Matches(s) {
      EncodeDecode(s);
    }
    if exists b: seq<Byte> :: |b| == KEY_BYTES && Encode(b) == s {
      var b: seq<Byte> :| |b| == KEY_BYTES && Encode(b) == s;
      DecodeEncode(b);
      EncodedLength(b);
    }
  }

  /** Two keys that pass and decode alike are the same key. */
  lemma DecodeInjective(s: string, t: string)
    requires Matches(s) && Matches(t) && Decode(s) == Decode(t)
    ensures s == t
  {
    MatchIsCanonical(s);
    MatchIsCanonical(t);
    EncodeDecode(s);
    EncodeDecode(t);
  }

  /** `public_checkout_idempotency_header` on the header's value. */
  function Accept(value: string): Result<string> {
    if !Matches(value) then Err(InvalidInput)
    else match Decode(value)
      case None => Err(InvalidInput)
      case Some(decoded) =>
        if |decoded| != KEY_BYTES || Encode(decoded) != value then Err(InvalidInput) else Ok(NAMESPACE + ":" + value)
  }

  /** The checks behind the expression never fail, and accepted keys stay apart. */
  lemma AcceptsMatches(value: string, other: string)
    ensures Accept(value).Ok? <==> Matches(value)
    ensures Accept(value).Ok? && Accept(value) == Accept(other) ==> value == other
  {
    if Matches(value) {
      MatchIsCanonical(value);
      EncodeDecode(value);
    }
    if Accept(value).Ok? && Accept(value) == Accept(other) {
      var n := |NAMESPACE + ":"|;
      assert (NAMESPACE + ":" + value)[n..] == value && (NAMESPACE + ":" + other)[n..] == other;
    }
  }
}
