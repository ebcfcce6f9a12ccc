/** The table's attribute encoding of stored values, and back. src/storage.py 1893-1939. */
module Attributes {
  import opened Basics
  import opened Decimals

  /** The values that records are made of. */
  datatype Value =
    | Null
    | Bool(flag: bool)
    | Text(text: string)
    | Number(number: int)
    | List(items: seq<Value>)
    | Mapping(fields: map<string, Value>)

  /** A tagged attribute; numbers travel as decimal texts. */
  datatype Attribute =
    | NULL(marker: bool)
    | BOOL(flag: bool)
    | S(text: string)
    | N(numeral: string)
    | L(items: seq<Attribute>)
    | M(fields: map<string, Attribute>)

  /** Python's `str` of an integer. */
  function Print(n: int): string {
    if n < 0 then "-" + Decimal(-n) else Decimal(n)
  }

  /** Python's `int` of a numeral without decoration. */
  function Parse(s: string): Option<int> {
    if s != "" && s[0] == '-' then
      if s[1..] != "" && AllDigits(s[1..]) then Some(-(Decimals.Value(s[1..]) as int)) else None
    else if s != "" && AllDigits(s) then Some(Decimals.Value(s))
    else None
  }

  lemma ParsePrint(n: int)
    ensures Parse(Print(n)) == Some(n)
  {
    if n < 0 {
      ValueOfDecimal(-n);
      assert Print(n)[1..] == Decimal(-n);
    } else {
      ValueOfDecimal(n);
      assert Decimal(n)[0] != '-';
    }
  }

  /** `_to_attribute`. */
  function ToAttribute(v: Value): Attribute {
    match v
    case Null => NULL(true)
    case Bool(b) => BOOL(b)
    case Text(s) => S(s)
    case Number(n) => N(Print(n))
    case List(items) => L(seq(|items|, i requires 0 <= i < |items| => ToAttribute(items[i])))
    case Mapping(fields) => M(map k | k in fields :: ToAttribute(fields[k]))
  }

  /** `_from_attribute`; None where it raises. */
  function FromAttribute(a: Attribute): Option<Value> {
    match a
    case NULL(_) => Some(Null)
    case BOOL(b) => Some(Bool(b))
    case S(s) => Some(Text(s))
    case N(numeral) => (match Parse(numeral) case None => None case Some(n) => Some(Number(n)))
    case L(items) =>
      if forall i :: 0 <= i < |items| ==> FromAttribute(items[i]).Some?
      then Some(List(seq(|items|, i requires 0 <= i < |items| => FromAttribute(items[i]).value)))
      else None
    case M(fields) =>
      if forall k :: k in fields ==> FromAttribute(fields[k]).Some?
      then Some(Mapping(map k | k in fields :: FromAttribute(fields[k]).value))
      else None
  }

  /** Every value survives being stored and read back. */
  lemma {:induction false} FromTo(v: Value)
    ensures FromAttribute(ToAttribute(v)) == Some(v)
  {
    match v
    case Number(n) => ParsePrint(n);
    case List(items) =>
      forall i | 0 <= i < |items| ensures FromAttribute(ToAttribute(items[i])) == Some(items[i]) {
        FromTo(items[i]);
      }
      assert FromAttribute(ToAttribute(v)).value.items == items;
    case Mapping(fields) =>
      forall k | k in fields ensures FromAttribute(ToAttribute(fields[k])) == Some(fields[k]) {
        FromTo(fields[k]);
      }
      assert FromAttribute(ToAttribute(v)).value.fields == fields;
    case _ =>
  }

  /** An attribute as the encoder writes it. */
  predicate Canonical(a: Attribute) {
    match a
    case NULL(marker) => marker
    case N(numeral) => if numeral != "" && numeral[0] == '-' then Plainest(numeral[1..]) && numeral != "-0" else Plainest(numeral)
    case L(items) => forall i :: 0 <= i < |items| ==> Canonical(items[i])
    case M(fields) => forall k :: k in fields ==> Canonical(fields[k])
    case _ => true
  }

  lemma PrintParse(s: string)
    requires Parse(s).Some?
    ensures Print(Parse(s).value) == s <==> Canonical(N(s))
  {
    if s[0] == '-' {
      DecimalOfValue(s[1..]);
      assert s == "-" + s[1..];
      DecimalIsPlainest(Decimals.Value(s[1..]));
      if Decimals.Value(s[1..]) == 0 {
        assert Print(0)[0] != '-';
        if Plainest(s[1..]) { assert s[1..] == "0"; }
      } else {
        assert Print(Parse(s).value) == "-" + Decimal(Decimals.Value(s[1..]));
        assert Print(Parse(s).value)[1..] == Decimal(Decimals.Value(s[1..]));
      }
    } else {
      DecimalOfValue(s);
    }
  }

  /** The encoder writes canonical attributes only, and a readable attribute is one it writes exactly if it is canonical. */
  lemma {:induction false} ToFrom(a: Attribute)
    requires FromAttribute(a).Some?
    ensures ToAttribute(FromAttribute(a).value) == a <==> Canonical(a)
  {
    match a
    case N(numeral) => PrintParse(numeral);
    case L(items) =>
      var back := ToAttribute(FromAttribute(a).value).items;
      forall i | 0 <= i < |items| ensures back[i] == items[i] <==> Canonical(items[i]) { ToFrom(items[i]); }
    case M(fields) =>
      var back := ToAttribute(FromAttribute(a).value).fields;
      forall k | k in fields ensures back[k] == fields[k] <==> Canonical(fields[k]) { ToFrom(fields[k]); }
      if Canonical(a) { assert back == fields; }
    case _ =>
  }
}
