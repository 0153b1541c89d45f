/**
 * The JSON values the settings store holds: `JSON.stringify` and
 * `JSON.parse` on `null`, booleans and integers, and JavaScript truthiness.
 */
module Json {
  import opened Wrappers
  import opened Numerals

  datatype Json = JNull | JBool(b: bool) | JInt(i: int)

  /** `JSON.stringify(v)`. */
  function Serialize(v: Json): string {
    match v
    case JNull => "null"
    case JBool(b) => if b then "true" else "false"
    case JInt(i) => IntToString(i)
  }

  /** A JSON number literal without fraction or exponent: no leading zeros. */
  predicate IsCanonicalNat(s: string) {
    |s| >= 1 && AllDigits(s) && (|s| > 1 ==> s[0] != '0')
  }

  predicate IsIntegerLiteral(s: string) {
    IsCanonicalNat(s) || (|s| >= 2 && s[0] == '-' && IsCanonicalNat(s[1..]))
  }

  /**
   * `JSON.parse(s)` on the literals above; `None` stands for every other
   * text, which `JSON.parse` either rejects by throwing or turns into a kind
   * of value (string, fraction, array, object) that is not modelled.
   */
  function Parse(s: string): (r: Option<Json>)
    ensures r == Some(JNull) <==> s == "null"
    ensures r.Some? && r.value.JBool? <==> s == "true" || s == "false"
    ensures r.Some? && r.value.JInt? <==> IsIntegerLiteral(s)
  {
    if s == "null" then Some(JNull)
    else if s == "true" then Some(JBool(true))
    else if s == "false" then Some(JBool(false))
    else if IsCanonicalNat(s) then Some(JInt(DigitsValue(s)))
    else if IsIntegerLiteral(s) then Some(JInt(-(DigitsValue(s[1..]) as int)))
    else None
  }

  /** JavaScript truthiness of a parsed value (`!v` is its negation). */
  predicate Truthy(v: Json) {
    match v
    case JNull => false
    case JBool(b) => b
    case JInt(i) => i != 0
  }

  /** `JSON.parse(JSON.stringify(v))` gives `v` back. */
  lemma ParseSerialize(v: Json)
    ensures Parse(Serialize(v)) == Some(v)
  {
    match v
    case JNull =>
    case JBool(b) =>
    case JInt(i) =>
      if i < 0 {
        ParseNegative(-i);
      } else {
        ParseNatural(i);
      }
  }

  /** The text of a non-negative integer parses back to it. */
  lemma ParseNatural(n: nat)
    ensures Parse(NatToString(n)) == Some(JInt(n))
  {
    var s := NatToString(n);
    assert IsDigit(s[0]);
    assert s != "null" && s != "true" && s != "false" by {
      assert s[0] != 'n' && s[0] != 't' && s[0] != 'f';
    }
    assert IsCanonicalNat(s);
    NatToStringValue(n);
  }

  /** The text of a negative integer parses back to it. */
  lemma ParseNegative(n: nat)
    requires n > 0
    ensures Parse(IntToString(-(n as int))) == Some(JInt(-(n as int)))
  {
    var s := IntToString(-(n as int));
    assert s == "-" + NatToString(n);
    assert s[1..] == NatToString(n);
    assert s[0] == '-' && !IsDigit(s[0]);
    assert s != "null" && s != "true" && s != "false" by {
      assert s[0] != 'n' && s[0] != 't' && s[0] != 'f';
    }
    assert !IsCanonicalNat(s);
    assert IsIntegerLiteral(s);
    NatToStringValue(n);
  }
}
