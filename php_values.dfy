/** The PHP values that reach the untyped parameters of the core, and the type
    tests the core applies to them. */
module PhpValues {

  /** A PHP value. Arrays only ever carry command tokens in this core, so an
      array is modelled as its sequence of string tokens. */
  datatype Mixed =
    | Null
    | Bool(b: bool)
    | Int(i: int)
    | Float(f: real)
    | Str(s: string)
    | Stringable(rendered: string)  // an object with a __toString() method
    | Array(items: seq<string>)
    | Object                        // any other object

  /** Accepted by the traversable requirement: an array. */
  predicate IsTraversable(v: Mixed)
  {
    v.Array?
  }

  /** Accepted by the numeric requirement: an integer, a float or a numeric string. */
  predicate IsNumeric(v: Mixed)
  {
    v.Int? || v.Float? || (v.Str? && IsNumericString(v.s))
  }

  /** Accepted by the stringy requirement: a string or an object that converts to one. */
  predicate IsStringy(v: Mixed)
  {
    v.Str? || v.Stringable?
  }

  /** PHP's conversion of a string to a boolean: only "" and "0" are false. */
  predicate IsTruthy(s: string)
  {
    s != "" && s != "0"
  }

  predicate IsDigit(c: char)
  {
    '0' <= c <= '9'
  }

  predicate AllDigits(s: string)
  {
    forall i :: 0 <= i < |s| ==> IsDigit(s[i])
  }

  /** Position of the first '.' in s, or |s| when there is none. */
  function IndexOfDot(s: string): (k: nat)
    ensures k <= |s|
    ensures forall i :: 0 <= i < k ==> s[i] != '.'
    ensures k < |s| ==> s[k] == '.'
  {
    if s == [] then 0 else if s[0] == '.' then 0 else 1 + IndexOfDot(s[1..])
  }

  /** A decimal numeral with an optional sign and an optional fraction:
      "100", "-3", "+1.5", "2.", ".25". */
  predicate IsNumericString(s: string)
  {
    var body := if |s| > 0 && (s[0] == '+' || s[0] == '-') then s[1..] else s;
    var k := IndexOfDot(body);
    if k == |body| then
      body != [] && AllDigits(body)
    else
      |body| > 1 && AllDigits(body[..k]) && AllDigits(body[k + 1..])
  }
}
