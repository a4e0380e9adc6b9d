/**
 * The few JavaScript value semantics the feed client relies on: JSON values as
 * `response.json()` yields them, `null`/`undefined`, truthiness, and the
 * number-to-text conversions used by the duration label.
 */
module JsValues {
  import opened Wrappers

  /** A parsed JSON value. Numbers are exact reals: IEEE rounding is not modelled. */
  datatype Json =
    | JNull
    | JBool(b: bool)
    | JNum(n: real)
    | JStr(s: string)
    | JArr(elems: seq<Json>)
    | JObj(fields: map<string, Json>)

  /** JavaScript truthiness of a JSON value: `null`, `false`, `0` and `""` are falsy, arrays and objects are not. */
  predicate Truthy(v: Json) {
    match v
    case JNull => false
    case JBool(b) => b
    case JNum(n) => n != 0.0
    case JStr(s) => s != ""
    case JArr(_) => true
    case JObj(_) => true
  }

  /** A JavaScript value that may also be `undefined` or `null`. */
  datatype Maybe<+T> = Undefined | Null | Defined(value: T)

  /** `if (s)` on a `string | null | undefined`: only a non-empty string passes. */
  predicate TruthyString(m: Maybe<string>) {
    m.Defined? && m.value != ""
  }

  /** A `string | null` field (a page cursor) seen as a JavaScript value. */
  function NullableOf(c: Option<string>): (m: Maybe<string>)
    ensures !m.Undefined?
    ensures m.Null? <==> c.None?
    ensures c.Some? ==> m == Defined(c.value)
  {
    match c
    case None => Null
    case Some(s) => Defined(s)
  }

  // ---------------------------------------------------------------------------
  // Numbers as text

  predicate IsDigit(ch: char) {
    '0' <= ch <= '9'
  }

  predicate AllDigits(s: string) {
    forall i :: 0 <= i < |s| ==> IsDigit(s[i])
  }

  function DigitChar(d: nat): (ch: char)
    requires d < 10
    ensures IsDigit(ch) && DigitValue(ch) == d
  {
    ('0' as int + d) as char
  }

  function DigitValue(ch: char): nat
    requires IsDigit(ch)
  {
    ch as int - '0' as int
  }

  /** `String(n)` for a non-negative integer: its decimal digits, most significant first, no leading zeros. */
  function NatToString(n: nat): (s: string)
    ensures |s| >= 1 && AllDigits(s)
    ensures n < 10 <==> |s| == 1
    ensures |s| > 1 ==> s[0] != '0'
    decreases n
  {
    if n < 10 then [DigitChar(n)] else NatToString(n / 10) + [DigitChar(n % 10)]
  }

  /** `String(i)` for an integer: a leading `-` exactly for negative values, then the digits of its magnitude. */
  function IntToString(i: int): (s: string)
    ensures |s| >= 1
    ensures s[0] == '-' <==> i < 0
    ensures var digits := if i < 0 then s[1..] else s; |digits| >= 1 && AllDigits(digits)
  {
    if i < 0 then "-" + NatToString(-i) else NatToString(i)
  }

  /** Reads a string of decimal digits back as a number (the reading a person does of a label). */
  function ParseDecimal(s: string): nat
    requires AllDigits(s)
    decreases |s|
  {
    if s == [] then 0 else ParseDecimal(s[..|s| - 1]) * 10 + DigitValue(s[|s| - 1])
  }

  lemma {:induction false} ParseDecimalOfNatToString(n: nat)
    ensures ParseDecimal(NatToString(n)) == n
    decreases n
  {
    var s := NatToString(n);
    if n >= 10 {
      ParseDecimalOfNatToString(n / 10);
      assert s[..|s| - 1] == NatToString(n / 10);
    }
  }

  /** The sign and the digits of `String(i)` read back as `i`. */
  lemma IntToStringReadsBack(i: int)
    ensures var s := IntToString(i);
            var digits := if s[0] == '-' then s[1..] else s;
            AllDigits(digits) && (if s[0] == '-' then -(ParseDecimal(digits) as int) else ParseDecimal(digits) as int) == i
  {
    if i < 0 {
      ParseDecimalOfNatToString(-i);
      assert IntToString(i)[1..] == NatToString(-i);
    } else {
      ParseDecimalOfNatToString(i);
    }
  }

  /** `s.padStart(width, fill)` for a one-character `fill`. */
  function PadStart(s: string, width: nat, fill: char): (r: string)
    ensures |r| == if |s| >= width then |s| else width
    ensures r[|r| - |s|..] == s
    ensures forall i :: 0 <= i < |r| - |s| ==> r[i] == fill
  {
    if |s| >= width then s else seq(width - |s|, _ => fill) + s
  }

  /** `Math.floor(a / b)` for a positive divisor. */
  function FloorDiv(a: int, b: int): (q: int)
    requires b > 0
    ensures q * b <= a < q * b + b
  {
    a / b
  }

  /** JavaScript's `a % b` for a positive divisor: the remainder takes the sign of `a`. */
  function TruncRem(a: int, b: int): (r: int)
    requires b > 0
    ensures a >= 0 ==> r == a % b
    ensures a < 0 ==> -b < r <= 0 && -r == (-a) % b
  {
    if a >= 0 then a % b else -((-a) % b)
  }

  // ---------------------------------------------------------------------------
  // Splitting text

  /** Splits a string at the first occurrence of `sep`; without one, everything is the head. */
  function BreakAt(s: string, sep: char): (r: (string, string))
    ensures sep !in s ==> r == (s, "")
    ensures sep in s ==> |r.1| < |s|
    decreases |s|
  {
    if s == [] then ("", "")
    else if s[0] == sep then ("", s[1..])
    else
      var r := BreakAt(s[1..], sep);
      assert [s[0]] + s[1..] == s;
      ([s[0]] + r.0, r.1)
  }

  lemma {:induction false} BreakAtFirstSep(a: string, b: string, sep: char)
    requires sep !in a
    ensures BreakAt(a + [sep] + b, sep) == (a, b)
    decreases |a|
  {
    if a == [] {
      assert a + [sep] + b == [sep] + b;
      assert ([sep] + b)[1..] == b;
    } else {
      BreakAtFirstSep(a[1..], b, sep);
      assert (a + [sep] + b)[1..] == a[1..] + [sep] + b;
      assert [a[0]] + a[1..] == a;
    }
  }
}
