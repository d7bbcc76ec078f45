/** The small pieces of JavaScript semantics that the dashboard's logic leans on:
    optional values, thrown values and promise outcomes, truthiness of
    configuration strings, `String.prototype.includes`, the truncating `%`
    operator, `Math.round`, number-to-text conversion and `padStart(2, '0')`. */
module Js {

  datatype Option<+T> = None | Some(value: T)

  /** A value that is thrown, or with which a promise rejects. Only `Error`
      objects carry a message; anything else shows the generic fallback. */
  datatype Fault = ErrorObject(message: string) | OtherValue

  /** How an awaited promise settles. */
  datatype Outcome<+T> = Resolved(value: T) | Rejected(fault: Fault)

  const GenericErrorText := "An error occurred"

  /** The text `err instanceof Error ? err.message : 'An error occurred'`. */
  function ErrorText(f: Fault): (t: string)
    ensures f.ErrorObject? ==> t == f.message
    ensures f.OtherValue? ==> t == GenericErrorText
  {
    match f
    case ErrorObject(m) => m
    case OtherValue => GenericErrorText
  }

  /** `!!v` for an optional string (an environment variable): absent and
      empty are both falsy. */
  predicate Truthy(v: Option<string>) {
    v.Some? && v.value != ""
  }

  /** A template literal `${v}` of an optional string: undefined prints as "undefined". */
  function TemplateText(v: Option<string>): string {
    match v
    case Some(s) => s
    case None => "undefined"
  }

  /** `t` occurs in `s` starting at position `i`. */
  predicate OccursAt(s: string, t: string, i: int) {
    0 <= i <= |s| - |t| && s[i..i + |t|] == t
  }

  /** `s.includes(t)`. */
  predicate Includes(s: string, t: string) {
    exists i :: 0 <= i <= |s| && OccursAt(s, t, i)
  }

  /** A text cannot contain a needle whose first character it lacks. */
  lemma ExcludesByFirstChar(s: string, t: string)
    requires |t| > 0 && t[0] !in s
    ensures !Includes(s, t)
  {
  }

  /** JavaScript's `a % b` for a positive divisor: the remainder takes the
      sign of the dividend (truncating division), unlike a floored modulo. */
  function JsRem(a: real, b: real): (r: real)
    requires b > 0.0
    ensures a >= 0.0 ==> 0.0 <= r < b
    ensures a < 0.0 ==> -b < r <= 0.0
  {
    if a >= 0.0 then
      FloorRemBound(a, b);
      a - b * (a / b).Floor as real
    else
      FloorRemBound(-a, b);
      -((-a) - b * ((-a) / b).Floor as real)
  }

  lemma FloorRemBound(x: real, b: real)
    requires b > 0.0
    ensures 0.0 <= x - b * (x / b).Floor as real < b
  {
    ScaledBounds(x, b, x / b, (x / b).Floor as real);
  }

  /** Scaling `f <= x / b < f + 1` by `b`. */
  lemma ScaledBounds(x: real, b: real, q: real, f: real)
    requires b > 0.0 && b * q == x && f <= q < f + 1.0
    ensures 0.0 <= x - b * f < b
  {
    var lo := q - f;
    var hi := f + 1.0 - q;
    assert b * lo >= 0.0;
    assert b * hi > 0.0;
    assert b * lo == b * q - b * f;
    assert b * hi == b * f + b - b * q;
  }

  /** `Math.round` on an exact value: halves round up, toward +infinity. */
  function Round(x: real): (r: int)
    ensures r as real - 0.5 <= x < r as real + 0.5
  {
    (x + 0.5).Floor
  }

  /** A JavaScript number as a ratio or an average can produce it: an exact
      finite value, an infinity, or NaN. */
  datatype Number = Finite(r: real) | PosInf | NegInf | NaN

  /** `a / b` for two finite numbers; dividing by zero gives an infinity of
      the dividend's sign, and `0 / 0` gives NaN. */
  function Quotient(a: real, b: real): (q: Number)
    ensures b != 0.0 ==> q == Finite(a / b)
    ensures b == 0.0 ==> (q.PosInf? <==> a > 0.0) && (q.NegInf? <==> a < 0.0) && (q.NaN? <==> a == 0.0)
  {
    if b != 0.0 then Finite(a / b)
    else if a > 0.0 then PosInf
    else if a < 0.0 then NegInf
    else NaN
  }

  /** `a / b` for a number `a` and a finite divisor `b` (a zero divisor is +0). */
  function Over(a: Number, b: real): (q: Number)
    ensures a.Finite? ==> q == Quotient(a.r, b)
    ensures a.NaN? ==> q.NaN?
    ensures a.PosInf? ==> if b < 0.0 then q.NegInf? else q.PosInf?
    ensures a.NegInf? ==> if b < 0.0 then q.PosInf? else q.NegInf?
  {
    match a
    case Finite(x) => Quotient(x, b)
    case PosInf => if b < 0.0 then NegInf else PosInf
    case NegInf => if b < 0.0 then PosInf else NegInf
    case NaN => NaN
  }

  /** `a * k` for a positive finite factor `k`. */
  function Times(a: Number, k: real): (q: Number)
    requires k > 0.0
    ensures a.Finite? <==> q.Finite?
    ensures a.Finite? ==> q.r == a.r * k
    ensures !a.Finite? ==> q == a
  {
    if a.Finite? then Finite(a.r * k) else a
  }

  /** `a + b`: NaN when either is NaN or the two are opposite infinities. */
  function Plus(a: Number, b: Number): (q: Number)
    ensures q.Finite? <==> a.Finite? && b.Finite?
    ensures q.Finite? ==> q.r == a.r + b.r
    ensures q.NaN? <==> a.NaN? || b.NaN? || (a.PosInf? && b.NegInf?) || (a.NegInf? && b.PosInf?)
  {
    if a.NaN? || b.NaN? then NaN
    else if a.PosInf? then (if b.NegInf? then NaN else PosInf)
    else if a.NegInf? then (if b.PosInf? then NaN else NegInf)
    else if b.Finite? then Finite(a.r + b.r)
    else b
  }

  /** `a >= x` for a finite `x`: false whenever `a` is NaN. */
  predicate AtLeast(a: Number, x: real) {
    match a
    case Finite(r) => r >= x
    case PosInf => true
    case NegInf => false
    case NaN => false
  }

  function DigitChar(d: nat): char
    requires d < 10
  {
    "0123456789"[d]
  }

  predicate IsDigit(c: char) {
    '0' <= c <= '9'
  }

  function DigitValue(c: char): nat
    requires IsDigit(c)
  {
    (c as int - '0' as int) as nat
  }

  /** Decimal text of a natural number, most significant digit first. */
  function NatText(n: nat): (s: string)
    ensures |s| > 0
    ensures forall k :: 0 <= k < |s| ==> IsDigit(s[k])
    ensures n < 10 <==> |s| == 1
    decreases n
  {
    if n < 10 then [DigitChar(n)] else NatText(n / 10) + [DigitChar(n % 10)]
  }

  /** `String(i)` for an integer. */
  function IntText(i: int): string {
    if i < 0 then "-" + NatText(-i) else NatText(i)
  }

  /** `s.padStart(2, '0')`. */
  function PadStart2(s: string): (r: string)
    ensures |r| == if |s| >= 2 then |s| else 2
    ensures r[|r| - |s|..] == s
  {
    if |s| >= 2 then s
    else if |s| == 1 then "0" + s
    else "00"
  }

  /** The value of a run of decimal digits; the empty run reads as 0. */
  function DigitsValue(s: string): nat
    requires forall k :: 0 <= k < |s| ==> IsDigit(s[k])
  {
    if s == [] then 0 else DigitsValue(s[..|s| - 1]) * 10 + DigitValue(s[|s| - 1])
  }

  /** Reading back the decimal text of a natural number gives the number. */
  lemma {:induction false} NatTextValue(n: nat)
    ensures DigitsValue(NatText(n)) == n
    decreases n
  {
    var s := NatText(n);
    if n >= 10 {
      NatTextValue(n / 10);
      assert s[..|s| - 1] == NatText(n / 10);
    }
  }

  /** A number below 100 has at most two decimal digits. */
  lemma NatTextShort(n: nat)
    requires n < 100
    ensures |NatText(n)| <= 2
  {
    if n >= 10 {
      assert |NatText(n / 10)| == 1;
    }
  }

  /** Leading zeros do not change the value of a digit run. */
  lemma {:induction false} LeadingZeroValue(s: string)
    requires forall k :: 0 <= k < |s| ==> IsDigit(s[k])
    ensures DigitsValue("0" + s) == DigitsValue(s)
    decreases |s|
  {
    if s != [] {
      var t := "0" + s;
      assert t[..|t| - 1] == "0" + s[..|s| - 1];
      LeadingZeroValue(s[..|s| - 1]);
    }
  }
}
