/** The number operations of the source, on exact reals: `Number(x.toFixed(2))`,
    `Math.round`, `Math.ceil(2x) / 2`, `Math.max`/`Math.min`, and the
    conversion `Number(text)` of a form field, which may give `NaN`. */
module Numeric {
  import opened Text

  function MaxR(a: real, b: real): real { if a >= b then a else b }
  function MinR(a: real, b: real): real { if a <= b then a else b }

  /** `Math.ceil(x)` */
  function Ceil(x: real): int { -((-x).Floor) }

  /** `Math.round(x)`: the nearest integer, halves rounded up. */
  function JsRound(x: real): (r: int)
    ensures x - 0.5 < r as real <= x + 0.5
  {
    (x + 0.5).Floor
  }

  /** `Math.round` leaves a whole number unchanged. */
  lemma JsRoundWhole(n: int)
    ensures JsRound(n as real) == n
  {
    var r := JsRound(n as real);
    assert n as real - 0.5 < r as real <= n as real + 0.5;
    assert n - 1 < r < n + 1;
  }

  /** `Math.ceil(x * 2) / 2`: `x` rounded up to a multiple of one half. */
  function CeilHalf(x: real): (r: real)
    ensures x <= r < x + 0.5
    ensures (r * 2.0).Floor as real == r * 2.0
  {
    Ceil(x * 2.0) as real / 2.0
  }

  /** `Number(x.toFixed(2))` on the exact value: the nearest multiple of
      0.01, halves rounded away from zero. */
  function Round2(x: real): real {
    if x >= 0.0 then (x * 100.0 + 0.5).Floor as real / 100.0
    else -(((-x) * 100.0 + 0.5).Floor as real / 100.0)
  }

  /** `x` has at most two decimal places. */
  predicate TwoDecimals(x: real) {
    (x * 100.0).Floor as real == x * 100.0
  }

  /** The multiple of 0.01 nearest to `y`, halves rounded up, lies within
      0.005 of `y`. */
  lemma HundredthsNear(y: real, n: int)
    requires n == (y * 100.0 + 0.5).Floor
    ensures y - 0.005 <= n as real / 100.0 <= y + 0.005
    ensures TwoDecimals(n as real / 100.0)
  {
    assert n as real <= y * 100.0 + 0.5 < n as real + 1.0;
    assert (n as real / 100.0) * 100.0 == n as real;
  }

  lemma Round2Close(x: real)
    ensures x - 0.005 <= Round2(x) <= x + 0.005
    ensures TwoDecimals(Round2(x))
  {
    if x >= 0.0 {
      HundredthsNear(x, (x * 100.0 + 0.5).Floor);
    } else {
      var n := ((-x) * 100.0 + 0.5).Floor;
      HundredthsNear(-x, n);
      var q := n as real / 100.0;
      assert Round2(x) == -q;
      assert -q * 100.0 == (-n) as real;
      assert ((-n) as real).Floor == -n;
    }
  }

  lemma {:induction false} Round2Monotone(x: real, y: real)
    requires x <= y
    ensures Round2(x) <= Round2(y)
  {
    if x >= 0.0 {
      assert (x * 100.0 + 0.5).Floor <= (y * 100.0 + 0.5).Floor;
    } else if y < 0.0 {
      assert ((-y) * 100.0 + 0.5).Floor <= ((-x) * 100.0 + 0.5).Floor;
    }
  }

  lemma Round2Exact(x: real)
    requires TwoDecimals(x)
    ensures Round2(x) == x
  {
    var n := (x * 100.0).Floor;
    if x >= 0.0 {
      assert (x * 100.0 + 0.5).Floor == n;
    } else {
      assert ((-x) * 100.0 + 0.5).Floor == -n;
    }
  }

  lemma Round2Idempotent(x: real)
    ensures Round2(Round2(x)) == Round2(x)
  {
    Round2Close(x);
    Round2Exact(Round2(x));
  }

  lemma Round2Odd(x: real)
    ensures Round2(-x) == -Round2(x)
  {
    if x == 0.0 {
      assert Round2(0.0) == 0.0;
    }
  }

  lemma Round2Sign(x: real)
    ensures x >= 0.0 ==> Round2(x) >= 0.0
    ensures x <= 0.0 ==> Round2(x) <= 0.0
  {
  }

  /** A JavaScript number as far as the source's forms are concerned:
      a finite value or `NaN`. */
  datatype JsNumber = Num(value: real) | NaN

  /** The text of a numeric form field: either the text `String(x)` that the
      code itself put there (which `Number` reads back as exactly `x`), or
      characters the user typed. */
  datatype FieldText = Shown(shown: real) | Typed(chars: string) {
    /** Truthiness of the field's string: only the empty string is falsy,
        and `String(x)` is never empty. */
    predicate Truthy() {
      Shown? || |chars| > 0
    }
  }

  /** `Number(text)` */
  function ToNumber(t: FieldText): JsNumber {
    match t
    case Shown(x) => Num(x)
    case Typed(s) => ParseNumber(s)
  }

  predicate IsDigit(c: char) { '0' <= c <= '9' }

  predicate AllDigits(s: string) {
    forall i :: 0 <= i < |s| ==> IsDigit(s[i])
  }

  /** The value of a string of decimal digits. */
  function DigitsValue(s: string): nat
    requires AllDigits(s)
  {
    if s == [] then 0
    else DigitsValue(s[..|s| - 1]) * 10 + (s[|s| - 1] as int - '0' as int)
  }

  function Pow10(n: nat): (r: nat)
    ensures r >= 1
  {
    if n == 0 then 1 else 10 * Pow10(n - 1)
  }

  /** Position of the first '.', or `|s|` when there is none. */
  function IndexOfDot(s: string): (k: nat)
    ensures k <= |s|
    ensures k < |s| ==> s[k] == '.'
    ensures forall i :: 0 <= i < k ==> s[i] != '.'
  {
    if s == [] then 0
    else if s[0] == '.' then 0
    else 1 + IndexOfDot(s[1..])
  }

  /** An unsigned decimal literal `ddd`, `ddd.`, `ddd.ddd` or `.ddd`. */
  function ParseUnsigned(s: string): JsNumber {
    var k := IndexOfDot(s);
    var whole := s[..k];
    var frac := if k < |s| then s[k + 1..] else "";
    if AllDigits(whole) && AllDigits(frac) && |whole| + |frac| > 0 then
      Num(DigitsValue(whole) as real + DigitsValue(frac) as real / Pow10(|frac|) as real)
    else NaN
  }

  /** `Number(s)` for a string: surrounding white space is ignored, the empty
      string reads as 0, an optional sign precedes a decimal literal, and
      anything else is `NaN`. */
  function ParseNumber(s: string): JsNumber {
    var t := Trim(s);
    if t == [] then Num(0.0)
    else if t[0] == '-' then
      (match ParseUnsigned(t[1..]) case Num(v) => Num(-v) case NaN => NaN)
    else if t[0] == '+' then ParseUnsigned(t[1..])
    else ParseUnsigned(t)
  }

  /** An empty or blank field reads as 0, not as `NaN`. */
  lemma {:induction false} BlankReadsAsZero(s: string)
    requires forall i :: 0 <= i < |s| ==> IsSpace(s[i])
    ensures ToNumber(Typed(s)) == Num(0.0)
  {
    BlankTrimsToEmpty(s);
  }

  lemma {:induction false} BlankTrimsToEmpty(s: string)
    requires forall i :: 0 <= i < |s| ==> IsSpace(s[i])
    ensures TrimStart(s) == []
  {
    if s != [] {
      BlankTrimsToEmpty(s[1..]);
    }
  }
}
