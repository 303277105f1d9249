/** Calendar dates as the source keeps them: `YYYY-MM-DD` strings (the
    `full-date` of RFC 3339, section 5.6), compared as strings. Section 5.1
    of RFC 3339 notes that for this fixed-width, zero-padded form string
    order is time order; `FullDateOrderIsChronological` proves it. */
module Dates {
  import opened Text
  import opened Numeric

  /** `/^\d{4}-\d{2}-\d{2}$/.test(s)`: four digits, '-', two digits, '-',
      two digits. Month and day ranges are not checked. */
  predicate IsFullDate(s: string) {
    |s| == 10 && AllDigits(s[..4]) && s[4] == '-' && AllDigits(s[5..7])
    && s[7] == '-' && AllDigits(s[8..])
  }

  function Year(s: string): nat requires IsFullDate(s) { DigitsValue(s[..4]) }
  function Month(s: string): nat requires IsFullDate(s) { DigitsValue(s[5..7]) }
  function Day(s: string): nat requires IsFullDate(s) { DigitsValue(s[8..]) }

  /** `a` is on or before `b` in calendar order (year, then month, then day). */
  predicate ChronoLe(a: string, b: string)
    requires IsFullDate(a) && IsFullDate(b)
  {
    Year(a) < Year(b)
    || (Year(a) == Year(b) && (Month(a) < Month(b) || (Month(a) == Month(b) && Day(a) <= Day(b))))
  }

  /** Comparing two equal-length strings is comparing their first `k`
      characters, and the rest only when those agree. */
  lemma {:induction false} LexLeSplit(a: string, b: string, k: nat)
    requires |a| == |b| && k <= |a|
    ensures LexLe(a, b) <==>
      (a[..k] != b[..k] && LexLe(a[..k], b[..k])) || (a[..k] == b[..k] && LexLe(a[k..], b[k..]))
  {
    if k == 0 {
      assert a[..0] == b[..0];
      assert a[0..] == a && b[0..] == b;
    } else if a[0] == b[0] {
      LexLeSplit(a[1..], b[1..], k - 1);
      assert a[1..][..k - 1] == a[1..k] && b[1..][..k - 1] == b[1..k];
      assert a[1..][k - 1..] == a[k..] && b[1..][k - 1..] == b[k..];
      assert a[..k] == [a[0]] + a[1..k] && b[..k] == [b[0]] + b[1..k];
      assert a[..k][1..] == a[1..k] && b[..k][1..] == b[1..k];
      assert a[..k] == b[..k] <==> a[1..k] == b[1..k];
    } else {
      assert a[..k][0] == a[0] && b[..k][0] == b[0];
    }
  }

  /** For digit strings of one length, string order is numeric order and
      equal values mean equal strings. */
  lemma {:induction false} DigitsOrder(x: string, y: string)
    requires |x| == |y| && AllDigits(x) && AllDigits(y)
    ensures LexLe(x, y) <==> DigitsValue(x) <= DigitsValue(y)
    ensures x == y <==> DigitsValue(x) == DigitsValue(y)
  {
    if |x| > 0 {
      var n := |x| - 1;
      var x', y' := x[..n], y[..n];
      DigitsOrder(x', y');
      LexLeSplit(x, y, n);
      assert x[n..] == [x[n]] && y[n..] == [y[n]];
      assert x == x' + [x[n]] && y == y' + [y[n]];
      assert LexLe([x[n]], [y[n]]) <==> x[n] <= y[n] by {
        assert [x[n]][1..] == [] && [y[n]][1..] == [];
      }
      if x' != y' {
        assert DigitsValue(x') != DigitsValue(y');
      }
    }
  }

  /** RFC 3339, section 5.1: for `full-date` strings, `a <= b` as strings
      exactly when `a` is on or before `b` on the calendar. */
  lemma FullDateOrderIsChronological(a: string, b: string)
    requires IsFullDate(a) && IsFullDate(b)
    ensures LexLe(a, b) <==> ChronoLe(a, b)
  {
    DigitsOrder(a[..4], b[..4]);
    DigitsOrder(a[5..7], b[5..7]);
    DigitsOrder(a[8..], b[8..]);
    LexLeSplit(a, b, 4);
    var a4, b4 := a[4..], b[4..];
    assert a4[1..] == a[5..] && b4[1..] == b[5..];
    assert LexLe(a4, b4) == LexLe(a[5..], b[5..]);
    var a5, b5 := a[5..], b[5..];
    LexLeSplit(a5, b5, 2);
    assert a5[..2] == a[5..7] && b5[..2] == b[5..7];
    assert a5[2..] == a[7..] && b5[2..] == b[7..];
    var a7, b7 := a[7..], b[7..];
    assert a7[1..] == a[8..] && b7[1..] == b[8..];
    assert LexLe(a7, b7) == LexLe(a[8..], b[8..]);
  }
}
