/** Helpers shared by the finance engine and the dashboard pages: optional values,
    JavaScript's `Math.max`/`Math.min`/`Math.round` on exact reals, the left fold that
    `Array.prototype.reduce((s, x) => s + f(x), 0)` performs, and decimal digit strings. */
module Common {

  datatype Option<T> = None | Some(value: T)

  function Max(a: real, b: real): real { if a >= b then a else b }

  function Min(a: real, b: real): real { if a <= b then a else b }

  function MaxInt(a: int, b: int): int { if a >= b then a else b }

  /** JavaScript's `Math.round`: the nearest integer, halves rounded toward +infinity. */
  function Round(x: real): (r: real)
    ensures r == r.Floor as real
    ensures x - 0.5 < r <= x + 0.5
  {
    (x + 0.5).Floor as real
  }

  /** `xs.reduce((s, x) => s + f(x), 0)`: a left fold, first element added first. */
  function SumOf<T>(xs: seq<T>, f: T -> real): real
  {
    if xs == [] then 0.0 else SumOf(xs[..|xs| - 1], f) + f(xs[|xs| - 1])
  }

  lemma {:induction false} SumOfAppend<T>(xs: seq<T>, ys: seq<T>, f: T -> real)
    ensures SumOf(xs + ys, f) == SumOf(xs, f) + SumOf(ys, f)
    decreases |ys|
  {
    if ys == [] {
      assert xs + ys == xs;
    } else {
      var init := ys[..|ys| - 1];
      assert (xs + ys)[..|xs + ys| - 1] == xs + init;
      SumOfAppend(xs, init, f);
    }
  }

  lemma SumOfPrepend<T>(x: T, xs: seq<T>, f: T -> real)
    ensures SumOf([x] + xs, f) == f(x) + SumOf(xs, f)
  {
    SumOfAppend([x], xs, f);
    assert [x][..0] == [];
  }

  lemma {:induction false} SumOfNonNegative<T>(xs: seq<T>, f: T -> real)
    requires forall i :: 0 <= i < |xs| ==> f(xs[i]) >= 0.0
    ensures SumOf(xs, f) >= 0.0
    decreases |xs|
  {
    if xs != [] {
      SumOfNonNegative(xs[..|xs| - 1], f);
    }
  }

  /** `xs.filter(keep)`: the elements that pass, in their original order. */
  function Filter<T>(xs: seq<T>, keep: T -> bool): seq<T>
  {
    if xs == [] then [] else (if keep(xs[0]) then [xs[0]] else []) + Filter(xs[1..], keep)
  }

  lemma {:induction false} FilterMembers<T(!new)>(xs: seq<T>, keep: T -> bool)
    ensures |Filter(xs, keep)| <= |xs|
    ensures forall x :: x in Filter(xs, keep) <==> x in xs && keep(x)
    decreases |xs|
  {
    if xs != [] {
      FilterMembers(xs[1..], keep);
    }
  }

  lemma {:induction false} FilterAppend<T(!new)>(xs: seq<T>, ys: seq<T>, keep: T -> bool)
    ensures Filter(xs + ys, keep) == Filter(xs, keep) + Filter(ys, keep)
    decreases |xs|
  {
    if xs == [] {
      assert xs + ys == ys;
    } else {
      var zs := xs + ys;
      var head := if keep(xs[0]) then [xs[0]] else [];
      assert zs[0] == xs[0] && zs[1..] == xs[1..] + ys;
      FilterAppend(xs[1..], ys, keep);
      assert Filter(zs, keep) == head + (Filter(xs[1..], keep) + Filter(ys, keep));
      assert Filter(xs, keep) == head + Filter(xs[1..], keep);
    }
  }

  /** Filtering twice drops an element that fails either test, wherever it stands. */
  lemma FilterFilterDrops<T(!new)>(xs: seq<T>, e: T, ys: seq<T>, p: T -> bool, q: T -> bool)
    requires !p(e) || !q(e)
    ensures Filter(Filter(xs + [e] + ys, p), q) == Filter(Filter(xs + ys, p), q)
  {
    FilterAppend(xs + [e], ys, p);
    FilterAppend(xs, [e], p);
    FilterAppend(xs, ys, p);
    var fx, fe, fy := Filter(xs, p), Filter([e], p), Filter(ys, p);
    FilterAppend(fx + fe, fy, q);
    FilterAppend(fx, fe, q);
    FilterAppend(fx, fy, q);
    assert Filter(fe, q) == [];
  }

  // ----- decimal digit strings -----

  predicate IsDigit(c: char) { '0' <= c <= '9' }

  predicate AllDigits(s: string) { forall i :: 0 <= i < |s| ==> IsDigit(s[i]) }

  /** The number a string of decimal digits denotes (leading zeros allowed). */
  function DecimalValue(s: string): nat
    requires AllDigits(s)
  {
    if s == [] then 0 else DecimalValue(s[..|s| - 1]) * 10 + (s[|s| - 1] as int - '0' as int)
  }

  /** Two digit strings of one length that denote the same number are the same string. */
  lemma {:induction false} DecimalInjective(s: string, t: string)
    requires AllDigits(s) && AllDigits(t) && |s| == |t| && DecimalValue(s) == DecimalValue(t)
    ensures s == t
    decreases |s|
  {
    if s != [] {
      var n := |s| - 1;
      var a, b := DecimalValue(s[..n]), DecimalValue(t[..n]);
      var ds, dt := s[n] as int - '0' as int, t[n] as int - '0' as int;
      assert a * 10 + ds == b * 10 + dt;
      assert (a - b) * 10 == dt - ds;
      assert a == b && ds == dt;
      DecimalInjective(s[..n], t[..n]);
      assert s == s[..n] + [s[n]] && t == t[..n] + [t[n]];
    }
  }

  function DigitChar(d: nat): (c: char)
    requires d < 10
    ensures IsDigit(c) && c as int - '0' as int == d
  {
    ('0' as int + d) as char
  }

  /** The shortest decimal representation of `n`, as JavaScript's `String(n)` writes a
      non-negative integer. */
  function NatToDecimal(n: nat): (s: string)
    ensures AllDigits(s) && 0 < |s|
    ensures |s| > 1 ==> s[0] != '0'
  {
    if n < 10 then [DigitChar(n)] else NatToDecimal(n / 10) + [DigitChar(n % 10)]
  }

  lemma {:induction false} NatToDecimalRoundTrip(n: nat)
    ensures DecimalValue(NatToDecimal(n)) == n
  {
    if n >= 10 {
      var s := NatToDecimal(n);
      assert s[..|s| - 1] == NatToDecimal(n / 10);
      NatToDecimalRoundTrip(n / 10);
    }
  }

  /** `String(n)` for an integer `n`: a minus sign before the digits of `-n` when negative. */
  function IntToDecimal(n: int): string
  {
    if n < 0 then "-" + NatToDecimal(-n) else NatToDecimal(n)
  }

  function Zeros(k: nat): (s: string)
    ensures |s| == k && AllDigits(s)
  {
    if k == 0 then "" else Zeros(k - 1) + "0"
  }

  lemma {:induction false} LeadingZerosIgnored(k: nat, s: string)
    requires AllDigits(s)
    ensures AllDigits(Zeros(k) + s) && DecimalValue(Zeros(k) + s) == DecimalValue(s)
    decreases |s|, k
  {
    if s == [] {
      if k > 0 {
        assert Zeros(k) + s == Zeros(k - 1) + "0";
        assert (Zeros(k - 1) + "0")[..k - 1] == Zeros(k - 1) + [];
        LeadingZerosIgnored(k - 1, s);
      }
    } else {
      var init := s[..|s| - 1];
      assert (Zeros(k) + s)[..|Zeros(k) + s| - 1] == Zeros(k) + init;
      LeadingZerosIgnored(k, init);
    }
  }

  function Pow10(w: nat): (p: nat)
    ensures p >= 1
  {
    if w == 0 then 1 else 10 * Pow10(w - 1)
  }

  lemma {:induction false} NatToDecimalLength(n: nat, w: nat)
    requires 1 <= w && n < Pow10(w)
    ensures |NatToDecimal(n)| <= w
  {
    if n >= 10 {
      NatToDecimalLength(n / 10, w - 1);
    }
  }

  /** `n` written with at least `width` digits, padded on the left with zeros. */
  function PadDecimal(n: nat, width: nat): (s: string)
    ensures AllDigits(s) && |s| >= width
  {
    var digits := NatToDecimal(n);
    if |digits| >= width then digits else Zeros(width - |digits|) + digits
  }

  lemma PadDecimalExact(n: nat, width: nat)
    requires 1 <= width && n < Pow10(width)
    ensures |PadDecimal(n, width)| == width
    ensures DecimalValue(PadDecimal(n, width)) == n
  {
    NatToDecimalLength(n, width);
    NatToDecimalRoundTrip(n);
    var digits := NatToDecimal(n);
    if |digits| < width {
      LeadingZerosIgnored(width - |digits|, digits);
    }
  }
}
