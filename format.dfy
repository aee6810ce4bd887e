/** Rust's fixed-precision float formatting, `{:.N}`, on the value the `f32`
    holds: the magnitude is rounded to `N` decimals (ties to even), printed
    with a leading `-` for negative values and, when `N > 0`, a `.` before the
    last `N` digits. */
module Formatting {
  import opened Core
  import opened Arith

  function Pow10(n: nat): (p: nat)
    ensures p >= 1
  {
    if n == 0 then 1 else 10 * Pow10(n - 1)
  }

  /** Rounding to the nearest integer, ties to the even neighbour. */
  function RoundHalfEven(y: real): (n: nat)
    requires 0.0 <= y
    ensures y - 0.5 <= n as real <= y + 0.5
    ensures n as real - y == 0.5 || y - n as real == 0.5 ==> n % 2 == 0
  {
    var f := y.Floor;
    var frac := y - f as real;
    if frac > 0.5 then f + 1
    else if frac < 0.5 then f
    else if f % 2 == 0 then f
    else f + 1
  }

  /** `s` left-padded with zeros to at least `width` characters. */
  function PadZeros(s: string, width: nat): (r: string)
    ensures |r| == if |s| >= width then |s| else width
    ensures |s| >= width ==> r == s
    ensures r[|r| - |s|..] == s
    ensures forall i :: 0 <= i < |r| - |s| ==> r[i] == '0'
  {
    if |s| >= width then s else seq(width - |s|, _ => '0') + s
  }

  predicate AllDigits(s: string)
  {
    forall i :: 0 <= i < |s| ==> '0' <= s[i] <= '9'
  }

  /** The magnitude of `x` in units of `10^-N`, rounded. */
  function Scaled(x: real, decimals: nat): (n: nat)
    ensures Abs(x) * Pow10(decimals) as real - 0.5 <= n as real <= Abs(x) * Pow10(decimals) as real + 0.5
  {
    var m := Abs(x);
    var p := Pow10(decimals) as real;
    assert 0.0 <= m * p by { NonNegativeProduct(m, p); }
    RoundHalfEven(m * p)
  }

  /** `n` units of `10^-N`, printed without a sign: the digits of `n`,
      zero-padded to more than `N` places, with the point before the last
      `N` of them. */
  function Unsigned(n: nat, decimals: nat): (t: string)
    ensures decimals == 0 ==> |t| >= 1
    ensures decimals > 0 ==> |t| >= decimals + 2 && t[|t| - decimals - 1] == '.'
  {
    var s := PadZeros(NatToString(n), decimals + 1);
    if decimals == 0 then s else s[..|s| - decimals] + "." + s[|s| - decimals..]
  }

  /** `format!("{:.N}", x)`. */
  function FormatFixed(x: real, decimals: nat): (s: string)
    ensures |s| > decimals
    ensures x < 0.0 <==> s[0] == '-'
    ensures s == (if x < 0.0 then "-" else "") + Unsigned(Scaled(x, decimals), decimals)
  {
    var digits := Unsigned(Scaled(x, decimals), decimals);
    if x < 0.0 then "-" + digits else digits
  }

  /** Decimal value of a digit string split in two. */
  lemma {:induction false} DigitsValueAppend(a: string, b: string)
    requires AllDigits(a) && AllDigits(b)
    ensures DigitsValue(a + b) == DigitsValue(a) * Pow10(|b|) + DigitsValue(b)
    decreases |b|
  {
    if b != [] {
      var c := a + b;
      var b' := b[..|b| - 1];
      var last := (b[|b| - 1] as int) - ('0' as int);
      DigitsSlice(b, 0, |b| - 1);
      assert b[0..|b| - 1] == b';
      assert c[..|c| - 1] == a + b';
      DigitsConcat(a, b');
      DigitsConcat(a, b);
      DigitsValueAppend(a, b');
      assert DigitsValue(c) == DigitsValue(a + b') * 10 + last;
      assert DigitsValue(b) == DigitsValue(b') * 10 + last;
      assert Pow10(|b|) == 10 * Pow10(|b'|);
      Distribute(DigitsValue(a), Pow10(|b'|), DigitsValue(b'), last);
    } else {
      assert a + b == a;
    }
  }

  lemma DigitsConcat(a: string, b: string)
    requires AllDigits(a) && AllDigits(b)
    ensures AllDigits(a + b)
  {
    forall k | 0 <= k < |a + b|
      ensures '0' <= (a + b)[k] <= '9'
    {
      if k < |a| {
        assert (a + b)[k] == a[k];
      } else {
        assert (a + b)[k] == b[k - |a|];
      }
    }
  }

  /** Leading zeros do not change a digit string's value. */
  lemma {:induction false} LeadingZeros(k: nat, s: string)
    requires AllDigits(s)
    ensures AllDigits(seq(k, _ => '0') + s)
    ensures DigitsValue(seq(k, _ => '0') + s) == DigitsValue(s)
  {
    var z := seq(k, _ => '0');
    ZerosValue(k);
    DigitsValueAppend(z, s);
  }

  lemma {:induction false} ZerosValue(k: nat)
    ensures AllDigits(seq(k, _ => '0'))
    ensures DigitsValue(seq(k, _ => '0')) == 0
  {
    if k > 0 {
      var z := seq(k, _ => '0');
      assert z[..k - 1] == seq(k - 1, _ => '0');
      ZerosValue(k - 1);
    }
  }

  /** The printed number reads back as the rounded value: with the point
      removed, the text is the digits of `n` zero-padded to more than `N`
      places (which read back as `n`, by `PaddedValue`), and the point sits
      `N` places from the end. */
  lemma UnsignedReadsBack(n: nat, decimals: nat)
    ensures decimals == 0 ==> Unsigned(n, decimals) == PadZeros(NatToString(n), 1)
    ensures decimals > 0 ==>
              var t := Unsigned(n, decimals);
              var k := |t| - decimals - 1;
              t[..k] + t[k + 1..] == PadZeros(NatToString(n), decimals + 1)
  {
    if decimals > 0 {
      var s := PadZeros(NatToString(n), decimals + 1);
      RemovePoint(s, decimals);
    }
  }

  /** Inserting a point before the last `d` characters and removing it again
      gives back the original text. */
  lemma RemovePoint(s: string, d: nat)
    requires d < |s|
    ensures var t := s[..|s| - d] + "." + s[|s| - d..]; var k := |t| - d - 1;
            t[..k] + t[k + 1..] == s
  {
    var t := s[..|s| - d] + "." + s[|s| - d..];
    var k := |t| - d - 1;
    assert t[..k] == s[..|s| - d];
    assert t[k + 1..] == s[|s| - d..];
    assert s[..|s| - d] + s[|s| - d..] == s;
  }

  /** The zero-padded digits of `n` still read back as `n`. */
  lemma PaddedValue(n: nat, width: nat)
    ensures AllDigits(PadZeros(NatToString(n), width)) && DigitsValue(PadZeros(NatToString(n), width)) == n
  {
    var digits := NatToString(n);
    DigitsOf(n);
    if |digits| < width {
      LeadingZeros(width - |digits|, digits);
    }
  }

  lemma DigitsSlice(s: string, i: nat, j: nat)
    requires AllDigits(s) && i <= j <= |s|
    ensures AllDigits(s[i..j])
  {
    forall k | 0 <= k < j - i
      ensures '0' <= s[i..j][k] <= '9'
    {
      assert s[i..j][k] == s[i + k];
    }
  }

  lemma DigitsOf(w: nat)
    ensures AllDigits(NatToString(w)) && DigitsValue(NatToString(w)) == w
  {
    NatToStringRoundTrip(w);
  }

}
