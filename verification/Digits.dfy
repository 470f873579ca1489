/** Decimal digit strings: printing naturals, zero padding, and reading them back. */
module Digits {
  import opened Basics

  function Pow10(n: nat): (r: nat)
    ensures r >= 1
  {
    if n == 0 then 1 else 10 * Pow10(n - 1)
  }

  lemma {:induction false} Pow10Add(a: nat, b: nat)
    ensures Pow10(a + b) == Pow10(a) * Pow10(b)
  {
    if a > 0 {
      Pow10Add(a - 1, b);
    }
  }

  function DigitChar(d: nat): (c: char)
    requires d < 10
    ensures IsDigit(c) && DigitValue(c) == d
  {
    ['0', '1', '2', '3', '4', '5', '6', '7', '8', '9'][d]
  }

  predicate IsDigit(c: char) {
    '0' <= c <= '9'
  }

  function DigitValue(c: char): (d: nat)
    requires IsDigit(c)
    ensures d < 10
  {
    c as int - '0' as int
  }

  predicate AllDigits(s: string) {
    forall i :: 0 <= i < |s| ==> IsDigit(s[i])
  }

  /** The number a digit string denotes; leading zeros are allowed. */
  function NatOf(s: string): (n: nat)
    requires AllDigits(s)
    ensures n < Pow10(|s|)
  {
    if s == [] then 0 else NatOf(s[..|s| - 1]) * 10 + DigitValue(s[|s| - 1])
  }

  /** The shortest digit string of n. */
  function NatText(n: nat): (s: string)
    ensures |s| >= 1 && AllDigits(s) && NatOf(s) == n
  {
    if n < 10 then
      assert [DigitChar(n)][..0] == [];
      [DigitChar(n)]
    else
      var s := NatText(n / 10) + [DigitChar(n % 10)];
      assert s[..|s| - 1] == NatText(n / 10);
      s
  }

  function Zeros(n: nat): (s: string)
    ensures |s| == n && AllDigits(s)
    ensures forall i :: 0 <= i < n ==> s[i] == '0'
  {
    if n == 0 then "" else "0" + Zeros(n - 1)
  }

  lemma {:induction false} ShiftDigit(high: nat, p: nat, low: nat, d: nat)
    ensures (high * p + low) * 10 + d == high * (10 * p) + (low * 10 + d)
  {
  }

  lemma {:induction false} NatOfConcat(a: string, b: string)
    requires AllDigits(a) && AllDigits(b)
    ensures AllDigits(a + b) && NatOf(a + b) == NatOf(a) * Pow10(|b|) + NatOf(b)
  {
    if b == [] {
      assert a + b == a;
    } else {
      var b' := b[..|b| - 1];
      var last := DigitValue(b[|b| - 1]);
      assert (a + b)[..|a + b| - 1] == a + b';
      assert (a + b)[|a + b| - 1] == b[|b| - 1];
      NatOfConcat(a, b');
      ShiftDigit(NatOf(a), Pow10(|b'|), NatOf(b'), last);
    }
  }

  lemma {:induction false} NatOfZeros(n: nat)
    ensures NatOf(Zeros(n)) == 0
  {
    if n > 0 {
      NatOfZeros(n - 1);
      assert Zeros(n) == Zeros(n - 1) + "0";
      var z := Zeros(n);
      assert z[..|z| - 1] == Zeros(n - 1);
    }
  }

  /** Python's format code 0wd: at least w digits, padded with zeros on the left. */
  function Padded(n: nat, w: nat): (s: string)
    ensures |s| >= w && |s| >= 1 && AllDigits(s) && NatOf(s) == n
  {
    var t := NatText(n);
    if |t| >= w then t else
      NatOfConcat(Zeros(w - |t|), t);
      NatOfZeros(w - |t|);
      Zeros(w - |t|) + t
  }

  lemma {:induction false} NatTextLength(n: nat, w: nat)
    requires w >= 1 && n < Pow10(w)
    ensures |NatText(n)| <= w
  {
    if n >= 10 {
      assert Pow10(w) == 10 * Pow10(w - 1);
      assert w != 1 by { assert Pow10(0) == 1; }
      NatTextLength(n / 10, w - 1);
    }
  }

  lemma {:induction false} PaddedLength(n: nat, w: nat)
    requires w >= 1 && n < Pow10(w)
    ensures |Padded(n, w)| == w
  {
    NatTextLength(n, w);
  }

  /** Padded printing never maps two numbers to one text, whatever the width. */
  lemma {:induction false} PaddedInjective(m: nat, n: nat, w: nat)
    requires Padded(m, w) == Padded(n, w)
    ensures m == n
  {
    assert NatOf(Padded(m, w)) == m;
  }
}
