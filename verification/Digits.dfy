/** Decimal numerals of natural numbers. */
module Digits {

  predicate IsDigit(c: char) {
    '0' <= c <= '9'
  }

  predicate AllDigits(s: string) {
    forall i | 0 <= i < |s| :: IsDigit(s[i])
  }

  function Digit(n: nat): char
    requires n < 10
  {
    '0' + n as char
  }

  /** The number that a numeral denotes. */
  function Value(s: string): nat
    requires AllDigits(s)
  {
    if s == "" then 0 else Value(s[..|s| - 1]) * 10 + (s[|s| - 1] - '0') as nat
  }

  /** The numeral of `n` with at least `width` digits, zeros on the left. */
  function Pad(n: nat, width: nat): string
    requires width > 0
    decreases n + width
  {
    if n < 10 && width == 1 then [Digit(n)]
    else Pad(n / 10, if width == 1 then 1 else width - 1) + [Digit(n % 10)]
  }

  function Pow10(k: nat): nat {
    if k == 0 then 1 else 10 * Pow10(k - 1)
  }

  /** The numeral denotes `n`, and is longer than asked exactly when `n` does not fit. */
  lemma {:induction false} PadThenValue(n: nat, width: nat)
    requires width > 0
    ensures AllDigits(Pad(n, width)) && Value(Pad(n, width)) == n
    ensures |Pad(n, width)| >= width
    ensures |Pad(n, width)| == width <==> n < Pow10(width)
    decreases n + width
  {
    var s := Pad(n, width);
    if n < 10 && width == 1 {
      assert s[..0] == "";
    } else {
      var rest := if width == 1 then 1 else width - 1;
      PadThenValue(n / 10, rest);
      assert s[..|s| - 1] == Pad(n / 10, rest);
      if width == 1 {
        assert Pow10(1) == 10 * Pow10(0);
      }
    }
  }

  /** A numeral of `width` digits is what its number is written as. */
  lemma {:induction false} ValueThenPad(s: string)
    requires AllDigits(s) && s != ""
    ensures Value(s) < Pow10(|s|) && Pad(Value(s), |s|) == s
    decreases |s|
  {
    var init := s[..|s| - 1];
    if |s| == 1 {
      assert init == "" && Pow10(1) == 10 * Pow10(0);
      assert s == [s[0]];
    } else {
      ValueThenPad(init);
      assert s == init + [s[|s| - 1]];
    }
  }

  /** The digits from the left, each times the power of ten of its place. */
  function Weighted(s: string): nat
    requires AllDigits(s)
  {
    if s == "" then 0 else (s[0] as nat - '0' as nat) * Pow10(|s| - 1) + Weighted(s[1..])
  }

  /** Numerals are decimal, with the most significant digit first. */
  lemma {:induction false} ValueIsDecimal(s: string)
    requires AllDigits(s)
    ensures Value(s) == Weighted(s)
  {
    if s != "" {
      var init := s[..|s| - 1];
      ValueIsDecimal(init);
      WeightedOneMore(init, s[|s| - 1]);
      assert s == init + [s[|s| - 1]];
    }
  }

  lemma {:induction false} WeightedOneMore(s: string, d: char)
    requires AllDigits(s) && IsDigit(d)
    ensures AllDigits(s + [d]) && Weighted(s + [d]) == 10 * Weighted(s) + (d as nat - '0' as nat)
  {
    if s == "" {
      assert s + [d] == [d] && [d][1..] == "";
    } else {
      assert (s + [d])[1..] == s[1..] + [d];
      WeightedOneMore(s[1..], d);
      var (x, p) := (s[0] as nat - '0' as nat, Pow10(|s| - 1));
      assert Pow10(|s|) == 10 * p;
      assert x * (10 * p) == 10 * (x * p);
    }
  }

  /** Written as short as possible, a positive number has no leading zero. */
  lemma {:induction false} NoLeadingZero(n: nat)
    requires n > 0
    ensures Pad(n, 1) != "" && Pad(n, 1)[0] != '0'
  {
    if n >= 10 { NoLeadingZero(n / 10); }
  }

  lemma PowersOfTen()
    ensures Pow10(2) == 100 && Pow10(7) == 10_000_000 && Pow10(9) == 1_000_000_000
  {
    assert Pow10(2) == 10 * Pow10(1) == 100 * Pow10(0);
    assert Pow10(5) == 10 * Pow10(4) == 100 * Pow10(3) == 1000 * Pow10(2);
    assert Pow10(7) == 10 * Pow10(6) == 100 * Pow10(5);
    assert Pow10(9) == 10 * Pow10(8) == 100 * Pow10(7);
  }
}
