/** Decimal digit strings: Rust's unsigned `to_string`, and `parse::<u128>` with its bounds. */
module Decimal {
  import opened Wrappers

  const U128: nat := 0x1_0000_0000_0000_0000_0000_0000_0000_0000
  const U256: nat := 0x1_0000_0000_0000_0000_0000_0000_0000_0000_0000_0000_0000_0000_0000_0000_0000_0000

  predicate IsDigit(c: char) {
    '0' <= c <= '9'
  }

  predicate AllDigits(s: string) {
    forall i :: 0 <= i < |s| ==> IsDigit(s[i])
  }

  function DigitChar(d: nat): (c: char)
    requires d < 10
  {
    ('0' as int + d) as char
  }

  function Pow10(n: nat): (p: nat)
    ensures p > 0
  {
    if n == 0 then 1 else 10 * Pow10(n - 1)
  }

  /** The number a digit string denotes; leading zeros are allowed. */
  function NatOf(s: string): nat
    requires AllDigits(s)
  {
    if |s| == 0 then 0 else 10 * NatOf(s[..|s| - 1]) + (s[|s| - 1] as int - '0' as int)
  }

  /** `to_string` on an unsigned integer. */
  function ToDec(n: nat): string {
    if n < 10 then [DigitChar(n)] else ToDec(n / 10) + [DigitChar(n % 10)]
  }

  function Zeros(n: nat): (z: string)
    ensures |z| == n && AllDigits(z)
  {
    seq(n, _ => '0')
  }

  /** `parse::<u128>`: one leading '+' is accepted, an empty digit run or a value of 2^128 and more is not. */
  function ParseU128(s: string): Option<nat> {
    var digits := if |s| > 1 && s[0] == '+' then s[1..] else s;
    if |digits| == 0 || !AllDigits(digits) || NatOf(digits) >= U128 then None else Some(NatOf(digits))
  }

  lemma {:induction false} Pow10Sum(a: nat, b: nat)
    ensures Pow10(a + b) == Pow10(a) * Pow10(b)
  {
    if a > 0 {
      Pow10Sum(a - 1, b);
      assert Pow10(a + b) == 10 * (Pow10(a - 1) * Pow10(b)) == Pow10(a) * Pow10(b);
    }
  }

  lemma Shift(n: nat, k: nat)
    ensures 10 * (n * Pow10(k)) == n * Pow10(k + 1)
  {
  }

  lemma {:induction false} NatOfConcat(a: string, b: string)
    requires AllDigits(a) && AllDigits(b)
    ensures AllDigits(a + b)
    ensures NatOf(a + b) == NatOf(a) * Pow10(|b|) + NatOf(b)
  {
    if |b| == 0 {
      assert a + b == a;
    } else {
      var b' := b[..|b| - 1];
      NatOfConcat(a, b');
      assert (a + b)[..|a + b| - 1] == a + b';
      Shift(NatOf(a), |b'|);
    }
  }

  lemma {:induction false} NatOfBound(s: string)
    requires AllDigits(s)
    ensures NatOf(s) < Pow10(|s|)
  {
    if |s| > 0 {
      NatOfBound(s[..|s| - 1]);
    }
  }

  lemma {:induction false} NatOfZeros(n: nat)
    ensures NatOf(Zeros(n)) == 0
  {
    if n > 0 {
      assert Zeros(n)[..n - 1] == Zeros(n - 1);
      NatOfZeros(n - 1);
    }
  }

  lemma {:induction false} ToDecNat(n: nat)
    ensures AllDigits(ToDec(n)) && |ToDec(n)| >= 1
    ensures NatOf(ToDec(n)) == n
  {
    if n >= 10 {
      ToDecNat(n / 10);
      assert ToDec(n)[..|ToDec(n)| - 1] == ToDec(n / 10);
    } else {
      assert ToDec(n)[..0] == "";
    }
  }

  lemma {:induction false} ToDecLength(n: nat, k: nat)
    requires k >= 1 && n < Pow10(k)
    ensures |ToDec(n)| <= k
  {
    if n >= 10 {
      assert Pow10(1) == 10 * Pow10(0);
      ToDecLength(n / 10, k - 1);
    }
  }

  /** What `to_string` prints, `parse::<u128>` reads back exactly when it fits 128 bits. */
  lemma PrintThenParse(n: nat)
    ensures ParseU128(ToDec(n)) == if n < U128 then Some(n) else None
  {
    ToDecNat(n);
    assert IsDigit(ToDec(n)[0]);
  }

  /** A u128 text is one or more digits below 2^128, with at most one plus sign in front. */
  lemma ParsedWhen(s: string)
    ensures var digits := if s != "" && s[0] == '+' then s[1..] else s;
            && (ParseU128(s).Some? <==>
                  && digits != "" && AllDigits(digits)
                  && NatOf(digits) < 0x1_0000_0000_0000_0000_0000_0000_0000_0000)
            && (ParseU128(s).Some? ==> ParseU128(s).value == NatOf(digits))
  {
  }

  lemma ToDecZero(n: nat)
    ensures ToDec(n) == "0" <==> n == 0
    ensures ToDec(n) != ""
  {
    ToDecNat(n);
    if ToDec(n) == "0" {
      assert "0"[..0] == "";
      assert NatOf("0") == 0;
    }
  }
}
