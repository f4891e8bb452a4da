/** Wei amounts as decimal ETH text: the parser and printer of the keymaster routes. */
module EthAmount {
  import opened Wrappers
  import opened Decimal

  const WEI_PER_ETH: nat := 1_000_000_000_000_000_000
  const DECIMALS: nat := 18

  /** `str::split` on one character: one more part than there are separators. */
  function Split(s: string, sep: char): (parts: seq<string>)
    ensures |parts| >= 1
  {
    if |s| == 0 then [""]
    else
      var rest := Split(s[1..], sep);
      if s[0] == sep then [""] + rest else [[s[0]] + rest[0]] + rest[1..]
  }

  function PadRight(s: string, width: nat): string {
    if |s| < width then s + Zeros(width - |s|) else s
  }

  function PadLeft(s: string, width: nat): string {
    if |s| < width then Zeros(width - |s|) + s else s
  }

  function TrimZeros(s: string): string {
    if |s| > 0 && s[|s| - 1] == '0' then TrimZeros(s[..|s| - 1]) else s
  }

  /** The first `width` characters, padded on the right with zeros when there are fewer. */
  function FitTo(s: string, width: nat): string {
    PadRight(if |s| > width then s[..width] else s, width)
  }

  /** 256-bit arithmetic wraps. */
  function Wrap(n: nat): nat {
    n % U256
  }

  function WholePart(s: string): Option<nat> {
    if s == "" then Some(0) else ParseU128(s)
  }

  /** The value of a whole part and of decimals already cut and padded to eighteen digits. */
  function Combine(whole: Option<nat>, decimal: Option<nat>): Option<nat> {
    match (whole, decimal)
    case (Some(w), Some(d)) => Some(Wrap(Wrap(w * WEI_PER_ETH) + d))
    case _ => None
  }

  /** `eth_to_u256`: decimals past the eighteenth are cut off before they are read. */
  function EthToWei(eth: string): Option<nat> {
    var parts := Split(eth, '.');
    if |parts| == 1 then Combine(ParseU128(parts[0]), Some(0))
    else if |parts| == 2 then Combine(WholePart(parts[0]), ParseU128(FitTo(parts[1], DECIMALS)))
    else None
  }

  /** `wei_to_eth_string`. */
  function WeiToEth(wei: nat): string {
    var whole, remainder := wei / WEI_PER_ETH, wei % WEI_PER_ETH;
    if remainder == 0 then ToDec(whole) + ".0"
    else ToDec(whole) + "." + TrimZeros(PadLeft(ToDec(remainder), DECIMALS))
  }

  lemma Pow18()
    ensures Pow10(DECIMALS) == WEI_PER_ETH
  {
    assert Pow10(6) == 1_000_000;
    Pow10Sum(6, 6);
    Pow10Sum(12, 6);
  }

  lemma {:induction false} SplitPlain(s: string, sep: char)
    requires sep !in s
    ensures Split(s, sep) == [s]
  {
    if |s| > 0 {
      SplitPlain(s[1..], sep);
      assert [s[0]] + s[1..] == s;
    }
  }

  lemma {:induction false} SplitOnce(a: string, b: string, sep: char)
    requires sep !in a && sep !in b
    ensures Split(a + [sep] + b, sep) == [a, b]
  {
    var s := a + [sep] + b;
    if |a| == 0 {
      assert s[1..] == b;
      SplitPlain(b, sep);
    } else {
      assert s[1..] == a[1..] + [sep] + b;
      SplitOnce(a[1..], b, sep);
      assert [a[0]] + a[1..] == a;
    }
  }

  /** A digit run is read as its value: a plus sign cannot hide in it. */
  lemma ParseDigits(s: string)
    requires AllDigits(s) && |s| > 0
    ensures ParseU128(s) == if NatOf(s) < U128 then Some(NatOf(s)) else None
  {
    assert IsDigit(s[0]);
  }

  lemma NoDot(s: string)
    requires AllDigits(s)
    ensures '.' !in s
  {
    assert forall i :: 0 <= i < |s| ==> IsDigit(s[i]) && s[i] != '.';
  }

  lemma FitsPadded(d: string, n: nat)
    requires AllDigits(d) && |d| <= n
    ensures AllDigits(FitTo(d, n)) && |FitTo(d, n)| == n
    ensures NatOf(FitTo(d, n)) == NatOf(d) * Pow10(n - |d|)
  {
    var k := n - |d|;
    NatOfConcat(d, Zeros(k));
    NatOfZeros(k);
    assert FitTo(d, n) == d + Zeros(k);
  }

  /** `v` is `a / d` rounded toward zero. */
  ghost predicate IsFloor(v: nat, a: nat, d: nat) {
    v * d <= a < v * d + d
  }

  /** `n` kept digits are the decimals scaled by 10^n, rounded toward zero. */
  lemma {:induction false} KeptDigits(d: string, n: nat)
    requires AllDigits(d)
    ensures AllDigits(FitTo(d, n)) && |FitTo(d, n)| == n
    ensures IsFloor(NatOf(FitTo(d, n)), NatOf(d) * Pow10(n), Pow10(|d|))
  {
    hide NatOf, Pow10, IsFloor;
    if |d| <= n {
      FitsPadded(d, n);
      Pow10Sum(|d|, n - |d|);
      ScaleUp(NatOf(d), Pow10(|d|), Pow10(n - |d|));
    } else {
      var kept, tail := d[..n], d[n..];
      assert d == kept + tail;
      NatOfConcat(kept, tail);
      NatOfBound(tail);
      Pow10Sum(n, |tail|);
      assert FitTo(d, n) == kept;
      CutOff(NatOf(kept), NatOf(tail), Pow10(|tail|), Pow10(n));
    }
  }

  lemma ScaleUp(x: nat, small: nat, k: nat)
    requires small > 0
    ensures IsFloor(x * k, x * (small * k), small)
  {
    assert x * (small * k) == x * k * small;
  }

  lemma CutOff(high: nat, low: nat, scale: nat, unit: nat)
    requires unit > 0 && low < scale
    ensures IsFloor(high, (high * scale + low) * unit, unit * scale)
  {
    assert (high * scale + low) * unit == high * (unit * scale) + low * unit;
    assert (scale - low) * unit > 0;
  }

  lemma AddWhole(w: nat, f: nat, d: nat, scale: nat, unit: nat)
    requires IsFloor(f, d * unit, scale)
    ensures IsFloor(w * unit + f, (w * scale + d) * unit, scale)
  {
    assert (w * unit + f) * scale == w * unit * scale + f * scale;
    assert (w * scale + d) * unit == w * unit * scale + d * unit;
  }

  lemma WholeDigits(w: string)
    requires AllDigits(w)
    ensures WholePart(w) == if NatOf(w) < U128 then Some(NatOf(w)) else None
  {
    if |w| > 0 { ParseDigits(w); }
  }

  lemma ParseParts(w: string, d: string)
    requires AllDigits(w) && AllDigits(d)
    ensures AllDigits(FitTo(d, DECIMALS)) && NatOf(FitTo(d, DECIMALS)) < WEI_PER_ETH
    ensures EthToWei(w + "." + d) ==
            if NatOf(w) < U128 then Some(NatOf(w) * WEI_PER_ETH + NatOf(FitTo(d, DECIMALS))) else None
  {
    hide NatOf, Pow10, Split;
    NoDot(w);
    NoDot(d);
    SplitOnce(w, d, '.');
    var kept := FitTo(d, DECIMALS);
    assert AllDigits(kept) && |kept| == DECIMALS;
    NatOfBound(kept);
    Pow18();
    assert ParseU128(kept) == Some(NatOf(kept)) by { ParseDigits(kept); }
    WholeDigits(w);
    assert EthToWei(w + "." + d) == Combine(WholePart(w), Some(NatOf(kept)));
    if NatOf(w) < U128 { CombineBound(Some(NatOf(w)), Some(NatOf(kept))); }
  }

  /**
   * Plain digit text "w.d" denotes NatOf(wd) * 10^18 / 10^|d| wei rounded toward zero, and is
   * refused exactly when its whole part needs more than 128 bits.
   */
  lemma {:induction false} ParseMeaning(w: string, d: string)
    requires AllDigits(w) && AllDigits(d)
    ensures AllDigits(w + d)
    ensures EthToWei(w + "." + d).Some? <==> NatOf(w) < U128
    ensures NatOf(w) < U128 ==>
              IsFloor(EthToWei(w + "." + d).value, NatOf(w + d) * WEI_PER_ETH, Pow10(|d|))
  {
    hide *;
    ParseParts(w, d);
    TextValue(w, d);
  }

  lemma TextValue(w: string, d: string)
    requires AllDigits(w) && AllDigits(d)
    ensures AllDigits(w + d)
    ensures IsFloor(NatOf(w) * WEI_PER_ETH + NatOf(FitTo(d, DECIMALS)), NatOf(w + d) * WEI_PER_ETH, Pow10(|d|))
  {
    NatOfConcat(w, d);
    Pow18();
    KeptDigits(d, DECIMALS);
    AddWhole(NatOf(w), NatOf(FitTo(d, DECIMALS)), NatOf(d), Pow10(|d|), WEI_PER_ETH);
  }

  /** What follows the eighteenth decimal never changes the outcome, be it digits or anything but a point. */
  lemma ExtraDecimalsIgnored(w: string, d: string)
    requires '.' !in w && '.' !in d && |d| > 18
    ensures EthToWei(w + "." + d) == EthToWei(w + "." + d[..18])
  {
    SplitOnce(w, d, '.');
    SplitOnce(w, d[..18], '.');
  }

  /** No accepted text, digits or not, comes near the 256-bit wrap. */
  lemma {:induction false} NeverWraps(eth: string)
    requires EthToWei(eth).Some?
    ensures EthToWei(eth).value < U128 * WEI_PER_ETH + U128 < U256
    ensures EthToWei(eth).value * 10_000 < U256
  {
    hide Split, NatOf, FitTo, Combine;
    var parts := Split(eth, '.');
    if |parts| == 1 {
      CombineBound(ParseU128(parts[0]), Some(0));
    } else {
      CombineBound(WholePart(parts[0]), ParseU128(FitTo(parts[1], DECIMALS)));
    }
  }

  lemma CombineBound(whole: Option<nat>, decimal: Option<nat>)
    requires Combine(whole, decimal).Some?
    requires whole.Some? ==> whole.value < U128
    requires decimal.Some? ==> decimal.value < U128
    ensures Combine(whole, decimal) == Some(whole.value * WEI_PER_ETH + decimal.value)
    ensures Combine(whole, decimal).value < U128 * WEI_PER_ETH + U128
  {
  }

  lemma {:induction false} TrimKeeps(s: string)
    requires AllDigits(s) && NatOf(s) > 0
    ensures var t := TrimZeros(s);
            && 1 <= |t| <= |s| && AllDigits(t) && t[|t| - 1] != '0'
            && PadRight(t, |s|) == s
  {
    if |s| > 0 && s[|s| - 1] == '0' {
      TrimKeeps(s[..|s| - 1]);
      var t := TrimZeros(s);
      assert s == s[..|s| - 1] + ['0'];
      assert s[..|s| - 1] == t + Zeros(|s| - 1 - |t|);
      assert Zeros(|s| - |t|) == Zeros(|s| - 1 - |t|) + ['0'];
    } else {
      assert PadRight(s, |s|) == s;
    }
  }

  /** The decimals the printer shows: between one and eighteen digits, no superfluous zero. */
  function Fraction(wei: nat): string {
    if wei % WEI_PER_ETH == 0 then "0" else TrimZeros(PadLeft(ToDec(wei % WEI_PER_ETH), DECIMALS))
  }

  lemma PrintedForm(wei: nat)
    ensures var f := Fraction(wei);
            && WeiToEth(wei) == ToDec(wei / WEI_PER_ETH) + "." + f
            && 1 <= |f| <= DECIMALS && AllDigits(f) && AllDigits(FitTo(f, DECIMALS))
            && (f == "0" || f[|f| - 1] != '0')
            && NatOf(FitTo(f, DECIMALS)) == wei % WEI_PER_ETH
  {
    var r := wei % WEI_PER_ETH;
    if r == 0 {
      assert ToDec(wei / WEI_PER_ETH) + ".0" == ToDec(wei / WEI_PER_ETH) + "." + "0";
      assert PadRight("0", 18) == Zeros(18);
      NatOfZeros(18);
    } else {
      Pow18();
      ToDecNat(r);
      ToDecLength(r, DECIMALS);
      var k := DECIMALS - |ToDec(r)|;
      NatOfConcat(Zeros(k), ToDec(r));
      NatOfZeros(k);
      var padded := PadLeft(ToDec(r), DECIMALS);
      assert padded == Zeros(k) + ToDec(r);
      TrimKeeps(padded);
    }
  }

  /** Printing then parsing gives the amount back exactly when its whole part fits 128 bits. */
  lemma RoundTrip(wei: nat)
    ensures EthToWei(WeiToEth(wei)) == if wei / WEI_PER_ETH < U128 then Some(wei) else None
  {
    hide ToDec, Fraction, EthToWei, WeiToEth, FitTo, NatOf;
    PrintedForm(wei);
    var w, f := ToDec(wei / WEI_PER_ETH), Fraction(wei);
    ToDecNat(wei / WEI_PER_ETH);
    ParseParts(w, f);
  }

  // -- No point, or more than one -------------------------------------------

  /** A text without a point is read as whole ETH: as if ".0" came after it. */
  lemma NoPointMeansWhole(w: string)
    requires '.' !in w && w != ""
    ensures EthToWei(w) == EthToWei(w + ".0")
  {
    hide NatOf, Split, FitTo, Combine, ParseU128;
    SplitPlain(w, '.');
    SplitOnce(w, "0", '.');
    assert w + ['.'] + "0" == w + ".0";
    ZeroDecimals();
  }

  lemma ZeroDecimals()
    ensures ParseU128(FitTo("0", DECIMALS)) == Some(0)
  {
    assert FitTo("0", DECIMALS) == Zeros(DECIMALS);
    NatOfZeros(DECIMALS);
    ParseDigits(Zeros(DECIMALS));
  }

  /** Plain digits are that many ETH, refused exactly from 2^128 on. */
  lemma WholeAmount(w: string)
    requires AllDigits(w) && w != ""
    ensures EthToWei(w) ==
            if NatOf(w) < 0x1_0000_0000_0000_0000_0000_0000_0000_0000
            then Some(NatOf(w) * 1_000_000_000_000_000_000) else None
  {
    hide NatOf;
    NoDot(w);
    SplitPlain(w, '.');
    ParseDigits(w);
    if NatOf(w) < U128 { CombineBound(Some(NatOf(w)), Some(0)); }
  }

  /** Without a point nothing but a u128 is accepted, the empty text least of all; two points never are. */
  lemma RefusedForms(a: string, b: string, c: string)
    ensures EthToWei("") == None
    ensures '.' !in a ==> (EthToWei(a).Some? <==> ParseU128(a).Some?)
    ensures EthToWei(a + "." + b + "." + c) == None
  {
    hide NatOf;
    if '.' !in a { SplitPlain(a, '.'); }
    SplitParts(b, c, '.');
    SplitParts(a, b + "." + c, '.');
    assert a + ['.'] + (b + "." + c) == a + "." + b + "." + c && b + "." + c == b + ['.'] + c;
  }

  lemma {:induction false} SplitParts(a: string, b: string, sep: char)
    ensures |Split(a + [sep] + b, sep)| == |Split(a, sep)| + |Split(b, sep)|
  {
    var s := a + [sep] + b;
    if |a| == 0 {
      assert s[1..] == b;
    } else {
      assert s[1..] == a[1..] + [sep] + b;
      SplitParts(a[1..], b, sep);
    }
  }

  // -- Plus signs -----------------------------------------------------------

  /**
   * Which texts with one point are accepted: the left side is empty or a u128, and the first eighteen
   * characters of the right side are digits, but for a plus sign that may stand first.
   */
  lemma AcceptedForms(a: string, b: string)
    requires '.' !in a && '.' !in b
    ensures EthToWei(a + "." + b).Some? <==>
            && (a == "" || ParseU128(a).Some?)
            && forall i :: 0 <= i < |b| && i < 18 ==> '0' <= b[i] <= '9' || (i == 0 && b[i] == '+')
  {
    hide NatOf, Pow10, FitTo;
    SplitOnce(a, b, '.');
    KeptParses(b);
  }

  /** What is kept of the decimals is a u128 whenever it is digits but for a plus sign in front. */
  lemma KeptParses(b: string)
    ensures ParseU128(FitTo(b, DECIMALS)).Some? <==>
            forall i :: 0 <= i < |b| && i < 18 ==> '0' <= b[i] <= '9' || (i == 0 && b[i] == '+')
  {
    hide NatOf, Pow10;
    var kept := FitTo(b, DECIMALS);
    assert |kept| == DECIMALS && forall i :: 0 <= i < 18 ==> kept[i] == if i < |b| then b[i] else '0';
    if forall i :: 0 <= i < |b| && i < 18 ==> '0' <= b[i] <= '9' || (i == 0 && b[i] == '+') {
      var digits := if kept[0] == '+' then kept[1..] else kept;
      assert AllDigits(digits);
      NatOfBound(digits);
      Pow18();
      PowGrows(|digits|, DECIMALS);
    } else {
      var i :| 0 <= i < |b| && i < 18 && !('0' <= b[i] <= '9') && (i != 0 || b[i] != '+');
      assert !IsDigit(kept[i]);
      if kept[0] == '+' { assert kept[1..][i - 1] == kept[i]; }
    }
  }

  lemma {:induction false} PowGrows(a: nat, b: nat)
    requires a <= b
    ensures Pow10(a) <= Pow10(b)
  {
    if a < b { PowGrows(a, b - 1); }
  }

  /** A plus sign among the decimals takes the place of a zero: ".+5" is read as five hundredths. */
  lemma PlusInDecimals(w: string, d: string)
    requires AllDigits(w) && AllDigits(d)
    ensures EthToWei(w + ".+" + d) == EthToWei(w + ".0" + d)
  {
    hide NatOf, Pow10, Split, FitTo;
    NoDot(w);
    NoDot(d);
    SplitOnce(w, "+" + d, '.');
    SplitOnce(w, "0" + d, '.');
    assert w + ['.'] + ("+" + d) == w + ".+" + d && w + ['.'] + ("0" + d) == w + ".0" + d;
    PlusIsZero(d);
  }

  lemma PlusIsZero(d: string)
    requires AllDigits(d)
    ensures ParseU128(FitTo("+" + d, DECIMALS)) == ParseU128(FitTo("0" + d, DECIMALS))
  {
    hide NatOf, Pow10;
    var rest := FitTo(d, DECIMALS - 1);
    assert AllDigits(rest) && |rest| == DECIMALS - 1;
    ShiftedFit("+", d);
    ShiftedFit("0", d);
    var plus, zero := "+" + rest, "0" + rest;
    assert plus[1..] == rest && zero == "0" + rest;
    LeadingZero(rest);
    assert AllDigits(zero);
  }

  lemma ShiftedFit(c: string, d: string)
    requires |c| == 1
    ensures FitTo(c + d, DECIMALS) == c + FitTo(d, DECIMALS - 1)
  {
    if |d| >= DECIMALS - 1 {
      assert (c + d)[..DECIMALS] == c + d[..DECIMALS - 1];
    } else {
      assert Zeros(DECIMALS - |c + d|) == Zeros(DECIMALS - 1 - |d|);
    }
  }

  lemma LeadingZero(s: string)
    requires AllDigits(s)
    ensures AllDigits("0" + s) && NatOf("0" + s) == NatOf(s)
  {
    NatOfConcat("0", s);
    assert "0"[..0] == "";
    assert NatOf("0") == 0;
  }

  /**
   * Exactly when a text with plus signs is read at the value of its digits: a sign before the whole
   * part never matters, one before the decimals always does unless the first eighteen of them are zeros.
   */
  lemma ReadAtItsValue(w: string, d: string, wholePlus: bool, decimalPlus: bool)
    requires AllDigits(w) && AllDigits(d) && (wholePlus ==> w != "") && NatOf(w) < U128
    ensures EthToWei((if wholePlus then "+" + w else w) + "." + (if decimalPlus then "+" + d else d))
            == EthToWei(w + "." + d)
            <==> (decimalPlus ==> AllDigits(FitTo(d, DECIMALS)) && NatOf(FitTo(d, DECIMALS)) == 0)
  {
    hide NatOf, Pow10, EthToWei, FitTo;
    var right := if decimalPlus then "+" + d else d;
    WholePlus(w, right, d);
    if decimalPlus {
      assert w + "." + right == w + ".+" + d;
      PlusInDecimals(w, d);
      assert AllDigits("0" + d) by { LeadingZero(d); }
      assert w + ".0" + d == w + "." + ("0" + d);
      ParseParts(w, "0" + d);
      ParseParts(w, d);
      TenthOf(d);
    }
  }

  lemma WholePlus(w: string, right: string, d: string)
    requires AllDigits(w) && AllDigits(d) && (right == d || right == "+" + d)
    ensures w != "" ==> EthToWei("+" + w + "." + right) == EthToWei(w + "." + right)
  {
    hide NatOf, Pow10, Split, FitTo;
    NoDot(w);
    NoDot(d);
    SplitOnce(w, right, '.');
    SplitOnce("+" + w, right, '.');
    if w != "" {
      assert ("+" + w)[1..] == w;
      assert IsDigit(w[0]);
    }
  }

  /** Moving the decimals one place down divides what is kept of them by ten. */
  lemma TenthOf(d: string)
    requires AllDigits(d)
    ensures AllDigits(FitTo(d, DECIMALS)) && AllDigits(FitTo("0" + d, DECIMALS))
    ensures NatOf(FitTo("0" + d, DECIMALS)) == NatOf(FitTo(d, DECIMALS)) / 10
    ensures NatOf(FitTo("0" + d, DECIMALS)) == NatOf(FitTo(d, DECIMALS)) <==> NatOf(FitTo(d, DECIMALS)) == 0
  {
    hide Pow10;
    var kept, rest := FitTo(d, DECIMALS), FitTo(d, DECIMALS - 1);
    assert kept[..DECIMALS - 1] == rest by { ShorterFit(d); }
    ShiftedFit("0", d);
    LeadingZero(rest);
  }

  lemma ShorterFit(d: string)
    ensures |FitTo(d, DECIMALS)| == DECIMALS && FitTo(d, DECIMALS)[..DECIMALS - 1] == FitTo(d, DECIMALS - 1)
  {
  }
}
