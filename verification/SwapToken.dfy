/** Turning a trader's token text into an address, and the slippage floor of a swap. Text is ASCII. */
module SwapToken {
  import opened Wrappers
  import opened Decimal

  predicate IsSpace(c: char) {
    c == ' ' || '\t' <= c <= '\r'
  }

  function TrimStart(s: string): string {
    if |s| > 0 && IsSpace(s[0]) then TrimStart(s[1..]) else s
  }

  function TrimEnd(s: string): string {
    if |s| > 0 && IsSpace(s[|s| - 1]) then TrimEnd(s[..|s| - 1]) else s
  }

  function Trim(s: string): string {
    TrimEnd(TrimStart(s))
  }

  function Lower(s: string): (r: string)
    ensures |r| == |s|
  {
    seq(|s|, i requires 0 <= i < |s| => if 'A' <= s[i] <= 'Z' then s[i] + 32 as char else s[i])
  }

  function Upper(s: string): (r: string)
    ensures |r| == |s|
  {
    seq(|s|, i requires 0 <= i < |s| => if 'a' <= s[i] <= 'z' then s[i] - 32 as char else s[i])
  }

  /** The same text but for the case of its letters. */
  predicate SameText(s: string, t: string) {
    && |s| == |t|
    && forall i :: 0 <= i < |s| ==>
         || s[i] == t[i]
         || ('A' <= s[i] <= 'Z' && t[i] as int == s[i] as int + 32)
         || ('A' <= t[i] <= 'Z' && s[i] as int == t[i] as int + 32)
  }

  lemma SameLowerWhen(s: string, t: string)
    ensures Lower(s) == Lower(t) <==> SameText(s, t)
  {
    if Lower(s) == Lower(t) {
      assert |Lower(s)| == |s| && |Lower(t)| == |t|;
      forall i | 0 <= i < |s|
        ensures || s[i] == t[i]
                || ('A' <= s[i] <= 'Z' && t[i] as int == s[i] as int + 32)
                || ('A' <= t[i] <= 'Z' && s[i] as int == t[i] as int + 32)
      {
        assert Lower(s)[i] == Lower(t)[i];
      }
    }
  }

  lemma SameUpperWhen(s: string, t: string)
    ensures Upper(s) == Upper(t) <==> SameText(s, t)
  {
    if Upper(s) == Upper(t) {
      assert |Upper(s)| == |s| && |Upper(t)| == |t|;
      forall i | 0 <= i < |s|
        ensures || s[i] == t[i]
                || ('A' <= s[i] <= 'Z' && t[i] as int == s[i] as int + 32)
                || ('A' <= t[i] <= 'Z' && s[i] as int == t[i] as int + 32)
      {
        assert Upper(s)[i] == Upper(t)[i];
      }
    }
  }

  predicate IsAddress(s: string) {
    |s| == 42 && s[0] == '0' && s[1] == 'x'
  }

  /** The text before and after the first dash. */
  function SplitDash(s: string): Option<(string, string)> {
    if |s| == 0 then None
    else if s[0] == '-' then Some(("", s[1..]))
    else match SplitDash(s[1..])
         case None => None
         case Some((a, b)) => Some(([s[0]] + a, b))
  }

  const WETH := "0x4200000000000000000000000000000000000006"

  function BaseSepoliaToken(symbol: string): Option<string> {
    match symbol
    case "WETH" | "ETH" => Some(WETH)
    case "USDC" => Some("0x036CbD53842c5426634e7929541eC2318f3dCF7e")
    case "WBTC" => Some("0x0555E30da8f98308EdB960aa94C0Db47230d2B9C")
    case _ => None
  }

  function BaseToken(symbol: string): Option<string> {
    match symbol
    case "WETH" | "ETH" => Some(WETH)
    case "USDC" => Some("0x833589fCD6eDb6E08f4c7C32D4f71b54bdA02913")
    case "USDBC" => Some("0xd9aAEc86B65D86f6A7B5B1b0c42FFA531710b6CA")
    case "CBBTC" => Some("0xcbB7C0000aB88B473b1f5aFd9ef808440eed33Bf")
    case "DAI" => Some("0x50c5725949A6F0c72E6C4a641F24049A917DB0Cb")
    case _ => None
  }

  function KnownTokenAddress(symbol: string, chain: string): Option<string> {
    if Lower(chain) == "base_sepolia" then BaseSepoliaToken(Upper(Trim(symbol)))
    else if Lower(chain) == "base" then BaseToken(Upper(Trim(symbol)))
    else None
  }

  predicate IsEther(symbol: string) {
    Upper(symbol) == "WETH" || Upper(symbol) == "ETH"
  }

  function OrElse(a: Option<string>, b: Option<string>): Option<string> {
    if a.Some? then a else b
  }

  /** An address stands for itself; of a dashed pair the side that is not ether goes first. */
  function ResolveSwapToken(field: string, chain: string): Option<string> {
    var trimmed := Trim(field);
    if IsAddress(trimmed) then Some(trimmed)
    else match SplitDash(trimmed)
         case None => KnownTokenAddress(trimmed, chain)
         case Some((a, b)) =>
           if IsEther(a) then OrElse(KnownTokenAddress(b, chain), KnownTokenAddress(a, chain))
           else OrElse(KnownTokenAddress(a, chain), KnownTokenAddress(b, chain))
  }

  /** Every name Base knows, in whatever case and with whatever blanks around it, and its address. */
  lemma BaseNames(symbol: string, chain: string)
    requires Lower(chain) == "base"
    ensures var name, token := Upper(Trim(symbol)), KnownTokenAddress(symbol, chain);
            && (name == "WETH" || name == "ETH" ==> token == Some("0x4200000000000000000000000000000000000006"))
            && (name == "USDC" ==> token == Some("0x833589fCD6eDb6E08f4c7C32D4f71b54bdA02913"))
            && (name == "USDBC" ==> token == Some("0xd9aAEc86B65D86f6A7B5B1b0c42FFA531710b6CA"))
            && (name == "CBBTC" ==> token == Some("0xcbB7C0000aB88B473b1f5aFd9ef808440eed33Bf"))
            && (name == "DAI" ==> token == Some("0x50c5725949A6F0c72E6C4a641F24049A917DB0Cb"))
            && (token.Some? ==> name in {"WETH", "ETH", "USDC", "USDBC", "CBBTC", "DAI"})
  {
    hide Trim, Upper, Lower, BaseSepoliaToken;
    assert chain != "base_sepolia" && Lower(chain)[3] == 'e' && |Lower(chain)| == 4;
  }

  lemma BaseSepoliaNames(symbol: string, chain: string)
    requires Lower(chain) == "base_sepolia"
    ensures var name, token := Upper(Trim(symbol)), KnownTokenAddress(symbol, chain);
            && (name == "WETH" || name == "ETH" ==> token == Some("0x4200000000000000000000000000000000000006"))
            && (name == "USDC" ==> token == Some("0x036CbD53842c5426634e7929541eC2318f3dCF7e"))
            && (name == "WBTC" ==> token == Some("0x0555E30da8f98308EdB960aa94C0Db47230d2B9C"))
            && (token.Some? ==> name in {"WETH", "ETH", "USDC", "WBTC"})
  {
    hide Trim, Upper, Lower, BaseToken;
  }

  /** No other chain knows a name. */
  lemma OtherChainsKnowNone(symbol: string, chain: string)
    requires Lower(chain) != "base" && Lower(chain) != "base_sepolia"
    ensures KnownTokenAddress(symbol, chain) == None
  {
  }

  lemma BaseSepoliaIsAddress(symbol: string)
    ensures BaseSepoliaToken(symbol).Some? ==> IsAddress(BaseSepoliaToken(symbol).value)
  {
  }

  lemma BaseIsAddress(symbol: string)
    ensures BaseToken(symbol).Some? ==> IsAddress(BaseToken(symbol).value)
  {
  }

  lemma KnownIsAddress(symbol: string, chain: string)
    ensures KnownTokenAddress(symbol, chain).Some? ==> IsAddress(KnownTokenAddress(symbol, chain).value)
  {
    hide Trim, Upper, Lower, BaseSepoliaToken, BaseToken, IsAddress;
    BaseSepoliaIsAddress(Upper(Trim(symbol)));
    BaseIsAddress(Upper(Trim(symbol)));
  }

  /** Whatever text a trader names, a token that resolves is a 42-character hexadecimal-style address. */
  lemma ResolvedIsAddress(field: string, chain: string)
    ensures ResolveSwapToken(field, chain).Some? ==> IsAddress(ResolveSwapToken(field, chain).value)
  {
    hide KnownTokenAddress, Trim, SplitDash, IsEther, IsAddress;
    var trimmed := Trim(field);
    KnownIsAddress(trimmed, chain);
    match SplitDash(trimmed) {
      case None =>
      case Some((a, b)) =>
        KnownIsAddress(a, chain);
        KnownIsAddress(b, chain);
    }
  }

  predicate Tidy(s: string) {
    s != "" && '-' !in s && !IsSpace(s[0]) && !IsSpace(s[|s| - 1])
  }

  lemma {:induction false} SplitAtDash(a: string, b: string)
    requires '-' !in a
    ensures SplitDash(a + "-" + b) == Some((a, b))
  {
    var s := a + "-" + b;
    if a != "" {
      SplitAtDash(a[1..], b);
      assert s[1..] == a[1..] + "-" + b;
      assert [a[0]] + a[1..] == a;
    } else {
      assert s == ['-'] + b;
    }
  }

  predicate Blank(s: string) {
    forall i :: 0 <= i < |s| ==> IsSpace(s[i])
  }

  /** Blanks around a name are trimmed away. */
  lemma {:induction false} TrimBlanks(a: string, x: string)
    requires Tidy(a) && Blank(x)
    ensures Trim(a + x) == a && Trim(x + a) == a
  {
    if x == "" {
      assert a + x == a && x + a == a;
    } else {
      var front, back := x[..|x| - 1], x[1..];
      assert (a + x)[..|a + x| - 1] == a + front;
      assert (x + a)[1..] == back + a;
      TrimBlanks(a, front);
      TrimBlanks(a, back);
      assert a + x == a + front + [x[|x| - 1]] && (a + x)[0] == a[0];
      assert TrimStart(a + x) == a + x;
    }
  }

  /** A name with a blank after it is not taken for ether. */
  lemma BlankHidesEther(a: string, x: string)
    requires x != "" && Blank(x)
    ensures !IsEther(a + x)
  {
    var s := a + x;
    assert IsSpace(s[|s| - 1]) && Upper(s)[|s| - 1] == s[|s| - 1];
    assert "WETH"[3] == 'H' && "ETH"[2] == 'H';
  }

  lemma KnownBlanks(a: string, x: string, chain: string)
    requires Tidy(a) && Blank(x)
    ensures KnownTokenAddress(a + x, chain) == KnownTokenAddress(x + a, chain) == KnownTokenAddress(a, chain)
  {
    TrimBlanks(a, x);
    TrimBlanks(a, "");
    assert a + "" == a;
  }

  /**
   * What a pair of names resolves to, with any blanks around its dash: the first known name in
   * written order, except that ether goes last if it is written first with no blank after it.
   */
  lemma PairResolvesTo(a: string, x: string, y: string, b: string, chain: string)
    requires Tidy(a) && Tidy(b) && Blank(x) && Blank(y) && !IsAddress(a + x + "-" + y + b)
    ensures ResolveSwapToken(a + x + "-" + y + b, chain) ==
            var first, second := KnownTokenAddress(a, chain), KnownTokenAddress(b, chain);
            if x == "" && (Upper(a) == "WETH" || Upper(a) == "ETH")
            then if second.Some? then second else first
            else if first.Some? then first else second
  {
    assert IsEther(a) <==> Upper(a) == "WETH" || Upper(a) == "ETH";
    hide KnownTokenAddress, IsAddress, IsEther, Trim;
    var s := a + x + "-" + y + b;
    Untouched(s, a, b);
    assert '-' !in a + x;
    SplitAtDash(a + x, y + b);
    assert s == (a + x) + "-" + (y + b);
    KnownBlanks(a, x, chain);
    KnownBlanks(b, y, chain);
    if x != "" { BlankHidesEther(a, x); } else { assert a + x == a; }
  }

  lemma Untouched(s: string, a: string, b: string)
    requires Tidy(a) && Tidy(b) && |s| >= |a| + |b| && s[..|a|] == a && s[|s| - |b|..] == b
    ensures Trim(s) == s
  {
    assert s[0] == s[..|a|][0] && s[|s| - 1] == s[|s| - |b|..][|b| - 1];
  }

  /**
   * The order in which a pair is written does not matter exactly when ether is on one side with no
   * blank before the dash in either writing, or the two names do not lead to two different addresses.
   */
  lemma PairOrderIsIrrelevant(a: string, x: string, y: string, b: string, chain: string)
    requires Tidy(a) && Tidy(b) && Blank(x) && Blank(y)
    requires !IsAddress(a + x + "-" + y + b) && !IsAddress(b + x + "-" + y + a)
    ensures ResolveSwapToken(a + x + "-" + y + b, chain) == ResolveSwapToken(b + x + "-" + y + a, chain)
            <==> || (x == "" && IsEther(a) != IsEther(b))
                 || KnownTokenAddress(a, chain).None? || KnownTokenAddress(b, chain).None?
                 || KnownTokenAddress(a, chain) == KnownTokenAddress(b, chain)
  {
    hide KnownTokenAddress, IsAddress, Upper, ResolveSwapToken;
    PairResolvesTo(a, x, y, b, chain);
    PairResolvesTo(b, x, y, a, chain);
  }

  /** So "WETH - USDC" is ether and "USDC - WETH" is not, where "WETH-USDC" and "USDC-WETH" are the same. */
  lemma BlanksDecide(x: string, y: string)
    requires Blank(x) && Blank(y)
    ensures ResolveSwapToken("USDC" + x + "-" + y + "WETH", "base") == BaseToken("USDC")
    ensures ResolveSwapToken("WETH" + x + "-" + y + "USDC", "base") == if x == "" then BaseToken("USDC") else Some(WETH)
  {
    Tokens();
    assert ("WETH" + x + "-" + y + "USDC")[0] == 'W' && ("USDC" + x + "-" + y + "WETH")[0] == 'U';
    hide KnownTokenAddress, IsEther, ResolveSwapToken, BaseToken;
    PairResolvesTo("WETH", x, y, "USDC", "base");
    PairResolvesTo("USDC", x, y, "WETH", "base");
  }

  lemma Tokens()
    ensures KnownTokenAddress("WETH", "base") == Some(WETH) == BaseToken("WETH")
    ensures KnownTokenAddress("USDC", "base") == BaseToken("USDC") && BaseToken("USDC").Some?
    ensures IsEther("WETH") && !IsEther("USDC")
  {
    TrimBlanks("WETH", "");
    TrimBlanks("USDC", "");
    assert "WETH" + "" == "WETH" && "USDC" + "" == "USDC";
    assert Lower("base") == "base" && Upper("WETH") == "WETH" && Upper("USDC") == "USDC";
  }

  // -- Slippage -------------------------------------------------------------

  /** The tolerance in basis points: clamped to 0..100 per cent, then rounded half up. */
  function SlippageBps(maxSlippagePct: real): (bps: nat)
    ensures bps <= 10_000
  {
    var clamped := if maxSlippagePct < 0.0 then 0.0 else if maxSlippagePct > 100.0 then 100.0 else maxSlippagePct;
    (clamped * 100.0 + 0.5).Floor
  }

  /** It is the nearest whole number of basis points; outside 0 to 100 per cent the nearer end counts. */
  lemma SlippageIsNearest(maxSlippagePct: real)
    ensures var bps := SlippageBps(maxSlippagePct);
            && (maxSlippagePct <= 0.0 ==> bps == 0)
            && (maxSlippagePct >= 100.0 ==> bps == 10_000)
            && (0.0 <= maxSlippagePct <= 100.0 ==> -0.5 < bps as real - 100.0 * maxSlippagePct <= 0.5)
  {
  }

  /** Ten thousand times the part of a quote that remains after slippage. */
  function Kept(quoted: nat, maxSlippagePct: real): nat {
    quoted * (10_000 - SlippageBps(maxSlippagePct))
  }

  /** Saturates at the largest u128. */
  function Saturated(product: nat): nat {
    if product < U128 then product else U128 - 1
  }

  /** The least output to accept for a quoted one; "0", no floor, for text that is no positive number. */
  function ApplySlippage(amountOutWei: string, maxSlippagePct: real): string {
    match ParseU128(Trim(amountOutWei))
    case None => "0"
    case Some(out) =>
      if out == 0 then "0"
      else ToDec(Saturated(Kept(out, maxSlippagePct)) / 10_000)
  }

  lemma KeptBound(quoted: nat, maxSlippagePct: real)
    ensures Kept(quoted, maxSlippagePct) == quoted * (10_000 - SlippageBps(maxSlippagePct)) <= 10_000 * quoted
  {
    hide SlippageBps;
    assert quoted * (10_000 - SlippageBps(maxSlippagePct)) <= quoted * 10_000;
  }

  lemma FloorIsExact(quoted: nat, product: nat, floor: nat)
    requires quoted < U128 && product <= 10_000 * quoted && floor == Saturated(product) / 10_000
    ensures floor <= quoted && 10_000 * floor <= product
    ensures product < 10_000 * (floor + 1) <==> product < 10_000 * (U128 / 10_000 + 1)
  {
  }

  /**
   * The floor never exceeds the quote kept after slippage, and falls short of it by less than one
   * wei exactly when the product with the basis points kept does not saturate (up to the last
   * partial multiple of 10000); text that is no number gives no floor.
   */
  lemma SlippageFloorHolds(amountOutWei: string, maxSlippagePct: real)
    ensures var quoted, floor := ParseU128(Trim(amountOutWei)), ParseU128(ApplySlippage(amountOutWei, maxSlippagePct));
            && floor.Some?
            && (quoted.None? ==> floor.value == 0)
            && (quoted.Some? ==>
                  var kept := quoted.value * (10_000 - SlippageBps(maxSlippagePct));
                  && floor.value <= quoted.value
                  && 10_000 * floor.value <= kept
                  && (kept < 10_000 * (floor.value + 1) <==> kept < 10_000 * (U128 / 10_000 + 1)))
  {
    hide NatOf, ToDec, Trim, AllDigits, Kept, SlippageBps;
    var quoted := ParseU128(Trim(amountOutWei));
    PrintThenParse(0);
    ToDecZero(0);
    if quoted.Some? {
      var kept := Kept(quoted.value, maxSlippagePct);
      KeptBound(quoted.value, maxSlippagePct);
      FloorIsExact(quoted.value, kept, Saturated(kept) / 10_000);
      PrintThenParse(Saturated(kept) / 10_000);
    }
  }
}
