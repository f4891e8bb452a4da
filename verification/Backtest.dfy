/** The rules-mode backtest: aligning two daily series, simulating one position, measuring the drawdown. */
module Backtest {
  import opened Wrappers

  const CAPITAL_START: real := 1.0
  const APY_EXIT_PCT: real := 2.0
  const DRAWDOWN_EXIT_PCT: real := 5.0
  const FEE_PER_TRADE_ETH: real := 0.0001
  const EPSILON: real := 1.0 / 4503599627370496.0

  function Pow2(n: nat): (p: real)
    ensures p >= 1.0
  {
    if n == 0 then 1.0 else 2.0 * Pow2(n - 1)
  }

  /** The lowest finite double, (2^53 - 1) * 2^971 below zero; the peak starts here. */
  const F64_MIN: real := -(9007199254740991.0 * Pow2(971))

  // -- Drawdown -------------------------------------------------------------

  function Max(a: real, b: real): real {
    if b > a then b else a
  }

  /** The fall from `high` to `low` in percent of `high`. */
  function Fall(high: real, low: real): real
    requires high > 0.0
  {
    (high - low) / high * 100.0
  }

  function Peak(curve: seq<real>): real {
    if |curve| == 0 then F64_MIN else Max(Peak(curve[..|curve| - 1]), curve[|curve| - 1])
  }

  function OnePass(curve: seq<real>): (dd: real)
    ensures dd >= 0.0
  {
    if |curve| == 0 then 0.0
    else
      var before := OnePass(curve[..|curve| - 1]);
      if Peak(curve) > 0.0 then Max(before, Fall(Peak(curve), curve[|curve| - 1])) else before
  }

  method MaxDrawdownPct(curve: seq<real>) returns (maxDd: real)
    ensures maxDd == OnePass(curve)
  {
    var peak := F64_MIN;
    maxDd := 0.0;
    for i := 0 to |curve|
      invariant peak == Peak(curve[..i])
      invariant maxDd == OnePass(curve[..i])
    {
      assert curve[..i + 1][..i] == curve[..i];
      if curve[i] > peak { peak := curve[i]; }
      if peak > 0.0 {
        var dd := Fall(peak, curve[i]);
        if dd > maxDd { maxDd := dd; }
      }
    }
    assert curve[..|curve|] == curve;
  }

  ghost predicate NonNegative(curve: seq<real>) {
    forall i :: 0 <= i < |curve| ==> curve[i] >= 0.0
  }

  /** A fall within the curve: from a positive value to one at the same place or later. */
  ghost predicate IsFall(curve: seq<real>, i: int, j: int) {
    0 <= i <= j < |curve| && curve[i] > 0.0
  }

  lemma ProductSign(a: real, b: real)
    requires b > 0.0
    ensures a >= 0.0 <==> a * b >= 0.0
    ensures a > 0.0 <==> a * b > 0.0
  {
  }

  /** A fall is the part of the start that is not left. */
  lemma FallIsRest(high: real, low: real)
    requires high > 0.0
    ensures Fall(high, low) == (1.0 - low / high) * 100.0
  {
    var u, q := (high - low) / high, low / high;
    assert u * high == high - low && q * high == low;
    assert (u + q - 1.0) * high == 0.0;
    ProductSign(u + q - 1.0, high);
    ProductSign(1.0 - u - q, high);
  }

  /** From a higher start the fall to the same non-negative value is no smaller. */
  lemma HigherStartFallsMore(a: real, p: real, x: real)
    requires 0.0 < a <= p && x >= 0.0
    ensures Fall(a, x) <= Fall(p, x)
  {
    FallIsRest(a, x);
    FallIsRest(p, x);
    var q, r := x / a, x / p;
    assert q * a == x == r * p;
    ProductSign(q, a);
    assert q >= 0.0;
    assert (q - r) * p == q * (p - a);
    ProductSign(q - r, p);
    if p > a { ProductSign(q, p - a); }
  }

  lemma {:induction false} PeakIsMax(curve: seq<real>)
    requires NonNegative(curve)
    ensures forall i :: 0 <= i < |curve| ==> curve[i] <= Peak(curve)
    ensures |curve| > 0 ==> exists i :: 0 <= i < |curve| && Peak(curve) == curve[i]
  {
    if |curve| > 0 {
      PeakIsMax(curve[..|curve| - 1]);
      var last := curve[|curve| - 1];
      if |curve| == 1 || Peak(curve[..|curve| - 1]) < last {
        assert Peak(curve) == curve[|curve| - 1];
      } else {
        var i :| 0 <= i < |curve| - 1 && Peak(curve[..|curve| - 1]) == curve[..|curve| - 1][i];
        assert Peak(curve) == curve[i];
      }
    }
  }

  /** On a curve without negative values, one pass finds the largest fall over all pairs. */
  lemma {:induction false} OnePassIsLargestFall(curve: seq<real>)
    requires NonNegative(curve)
    ensures forall i, j :: IsFall(curve, i, j) ==> Fall(curve[i], curve[j]) <= OnePass(curve)
    ensures OnePass(curve) == 0.0 || exists i, j :: IsFall(curve, i, j) && Fall(curve[i], curve[j]) == OnePass(curve)
  {
    if |curve| > 0 {
      var last := |curve| - 1;
      var before := curve[..last];
      OnePassIsLargestFall(before);
      PeakIsMax(curve);
      forall i, j | IsFall(curve, i, j)
        ensures Fall(curve[i], curve[j]) <= OnePass(curve)
      {
        if j < last {
          assert IsFall(before, i, j);
        } else {
          HigherStartFallsMore(curve[i], Peak(curve), curve[last]);
        }
      }
      if OnePass(curve) != 0.0 {
        if OnePass(curve) == OnePass(before) {
          var i, j :| IsFall(before, i, j) && Fall(before[i], before[j]) == OnePass(before);
          assert IsFall(curve, i, j);
        } else {
          var i :| 0 <= i < |curve| && Peak(curve) == curve[i];
          assert IsFall(curve, i, last);
        }
      }
    }
  }

  /** The drawdown is zero exactly when the curve never falls. */
  lemma {:induction false} ZeroWhenNeverFalling(curve: seq<real>)
    requires NonNegative(curve)
    ensures OnePass(curve) == 0.0 <==> forall i, j :: 0 <= i <= j < |curve| ==> curve[i] <= curve[j]
  {
    OnePassIsLargestFall(curve);
    if OnePass(curve) == 0.0 {
      forall i, j | 0 <= i <= j < |curve|
        ensures curve[i] <= curve[j]
      {
        if curve[i] > 0.0 {
          assert IsFall(curve, i, j);
          FallSign(curve[i], curve[j]);
        }
      }
    } else {
      var i, j :| IsFall(curve, i, j) && Fall(curve[i], curve[j]) == OnePass(curve);
      FallSign(curve[i], curve[j]);
    }
  }

  lemma FallSign(high: real, low: real)
    requires high > 0.0
    ensures Fall(high, low) > 0.0 <==> low < high
  {
    var q := (high - low) / high;
    assert q * high == high - low;
    ProductSign(q, high);
  }

  // -- Curves with negative values ------------------------------------------

  /** The largest fall over all pairs, taken from `i` to `j`. */
  ghost predicate LargestFall(curve: seq<real>, i: nat, j: nat) {
    IsFall(curve, i, j) && forall x, y :: IsFall(curve, x, y) ==> Fall(curve[x], curve[y]) <= Fall(curve[i], curve[j])
  }

  /** No pair falls by more than the pass reports. */
  ghost predicate FindsLargest(curve: seq<real>) {
    forall i, j :: IsFall(curve, i, j) ==> Fall(curve[i], curve[j]) <= OnePass(curve)
  }

  /** The value at `i` is the only positive one up to `j`, however often it occurs. */
  ghost predicate OnlyPositive(curve: seq<real>, i: nat, j: nat)
    requires i <= j < |curve|
  {
    forall k :: 0 <= k <= j && curve[k] > 0.0 ==> curve[k] == curve[i]
  }

  /** A positive peak is one of the values, and none exceeds it. */
  lemma {:induction false} PeakOf(curve: seq<real>, j: nat)
    requires j < |curve|
    ensures forall k :: 0 <= k <= j ==> curve[k] <= Peak(curve[..j + 1])
    ensures Peak(curve[..j + 1]) > 0.0 ==> exists i :: 0 <= i <= j && curve[i] == Peak(curve[..j + 1])
  {
    var upTo := curve[..j + 1];
    assert upTo[..j] == curve[..j] && upTo[j] == curve[j];
    if j > 0 {
      PeakOf(curve, j - 1);
      if Peak(curve[..j]) > 0.0 && Peak(upTo) == Peak(curve[..j]) {
        var i :| 0 <= i <= j - 1 && curve[i] == Peak(curve[..j]);
        assert curve[i] == Peak(upTo);
      }
    }
  }

  /** The pass reports the largest of the falls from the peak so far. */
  lemma {:induction false} PassIsFromPeaks(curve: seq<real>, n: nat)
    requires n <= |curve|
    ensures forall j :: 0 <= j < n && Peak(curve[..j + 1]) > 0.0 ==>
              Fall(Peak(curve[..j + 1]), curve[j]) <= OnePass(curve[..n])
    ensures OnePass(curve[..n]) == 0.0 || (exists j :: 0 <= j < n && Peak(curve[..j + 1]) > 0.0
                                                      && OnePass(curve[..n]) == Fall(Peak(curve[..j + 1]), curve[j]))
  {
    if n > 0 {
      PassIsFromPeaks(curve, n - 1);
      assert curve[..n][..n - 1] == curve[..n - 1];
      if OnePass(curve[..n]) != 0.0 && OnePass(curve[..n]) == OnePass(curve[..n - 1]) {
        var j :| 0 <= j < n - 1 && Peak(curve[..j + 1]) > 0.0
                 && OnePass(curve[..n - 1]) == Fall(Peak(curve[..j + 1]), curve[j]);
        assert Peak(curve[..j + 1]) > 0.0 && OnePass(curve[..n]) == Fall(Peak(curve[..j + 1]), curve[j]);
      } else if OnePass(curve[..n]) != 0.0 {
        assert Peak(curve[..n - 1 + 1]) > 0.0 && OnePass(curve[..n]) == Fall(Peak(curve[..n - 1 + 1]), curve[n - 1]);
      }
    }
  }

  /** A fall exceeds one hundred per cent exactly when it ends below zero. */
  lemma BelowZero(high: real, low: real)
    requires high > 0.0
    ensures Fall(high, low) > 100.0 <==> low < 0.0
  {
    FallIsRest(high, low);
    var q := low / high;
    assert q * high == low;
    ProductSign(q, high);
    ProductSign(-q, high);
  }

  /** A fall to a negative value is the larger the lower it starts. */
  lemma LowerStartFallsMore(a: real, b: real, low: real)
    requires 0.0 < a && 0.0 < b && low < 0.0
    ensures Fall(a, low) <= Fall(b, low) <==> b <= a
  {
    FallIsRest(a, low);
    FallIsRest(b, low);
    var p, q := low / a, low / b;
    assert p * a == low && q * b == low;
    QuotientOrder(p, q, a, b, low);
  }

  lemma QuotientOrder(p: real, q: real, a: real, b: real, low: real)
    requires 0.0 < a && 0.0 < b && low < 0.0 && p * a == low && q * b == low
    ensures p >= q <==> b <= a
  {
    ProductSign(-q, b);
    assert q < 0.0;
    assert (p - q) * a == q * (b - a);
    ProductSign(p - q, a);
    ProductSign(q - p, a);
    ProductSign(b - a, -q);
    ProductSign(a - b, -q);
    assert q * (b - a) == (a - b) * (-q);
  }

  /**
   * On a curve that falls below zero the pass is right exactly when some largest fall starts from
   * the only positive value there was up to its end.
   */
  lemma {:induction false} OnePassIsRightWhen(curve: seq<real>)
    requires exists i, j :: IsFall(curve, i, j) && curve[j] < 0.0
    ensures FindsLargest(curve) <==> exists i, j :: LargestFall(curve, i, j) && OnlyPositive(curve, i, j)
  {
    assert curve[..|curve|] == curve;
    PassIsFromPeaks(curve, |curve|);
    if FindsLargest(curve) { RightStartsAlone(curve); }
    if i, j :| LargestFall(curve, i, j) && OnlyPositive(curve, i, j) {
      PeakOf(curve, j);
    }
  }

  lemma RightStartsAlone(curve: seq<real>)
    requires FindsLargest(curve) && exists i, j :: IsFall(curve, i, j) && curve[j] < 0.0
    ensures exists i, j :: LargestFall(curve, i, j) && OnlyPositive(curve, i, j)
  {
    assert curve[..|curve|] == curve;
    PassIsFromPeaks(curve, |curve|);
    var x, y :| IsFall(curve, x, y) && curve[y] < 0.0;
    BelowZero(curve[x], curve[y]);
    var j :| 0 <= j < |curve| && Peak(curve[..j + 1]) > 0.0 && OnePass(curve) == Fall(Peak(curve[..j + 1]), curve[j]);
    PeakOf(curve, j);
    var i :| 0 <= i <= j && curve[i] == Peak(curve[..j + 1]);
    BelowZero(curve[i], curve[j]);
    assert LargestFall(curve, i, j);
    forall k | 0 <= k <= j && curve[k] > 0.0
      ensures curve[k] == curve[i]
    {
      assert IsFall(curve, k, j);
      LowerStartFallsMore(curve[k], curve[i], curve[j]);
    }
  }

  /** So it can miss it: from 1 to -1 is a larger fall than from 2 to -1. */
  lemma NegativeValuesDefeatOnePass()
    ensures OnePass([1.0, 2.0, -1.0]) == 150.0 < Fall(1.0, -1.0)
  {
    assert [1.0, 2.0, -1.0][..2] == [1.0, 2.0];
    assert [1.0, 2.0][..1] == [1.0];
    assert [1.0][..0] == [];
    assert Peak([1.0]) == 1.0;
    assert Peak([1.0, 2.0]) == 2.0;
    assert Peak([1.0, 2.0, -1.0]) == 2.0;
    assert Fall(2.0, -1.0) == 150.0;
    assert OnePass([1.0, 2.0]) == 0.0;
  }

  // -- Rules mode -----------------------------------------------------------

  datatype Bar = Bar(date: nat, apy: real, price: real)

  datatype Position = Flat | Open(entryCapital: real, peakPrice: real)

  /** `trades` keeps each closed trade's pnl fraction; None where the division has no value. */
  datatype Sim = Sim(capital: real, position: Position, trades: seq<Option<real>>, curve: seq<real>)

  const SimStart: Sim := Sim(CAPITAL_START, Flat, [], [])

  function DailyFactor(apy: real): real {
    1.0 + apy / 100.0 / 365.0
  }

  function PnlFrac(capital: real, entry: real): Option<real> {
    if entry == 0.0 then None else Some((capital - entry) / entry)
  }

  predicate ExitSignal(peak: real, bar: Bar) {
    || (peak - bar.price) / Max(peak, EPSILON) * 100.0 >= DRAWDOWN_EXIT_PCT
    || bar.apy < APY_EXIT_PCT
  }

  function Close(s: Sim): Sim {
    match s.position
    case Flat => s
    case Open(entry, _) => s.(position := Flat, trades := s.trades + [PnlFrac(s.capital, entry)])
  }

  function Accrue(s: Sim, bar: Bar): Sim {
    match s.position
    case Flat => s
    case Open(entry, peak) =>
      s.(capital := s.capital * DailyFactor(bar.apy), position := Open(entry, Max(peak, bar.price)))
  }

  function Step(s: Sim, bar: Bar, minApy: real): Sim {
    var accrued := Accrue(s, bar);
    var exited := if accrued.position.Open? && ExitSignal(accrued.position.peakPrice, bar)
                  then Close(accrued) else accrued;
    var entered := if exited.position.Flat? && bar.apy >= minApy
                   then exited.(position := Open(exited.capital, bar.price)) else exited;
    entered.(curve := entered.curve + [entered.capital])
  }

  function Simulate(bars: seq<Bar>, minApy: real): Sim {
    if |bars| == 0 then SimStart else Step(Simulate(bars[..|bars| - 1], minApy), bars[|bars| - 1], minApy)
  }

  function Wins(trades: seq<Option<real>>): nat {
    if |trades| == 0 then 0
    else Wins(trades[..|trades| - 1])
         + var t := trades[|trades| - 1]; if t.Some? && t.value > 0.0 then 1 else 0
  }

  lemma NoTradesNoWins()
    ensures Wins([]) == 0
  {
  }

  lemma WinsAppend(trades: seq<Option<real>>, t: Option<real>)
    ensures Wins(trades + [t]) == Wins(trades) + if t.Some? && t.value > 0.0 then 1 else 0
  {
    assert (trades + [t])[..|trades|] == trades;
  }

  datatype BacktestResult = BacktestResult(
    pnlEth: real, pnlPct: real, maxDrawdownPct: real, winRatePct: real,
    totalTrades: nat, feeEstimateEth: real, curve: seq<real>)

  function BuildResult(
      start: real, end: real, totalTrades: nat, wins: nat, curve: seq<real>, maxDd: real): BacktestResult
  {
    BacktestResult(
      end - start,
      if start > 0.0 then (end - start) / start * 100.0 else 0.0,
      maxDd,
      if totalTrades > 0 then wins as real / totalTrades as real * 100.0 else 0.0,
      totalTrades, totalTrades as real * FEE_PER_TRADE_ETH, curve)
  }

  method RunRulesMode(bars: seq<Bar>, minApy: real) returns (r: BacktestResult)
    ensures var s := Close(Simulate(bars, minApy));
            r == BuildResult(CAPITAL_START, s.capital, |s.trades|, Wins(s.trades), s.curve, OnePass(s.curve))
  {
    hide ExitSignal, DailyFactor, PnlFrac, BuildResult, OnePass, Wins;
    NoTradesNoWins();
    var capital, curve := CAPITAL_START, [];
    var open: Position := Flat;
    var totalTrades, wins := 0, 0;
    ghost var trades: seq<Option<real>> := [];
    for i := 0 to |bars|
      invariant Simulate(bars[..i], minApy) == Sim(capital, open, trades, curve)
      invariant totalTrades == |trades| && wins == Wins(trades)
    {
      var bar := bars[i];
      assert bars[..i + 1][..i] == bars[..i];
      ghost var accrued := Accrue(Sim(capital, open, trades, curve), bar);
      if open.Open? {
        capital := capital * DailyFactor(bar.apy);
        if bar.price > open.peakPrice { open := open.(peakPrice := bar.price); }
      }
      assert Sim(capital, open, trades, curve) == accrued;
      if open.Open? && ExitSignal(open.peakPrice, bar) {
        var pnl := PnlFrac(capital, open.entryCapital);
        open := Flat;
        totalTrades := totalTrades + 1;
        if pnl.Some? && pnl.value > 0.0 { wins := wins + 1; }
        WinsAppend(trades, pnl);
        trades := trades + [pnl];
        assert Sim(capital, open, trades, curve) == Close(accrued);
      }
      if open.Flat? && bar.apy >= minApy {
        open := Open(capital, bar.price);
      }
      curve := curve + [capital];
      assert Sim(capital, open, trades, curve) == Step(Simulate(bars[..i], minApy), bar, minApy);
    }
    assert bars[..|bars|] == bars;
    if open.Open? {
      var pnl := PnlFrac(capital, open.entryCapital);
      totalTrades := totalTrades + 1;
      if pnl.Some? && pnl.value > 0.0 { wins := wins + 1; }
      WinsAppend(trades, pnl);
      trades := trades + [pnl];
    }
    var maxDd := MaxDrawdownPct(curve);
    r := BuildResult(CAPITAL_START, capital, totalTrades, wins, curve, maxDd);
  }

  // -- The same simulation as a signal and a product ------------------------

  /** Whether a position is held, and its peak price: prices and APYs decide, never the capital. */
  datatype Signal = Idle | Held(peak: real)

  function NextSignal(g: Signal, bar: Bar, minApy: real): Signal {
    var seen := if g.Held? then Held(Max(g.peak, bar.price)) else Idle;
    var left := if seen.Held? && ExitSignal(seen.peak, bar) then Idle else seen;
    if left.Idle? && bar.apy >= minApy then Held(bar.price) else left
  }

  function SignalAfter(bars: seq<Bar>, minApy: real): Signal {
    if |bars| == 0 then Idle else NextSignal(SignalAfter(bars[..|bars| - 1], minApy), bars[|bars| - 1], minApy)
  }

  /** The product of the daily factors of the bars entered with an open position. */
  function Growth(bars: seq<Bar>, minApy: real): real {
    if |bars| == 0 then 1.0
    else
      Growth(bars[..|bars| - 1], minApy)
      * if SignalAfter(bars[..|bars| - 1], minApy).Held? then DailyFactor(bars[|bars| - 1].apy) else 1.0
  }

  /** A position is opened on this bar, by a first entry or right after an exit. */
  predicate Enters(g: Signal, bar: Bar, minApy: real) {
    && bar.apy >= minApy
    && (g.Held? ==> ExitSignal(Max(g.peak, bar.price), bar))
  }

  function Entries(bars: seq<Bar>, minApy: real): nat {
    if |bars| == 0 then 0
    else Entries(bars[..|bars| - 1], minApy)
         + if Enters(SignalAfter(bars[..|bars| - 1], minApy), bars[|bars| - 1], minApy) then 1 else 0
  }

  function SignalOf(p: Position): Signal {
    match p case Flat => Idle case Open(_, peak) => Held(peak)
  }

  /** One bar moves signal, capital and trade count independently of one another. */
  lemma StepIsSignal(s: Sim, bar: Bar, minApy: real)
    ensures var g := SignalOf(s.position); var s' := Step(s, bar, minApy);
            && SignalOf(s'.position) == NextSignal(g, bar, minApy)
            && s'.capital == s.capital * (if g.Held? then DailyFactor(bar.apy) else 1.0)
            && |Close(s').trades| == |Close(s).trades| + (if Enters(g, bar, minApy) then 1 else 0)
            && |s'.curve| == |s.curve| + 1
  {
    hide ExitSignal, DailyFactor;
  }

  lemma Regroup(a: real, b: real, c: real)
    ensures a * b * c == a * (b * c)
  {
  }

  /** Final capital is the start times the growth of the held days, and each entry is one trade. */
  lemma {:induction false} SimulationIsGrowth(bars: seq<Bar>, minApy: real)
    ensures var s := Simulate(bars, minApy);
            && SignalOf(s.position) == SignalAfter(bars, minApy)
            && s.capital == CAPITAL_START * Growth(bars, minApy)
            && |s.curve| == |bars|
            && |Close(s).trades| == Entries(bars, minApy)
            && Close(s).capital == s.capital && Close(s).curve == s.curve
  {
    hide NextSignal, Step, DailyFactor, Enters, PnlFrac;
    if |bars| > 0 {
      var before, bar := bars[..|bars| - 1], bars[|bars| - 1];
      SimulationIsGrowth(before, minApy);
      StepIsSignal(Simulate(before, minApy), bar, minApy);
      Regroup(CAPITAL_START, Growth(before, minApy),
              if SignalAfter(before, minApy).Held? then DailyFactor(bar.apy) else 1.0);
    }
  }

  function Compounded(trades: seq<Option<real>>): real {
    if |trades| == 0 then 1.0
    else Compounded(trades[..|trades| - 1])
         * var t := trades[|trades| - 1]; if t.Some? then 1.0 + t.value else 1.0
  }

  /** Capital is what the closed trades compounded to, times the open one's growth so far. */
  ghost predicate Accounted(s: Sim) {
    && s.capital > 0.0
    && (forall i :: 0 <= i < |s.trades| ==> s.trades[i].Some?)
    && match s.position
       case Flat => CAPITAL_START * Compounded(s.trades) == s.capital
       case Open(entry, _) => entry > 0.0 && CAPITAL_START * Compounded(s.trades) == entry
  }

  lemma CloseAccounts(s: Sim)
    requires Accounted(s)
    ensures Accounted(Close(s)) && Close(s).position == Flat
  {
    if s.position.Open? {
      var pnl := PnlFrac(s.capital, s.position.entryCapital);
      var trades := s.trades + [pnl];
      assert trades[..|s.trades|] == s.trades;
      OnePlusPnl(s.capital, s.position.entryCapital);
    }
  }

  lemma OnePlusPnl(capital: real, entry: real)
    requires entry > 0.0
    ensures PnlFrac(capital, entry).Some? && entry * (1.0 + PnlFrac(capital, entry).value) == capital
  {
    var f := (capital - entry) / entry;
    assert f * entry == capital - entry;
  }

  lemma PositiveProduct(a: real, b: real)
    requires a > 0.0 && b > 0.0
    ensures a * b > 0.0
  {
  }

  lemma StepAccounts(s: Sim, bar: Bar, minApy: real)
    requires Accounted(s) && DailyFactor(bar.apy) > 0.0
    ensures Accounted(Step(s, bar, minApy))
  {
    hide ExitSignal, Compounded, PnlFrac, DailyFactor;
    PositiveProduct(s.capital, DailyFactor(bar.apy));
    assert Accounted(Accrue(s, bar));
    CloseAccounts(Accrue(s, bar));
  }

  lemma {:induction false} SimulationAccounts(bars: seq<Bar>, minApy: real)
    requires forall i :: 0 <= i < |bars| ==> DailyFactor(bars[i].apy) > 0.0
    ensures Accounted(Simulate(bars, minApy))
  {
    hide Step, DailyFactor;
    if |bars| > 0 {
      SimulationAccounts(bars[..|bars| - 1], minApy);
      StepAccounts(Simulate(bars[..|bars| - 1], minApy), bars[|bars| - 1], minApy);
    }
  }

  /** With positive daily factors, the closed trades compound exactly to final over start capital. */
  lemma TradesCompoundToCapital(bars: seq<Bar>, minApy: real)
    requires forall i :: 0 <= i < |bars| ==> DailyFactor(bars[i].apy) > 0.0
    ensures var s := Close(Simulate(bars, minApy));
            && s.capital == CAPITAL_START * Compounded(s.trades)
            && |s.trades| == Entries(bars, minApy)
            && (forall i :: 0 <= i < |s.trades| ==> s.trades[i].Some?)
  {
    SimulationAccounts(bars, minApy);
    CloseAccounts(Simulate(bars, minApy));
    SimulationIsGrowth(bars, minApy);
  }

  // -- Runs that go below zero ----------------------------------------------

  /** A position with positive capital meets a yield so low that its daily factor is negative. */
  predicate Breaks(bars: seq<Bar>, i: nat, minApy: real)
    requires i < |bars|
  {
    SignalAfter(bars[..i], minApy).Held? && Growth(bars[..i], minApy) > 0.0 && DailyFactor(bars[i].apy) < 0.0
  }

  ghost predicate NoneBreaks(bars: seq<Bar>, minApy: real) {
    forall i :: 0 <= i < |bars| ==> !Breaks(bars, i, minApy)
  }

  /** A run's curve has a negative value exactly when some bar does that; else the pass measures it exactly. */
  lemma {:induction false} RunGoesNegativeWhen(bars: seq<Bar>, minApy: real)
    ensures NonNegative(Simulate(bars, minApy).curve) <==> NoneBreaks(bars, minApy)
    ensures NonNegative(Simulate(bars, minApy).curve) ==> Growth(bars, minApy) >= 0.0
  {
    hide Step, Growth, Breaks;
    if |bars| > 0 {
      var last := |bars| - 1;
      var before, s, s' := bars[..last], Simulate(bars[..last], minApy), Simulate(bars, minApy);
      RunGoesNegativeWhen(before, minApy);
      SimulationIsGrowth(bars, minApy);
      StepAppends(s, bars[last], minApy);
      NonNegativeAppend(s.curve, s'.capital);
      PrefixBreaks(before, bars[last], minApy);
      assert before + [bars[last]] == bars;
      if NonNegative(s.curve) { LastFactor(before, bars[last], minApy); }
    } else {
      NoGrowthYet(minApy);
    }
  }

  lemma NoGrowthYet(minApy: real)
    ensures Growth([], minApy) == 1.0
  {
  }

  lemma StepAppends(s: Sim, bar: Bar, minApy: real)
    ensures Step(s, bar, minApy).curve == s.curve + [Step(s, bar, minApy).capital]
  {
  }

  lemma NonNegativeAppend(curve: seq<real>, x: real)
    ensures NonNegative(curve + [x]) <==> NonNegative(curve) && x >= 0.0
  {
    if NonNegative(curve + [x]) {
      assert forall i :: 0 <= i < |curve| ==> (curve + [x])[i] == curve[i];
      assert (curve + [x])[|curve|] == x;
    }
  }

  lemma PrefixBreaks(before: seq<Bar>, bar: Bar, minApy: real)
    ensures NoneBreaks(before + [bar], minApy) <==>
            NoneBreaks(before, minApy) && !Breaks(before + [bar], |before|, minApy)
  {
    hide SignalAfter, Growth;
    var bars := before + [bar];
    assert forall i :: 0 <= i < |before| ==> bars[..i] == before[..i] && bars[i] == before[i];
    assert forall i :: 0 <= i < |before| ==> (Breaks(bars, i, minApy) <==> Breaks(before, i, minApy));
  }

  /** From non-negative capital the last bar leads below zero exactly when it breaks. */
  lemma LastFactor(before: seq<Bar>, bar: Bar, minApy: real)
    requires Growth(before, minApy) >= 0.0
    ensures Growth(before + [bar], minApy) < 0.0 <==> Breaks(before + [bar], |before|, minApy)
  {
    hide DailyFactor, SignalAfter;
    var bars := before + [bar];
    assert bars[..|before|] == before && bars[..|bars| - 1] == before && bars[|before|] == bar;
    assert Growth(bars, minApy)
           == Growth(before, minApy) * if SignalAfter(before, minApy).Held? then DailyFactor(bar.apy) else 1.0;
    NegativeProduct(Growth(before, minApy), DailyFactor(bar.apy));
  }

  lemma NegativeProduct(g: real, f: real)
    requires g >= 0.0
    ensures g * f < 0.0 <==> g > 0.0 && f < 0.0
  {
    if g > 0.0 { ProductSign(f, g); }
  }

  /** Whatever the entry threshold, three bars of unchanged price give the curve that defeats the pass. */
  lemma RunDefeatsOnePass(minApy: real, price: real)
    requires price > 0.0
    ensures var bars := [Bar(0, minApy, price), Bar(1, 36500.0, price), Bar(2, -54750.0, price)];
            Simulate(bars, minApy).curve == [1.0, 2.0, -1.0]
  {
    var bars := [Bar(0, minApy, price), Bar(1, 36500.0, price), Bar(2, -54750.0, price)];
    assert bars[..2][..1] == bars[..1] && bars[..1][..0] == [];
    assert Simulate(bars[..1], minApy) == Sim(1.0, Open(1.0, price), [], [1.0]);
    assert bars[..2][1] == bars[1];
    assert Simulate(bars[..2], minApy).capital == 2.0 && Simulate(bars[..2], minApy).curve == [1.0, 2.0];
  }

  // -- Non-negative APYs ----------------------------------------------------

  ghost predicate Rising(curve: seq<real>) {
    forall i, j :: 0 <= i <= j < |curve| ==> curve[i] <= curve[j]
  }

  /** Capital, open position and closed trades are all at or above where they started. */
  ghost predicate Ahead(s: Sim) {
    && CAPITAL_START <= s.capital
    && (s.position.Open? ==> CAPITAL_START <= s.position.entryCapital <= s.capital)
    && (forall i :: 0 <= i < |s.trades| ==> s.trades[i].Some? && s.trades[i].value >= 0.0)
  }

  ghost predicate RisesTo(curve: seq<real>, capital: real) {
    && Rising(curve)
    && (forall i :: 0 <= i < |curve| ==> 0.0 <= curve[i] <= capital)
  }

  lemma GrowsBy(capital: real, apy: real)
    requires capital >= 0.0 && apy >= 0.0
    ensures capital * DailyFactor(apy) >= capital
  {
    var y := apy / 100.0 / 365.0;
    assert y >= 0.0;
    assert capital * (1.0 + y) == capital + capital * y;
  }

  lemma CloseStaysAhead(s: Sim)
    requires Ahead(s)
    ensures Ahead(Close(s))
  {
    if s.position.Open? {
      GainSign(s.capital, s.position.entryCapital);
    }
  }

  lemma GainSign(capital: real, entry: real)
    requires 0.0 < entry <= capital
    ensures PnlFrac(capital, entry).Some? && PnlFrac(capital, entry).value >= 0.0
  {
    var f := (capital - entry) / entry;
    assert f * entry == capital - entry;
    ProductSign(f, entry);
  }

  lemma AccrueStaysAhead(s: Sim, bar: Bar)
    requires Ahead(s) && bar.apy >= 0.0
    ensures Ahead(Accrue(s, bar)) && s.capital <= Accrue(s, bar).capital && Accrue(s, bar).curve == s.curve
  {
    hide DailyFactor;
    if s.position.Open? {
      var c' := s.capital * DailyFactor(bar.apy);
      assert c' >= s.capital by { GrowsBy(s.capital, bar.apy); }
    }
  }

  lemma StepStaysAhead(s: Sim, bar: Bar, minApy: real)
    requires Ahead(s) && bar.apy >= 0.0
    ensures Ahead(Step(s, bar, minApy)) && s.capital <= Step(s, bar, minApy).capital
    ensures Step(s, bar, minApy).curve == s.curve + [Step(s, bar, minApy).capital]
  {
    hide ExitSignal, PnlFrac, Accrue;
    AccrueStaysAhead(s, bar);
    var accrued := Accrue(s, bar);
    CloseStaysAhead(accrued);
    assert Step(s, bar, minApy).capital == accrued.capital;
  }

  lemma {:induction false} SimulationStaysAhead(bars: seq<Bar>, minApy: real)
    requires forall i :: 0 <= i < |bars| ==> bars[i].apy >= 0.0
    ensures var s := Simulate(bars, minApy); Ahead(s) && RisesTo(s.curve, s.capital)
  {
    hide Step;
    if |bars| > 0 {
      SimulationStaysAhead(bars[..|bars| - 1], minApy);
      StepStaysAhead(Simulate(bars[..|bars| - 1], minApy), bars[|bars| - 1], minApy);
    }
  }

  /** Non-negative APYs force a rising curve: no drawdown, no loss, no losing trade. */
  lemma NonNegativeApysNeverLose(bars: seq<Bar>, minApy: real)
    requires forall i :: 0 <= i < |bars| ==> bars[i].apy >= 0.0
    ensures var s := Close(Simulate(bars, minApy));
            && OnePass(s.curve) == 0.0
            && s.capital - CAPITAL_START >= 0.0
            && (forall i :: 0 <= i < |s.trades| ==> s.trades[i].Some? && s.trades[i].value >= 0.0)
  {
    SimulationStaysAhead(bars, minApy);
    var s := Simulate(bars, minApy);
    CloseStaysAhead(s);
    ZeroWhenNeverFalling(s.curve);
  }

  // -- Series alignment -----------------------------------------------------

  datatype Sample = Sample(date: nat, value: real)

  /** Collecting into a map keeps the last sample of a date. */
  function LastOn(s: seq<Sample>, date: nat): Option<real> {
    if |s| == 0 then None
    else if s[|s| - 1].date == date then Some(s[|s| - 1].value)
    else LastOn(s[..|s| - 1], date)
  }

  ghost predicate Collected(m: map<nat, real>, s: seq<Sample>) {
    forall d: nat :: (d in m <==> LastOn(s, d).Some?) && (d in m ==> LastOn(s, d) == Some(m[d]))
  }

  method Collect(s: seq<Sample>) returns (m: map<nat, real>)
    ensures Collected(m, s)
  {
    m := map[];
    for i := 0 to |s|
      invariant Collected(m, s[..i])
    {
      assert s[..i + 1][..i] == s[..i];
      m := m[s[i].date := s[i].value];
    }
    assert s[..|s|] == s;
  }

  lemma {:induction false} HasLeast(s: set<nat>)
    requires s != {}
    ensures exists x :: x in s && forall y :: y in s ==> x <= y
  {
    var x :| x in s;
    var below := set y | y in s && y < x;
    var least := x;
    if below != {} {
      assert x !in below;
      HasLeast(below);
      least :| least in below && forall y :: y in below ==> least <= y;
    }
    forall y | y in s
      ensures least <= y
    {
      if y < x { assert y in below; }
    }
  }

  ghost predicate DateOrdered(bars: seq<Bar>) {
    forall i, j :: 0 <= i < j < |bars| ==> bars[i].date < bars[j].date
  }

  /** The bars of exactly the dates in both maps that are not left to do. */
  ghost predicate Joined(bars: seq<Bar>, apys: map<nat, real>, prices: map<nat, real>, todo: set<nat>) {
    forall b :: b in bars <==> JoinedBar(b, apys, prices) && b.date !in todo
  }

  predicate JoinedBar(b: Bar, apys: map<nat, real>, prices: map<nat, real>) {
    b.date in apys && b.date in prices && b.apy == apys[b.date] && b.price == prices[b.date]
  }

  lemma JoinDate(bars: seq<Bar>, apys: map<nat, real>, prices: map<nat, real>, todo: set<nat>, date: nat)
    requires Joined(bars, apys, prices, todo) && date in todo && date in apys
    ensures var bars' := if date in prices then bars + [Bar(date, apys[date], prices[date])] else bars;
            Joined(bars', apys, prices, todo - {date})
  {
  }

  ghost predicate AllBefore(bars: seq<Bar>, date: nat) {
    forall i :: 0 <= i < |bars| ==> bars[i].date < date
  }

  lemma NextDate(bars: seq<Bar>, bar: Bar, later: set<nat>)
    requires DateOrdered(bars) && AllBefore(bars, bar.date)
    requires forall d :: d in later ==> AllBefore(bars, d) && bar.date < d
    ensures DateOrdered(bars + [bar]) && forall d :: d in later ==> AllBefore(bars + [bar], d)
  {
  }

  /** Walks the first map in key order and keeps the dates the second has too. */
  method Join(apys: map<nat, real>, prices: map<nat, real>) returns (bars: seq<Bar>)
    ensures DateOrdered(bars)
    ensures forall b :: b in bars <==> JoinedBar(b, apys, prices)
  {
    bars := [];
    var todo := apys.Keys;
    while todo != {}
      invariant todo <= apys.Keys
      invariant DateOrdered(bars)
      invariant forall d :: d in todo ==> AllBefore(bars, d)
      invariant Joined(bars, apys, prices, todo)
      decreases todo
    {
      hide Joined, AllBefore, DateOrdered, JoinedBar;
      HasLeast(todo);
      var date :| date in todo && forall d :: d in todo ==> date <= d;
      JoinDate(bars, apys, prices, todo, date);
      todo := todo - {date};
      if date in prices {
        NextDate(bars, Bar(date, apys[date], prices[date]), todo);
        bars := bars + [Bar(date, apys[date], prices[date])];
      }
    }
  }

  /** One bar per date present in both series, in date order, each with that date's last values. */
  method ZipSeries(apy: seq<Sample>, price: seq<Sample>) returns (bars: seq<Bar>)
    ensures DateOrdered(bars)
    ensures forall b :: b in bars <==>
              LastOn(apy, b.date) == Some(b.apy) && LastOn(price, b.date) == Some(b.price)
  {
    var apyMap := Collect(apy);
    var priceMap := Collect(price);
    bars := Join(apyMap, priceMap);
  }
}
