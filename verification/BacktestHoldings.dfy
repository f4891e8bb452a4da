/** When the rules-mode backtest holds a position, bar by bar and over a whole run. */
module BacktestHoldings {
  import opened Wrappers
  import opened Backtest

  /** Down five per cent of the peak is down a twentieth of it, for every peak however small. */
  lemma ExitsWhen(peak: real, bar: Bar)
    ensures ExitSignal(peak, bar) <==>
            || bar.apy < 2.0
            || 20.0 * (peak - bar.price) >= if peak > EPSILON then peak else EPSILON
  {
    var unit := Max(peak, EPSILON);
    var part := (peak - bar.price) / unit;
    assert part * unit == peak - bar.price;
    PartOf(part, unit);
  }

  lemma PartOf(part: real, unit: real)
    requires unit > 0.0
    ensures part * 100.0 >= 5.0 <==> 20.0 * (part * unit) >= unit
  {
    var rest := 20.0 * part - 1.0;
    assert 20.0 * (part * unit) - unit == rest * unit;
    assert rest >= 0.0 ==> rest * unit >= 0.0;
    assert rest < 0.0 ==> rest * unit < 0.0;
  }

  /**
   * One bar for an open position: it earns the day's yield; it is closed, as one trade, exactly when
   * the yield is below two per cent or the price a twentieth below its peak since the entry; and on
   * the same bar it is opened again when the yield reaches the threshold.
   */
  lemma OpenBar(s: Sim, bar: Bar, minApy: real)
    requires s.position.Open?
    ensures var s', entry := Step(s, bar, minApy), s.position.entryCapital;
            var peak := if bar.price > s.position.peakPrice then bar.price else s.position.peakPrice;
            var capital := s.capital * (1.0 + bar.apy / 100.0 / 365.0);
            && s'.capital == capital && s'.curve == s.curve + [capital]
            && if bar.apy < 2.0 || 20.0 * (peak - bar.price) >= (if peak > EPSILON then peak else EPSILON) then
                 && s'.position == (if bar.apy >= minApy then Open(capital, bar.price) else Flat)
                 && s'.trades == s.trades + [if entry == 0.0 then None else Some((capital - entry) / entry)]
               else
                 s'.position == Open(entry, peak) && s'.trades == s.trades
  {
    var peak := Max(s.position.peakPrice, bar.price);
    ExitsWhen(peak, bar);
  }

  /** One bar without a position: it is opened exactly when the yield reaches the threshold. */
  lemma FlatBar(s: Sim, bar: Bar, minApy: real)
    requires s.position.Flat?
    ensures Step(s, bar, minApy) ==
            Sim(s.capital, if bar.apy >= minApy then Open(s.capital, bar.price) else Flat,
                s.trades, s.curve + [s.capital])
  {
  }

  // -- Over a run -----------------------------------------------------------

  /** From the bar after `i` on no yield is below two per cent, and no price a twentieth below an earlier one. */
  ghost predicate KeptFrom(bars: seq<Bar>, i: nat) {
    && (forall j :: i < j < |bars| ==> bars[j].apy >= 2.0)
    && forall k, j :: i <= k < j < |bars| ==>
         20.0 * (bars[k].price - bars[j].price) < if bars[k].price > EPSILON then bars[k].price else EPSILON
  }

  /** Bar `i` opens a position: a new trade starts with it. */
  predicate OpenedAt(bars: seq<Bar>, i: nat, minApy: real)
    requires i < |bars|
  {
    Entries(bars[..i + 1], minApy) > Entries(bars[..i], minApy)
  }

  lemma OpenedIsEnters(bars: seq<Bar>, i: nat, minApy: real)
    requires i < |bars|
    ensures OpenedAt(bars, i, minApy) <==> Enters(SignalAfter(bars[..i], minApy), bars[i], minApy)
  {
    hide Enters, SignalAfter;
    assert bars[..i + 1][..i] == bars[..i];
  }

  /** `peak` is the highest price from bar `i` on. */
  ghost predicate PeakFrom(bars: seq<Bar>, i: nat, peak: real) {
    && (forall k :: i <= k < |bars| ==> bars[k].price <= peak)
    && exists k :: i <= k < |bars| && bars[k].price == peak
  }

  /** No exit at the last bar is the same as no fall from any earlier price since the entry. */
  lemma KeptSnoc(before: seq<Bar>, bar: Bar, i: nat, peak: real)
    requires i < |before| && KeptFrom(before, i) && PeakFrom(before, i, peak)
    ensures KeptFrom(before + [bar], i) <==> !ExitSignal(Max(peak, bar.price), bar)
    ensures PeakFrom(before + [bar], i, Max(peak, bar.price))
  {
    hide ExitSignal;
    ExitsWhen(Max(peak, bar.price), bar);
    var bars := before + [bar];
    var top :| i <= top < |before| && before[top].price == peak;
    assert bars[top] == before[top] && bars[|before|] == bar;
    if ExitSignal(Max(peak, bar.price), bar) {
      assert !KeptFrom(bars, i);
    } else {
      forall k, j | i <= k < j < |bars|
        ensures 20.0 * (bars[k].price - bars[j].price) < if bars[k].price > EPSILON then bars[k].price else EPSILON
      {
        assert bars[k] == before[k];
        if j < |before| { assert bars[j] == before[j]; }
      }
    }
  }

  lemma FromEarlier(before: seq<Bar>, bar: Bar, i: nat, minApy: real)
    requires i < |before| && KeptFrom(before + [bar], i) && OpenedAt(before + [bar], i, minApy)
    ensures KeptFrom(before, i) && OpenedAt(before, i, minApy)
  {
    hide Entries;
    var bars := before + [bar];
    assert bars[..i + 1] == before[..i + 1] && bars[..i] == before[..i];
    assert forall k :: 0 <= k < |before| ==> bars[k] == before[k];
  }

  lemma PeakNow(bars: seq<Bar>)
    requires bars != []
    ensures PeakFrom(bars, |bars| - 1, bars[|bars| - 1].price)
  {
  }

  /** A bar that opens a position from which nothing exits leaves it open, with the peak since. */
  lemma {:induction false} HeldFrom(bars: seq<Bar>, i: nat, minApy: real) returns (peak: real)
    requires i < |bars| && OpenedAt(bars, i, minApy) && KeptFrom(bars, i)
    ensures SignalAfter(bars, minApy) == Held(peak) && PeakFrom(bars, i, peak)
  {
    hide OpenedAt, ExitSignal, KeptFrom, PeakFrom;
    var before, bar := bars[..|bars| - 1], bars[|bars| - 1];
    assert bars == before + [bar];
    if i == |before| {
      OpenedIsEnters(bars, i, minApy);
      peak := bar.price;
      PeakNow(bars);
    } else {
      FromEarlier(before, bar, i, minApy);
      var was := HeldFrom(before, i, minApy);
      KeptSnoc(before, bar, i, was);
      peak := Max(was, bar.price);
    }
  }

  lemma {:induction false} HeldSince(bars: seq<Bar>, minApy: real) returns (i: nat)
    requires SignalAfter(bars, minApy).Held?
    ensures i < |bars| && OpenedAt(bars, i, minApy) && KeptFrom(bars, i)
    ensures PeakFrom(bars, i, SignalAfter(bars, minApy).peak)
  {
    hide OpenedAt, ExitSignal;
    var before, bar := bars[..|bars| - 1], bars[|bars| - 1];
    assert bars == before + [bar];
    if Enters(SignalAfter(before, minApy), bar, minApy) {
      i := |before|;
      OpenedIsEnters(bars, i, minApy);
    } else {
      i := HeldSince(before, minApy);
      KeptSnoc(before, bar, i, SignalAfter(before, minApy).peak);
      OpenedIsEnters(before, i, minApy);
      assert bars[..i] == before[..i] && bars[i] == before[i];
      OpenedIsEnters(bars, i, minApy);
    }
  }

  /**
   * After any bars a position is open exactly when some bar opened one and none since has a yield
   * below two per cent or a price a twentieth or more below an earlier one since.
   */
  lemma HeldWhen(bars: seq<Bar>, minApy: real)
    ensures Simulate(bars, minApy).position.Open? <==>
            exists i :: 0 <= i < |bars| && OpenedAt(bars, i, minApy) && KeptFrom(bars, i)
  {
    hide OpenedAt, KeptFrom, Simulate, SignalAfter, PeakFrom;
    SimulationIsGrowth(bars, minApy);
    if SignalAfter(bars, minApy).Held? {
      var i := HeldSince(bars, minApy);
    }
    if i :| 0 <= i < |bars| && OpenedAt(bars, i, minApy) && KeptFrom(bars, i) {
      var peak := HeldFrom(bars, i, minApy);
    }
  }

  /** A bar opens a position exactly when its yield reaches the threshold and none is held or the held one exits. */
  lemma OpensWhen(bars: seq<Bar>, i: nat, minApy: real)
    requires i < |bars|
    ensures OpenedAt(bars, i, minApy) <==>
            && bars[i].apy >= minApy
            && (Simulate(bars[..i], minApy).position.Open? ==>
                  |Simulate(bars[..i + 1], minApy).trades| > |Simulate(bars[..i], minApy).trades|)
  {
    hide OpenedAt, Simulate, ExitSignal, DailyFactor, PnlFrac;
    var before, bar := bars[..i], bars[i];
    OpenedIsEnters(bars, i, minApy);
    SimulationIsGrowth(before, minApy);
    SimulateSnoc(bars, i, minApy);
  }

  lemma SimulateSnoc(bars: seq<Bar>, i: nat, minApy: real)
    requires i < |bars|
    ensures Simulate(bars[..i + 1], minApy) == Step(Simulate(bars[..i], minApy), bars[i], minApy)
  {
    hide Step;
    assert bars[..i + 1][..i] == bars[..i];
  }

  // -- The report -----------------------------------------------------------

  /** Wins are the closed trades with a gain. */
  lemma {:induction false} WinsAreGains(trades: seq<Option<real>>)
    ensures Wins(trades) == |set i | 0 <= i < |trades| && trades[i].Some? && trades[i].value > 0.0|
  {
    if |trades| > 0 {
      var before, last := trades[..|trades| - 1], trades[|trades| - 1];
      assert trades == before + [last];
      WinsAreGains(before);
      WinsAppend(before, last);
      GainsSnoc(before, last);
    }
  }

  lemma GainsSnoc(trades: seq<Option<real>>, t: Option<real>)
    ensures |set i | 0 <= i < |trades| + 1 && (trades + [t])[i].Some? && (trades + [t])[i].value > 0.0|
            == |set i | 0 <= i < |trades| && trades[i].Some? && trades[i].value > 0.0|
               + if t.Some? && t.value > 0.0 then 1 else 0
  {
    var before := set i | 0 <= i < |trades| && trades[i].Some? && trades[i].value > 0.0;
    var all := set i | 0 <= i < |trades| + 1 && (trades + [t])[i].Some? && (trades + [t])[i].value > 0.0;
    if t.Some? && t.value > 0.0 {
      assert all == before + {|trades|};
    } else {
      assert all == before;
    }
  }

  /** What the report of a run says of its trades and its capital, which starts at one ETH. */
  lemma ReportMeans(bars: seq<Bar>, minApy: real)
    ensures var s := Close(Simulate(bars, minApy));
            var r := BuildResult(CAPITAL_START, s.capital, |s.trades|, Wins(s.trades), s.curve, OnePass(s.curve));
            && s.capital == 1.0 + r.pnlEth && r.pnlPct == 100.0 * r.pnlEth
            && r.totalTrades == Entries(bars, minApy) && 10_000.0 * r.feeEstimateEth == r.totalTrades as real
            && |r.curve| == |bars| && (bars != [] ==> r.curve[|bars| - 1] == s.capital)
            && r.winRatePct * r.totalTrades as real == 100.0 * Wins(s.trades) as real
            && 0.0 <= r.winRatePct <= 100.0
            && (r.totalTrades == 0 ==> r.winRatePct == 0.0)
  {
    hide OnePass, Entries, Wins, Step;
    SimulationIsGrowth(bars, minApy);
    var s := Close(Simulate(bars, minApy));
    WinsWithin(s.trades);
    if |s.trades| > 0 { Share(Wins(s.trades), |s.trades|); }
    if bars != [] {
      StepAppends(Simulate(bars[..|bars| - 1], minApy), bars[|bars| - 1], minApy);
    } else {
      NoTradesNoWins();
    }
  }

  lemma {:induction false} WinsWithin(trades: seq<Option<real>>)
    ensures Wins(trades) <= |trades|
  {
    if |trades| > 0 { WinsWithin(trades[..|trades| - 1]); }
  }

  lemma Share(wins: nat, total: nat)
    requires wins <= total && total > 0
    ensures var share := wins as real / total as real * 100.0;
            share * total as real == 100.0 * wins as real && 0.0 <= share <= 100.0
  {
    var q := wins as real / total as real;
    assert q * total as real == wins as real;
    assert q <= 1.0;
    assert q * 100.0 * total as real == 100.0 * (q * total as real);
  }

  // -- The series -----------------------------------------------------------

  /** The value of a date is that of its last sample. */
  lemma {:induction false} LastOnIsLast(s: seq<Sample>, date: nat)
    ensures match LastOn(s, date)
            case None => forall i :: 0 <= i < |s| ==> s[i].date != date
            case Some(v) =>
              exists i :: && 0 <= i < |s| && s[i] == Sample(date, v)
                          && forall j :: i < j < |s| ==> s[j].date != date
  {
    if |s| > 0 && s[|s| - 1].date != date {
      var before := s[..|s| - 1];
      LastOnIsLast(before, date);
      assert s == before + [s[|s| - 1]];
      if LastOn(s, date).Some? {
        var i :| && 0 <= i < |before| && before[i] == Sample(date, LastOn(s, date).value)
                 && forall j :: i < j < |before| ==> before[j].date != date;
        assert s[i] == Sample(date, LastOn(s, date).value);
        assert forall j :: i < j < |before| ==> s[j] == before[j];
      }
    } else if |s| > 0 {
      assert s[|s| - 1] == Sample(date, LastOn(s, date).value);
    }
  }
}
