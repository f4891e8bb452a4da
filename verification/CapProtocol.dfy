/**
 * Spend handlers as processes that interleave. Reading the wallet row, comparing with the cap,
 * broadcasting and appending the log row are separate steps over one shared log, so another
 * handler can run between any two of them.
 */
module CapProtocol {
  import opened Wrappers
  import opened Decimal
  import opened Keystore
  import opened CapGate

  datatype Phase =
    | Started                  // the kill switch let it through
    | HasWallet(capWei: string) // holds the cap it read, however stale
    | Approved                 // passed the comparison; simulating and broadcasting
    | Broadcast                // on chain, not yet in the log
    | Done

  datatype Handler = Handler(wallet: string, txType: TxType, value: nat, phase: Phase)

  datatype World = World(caps: map<string, string>, log: seq<Row>, handlers: seq<Handler>)

  /** `left` is what really went out in a call that reports failure or dies, its fee included; nobody is told. */
  datatype Event =
    | Arrive(wallet: string, txType: TxType, value: nat)
    | ReadWallet(i: nat)
    | CompareWithCap(i: nat)
    | SimulationFails(i: nat)
    | BroadcastEnds(i: nat, sent: bool, left: nat)
    | FeeLogged(i: nat, feeWei: nat)
    | AppendRow(i: nat, dbUp: bool)
    | Crash(i: nat, left: nat)
    | ResetCap(wallet: string)
    | SetCap(wallet: string, capWei: string)
    | Sweep(wallet: string, value: nat)

  predicate IsSpend(txType: TxType) {
    txType in {SendNative, SendTx, SwapNative, Swap}
  }

  function CapAt(w: World, wallet: string): string {
    if wallet in w.caps then w.caps[wallet] else ""
  }

  function WithPhase(w: World, i: nat, phase: Phase): World
    requires i < |w.handlers|
  {
    w.(handlers := w.handlers[i := w.handlers[i].(phase := phase)])
  }

  function Logged(w: World, row: Row): World {
    w.(log := w.log + [row])
  }

  /** An event that is not enabled changes nothing. */
  function Next(w: World, e: Event): World {
    match e
    case Arrive(wallet, txType, value) =>
      if IsSpend(txType) then w.(handlers := w.handlers + [Handler(wallet, txType, value, Started)]) else w
    case ReadWallet(i) =>
      if i < |w.handlers| && w.handlers[i].phase == Started
      then WithPhase(w, i, HasWallet(CapAt(w, w.handlers[i].wallet))) else w
    case CompareWithCap(i) =>
      if i < |w.handlers| && w.handlers[i].phase.HasWallet? then
        var h := w.handlers[i];
        if Capped(h.txType, h.value) && Check(h.phase.capWei, TotalSent(w.log, h.wallet), h.value) != Pass
        then WithPhase(w, i, Done)
        else WithPhase(w, i, Approved)
      else w
    case SimulationFails(i) =>
      if i < |w.handlers| && w.handlers[i].phase == Approved then
        var h := w.handlers[i];
        Logged(WithPhase(w, i, Done),
               Row(h.wallet, h.txType, if h.txType == SendTx then "0" else ToDec(h.value), SimulationFailed))
      else w
    case BroadcastEnds(i, sent, _) =>
      if i < |w.handlers| && w.handlers[i].phase == Approved then
        var h := w.handlers[i];
        if sent then WithPhase(w, i, Broadcast)
        else Logged(WithPhase(w, i, Done), FinalRow(h.wallet, h.txType, h.value, false))
      else w
    case FeeLogged(i, feeWei) =>
      if i < |w.handlers| && w.handlers[i].phase == Approved && w.handlers[i].txType == SendNative
      then Logged(w, Row(w.handlers[i].wallet, TreasuryFee, ToDec(feeWei), Confirmed)) else w
    case AppendRow(i, dbUp) =>
      if i < |w.handlers| && w.handlers[i].phase == Broadcast then
        var h := w.handlers[i];
        var w' := WithPhase(w, i, Done);
        if dbUp then Logged(w', FinalRow(h.wallet, h.txType, h.value, true)) else w'
      else w
    case Crash(i, _) => if i < |w.handlers| then WithPhase(w, i, Done) else w
    case ResetCap(wallet) => w.(log := ResetLog(w.log, wallet))
    case SetCap(wallet, capWei) => w.(caps := w.caps[wallet := capWei])
    case Sweep(wallet, value) => Logged(w, Row(wallet, SweepToSafe, ToDec(value), Confirmed))
  }

  function Run(w: World, es: seq<Event>): World {
    if |es| == 0 then w else Next(Run(w, es[..|es| - 1]), es[|es| - 1])
  }

  // -- The invariant --------------------------------------------------------

  /** Past the comparison and not yet in the log. */
  predicate Holding(h: Handler, wallet: string) {
    h.wallet == wallet && h.phase in {Approved, Broadcast} && h.txType in {SendNative, SendTx, SwapNative}
  }

  function HoldingCount(hs: seq<Handler>, wallet: string): nat {
    if |hs| == 0 then 0
    else HoldingCount(hs[..|hs| - 1], wallet) + if Holding(hs[|hs| - 1], wallet) then 1 else 0
  }

  /** What the holders may still add to the counted total. */
  function InFlight(hs: seq<Handler>, wallet: string): nat {
    if |hs| == 0 then 0
    else InFlight(hs[..|hs| - 1], wallet) + if Holding(hs[|hs| - 1], wallet) then hs[|hs| - 1].value else 0
  }

  lemma {:induction false} UpdateSums(hs: seq<Handler>, i: nat, h: Handler, wallet: string)
    requires i < |hs|
    ensures InFlight(hs[i := h], wallet) ==
            InFlight(hs, wallet) - (if Holding(hs[i], wallet) then hs[i].value else 0)
            + if Holding(h, wallet) then h.value else 0
    ensures HoldingCount(hs[i := h], wallet) ==
            HoldingCount(hs, wallet) - (if Holding(hs[i], wallet) then 1 else 0)
            + if Holding(h, wallet) then 1 else 0
  {
    var last := |hs| - 1;
    if i < last {
      assert hs[i := h][..last] == hs[..last][i := h];
      UpdateSums(hs[..last], i, h, wallet);
    } else {
      assert hs[i := h][..last] == hs[..last];
    }
  }

  lemma AppendSums(hs: seq<Handler>, h: Handler, wallet: string)
    requires !Holding(h, wallet)
    ensures InFlight(hs + [h], wallet) == InFlight(hs, wallet)
    ensures HoldingCount(hs + [h], wallet) == HoldingCount(hs, wallet)
  {
    assert (hs + [h])[..|hs|] == hs;
  }

  /** Holders of a capped wallet are each within the cap, and readers of it hold that very cap. */
  ghost predicate Tame(w: World, wallet: string, capWei: string, cap: nat) {
    && CapAt(w, wallet) == capWei
    && forall i :: 0 <= i < |w.handlers| && w.handlers[i].wallet == wallet ==>
         var h := w.handlers[i];
         && (Holding(h, wallet) ==> h.value <= cap)
         && (h.phase.HasWallet? ==> h.phase.capWei == capWei)
  }

  lemma {:induction false} InFlightBound(hs: seq<Handler>, wallet: string, cap: nat)
    requires forall i :: 0 <= i < |hs| && Holding(hs[i], wallet) ==> hs[i].value <= cap
    ensures InFlight(hs, wallet) <= HoldingCount(hs, wallet) * cap
  {
    if |hs| > 0 {
      InFlightBound(hs[..|hs| - 1], wallet, cap);
    }
  }

  ghost predicate Exposed(w: World, wallet: string, n: nat, cap: nat) {
    TotalSent(w.log, wallet) + InFlight(w.handlers, wallet) <= n * cap
  }

  lemma {:induction false} StepKeepsTame(w: World, e: Event, wallet: string, capWei: string, cap: nat)
    requires !Uncapped(capWei) && ParseU128(capWei) == Some(cap)
    requires Tame(w, wallet, capWei, cap)
    requires e.SetCap? ==> e.wallet != wallet
    ensures Tame(Next(w, e), wallet, capWei, cap)
  {
    hide TotalSent, ParseU128, ToDec, ResetLog;
  }

  /**
   * Where the comparison sends a handler: on, exactly when it is not a capped spend, or the cap it
   * read is none, or total and value fit it; to its end otherwise. It writes nothing.
   */
  lemma ComparisonAdmitsWhen(w: World, i: nat)
    requires i < |w.handlers| && w.handlers[i].phase.HasWallet?
    ensures var h, w' := w.handlers[i], Next(w, CompareWithCap(i));
            var cap := h.phase.capWei;
            var capped := h.txType == SendNative || h.txType == SwapNative || (h.txType == SendTx && h.value != 0);
            var fits := ParseU128(cap).Some? && TotalSent(w.log, h.wallet) + h.value <= ParseU128(cap).value;
            && w'.log == w.log && w'.caps == w.caps
            && w'.handlers == w.handlers[i := h.(phase :=
                 if !capped || cap == "0" || cap == "" || fits then Approved else Done)]
  {
    hide TotalSent, ParseU128;
  }

  /** What the log gains at each step of a handler, and in which phase it leaves it. */
  lemma HandlersLog(w: World, i: nat, sent: bool, left: nat, dbUp: bool)
    requires i < |w.handlers|
    ensures var h := w.handlers[i];
            var ended, fault := Next(w, BroadcastEnds(i, sent, left)), Next(w, SimulationFails(i));
            var logged := Next(w, AppendRow(i, dbUp));
            && (h.phase == Approved && sent ==> ended.log == w.log && ended.handlers[i].phase == Broadcast)
            && (h.phase == Approved && !sent ==>
                  && |ended.log| == |w.log| + 1 && ended.log[..|w.log|] == w.log
                  && ended.log[|w.log|].status == Failed && ended.handlers[i].phase == Done)
            && (h.phase == Approved ==>
                  && |fault.log| == |w.log| + 1 && fault.log[..|w.log|] == w.log
                  && fault.log[|w.log|].status == SimulationFailed && fault.handlers[i].phase == Done)
            && (h.phase == Broadcast ==>
                  && logged.handlers[i].phase == Done
                  && logged.log == w.log + if dbUp then [Row(h.wallet, h.txType, ToDec(h.value), Confirmed)] else [])
            && (h.phase != Approved ==> ended == w && fault == w) && (h.phase != Broadcast ==> logged == w)
            && (h.phase == Started ==>
                  Next(w, ReadWallet(i)) == w.(handlers := w.handlers[i := h.(phase :=
                    HasWallet(if h.wallet in w.caps then w.caps[h.wallet] else ""))]))
  {
    hide ToDec;
  }

  /** A step that passes the comparison leaves total plus in-flight within one cap per holder. */
  lemma ComparisonKeepsBound(w: World, i: nat, wallet: string, capWei: string, cap: nat, n: nat)
    requires !Uncapped(capWei) && ParseU128(capWei) == Some(cap)
    requires Tame(w, wallet, capWei, cap) && Exposed(w, wallet, n, cap)
    requires HoldingCount(Next(w, CompareWithCap(i)).handlers, wallet) <= n
    ensures Exposed(Next(w, CompareWithCap(i)), wallet, n, cap)
  {
    hide HoldingCount, InFlight, TotalSent, ParseU128;
    var w' := Next(w, CompareWithCap(i));
    if i < |w.handlers| && w.handlers[i].phase.HasWallet? {
      var h, h' := w.handlers[i], w'.handlers[i];
      UpdateSums(w.handlers, i, h', wallet);
      assert w'.handlers == w.handlers[i := h'] && w'.log == w.log;
      if Holding(h', wallet) {
        InFlightBound(w.handlers, wallet, cap);
        assert h.value == 0 || TotalSent(w.log, wallet) + h.value <= cap;
        var count := HoldingCount(w.handlers, wallet);
        assert (count + 1) * cap == count * cap + cap;
        MulMonotone(count + 1, n, cap);
      }
    }
  }

  lemma MulMonotone(a: nat, b: nat, c: nat)
    requires a <= b
    ensures a * c <= b * c
  {
    assert b * c == a * c + (b - a) * c;
  }

  lemma StepKeepsBound(w: World, e: Event, wallet: string, capWei: string, cap: nat, n: nat)
    requires !Uncapped(capWei) && ParseU128(capWei) == Some(cap)
    requires Tame(w, wallet, capWei, cap) && Exposed(w, wallet, n, cap)
    requires HoldingCount(Next(w, e).handlers, wallet) <= n
    ensures Exposed(Next(w, e), wallet, n, cap)
  {
    hide HoldingCount, InFlight, TotalSent, TypeSum, ParseU128, ToDec;
    match e {
      case Arrive(wl, txType, value) => AppendSums(w.handlers, Handler(wl, txType, value, Started), wallet);
      case CompareWithCap(i) => ComparisonKeepsBound(w, i, wallet, capWei, cap, n);
      case ResetCap(wl) =>
        if wl == wallet { ResetDropsNativePart(w.log, wl); } else { ResetIsLocal(w.log, wl, wallet); }
      case SetCap(_, _) =>
      case Sweep(wl, value) => TotalAppend(w.log, Row(wl, SweepToSafe, ToDec(value), Confirmed), wallet);
      case FeeLogged(i, fee) =>
        if i < |w.handlers| {
          TotalAppend(w.log, Row(w.handlers[i].wallet, TreasuryFee, ToDec(fee), Confirmed), wallet);
        }
      case _ => HandlerStepKeepsBound(w, e, wallet, n, cap);
    }
  }

  lemma HandlerStepKeepsBound(w: World, e: Event, wallet: string, n: nat, cap: nat)
    requires e.ReadWallet? || e.SimulationFails? || e.BroadcastEnds? || e.AppendRow? || e.Crash?
    requires Exposed(w, wallet, n, cap)
    ensures Exposed(Next(w, e), wallet, n, cap)
  {
    hide HoldingCount, InFlight, TotalSent, ParseU128, ToDec;
    var w' := Next(w, e);
    if e.i < |w.handlers| && w' != w {
      var h, h' := w.handlers[e.i], w'.handlers[e.i];
      UpdateSums(w.handlers, e.i, h', wallet);
      assert w'.handlers == w.handlers[e.i := h'];
      PrintThenParse(h.value);
      if w'.log != w.log {
        TotalAppend(w.log, w'.log[|w.log|], wallet);
      }
    }
  }

  /** At no point of the run are more than `n` counted spends of the wallet past the comparison at once. */
  ghost predicate AtMostHolding(w: World, es: seq<Event>, wallet: string, n: nat) {
    forall k :: 0 <= k <= |es| ==> HoldingCount(Run(w, es[..k]).handlers, wallet) <= n
  }

  /**
   * In every interleaving, with the cap left alone and at most `n` spends of a wallet past the
   * comparison at once, the counted total never exceeds `n` times the cap; neither does the total
   * together with everything in flight.
   */
  lemma {:induction false} TotalBounded(
      w: World, es: seq<Event>, wallet: string, capWei: string, cap: nat, n: nat)
    requires !Uncapped(capWei) && ParseU128(capWei) == Some(cap)
    requires Tame(w, wallet, capWei, cap) && Exposed(w, wallet, n, cap)
    requires forall e :: e in es && e.SetCap? ==> e.wallet != wallet
    requires AtMostHolding(w, es, wallet, n)
    ensures Tame(Run(w, es), wallet, capWei, cap)
    ensures TotalSent(Run(w, es).log, wallet) + InFlight(Run(w, es).handlers, wallet) <= n * cap
  {
    if |es| > 0 {
      var last := |es| - 1;
      var before := es[..last];
      assert forall k :: 0 <= k <= last ==> before[..k] == es[..k];
      TotalBounded(w, before, wallet, capWei, cap, n);
      assert es[last] in es;
      assert es[..|es|] == es;
      StepKeepsTame(Run(w, before), es[last], wallet, capWei, cap);
      StepKeepsBound(Run(w, before), es[last], wallet, capWei, cap, n);
    }
  }

  /** One spend at a time, from a total within the cap: the cap is never exceeded. */
  lemma {:induction false} CapHoldsOneAtATime(w: World, es: seq<Event>, wallet: string, capWei: string, cap: nat)
    requires !Uncapped(capWei) && ParseU128(capWei) == Some(cap) && CapAt(w, wallet) == capWei
    requires TotalSent(w.log, wallet) <= cap && w.handlers == []
    requires forall e :: e in es && e.SetCap? ==> e.wallet != wallet
    requires AtMostHolding(w, es, wallet, 1)
    ensures TotalSent(Run(w, es).log, wallet) <= cap
  {
    TotalBounded(w, es, wallet, capWei, cap, 1);
  }

  // -- The bound is reached -------------------------------------------------

  /** `n` native sends of the whole cap, the first `done` of them already logged. */
  function Crowd(caps: map<string, string>, wallet: string, cap: nat, n: nat, done: nat): World
    requires done <= n
  {
    World(caps,
          seq(done, _ => Row(wallet, SendNative, ToDec(cap), Confirmed)),
          seq(n, i => Handler(wallet, SendNative, cap, if i < done then Done else Approved)))
  }

  /** `n` arrivals, each run up to its comparison before any broadcast. */
  function Rush(wallet: string, cap: nat, n: nat): seq<Event> {
    if n == 0 then []
    else Rush(wallet, cap, n - 1)
         + [Arrive(wallet, SendNative, cap), ReadWallet(n - 1), CompareWithCap(n - 1)]
  }

  function Flush(done: nat, cap: nat): seq<Event> {
    if done == 0 then [] else Flush(done - 1, cap) + [BroadcastEnds(done - 1, true, cap), AppendRow(done - 1, true)]
  }

  lemma {:induction false} RunConcat(w: World, a: seq<Event>, b: seq<Event>)
    ensures Run(w, a + b) == Run(Run(w, a), b)
  {
    if |b| == 0 {
      assert a + b == a;
    } else {
      assert (a + b)[..|a + b| - 1] == a + b[..|b| - 1];
      RunConcat(w, a, b[..|b| - 1]);
    }
  }

  lemma RunSnoc(w: World, es: seq<Event>, e: Event)
    ensures Run(w, es + [e]) == Next(Run(w, es), e)
  {
    assert (es + [e])[..|es|] == es;
  }

  lemma {:induction false} RushReaches(caps: map<string, string>, wallet: string, cap: nat, n: nat)
    requires 0 < cap < U128 && wallet in caps && caps[wallet] == ToDec(cap)
    ensures Run(World(caps, [], []), Rush(wallet, cap, n)) == Crowd(caps, wallet, cap, n, 0)
  {
    hide *;
    if n == 0 {
      EmptyRush(caps, wallet, cap);
    } else {
      var w0, es := World(caps, [], []), Rush(wallet, cap, n - 1);
      RushReaches(caps, wallet, cap, n - 1);
      RunSnoc(w0, es, Arrive(wallet, SendNative, cap));
      RunSnoc(w0, es + [Arrive(wallet, SendNative, cap)], ReadWallet(n - 1));
      RunSnoc(w0, es + [Arrive(wallet, SendNative, cap)] + [ReadWallet(n - 1)], CompareWithCap(n - 1));
      RushGrows(wallet, cap, n);
      OneMoreInRush(caps, wallet, cap, n);
    }
  }

  lemma EmptyRush(caps: map<string, string>, wallet: string, cap: nat)
    ensures Run(World(caps, [], []), Rush(wallet, cap, 0)) == Crowd(caps, wallet, cap, 0, 0)
  {
    assert Crowd(caps, wallet, cap, 0, 0) == World(caps, [], []);
  }

  lemma RushGrows(wallet: string, cap: nat, n: nat)
    requires 0 < n
    ensures Rush(wallet, cap, n) ==
            Rush(wallet, cap, n - 1) + [Arrive(wallet, SendNative, cap)] + [ReadWallet(n - 1)] + [CompareWithCap(n - 1)]
  {
  }

  lemma OneMoreInRush(caps: map<string, string>, wallet: string, cap: nat, n: nat)
    requires 0 < n && 0 < cap < U128 && wallet in caps && caps[wallet] == ToDec(cap)
    ensures Next(Next(Next(Crowd(caps, wallet, cap, n - 1, 0), Arrive(wallet, SendNative, cap)),
                      ReadWallet(n - 1)), CompareWithCap(n - 1))
            == Crowd(caps, wallet, cap, n, 0)
  {
    hide ToDec, ParseU128;
    var w := Crowd(caps, wallet, cap, n - 1, 0);
    var w1 := Next(w, Arrive(wallet, SendNative, cap));
    assert |w1.handlers| == n && w1.handlers[n - 1] == Handler(wallet, SendNative, cap, Started);
    var w2 := Next(w1, ReadWallet(n - 1));
    assert w2.handlers[n - 1] == Handler(wallet, SendNative, cap, HasWallet(ToDec(cap)));
    assert w2.log == [];
    PrintThenParse(cap);
    ToDecZero(cap);
    assert Check(ToDec(cap), TotalSent([], wallet), cap) == Pass;
    var w3 := Next(w2, CompareWithCap(n - 1));
    assert w3.handlers == Crowd(caps, wallet, cap, n, 0).handlers;
  }

  lemma {:induction false} FlushReaches(
      caps: map<string, string>, wallet: string, cap: nat, n: nat, done: nat)
    requires done <= n
    ensures Run(Crowd(caps, wallet, cap, n, 0), Flush(done, cap)) == Crowd(caps, wallet, cap, n, done)
  {
    hide ToDec, Next;
    if done > 0 {
      var w0, es := Crowd(caps, wallet, cap, n, 0), Flush(done - 1, cap);
      FlushReaches(caps, wallet, cap, n, done - 1);
      RunSnoc(w0, es, BroadcastEnds(done - 1, true, cap));
      RunSnoc(w0, es + [BroadcastEnds(done - 1, true, cap)], AppendRow(done - 1, true));
      assert Flush(done, cap) == es + [BroadcastEnds(done - 1, true, cap)] + [AppendRow(done - 1, true)];
      OneMoreFlushed(caps, wallet, cap, n, done);
    }
  }

  lemma OneMoreFlushed(caps: map<string, string>, wallet: string, cap: nat, n: nat, done: nat)
    requires 0 < done <= n
    ensures Next(Next(Crowd(caps, wallet, cap, n, done - 1), BroadcastEnds(done - 1, true, cap)),
                 AppendRow(done - 1, true))
            == Crowd(caps, wallet, cap, n, done)
  {
    var w := Crowd(caps, wallet, cap, n, done - 1);
    var w2 := Next(Next(w, BroadcastEnds(done - 1, true, cap)), AppendRow(done - 1, true));
    assert w2.handlers == Crowd(caps, wallet, cap, n, done).handlers;
    assert w2.log == Crowd(caps, wallet, cap, n, done).log;
  }

  lemma {:induction false} CrowdTotal(caps: map<string, string>, wallet: string, cap: nat, n: nat, done: nat)
    requires done <= n && cap < U128
    ensures TotalSent(Crowd(caps, wallet, cap, n, done).log, wallet) == done * cap
  {
    hide ToDec, ParseU128;
    if done > 0 {
      CrowdTotal(caps, wallet, cap, n, done - 1);
      var log := Crowd(caps, wallet, cap, n, done).log;
      assert log[..done - 1] == Crowd(caps, wallet, cap, n, done - 1).log;
      PrintThenParse(cap);
      assert Counted(log[done - 1], wallet) == cap;
      assert (done - 1) * cap + cap == done * cap;
    }
  }

  lemma {:induction false} HoldersExist(hs: seq<Handler>, wallet: string)
    ensures HoldingCount(hs, wallet) <= |hs|
  {
    if |hs| > 0 { HoldersExist(hs[..|hs| - 1], wallet); }
  }

  lemma {:induction false} HandlersGrow(w: World, es: seq<Event>, k: nat)
    requires k <= |es|
    ensures |Run(w, es[..k]).handlers| <= |Run(w, es).handlers|
  {
    if k == |es| {
      assert es[..k] == es;
    } else {
      assert es[..|es| - 1][..k] == es[..k];
      HandlersGrow(w, es[..|es| - 1], k);
    }
  }

  /**
   * The bound is exact: for every number of concurrent spends there is a run, starting from an
   * empty log, whose counted total reaches that many caps. Two in flight already break the cap.
   */
  lemma {:induction false} BoundIsReached(caps: map<string, string>, wallet: string, cap: nat, n: nat)
    requires 0 < cap < U128 && wallet in caps && caps[wallet] == ToDec(cap)
    ensures var es := Rush(wallet, cap, n) + Flush(n, cap);
            && (forall e :: e in es ==> !e.SetCap? && !e.ResetCap?)
            && AtMostHolding(World(caps, [], []), es, wallet, n)
            && TotalSent(Run(World(caps, [], []), es).log, wallet) == n * cap
  {
    RushReaches(caps, wallet, cap, n);
    FlushReaches(caps, wallet, cap, n, n);
    RunConcat(World(caps, [], []), Rush(wallet, cap, n), Flush(n, cap));
    CrowdTotal(caps, wallet, cap, n, n);
    RushEvents(wallet, cap, n);
    FlushEvents(n, cap);
    var w0, es := World(caps, [], []), Rush(wallet, cap, n) + Flush(n, cap);
    forall k | 0 <= k <= |es|
      ensures HoldingCount(Run(w0, es[..k]).handlers, wallet) <= n
    {
      HandlersGrow(w0, es, k);
      HoldersExist(Run(w0, es[..k]).handlers, wallet);
    }
  }

  lemma {:induction false} RushEvents(wallet: string, cap: nat, n: nat)
    ensures forall e :: e in Rush(wallet, cap, n) ==> e.Arrive? || e.ReadWallet? || e.CompareWithCap?
  {
    if n > 0 { RushEvents(wallet, cap, n - 1); }
  }

  lemma {:induction false} FlushEvents(n: nat, cap: nat)
    ensures forall e :: e in Flush(n, cap) ==> e.BroadcastEnds? || e.AppendRow?
  {
    if n > 0 { FlushEvents(n - 1, cap); }
  }
}
