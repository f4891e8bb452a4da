/**
 * What the cap means for the ETH that really leaves a wallet through its capped spends: what a reset
 * drops and what leaves unseen or unlogged is not counted against it.
 */
module CapOutflow {
  import opened Wrappers
  import opened Decimal
  import opened Keystore
  import opened CapGate
  import opened CapProtocol

  function Min(a: nat, b: nat): nat {
    if a <= b then a else b
  }

  /** The handler an event ends or cuts off, if it is a spend of the wallet past the comparison. */
  predicate Ends(w: World, i: nat, wallet: string, phase: Phase) {
    i < |w.handlers| && Holding(w.handlers[i], wallet) && w.handlers[i].phase == phase
  }

  /** ETH that an event takes out of the wallet. */
  function LeftAt(w: World, e: Event, wallet: string): nat {
    match e
    case BroadcastEnds(i, sent, left) =>
      if !Ends(w, i, wallet, Approved) then 0
      else if sent then w.handlers[i].value else Min(left, w.handlers[i].value)
    case Crash(i, left) => if Ends(w, i, wallet, Approved) then Min(left, w.handlers[i].value) else 0
    case _ => 0
  }

  /** What leaves, or has left, and will never be counted. */
  function UncountedAt(w: World, e: Event, wallet: string): nat {
    match e
    case BroadcastEnds(i, sent, _) => if sent then 0 else LeftAt(w, e, wallet)
    case Crash(i, _) => LeftAt(w, e, wallet) + if Ends(w, i, wallet, Broadcast) then w.handlers[i].value else 0
    case AppendRow(i, dbUp) => if !dbUp && Ends(w, i, wallet, Broadcast) then w.handlers[i].value else 0
    case _ => 0
  }

  function DroppedAt(w: World, e: Event, wallet: string): nat {
    if e.ResetCap? && e.wallet == wallet then TypeSum(w.log, wallet, SendNative) else 0
  }

  function Left(w: World, es: seq<Event>, wallet: string): nat {
    if |es| == 0 then 0
    else Left(w, es[..|es| - 1], wallet) + LeftAt(Run(w, es[..|es| - 1]), es[|es| - 1], wallet)
  }

  function Uncounted(w: World, es: seq<Event>, wallet: string): nat {
    if |es| == 0 then 0
    else Uncounted(w, es[..|es| - 1], wallet) + UncountedAt(Run(w, es[..|es| - 1]), es[|es| - 1], wallet)
  }

  function Dropped(w: World, es: seq<Event>, wallet: string): nat {
    if |es| == 0 then 0
    else Dropped(w, es[..|es| - 1], wallet) + DroppedAt(Run(w, es[..|es| - 1]), es[|es| - 1], wallet)
  }

  // -- The account ----------------------------------------------------------

  predicate OnChain(h: Handler, wallet: string) {
    Holding(h, wallet) && h.phase == Broadcast
  }

  /** Sent and not yet in the log. */
  function ToBeLogged(hs: seq<Handler>, wallet: string): nat {
    if |hs| == 0 then 0
    else ToBeLogged(hs[..|hs| - 1], wallet) + if OnChain(hs[|hs| - 1], wallet) then hs[|hs| - 1].value else 0
  }

  lemma {:induction false} ToBeLoggedUpdate(hs: seq<Handler>, i: nat, h: Handler, wallet: string)
    requires i < |hs|
    ensures ToBeLogged(hs[i := h], wallet) + (if OnChain(hs[i], wallet) then hs[i].value else 0)
            == ToBeLogged(hs, wallet) + if OnChain(h, wallet) then h.value else 0
  {
    var last := |hs| - 1;
    if i < last {
      assert hs[i := h][..last] == hs[..last][i := h];
      ToBeLoggedUpdate(hs[..last], i, h, wallet);
    } else {
      assert hs[i := h][..last] == hs[..last];
    }
  }

  lemma {:induction false} ToBeLoggedInFlight(hs: seq<Handler>, wallet: string)
    ensures ToBeLogged(hs, wallet) <= InFlight(hs, wallet)
  {
    if |hs| > 0 { ToBeLoggedInFlight(hs[..|hs| - 1], wallet); }
  }

  /** Every spend of the wallet past the comparison is one the log can count. */
  ghost predicate Countable(w: World, wallet: string) {
    forall i :: 0 <= i < |w.handlers| && Holding(w.handlers[i], wallet) ==> w.handlers[i].value < U128
  }

  /** What is counted or about to be, and what a step drops or loses, is what was there and what leaves. */
  lemma StepBalances(w: World, e: Event, wallet: string)
    requires Countable(w, wallet)
    ensures var w' := Next(w, e);
            TotalSent(w'.log, wallet) + ToBeLogged(w'.handlers, wallet)
            + DroppedAt(w, e, wallet) + UncountedAt(w, e, wallet)
            == TotalSent(w.log, wallet) + ToBeLogged(w.handlers, wallet) + LeftAt(w, e, wallet)
  {
    hide ToBeLogged, TotalSent, TypeSum, ParseU128, ToDec;
    match e {
      case Arrive(wl, txType, value) =>
        var h := Handler(wl, txType, value, Started);
        ArrivesUnsent(w.handlers, h, wallet);
      case ResetCap(wl) =>
        if wl == wallet { ResetDropsNativePart(w.log, wl); } else { ResetIsLocal(w.log, wl, wallet); }
      case SetCap(_, _) =>
      case Sweep(wl, value) => TotalAppend(w.log, Row(wl, SweepToSafe, ToDec(value), Confirmed), wallet);
      case FeeLogged(i, fee) =>
        if i < |w.handlers| {
          TotalAppend(w.log, Row(w.handlers[i].wallet, TreasuryFee, ToDec(fee), Confirmed), wallet);
        }
      case _ => HandlerStepBalances(w, e, wallet);
    }
  }

  lemma ArrivesUnsent(hs: seq<Handler>, h: Handler, wallet: string)
    requires h.phase == Started
    ensures ToBeLogged(hs + [h], wallet) == ToBeLogged(hs, wallet)
  {
    assert (hs + [h])[..|hs|] == hs;
  }

  lemma HandlerStepBalances(w: World, e: Event, wallet: string)
    requires Countable(w, wallet)
    requires e.ReadWallet? || e.CompareWithCap? || e.SimulationFails? || e.BroadcastEnds? || e.AppendRow? || e.Crash?
    ensures var w' := Next(w, e);
            TotalSent(w'.log, wallet) + ToBeLogged(w'.handlers, wallet) + UncountedAt(w, e, wallet)
            == TotalSent(w.log, wallet) + ToBeLogged(w.handlers, wallet) + LeftAt(w, e, wallet)
  {
    hide ToBeLogged, TotalSent, ParseU128, ToDec, Check;
    var w' := Next(w, e);
    if e.i < |w.handlers| && w' != w {
      var h, h' := w.handlers[e.i], w'.handlers[e.i];
      ToBeLoggedUpdate(w.handlers, e.i, h', wallet);
      assert w'.handlers == w.handlers[e.i := h'];
      PrintThenParse(h.value);
      if w'.log != w.log { TotalAppend(w.log, w'.log[|w.log|], wallet); }
    }
  }

  /**
   * In every interleaving with the cap left alone and at most `n` spends past the comparison at
   * once: what really leaves is exactly what the log counts or is about to, what resets drop, and
   * what leaves unseen or unlogged; so it is at most `n` caps, plus those last two.
   */
  lemma {:induction false} OutflowBounded(
      w: World, es: seq<Event>, wallet: string, capWei: string, cap: nat, n: nat)
    requires !Uncapped(capWei) && ParseU128(capWei) == Some(cap)
    requires Tame(w, wallet, capWei, cap) && Exposed(w, wallet, n, cap)
    requires forall e :: e in es && e.SetCap? ==> e.wallet != wallet
    requires AtMostHolding(w, es, wallet, n)
    ensures var w' := Run(w, es);
            && TotalSent(w.log, wallet) + ToBeLogged(w.handlers, wallet) + Left(w, es, wallet)
               == TotalSent(w'.log, wallet) + ToBeLogged(w'.handlers, wallet)
                  + Dropped(w, es, wallet) + Uncounted(w, es, wallet)
            && Left(w, es, wallet) <= n * cap + Dropped(w, es, wallet) + Uncounted(w, es, wallet)
  {
    hide Next, ToBeLogged, TotalSent, ParseU128, InFlight, Holding, LeftAt, UncountedAt, DroppedAt;
    TotalBounded(w, es, wallet, capWei, cap, n);
    ToBeLoggedInFlight(Run(w, es).handlers, wallet);
    if |es| > 0 {
      var last := |es| - 1;
      var before := es[..last];
      assert forall k :: 0 <= k <= last ==> before[..k] == es[..k];
      OutflowBounded(w, before, wallet, capWei, cap, n);
      TotalBounded(w, before, wallet, capWei, cap, n);
      TameIsCountable(Run(w, before), wallet, capWei, cap);
      StepBalances(Run(w, before), es[last], wallet);
    }
  }

  lemma TameIsCountable(w: World, wallet: string, capWei: string, cap: nat)
    requires ParseU128(capWei) == Some(cap) && Tame(w, wallet, capWei, cap)
    ensures Countable(w, wallet)
  {
  }

  // -- It is not bounded by the cap alone -----------------------------------

  predicate CapLeftAlone(es: seq<Event>) {
    forall e :: e in es ==> !e.SetCap? && !e.ResetCap?
  }

  lemma RunOne(w: World, es: seq<Event>, e: Event, wallet: string)
    ensures Run(w, es + [e]) == Next(Run(w, es), e)
    ensures Left(w, es + [e], wallet) == Left(w, es, wallet) + LeftAt(Run(w, es), e, wallet)
    ensures forall n :: AtMostHolding(w, es, wallet, n) && HoldingCount(Next(Run(w, es), e).handlers, wallet) <= n
                        ==> AtMostHolding(w, es + [e], wallet, n)
  {
    hide Next, HoldingCount, LeftAt;
    assert (es + [e])[..|es|] == es;
    forall n | AtMostHolding(w, es, wallet, n) && HoldingCount(Next(Run(w, es), e).handlers, wallet) <= n
      ensures AtMostHolding(w, es + [e], wallet, n)
    {
      forall k | 0 <= k <= |es + [e]|
        ensures HoldingCount(Run(w, (es + [e])[..k]).handlers, wallet) <= n
      {
        if k <= |es| { assert (es + [e])[..k] == es[..k]; } else { assert (es + [e])[..k] == es + [e]; }
      }
    }
  }

  /** Nobody is past the comparison, and nothing has been counted. */
  ghost predicate Quiet(w: World, wallet: string, cap: nat) {
    && CapAt(w, wallet) == ToDec(cap) && TotalSent(w.log, wallet) == 0
    && HoldingCount(w.handlers, wallet) == 0
  }

  /** One send of the whole cap whose broadcast reports an error although it went out. */
  lemma UnseenSend(w0: World, es: seq<Event>, wallet: string, cap: nat) returns (es': seq<Event>)
    requires 0 < cap < U128 && Quiet(Run(w0, es), wallet, cap) && AtMostHolding(w0, es, wallet, 1)
    ensures Quiet(Run(w0, es'), wallet, cap) && AtMostHolding(w0, es', wallet, 1)
    ensures Left(w0, es', wallet) == Left(w0, es, wallet) + cap
    ensures CapLeftAlone(es) ==> CapLeftAlone(es')
  {
    hide Next, HoldingCount, TotalSent, Left, LeftAt, AtMostHolding, ToDec;
    var w := Run(w0, es);
    var i := |w.handlers|;
    UnseenSteps(w, wallet, cap);
    var e1, e2, e3, e4 :=
      Arrive(wallet, SendNative, cap), ReadWallet(i), CompareWithCap(i), BroadcastEnds(i, false, cap);
    RunOne(w0, es, e1, wallet);
    RunOne(w0, es + [e1], e2, wallet);
    RunOne(w0, es + [e1] + [e2], e3, wallet);
    RunOne(w0, es + [e1] + [e2] + [e3], e4, wallet);
    es' := es + [e1] + [e2] + [e3] + [e4];
  }

  lemma UnseenSteps(w: World, wallet: string, cap: nat)
    requires 0 < cap < U128 && Quiet(w, wallet, cap)
    ensures var i := |w.handlers|;
            var e1, e2, e3, e4 :=
              Arrive(wallet, SendNative, cap), ReadWallet(i), CompareWithCap(i), BroadcastEnds(i, false, cap);
            var w1 := Next(w, e1); var w2 := Next(w1, e2); var w3 := Next(w2, e3); var w4 := Next(w3, e4);
            && HoldingCount(w1.handlers, wallet) == HoldingCount(w2.handlers, wallet) == 0
            && HoldingCount(w3.handlers, wallet) == 1 && Quiet(w4, wallet, cap)
            && LeftAt(w, e1, wallet) == LeftAt(w1, e2, wallet) == LeftAt(w2, e3, wallet) == 0
            && LeftAt(w3, e4, wallet) == cap
  {
    hide HoldingCount, TotalSent, ParseU128, ToDec;
    var i := |w.handlers|;
    var h := Handler(wallet, SendNative, cap, Started);
    PrintThenParse(cap);
    ToDecZero(cap);
    var w1 := Next(w, Arrive(wallet, SendNative, cap));
    AppendSums(w.handlers, h, wallet);
    var w2 := Next(w1, ReadWallet(i));
    UpdateSums(w1.handlers, i, w2.handlers[i], wallet);
    var w3 := Next(w2, CompareWithCap(i));
    assert w3.handlers[i].phase == Approved;
    UpdateSums(w2.handlers, i, w3.handlers[i], wallet);
    var w4 := Next(w3, BroadcastEnds(i, false, cap));
    UpdateSums(w3.handlers, i, w4.handlers[i], wallet);
    TotalAppend(w3.log, FinalRow(wallet, SendNative, cap, false), wallet);
  }

  /**
   * With one spend at a time, no reset and no cap change, a wallet can still be emptied: for every
   * `k` some run takes `k` caps out of it, each by a send that reported an error, and counts nothing.
   */
  lemma {:induction false} OutflowIsUnbounded(caps: map<string, string>, wallet: string, cap: nat, k: nat)
    requires 0 < cap < U128 && wallet in caps && caps[wallet] == ToDec(cap)
    ensures exists es :: CapLeftAlone(es)
              && AtMostHolding(World(caps, [], []), es, wallet, 1)
              && Left(World(caps, [], []), es, wallet) == k * cap
              && TotalSent(Run(World(caps, [], []), es).log, wallet) == 0
  {
    hide ToDec;
    var w0 := World(caps, [], []);
    var es: seq<Event> := [];
    StartsQuiet(caps, wallet, cap);
    for i := 0 to k
      invariant CapLeftAlone(es)
      invariant Quiet(Run(w0, es), wallet, cap) && AtMostHolding(w0, es, wallet, 1)
      invariant Left(w0, es, wallet) == i * cap
    {
      es := UnseenSend(w0, es, wallet, cap);
      assert i * cap + cap == (i + 1) * cap;
    }
  }

  lemma StartsQuiet(caps: map<string, string>, wallet: string, cap: nat)
    requires wallet in caps && caps[wallet] == ToDec(cap)
    ensures var w0 := World(caps, [], []);
            Quiet(Run(w0, []), wallet, cap) && AtMostHolding(w0, [], wallet, 1) && Left(w0, [], wallet) == 0
  {
    hide ToDec;
  }
}
