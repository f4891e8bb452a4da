/** What a goal requests against the rounds it begins and the rate checks it passes. */
module GoalRounds {
  import opened Wrappers
  import opened SwapToken
  import opened GoalMachine
  import opened GoalBuys
  import opened GoalHalts
  import opened GoalPaths

  function Sells(deeds: seq<Deed>): nat {
    if |deeds| == 0 then 0 else Sells(deeds[..|deeds| - 1]) + Note(deeds[|deeds| - 1].Sell?)
  }

  lemma OneMoreSell(deeds: seq<Deed>, d: Deed)
    ensures Sells(deeds + [d]) == Sells(deeds) + Note(d.Sell?)
  {
    assert (deeds + [d])[..|deeds|] == deeds;
  }

  // -- SELLs and rounds -----------------------------------------------------

  /** How often a run's heads have loaded the goal and gone on with it. */
  function Rounds(w: World, es: seq<Event>): nat {
    if |es| == 0 then 0
    else Rounds(w, es[..|es| - 1]) + Note(Launches(Run(w, es[..|es| - 1]), es[|es| - 1]))
  }

  /** The SELL requests left in the round under way. */
  function SellLeft(pc: Pc, perCall: nat): nat {
    match pc
    case Resolving => perCall
    case ResumeEntry => perCall
    case Entering(_) => perCall
    case Working(_) => perCall
    case EnteringExecuting(_, _) => perCall
    case Guarding(_, _) => perCall
    case Posting(call, attempt) =>
      (match call
       case BuyCall(_, _) => perCall
       case SellCall(_, _, _, _) => LeftBefore(attempt, perCall)
       case FeeCall(_) => 0)
    case Posted(call, attempt) =>
      (match call
       case BuyCall(_, _) => perCall
       case SellCall(_, _, _, _) => LeftAfter(attempt, perCall)
       case FeeCall(_) => 0)
    case Recording(_, _) => perCall
    case Bought(_, _) => perCall
    case Watching(_, _, _) => perCall
    case Leaving(_, _, _) => perCall
    case _ => 0
  }

  function SellOf(w: World, e: Event): nat {
    Note(DeedOf(w, e).Some? && DeedOf(w, e).value.Sell?)
  }

  lemma ActSells(w: World, a: Answers, perCall: nat)
    requires Allows(perCall, Advance(a))
    ensures SellLeft(Act(w, a).runner.pc, perCall) + SellOf(w, Advance(a))
            <= SellLeft(w.runner.pc, perCall) + perCall * Note(Launches(w, Advance(a)))
  {
    hide Act, SellLeft, SellOf, Launches;
    if w.runner.pc.Posting? || w.runner.pc.Posted? { CallSells(w, a, perCall); }
    else if InParts(w.runner.pc) { PartSells(w, a, perCall); }
    else { PlainSells(w, a, perCall); }
  }

  lemma CallSells(w: World, a: Answers, perCall: nat)
    requires (w.runner.pc.Posting? || w.runner.pc.Posted?) && Allows(perCall, Advance(a))
    ensures SellLeft(Act(w, a).runner.pc, perCall) + SellOf(w, Advance(a)) <= SellLeft(w.runner.pc, perCall)
  {
    hide AtHead, Resolve, EnterResumed, Work, Guard, Watch, Leave, Charge, Tally, SetStep, SetStatus, Positive;
  }

  lemma PartSells(w: World, a: Answers, perCall: nat)
    requires InParts(w.runner.pc) && Allows(perCall, Advance(a))
    ensures SellLeft(Act(w, a).runner.pc, perCall) + SellOf(w, Advance(a))
            <= SellLeft(w.runner.pc, perCall) + perCall * Note(Launches(w, Advance(a)))
  {
    hide AtHead, Resolve, EnterResumed, Work, Guard, Watch, Leave, Tally, Post, Conclude, Charge,
         Put, SetStep, SetStatus;
    StartSells(w, a, perCall);
    RoundSells(w, a, perCall);
  }

  lemma StartSells(w: World, a: Answers, perCall: nat)
    ensures w.runner.pc.Head? ==>
              SellLeft(AtHead(w, a).runner.pc, perCall) <= if AtHead(w, a).runner.pc.Resolving? then perCall else 0
    ensures SellLeft(Resolve(w, a).runner.pc, perCall) <= perCall
    ensures SellLeft(EnterResumed(w, a).runner.pc, perCall) <= perCall
    ensures SellLeft(Tally(w, a).runner.pc, perCall) == 0
  {
    hide WalletOf, Put, SetStep, SetStatus;
    SettersKeepRunner();
  }

  lemma RoundSells(w: World, a: Answers, perCall: nat)
    requires perCall == 1 || perCall == MAX_POSTS
    ensures forall s :: SellLeft(Work(w, a, s).runner.pc, perCall) <= perCall
    ensures forall r, t, h :: w.runner.pc == Watching(r, t, h) ==>
              SellLeft(Watch(w, a, r, t, h).runner.pc, perCall) <= perCall
    ensures forall r, t, h :: SellLeft(Leave(w, a, r, t, h).runner.pc, perCall) <= perCall
  {
    hide TokenPair, Positive, SetStep;
    SettersKeepRunner();
  }

  lemma PlainSells(w: World, a: Answers, perCall: nat)
    requires !w.runner.pc.Posting? && !w.runner.pc.Posted? && !InParts(w.runner.pc) && Allows(perCall, Advance(a))
    ensures SellLeft(Act(w, a).runner.pc, perCall) + SellOf(w, Advance(a)) <= SellLeft(w.runner.pc, perCall)
  {
    hide AtHead, Resolve, EnterResumed, Work, Watch, Leave, Tally, Post, Conclude, Put, SetStep, SetStatus;
    SettersKeepRunner();
  }

  lemma StepSells(w: World, e: Event, perCall: nat)
    requires Allows(perCall, e)
    ensures var w' := Next(w, e);
            Sells(w'.deeds) + SellLeft(w'.runner.pc, perCall)
            <= Sells(w.deeds) + SellLeft(w.runner.pc, perCall) + perCall * Note(Launches(w, e))
  {
    hide Sells, Act, Charged;
    StepDeeds(w, e);
    if DeedOf(w, e).Some? { OneMoreSell(w.deeds, DeedOf(w, e).value); }
    if e.Advance? { ActSells(w, e.a, perCall); }
  }

  /**
   * A round makes at most one SELL, requested once if answers come in time and up to three times if
   * not: over any run SELL requests number at most that many per round begun.
   */
  lemma {:induction false} SellsPerRound(w: World, es: seq<Event>, perCall: nat)
    requires perCall == 1 || perCall == MAX_POSTS
    requires forall i :: 0 <= i < |es| ==> Allows(perCall, es[i])
    ensures var w' := Run(w, es);
            Sells(w'.deeds) + SellLeft(w'.runner.pc, perCall)
            <= Sells(w.deeds) + SellLeft(w.runner.pc, perCall) + perCall * Rounds(w, es)
  {
    hide Sells, Next, SellLeft, Allows, Launches;
    if |es| > 0 {
      var before := es[..|es| - 1];
      SellsPerRound(w, before, perCall);
      StepSells(Run(w, before), es[|es| - 1], perCall);
      Distribute(perCall, Rounds(w, before), Note(Launches(Run(w, before), es[|es| - 1])));
    }
  }

  lemma Distribute(k: nat, a: nat, b: nat)
    ensures k * (a + b) == k * a + k * b
  {
  }

  // -- Requests and rate checks ---------------------------------------------

  /** A call that has to pass the rate limiter: every BUY, and every SELL of a runner that was not resumed. */
  predicate Limited(call: Call) {
    call.BuyCall? || (call.SellCall? && !call.resumed)
  }

  /** The step asks the rate limiter and is let through. */
  predicate PassesLimiter(w: World, e: Event) {
    e.Advance? && e.a.rateOk &&
    match w.runner.pc
    case Guarding(_, _) => !(e.a.getOk && Recorded(w.record))
    case Leaving(resumed, _, held) => !resumed && held.Some? && KnownTokenAddress("WETH", w.runner.goal.chain).Some?
    case _ => false
  }

  function Passes(w: World, es: seq<Event>): nat {
    if |es| == 0 then 0
    else Passes(w, es[..|es| - 1]) + Note(PassesLimiter(Run(w, es[..|es| - 1]), es[|es| - 1]))
  }

  /** The step makes a request of such a call. */
  predicate LimitedRequest(w: World, e: Event) {
    w.runner.pc.Posting? && Limited(w.runner.pc.call) && DeedOf(w, e).Some?
  }

  function LimitedRequests(w: World, es: seq<Event>): nat {
    if |es| == 0 then 0
    else LimitedRequests(w, es[..|es| - 1]) + Note(LimitedRequest(Run(w, es[..|es| - 1]), es[|es| - 1]))
  }

  /** What is left of a call that has passed. */
  function PassLeft(pc: Pc, perCall: nat): nat {
    match pc
    case Posting(call, attempt) => if Limited(call) then LeftBefore(attempt, perCall) else 0
    case Posted(call, attempt) => if Limited(call) then LeftAfter(attempt, perCall) else 0
    case _ => 0
  }

  lemma ActPasses(w: World, a: Answers, perCall: nat)
    requires Allows(perCall, Advance(a))
    ensures PassLeft(Act(w, a).runner.pc, perCall) + Note(LimitedRequest(w, Advance(a)))
            <= PassLeft(w.runner.pc, perCall) + perCall * Note(PassesLimiter(w, Advance(a)))
  {
    hide Act, PassLeft, LimitedRequest;
    var pc := w.runner.pc;
    if pc.Posting? || pc.Posted? { CallPasses(w, a, perCall); }
    else if pc.Guarding? || pc.Leaving? { CheckPasses(w, a, perCall); }
    else { NothingPasses(w, a, perCall); }
  }

  lemma CallPasses(w: World, a: Answers, perCall: nat)
    requires (w.runner.pc.Posting? || w.runner.pc.Posted?) && Allows(perCall, Advance(a))
    ensures PassLeft(Act(w, a).runner.pc, perCall) + Note(LimitedRequest(w, Advance(a)))
            <= PassLeft(w.runner.pc, perCall)
  {
    hide AtHead, Resolve, EnterResumed, Work, Guard, Watch, Leave, Charge, Tally, SetStep, SetStatus, Positive;
  }

  lemma CheckPasses(w: World, a: Answers, perCall: nat)
    requires (w.runner.pc.Guarding? || w.runner.pc.Leaving?) && (perCall == 1 || perCall == MAX_POSTS)
    ensures PassLeft(Act(w, a).runner.pc, perCall) <= perCall * Note(PassesLimiter(w, Advance(a)))
    ensures !LimitedRequest(w, Advance(a))
  {
    hide AtHead, Resolve, EnterResumed, Work, Watch, Post, Conclude, Charge, Tally, SetStep, SetStatus, Put,
         KnownTokenAddress;
    SettersKeepRunner();
  }

  lemma NothingPasses(w: World, a: Answers, perCall: nat)
    requires var pc := w.runner.pc; !pc.Posting? && !pc.Posted? && !pc.Guarding? && !pc.Leaving?
    ensures PassLeft(Act(w, a).runner.pc, perCall) == 0 && !LimitedRequest(w, Advance(a))
  {
    hide AtHead, Resolve, EnterResumed, Work, Guard, Watch, Leave, Tally, Post, Conclude, Put, SetStep, SetStatus;
    SettersKeepRunner();
    PartsPassNothing(w, a, perCall);
  }

  lemma PartsPassNothing(w: World, a: Answers, perCall: nat)
    requires !w.runner.pc.Posting? && !w.runner.pc.Posted?
    ensures PassLeft(AtHead(w, a).runner.pc, perCall) == 0 && PassLeft(Resolve(w, a).runner.pc, perCall) == 0
    ensures PassLeft(EnterResumed(w, a).runner.pc, perCall) == 0 && PassLeft(Tally(w, a).runner.pc, perCall) == 0
    ensures forall s :: PassLeft(Work(w, a, s).runner.pc, perCall) == 0
    ensures forall r, t, h :: PassLeft(Watch(w, a, r, t, h).runner.pc, perCall) == 0
  {
    hide TokenPair, WalletOf, Put, SetStep, SetStatus;
    SettersKeepRunner();
  }

  /**
   * Over any run the requests of BUYs and of SELLs on the normal path number at most the rate checks
   * passed, each counted once if answers come in time and up to three times if not.
   */
  lemma {:induction false} RequestsAreLimited(w: World, es: seq<Event>, perCall: nat)
    requires perCall == 1 || perCall == MAX_POSTS
    requires forall i :: 0 <= i < |es| ==> Allows(perCall, es[i])
    ensures LimitedRequests(w, es) + PassLeft(Run(w, es).runner.pc, perCall)
            <= PassLeft(w.runner.pc, perCall) + perCall * Passes(w, es)
  {
    hide Next, PassLeft, Allows, PassesLimiter, LimitedRequest;
    if |es| > 0 {
      var before, e := es[..|es| - 1], es[|es| - 1];
      RequestsAreLimited(w, before, perCall);
      StepPasses(Run(w, before), e, perCall);
      Distribute(perCall, Passes(w, before), Note(PassesLimiter(Run(w, before), e)));
    }
  }

  lemma StepPasses(w: World, e: Event, perCall: nat)
    requires Allows(perCall, e)
    ensures PassLeft(Next(w, e).runner.pc, perCall) + Note(LimitedRequest(w, e))
            <= PassLeft(w.runner.pc, perCall) + perCall * Note(PassesLimiter(w, e))
  {
    hide Act, Charged;
    if e.Advance? { ActPasses(w, e.a, perCall); }
  }

  /** Every BUY of a run is such a request. */
  lemma {:induction false} BuysAreLimited(w: World, es: seq<Event>)
    ensures Buys(Run(w, es).deeds) <= Buys(w.deeds) + LimitedRequests(w, es)
  {
    hide Buys, Next, LimitedRequest;
    if |es| > 0 {
      var before := es[..|es| - 1];
      BuysAreLimited(w, before);
      BuyIsLimited(Run(w, before), es[|es| - 1]);
    }
  }

  lemma BuyIsLimited(w: World, e: Event)
    ensures Buys(Next(w, e).deeds) <= Buys(w.deeds) + Note(LimitedRequest(w, e))
  {
    hide Buys, Next;
    StepDeeds(w, e);
    if DeedOf(w, e).Some? { OneMore(w.deeds, DeedOf(w, e).value); }
  }

  // -- BUYs and risk approvals ------------------------------------------------

  /** The risk agent gives its go-ahead and no cancel is seen after it. */
  predicate Approves(w: World, e: Event) {
    e.Advance? && w.runner.pc == Working(Risk) && e.a.outcome == Proceed && !w.runner.cancelled
  }

  function Approvals(w: World, es: seq<Event>): nat {
    if |es| == 0 then 0
    else Approvals(w, es[..|es| - 1]) + Note(Approves(Run(w, es[..|es| - 1]), es[|es| - 1]))
  }

  /** The BUY requests that an approval still allows. */
  function BuyLeft(pc: Pc, perCall: nat): nat {
    match pc
    case Entering(stage) => if stage == Trading then perCall else 0
    case Working(stage) => if stage == Trading then perCall else 0
    case EnteringExecuting(_, _) => perCall
    case Guarding(_, _) => perCall
    case Posting(BuyCall(_, _), attempt) => LeftBefore(attempt, perCall)
    case Posted(BuyCall(_, _), attempt) => LeftAfter(attempt, perCall)
    case _ => 0
  }

  lemma StepBuys(w: World, e: Event, perCall: nat)
    requires Allows(perCall, e)
    ensures var w' := Next(w, e);
            Buys(w'.deeds) + BuyLeft(w'.runner.pc, perCall)
            <= Buys(w.deeds) + BuyLeft(w.runner.pc, perCall) + perCall * Note(Approves(w, e))
  {
    hide Buys, Act, Charged;
    StepDeeds(w, e);
    if DeedOf(w, e).Some? { OneMore(w.deeds, DeedOf(w, e).value); }
    if e.Advance? {
      ActGoesTo(w, e.a);
      ToBuys(w, e.a, perCall);
      hide To;
    }
  }

  lemma ToBuys(w: World, a: Answers, perCall: nat)
    requires Allows(perCall, Advance(a))
    ensures BuyLeft(To(w.runner, w.record, a), perCall)
            + Note(DeedOf(w, Advance(a)).Some? && DeedOf(w, Advance(a)).value.Buy?)
            <= BuyLeft(w.runner.pc, perCall) + perCall * Note(Approves(w, Advance(a)))
  {
    hide WalletOf, TokenPair, Positive, KnownTokenAddress;
  }

  /**
   * No BUY without a risk approval: over any run BUY requests number at most the approvals given,
   * each counted once if answers come in time and up to three times if not.
   */
  lemma {:induction false} BuysNeedApproval(w: World, es: seq<Event>, perCall: nat)
    requires perCall == 1 || perCall == MAX_POSTS
    requires forall i :: 0 <= i < |es| ==> Allows(perCall, es[i])
    ensures var w' := Run(w, es);
            Buys(w'.deeds) + BuyLeft(w'.runner.pc, perCall)
            <= Buys(w.deeds) + BuyLeft(w.runner.pc, perCall) + perCall * Approvals(w, es)
  {
    hide Buys, Next, BuyLeft, Allows, Approves;
    if |es| > 0 {
      var before, e := es[..|es| - 1], es[|es| - 1];
      BuysNeedApproval(w, before, perCall);
      StepBuys(Run(w, before), e, perCall);
      Distribute(perCall, Approvals(w, before), Note(Approves(Run(w, before), e)));
    }
  }
}
