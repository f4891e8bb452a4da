/** How much a goal still requests once it is over, the kill flag is set, or a cancel is signalled. */
module GoalHalts {
  import opened Wrappers
  import opened GoalMachine
  import opened GoalBuys

  /**
   * How often one swap may be requested: once when no answer is late, else three times. Every bound
   * below holds for both.
   */
  predicate Allows(perCall: nat, e: Event) {
    perCall == MAX_POSTS || (perCall == 1 && AnswersInTime(e))
  }

  /** What is left of a call before a request, and after one. */
  function LeftBefore(attempt: Attempt, perCall: nat): nat {
    if perCall == MAX_POSTS then MAX_POSTS + 1 - attempt else 1
  }

  function LeftAfter(attempt: Attempt, perCall: nat): nat {
    if perCall == MAX_POSTS then MAX_POSTS - attempt else 0
  }

  /** What follows a call in the same round: SELL and fee after a BUY, the fee after a SELL. */
  function Following(call: Call, perCall: nat): nat {
    match call
    case BuyCall(_, _) => 2 * perCall
    case SellCall(resumed, _, _, _) => if resumed then 0 else perCall
    case FeeCall(_) => 0
  }

  /** The requests a runner may still make before it is back at the loop head. */
  function StillToSend(r: Runner, perCall: nat): nat {
    match r.pc
    case Resolving => if r.resume then perCall else 3 * perCall
    case ResumeEntry => perCall
    case Entering(_) => 3 * perCall
    case Working(_) => 3 * perCall
    case EnteringExecuting(_, _) => 3 * perCall
    case Guarding(_, _) => 3 * perCall
    case Posting(call, attempt) => LeftBefore(attempt, perCall) + Following(call, perCall)
    case Posted(call, attempt) => LeftAfter(attempt, perCall) + Following(call, perCall)
    case Recording(_, _) => 2 * perCall
    case Bought(_, _) => 2 * perCall
    case Watching(resumed, _, _) => if resumed then perCall else 2 * perCall
    case Leaving(resumed, _, _) => if resumed then perCall else 2 * perCall
    case Charging => perCall
    case _ => 0
  }

  lemma AtMostThreeCalls(r: Runner, perCall: nat)
    requires perCall == 1 || perCall == MAX_POSTS
    ensures StillToSend(r, perCall) <= if r.pc.Head? || r.pc.Dead? then 0 else 3 * perCall
  {
  }

  /** A new round begins: the head has loaded the goal and goes on with it. */
  predicate Launches(w: World, e: Event) {
    e.Advance? && w.runner.pc.Head? && AtHead(w, e.a).runner.pc.Resolving?
  }

  /** A request made by a step. */
  function RequestOf(w: World, e: Event): nat {
    Note(DeedOf(w, e).Some? && !DeedOf(w, e).value.Hold?)
  }

  lemma ActStillToSend(w: World, a: Answers, perCall: nat)
    requires !Launches(w, Advance(a)) && Allows(perCall, Advance(a))
    ensures StillToSend(Act(w, a).runner, perCall) + RequestOf(w, Advance(a)) <= StillToSend(w.runner, perCall)
  {
    hide Act, StillToSend, RequestOf, AtHead;
    if w.runner.pc.Posting? || w.runner.pc.Posted? { CallStillToSend(w, a, perCall); }
    else if InParts(w.runner.pc) { PartsStillToSend(w, a, perCall); }
    else { PlainStillToSend(w, a, perCall); }
  }

  /** The steps that are functions of their own. */
  predicate InParts(pc: Pc) {
    pc.Head? || pc.Resolving? || pc.ResumeEntry? || pc.Working? || pc.Watching? || pc.Leaving? || pc.Tallying?
  }

  lemma PartsStillToSend(w: World, a: Answers, perCall: nat)
    requires InParts(w.runner.pc) && !Launches(w, Advance(a)) && Allows(perCall, Advance(a))
    ensures StillToSend(Act(w, a).runner, perCall) + RequestOf(w, Advance(a)) <= StillToSend(w.runner, perCall)
  {
    hide AtHead, Resolve, EnterResumed, Work, Guard, Watch, Leave, Tally, Post, Conclude, Charge,
         Put, SetStep, SetStatus;
    MovesStillToSend(w, a, perCall);
    RoundStillToSend(w, a, perCall);
    WorkStillToSend(w, a, perCall);
  }

  lemma PlainStillToSend(w: World, a: Answers, perCall: nat)
    requires !w.runner.pc.Posting? && !w.runner.pc.Posted? && !InParts(w.runner.pc) && Allows(perCall, Advance(a))
    ensures StillToSend(Act(w, a).runner, perCall) + RequestOf(w, Advance(a)) <= StillToSend(w.runner, perCall)
  {
    hide AtHead, Resolve, EnterResumed, Work, Watch, Leave, Tally, Post, Conclude, Put, SetStep, SetStatus;
    SettersKeepRunner();
  }

  lemma CallStillToSend(w: World, a: Answers, perCall: nat)
    requires (w.runner.pc.Posting? || w.runner.pc.Posted?) && Allows(perCall, Advance(a))
    ensures StillToSend(Act(w, a).runner, perCall) + RequestOf(w, Advance(a)) <= StillToSend(w.runner, perCall)
  {
    hide AtHead, Resolve, EnterResumed, Work, Guard, Watch, Leave, Tally, SetStep, SetStatus, Positive;
  }

  lemma MovesStillToSend(w: World, a: Answers, perCall: nat)
    ensures w.runner.pc.Head? && !AtHead(w, a).runner.pc.Resolving? ==> StillToSend(AtHead(w, a).runner, perCall) == 0
    ensures w.runner.pc.Resolving? ==> StillToSend(Resolve(w, a).runner, perCall) <= StillToSend(w.runner, perCall)
    ensures StillToSend(EnterResumed(w, a).runner, perCall) <= perCall && StillToSend(Tally(w, a).runner, perCall) == 0
  {
    hide WalletOf, Put, SetStep, SetStatus;
    SettersKeepRunner();
  }

  lemma RoundStillToSend(w: World, a: Answers, perCall: nat)
    requires perCall == 1 || perCall == MAX_POSTS
    ensures forall resumed, t, held :: w.runner.pc == Watching(resumed, t, held) ==>
              StillToSend(Watch(w, a, resumed, t, held).runner, perCall) <= StillToSend(w.runner, perCall)
    ensures forall resumed, t, held :: w.runner.pc == Leaving(resumed, t, held) ==>
              StillToSend(Leave(w, a, resumed, t, held).runner, perCall) <= StillToSend(w.runner, perCall)
  {
    hide Positive, SetStep;
    SettersKeepRunner();
  }

  lemma WorkStillToSend(w: World, a: Answers, perCall: nat)
    ensures forall s :: StillToSend(Work(w, a, s).runner, perCall) <= 3 * perCall
  {
    hide TokenPair;
  }

  lemma StepSends(w: World, e: Event, perCall: nat)
    requires !Launches(w, e) && Allows(perCall, e)
    ensures var w' := Next(w, e);
            Sent(w'.deeds) + StillToSend(w'.runner, perCall) <= Sent(w.deeds) + StillToSend(w.runner, perCall)
  {
    hide Sent, Act, Charged;
    StepDeeds(w, e);
    if DeedOf(w, e).Some? { OneMore(w.deeds, DeedOf(w, e).value); }
    if e.Advance? { ActStillToSend(w, e.a, perCall); }
  }

  /**
   * Writes in one step: a terminal status stays terminal over every crash, boot and failed write. A
   * BUY, a SELL and an exit fee may still go out, each requested once if answers come in time and up
   * to three times if not; from the loop head, or with the runner gone, nothing does.
   */
  lemma {:induction false} TerminalSticks(w: World, es: seq<Event>, perCall: nat)
    requires Terminal(w.record.status) && NothingStale(w)
    requires TameRun(w, es) && forall i :: 0 <= i < |es| ==> Allows(perCall, es[i])
    requires perCall == 1 || perCall == MAX_POSTS
    ensures var w' := Run(w, es);
            && Terminal(w'.record.status) && NothingStale(w')
            && Sent(w'.deeds) + StillToSend(w'.runner, perCall) <= Sent(w.deeds) + StillToSend(w.runner, perCall)
            && Sent(w'.deeds) <= Sent(w.deeds) + (if w.runner.pc.Head? || w.runner.pc.Dead? then 0 else 3 * perCall)
  {
    hide Sent, Next, StillToSend, Tame, Allows;
    AtMostThreeCalls(w.runner, perCall);
    if |es| > 0 {
      var before := es[..|es| - 1];
      TerminalSticks(w, before, perCall);
      TameStep(Run(w, before), es[|es| - 1]);
      StepSends(Run(w, before), es[|es| - 1], perCall);
    }
  }

  /** A runner at its head leaves a terminal goal, and boot leaves it alone. */
  lemma TerminalIsLeft(w: World, a: Answers)
    requires Terminal(w.record.status)
    ensures w.runner.pc.Head? ==>
              Act(w, a).runner.pc == (if w.runner.cancelled then Dead else if a.killFlag then Head
                                      else if a.deadlinePassed then Failing else Dead)
    ensures BootUp(w) == w
  {
  }

  /**
   * While the kill flag stays set, reboots included, a BUY, a SELL and an exit fee may still go out,
   * with as many requests each as above; from the loop head, or with the runner gone, nothing does.
   */
  lemma {:induction false} KillFlagHalts(w: World, es: seq<Event>, perCall: nat)
    requires forall i :: 0 <= i < |es| ==> (es[i].Advance? ==> es[i].a.killFlag) && Allows(perCall, es[i])
    requires perCall == 1 || perCall == MAX_POSTS
    ensures var w' := Run(w, es);
            && Sent(w'.deeds) + StillToSend(w'.runner, perCall) <= Sent(w.deeds) + StillToSend(w.runner, perCall)
            && Sent(w'.deeds) <= Sent(w.deeds) + (if w.runner.pc.Head? || w.runner.pc.Dead? then 0 else 3 * perCall)
  {
    hide Sent, Next, StillToSend, Allows;
    AtMostThreeCalls(w.runner, perCall);
    if |es| > 0 {
      KillFlagHalts(w, es[..|es| - 1], perCall);
      StepSends(Run(w, es[..|es| - 1]), es[|es| - 1], perCall);
    }
  }

  // -- Cancelling -----------------------------------------------------------

  predicate Stopping(r: Runner) {
    r.cancelled || r.pc.Dead?
  }

  /** What a runner past its last look at the signal still requests: nothing looks between SELL and fee. */
  function PastTheCheck(r: Runner, perCall: nat): nat {
    match r.pc
    case EnteringExecuting(_, _) => perCall
    case Guarding(_, _) => perCall
    case Posting(call, attempt) => LeftBefore(attempt, perCall) + Unchecked(call, perCall)
    case Posted(call, attempt) => LeftAfter(attempt, perCall) + Unchecked(call, perCall)
    case Leaving(resumed, _, _) => if resumed then perCall else 2 * perCall
    case Charging => perCall
    case _ => 0
  }

  function Unchecked(call: Call, perCall: nat): nat {
    if call.SellCall? && !call.resumed then perCall else 0
  }

  lemma AtMostTwoCalls(r: Runner, perCall: nat)
    requires perCall == 1 || perCall == MAX_POSTS
    ensures PastTheCheck(r, perCall) <= 2 * perCall
  {
  }

  lemma ActStops(w: World, a: Answers, perCall: nat)
    requires Stopping(w.runner) && Allows(perCall, Advance(a))
    ensures Stopping(Act(w, a).runner)
    ensures PastTheCheck(Act(w, a).runner, perCall) + RequestOf(w, Advance(a)) <= PastTheCheck(w.runner, perCall)
  {
    hide Act, Stopping, PastTheCheck, RequestOf, Allows;
    if w.runner.pc.Posting? || w.runner.pc.Posted? { CallStops(w, a, perCall); }
    else if InParts(w.runner.pc) { PartsStop(w, a, perCall); }
    else { PlainStops(w, a, perCall); }
  }

  lemma PartsStop(w: World, a: Answers, perCall: nat)
    requires InParts(w.runner.pc) && Stopping(w.runner) && Allows(perCall, Advance(a))
    ensures Stopping(Act(w, a).runner)
    ensures PastTheCheck(Act(w, a).runner, perCall) + RequestOf(w, Advance(a)) <= PastTheCheck(w.runner, perCall)
  {
    hide AtHead, Resolve, EnterResumed, Work, Guard, Watch, Leave, Tally, Post, Conclude, Charge,
         Put, SetStep, SetStatus;
    MovesStop(w, a, perCall);
    LeavingStops(w, a, perCall);
  }

  lemma PlainStops(w: World, a: Answers, perCall: nat)
    requires !w.runner.pc.Posting? && !w.runner.pc.Posted? && !InParts(w.runner.pc)
    requires Stopping(w.runner) && Allows(perCall, Advance(a))
    ensures Stopping(Act(w, a).runner)
    ensures PastTheCheck(Act(w, a).runner, perCall) + RequestOf(w, Advance(a)) <= PastTheCheck(w.runner, perCall)
  {
    hide AtHead, Resolve, EnterResumed, Work, Watch, Leave, Tally, Post, Conclude, Put, SetStep, SetStatus;
    SettersKeepRunner();
  }

  lemma CallStops(w: World, a: Answers, perCall: nat)
    requires (w.runner.pc.Posting? || w.runner.pc.Posted?) && Stopping(w.runner) && Allows(perCall, Advance(a))
    ensures Stopping(Act(w, a).runner)
    ensures PastTheCheck(Act(w, a).runner, perCall) + RequestOf(w, Advance(a)) <= PastTheCheck(w.runner, perCall)
  {
    hide AtHead, Resolve, EnterResumed, Work, Guard, Watch, Leave, Tally, SetStep, SetStatus, Positive;
  }

  predicate Stopped(r: Runner, perCall: nat) {
    Stopping(r) && PastTheCheck(r, perCall) == 0
  }

  lemma MovesStop(w: World, a: Answers, perCall: nat)
    requires w.runner.cancelled
    ensures w.runner.pc.Head? ==> Stopped(AtHead(w, a).runner, perCall)
    ensures Stopped(Resolve(w, a).runner, perCall) && Stopped(EnterResumed(w, a).runner, perCall)
    ensures Stopped(Tally(w, a).runner, perCall)
    ensures forall s :: Stopped(Work(w, a, s).runner, perCall)
    ensures forall resumed, t, held :: w.runner.pc == Watching(resumed, t, held) ==>
              Stopped(Watch(w, a, resumed, t, held).runner, perCall)
  {
    hide TokenPair, WalletOf, Put, SetStep, SetStatus;
    SettersKeepRunner();
  }

  lemma LeavingStops(w: World, a: Answers, perCall: nat)
    requires w.runner.cancelled && (perCall == 1 || perCall == MAX_POSTS)
    ensures forall resumed, t, held :: w.runner.pc == Leaving(resumed, t, held) ==>
              var r := Leave(w, a, resumed, t, held).runner;
              Stopping(r) && PastTheCheck(r, perCall) <= PastTheCheck(w.runner, perCall)
  {
    hide Positive, SetStep;
    SettersKeepRunner();
  }

  lemma StopStep(w: World, e: Event, perCall: nat)
    requires Stopping(w.runner) && !e.Boot? && Allows(perCall, e)
    ensures var w' := Next(w, e);
            && Stopping(w'.runner)
            && Sent(w'.deeds) + PastTheCheck(w'.runner, perCall) <= Sent(w.deeds) + PastTheCheck(w.runner, perCall)
  {
    hide Sent, Act, Charged;
    StepDeeds(w, e);
    if DeedOf(w, e).Some? { OneMore(w.deeds, DeedOf(w, e).value); }
    if e.Advance? { ActStops(w, e.a, perCall); }
  }

  /**
   * After the cancel signal, until the next boot, at most two swaps still go out, a SELL and its
   * exit fee, or one BUY; again with as many requests each as above.
   */
  lemma {:induction false} CancelAllowsAtMostTwo(w: World, es: seq<Event>, perCall: nat)
    requires Stopping(w.runner) && (perCall == 1 || perCall == MAX_POSTS)
    requires forall i :: 0 <= i < |es| ==> !es[i].Boot? && Allows(perCall, es[i])
    ensures var w' := Run(w, es);
            && Stopping(w'.runner)
            && Sent(w'.deeds) + PastTheCheck(w'.runner, perCall) <= Sent(w.deeds) + PastTheCheck(w.runner, perCall)
            && Sent(w'.deeds) <= Sent(w.deeds) + 2 * perCall
  {
    hide Sent, Next, PastTheCheck, Allows;
    AtMostTwoCalls(w.runner, perCall);
    if |es| > 0 {
      CancelAllowsAtMostTwo(w, es[..|es| - 1], perCall);
      StopStep(Run(w, es[..|es| - 1]), es[|es| - 1], perCall);
    }
  }
}
