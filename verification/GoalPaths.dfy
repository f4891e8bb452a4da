/**
 * Where a runner step can lead, told by where it arrives: each point of the round is reached from the
 * named points only, on the named answers, and always then. The steps' other effects follow.
 */
module GoalPaths {
  import opened Wrappers
  import opened SwapToken
  import opened GoalMachine
  import opened GoalBuys

  // -- The next point, without the world around it ---------------------------

  /** The step's next point from the runner's variables, the stored record and the answers. */
  function To(r: Runner, g: Goal, a: Answers): Pc {
    match r.pc
    case Dead => Dead
    case Head => ToFromHead(r, g, a)
    case Resolving => if r.cachedWallet.None? && WalletOf(r.goal).None? then Failing else AfterResolving(r)
    case ResumeEntry => if Recorded(r.goal) then Watching(true, r.goal.token.value, r.goal.held) else Failing
    case Entering(stage) => Working(stage)
    case Working(stage) => ToFromWork(r, a, stage)
    case EnteringExecuting(x, t) => Guarding(x, t)
    case Guarding(x, t) =>
      if a.getOk && Recorded(g) then Bought(g.token.value, g.held)
      else if a.rateOk then Posting(BuyCall(x, t), 1) else Failing
    case Posting(call, attempt) =>
      if r.cachedWallet.None? then Failing
      else if a.reached then Posted(call, attempt)
      else if attempt < MAX_POSTS then Posting(call, attempt + 1) else AfterFailure(call)
    case Posted(call, attempt) => ToFromPosted(a, call, attempt)
    case BuyFailing => Dead
    case Recording(t, held) => Bought(t, held)
    case Bought(t, held) => if r.cancelled then Head else Watching(false, t, held)
    case Watching(resumed, t, held) => ToFromWatch(r, g, a)
    case WatchFailing => if r.cancelled then Dead else Head
    case Finishing => Dead
    case Rotating => Head
    case Leaving(resumed, t, held) => ToFromLeaving(r, a, resumed, t, held)
    case Charging => if a.treasury.Some? then Posting(FeeCall(a.treasury.value), 1) else Sold
    case Sold => if r.cancelled then Head else BookingGain
    case BookingGain => Tallying
    case Tallying => if a.getOk && a.verdict == NextCycle then Head else Dead
    case Failing => Dead
  }

  function ToFromHead(r: Runner, g: Goal, a: Answers): Pc {
    if r.cancelled then Dead
    else if a.killFlag then Head
    else if a.deadlinePassed then Failing
    else if !a.getOk || Terminal(g.status) then Dead
    else if g.status == Paused then Head
    else Resolving
  }

  function ToFromWork(r: Runner, a: Answers, stage: Stage): Pc {
    match a.outcome
    case Abort => Failing
    case Again => if stage == Scouting then Failing else Head
    case Proceed =>
      if r.cancelled then Head
      else match stage
           case Scouting => Entering(Risk)
           case Risk => Entering(Trading)
           case _ =>
             match TokenPair(a, r.goal.chain)
             case Some((x, y)) => EnteringExecuting(x, y)
             case None => if r.scoutRetries + 1 >= MAX_SCOUT_RETRIES then Failing else Head
  }

  function ToFromPosted(a: Answers, call: Call, attempt: Attempt): Pc {
    if a.reply == TimedOut && attempt < MAX_POSTS then Posting(call, attempt + 1)
    else if a.reply != Answered || !a.txOk then AfterFailure(call)
    else match call
         case BuyCall(_, t) => Recording(t, Positive(a.quote))
         case SellCall(resumed, _, _, _) => if resumed then Head else Charging
         case FeeCall(_) => Sold
  }

  function ToFromWatch(r: Runner, g: Goal, a: Answers): Pc
    requires r.pc.Watching?
  {
    if a.monitor == TestnetTimeout then Finishing
    else if a.monitor == CannotEvaluate then WatchFailing
    else if r.cancelled then Dead
    else match a.monitor
         case ExitSignal => Leaving(r.pc.resumed, r.pc.token, r.pc.held)
         case YieldRotate => Rotating
         case SawCancelled => if a.getOk && g.status == Cancelled then Head else r.pc
         case _ => r.pc
  }

  function ToFromLeaving(r: Runner, a: Answers, resumed: bool, t: string, held: Option<string>): Pc {
    if held.None? || (resumed && Positive(held).None?) then Failing
    else if KnownTokenAddress("WETH", r.goal.chain).None? then Failing
    else if !resumed && !a.rateOk then Failing
    else Posting(SellCall(resumed, t, held.value, if resumed then "0" else a.minOut), 1)
  }

  lemma ActGoesTo(w: World, a: Answers)
    ensures Act(w, a).runner.pc == To(w.runner, w.record, a)
  {
    hide AtHead, Resolve, EnterResumed, Work, Guard, Watch, Leave, Post, Conclude, Charge, Tally, SetStep, SetStatus,
         Put, ToFromHead, ToFromWork, ToFromPosted, ToFromWatch, ToFromLeaving;
    SettersKeepRunner();
    match w.runner.pc {
      case Head => PartsGoTo(w, a);
      case Resolving => PartsGoTo(w, a);
      case ResumeEntry => PartsGoTo(w, a);
      case Tallying => PartsGoTo(w, a);
      case Working(stage) => WorkGoesTo(w, a, stage);
      case Guarding(_, _) => CallGoesTo(w, a);
      case Posting(_, _) => CallGoesTo(w, a);
      case Posted(_, _) => CallGoesTo(w, a);
      case Charging => CallGoesTo(w, a);
      case Watching(_, _, _) => WatchGoesTo(w, a);
      case Leaving(_, _, _) => WatchGoesTo(w, a);
      case _ =>
    }
  }

  lemma PartsGoTo(w: World, a: Answers)
    ensures w.runner.pc.Head? ==> AtHead(w, a).runner.pc == ToFromHead(w.runner, w.record, a)
    ensures w.runner.pc.Resolving? ==> Resolve(w, a).runner.pc == To(w.runner, w.record, a)
    ensures w.runner.pc.ResumeEntry? ==> EnterResumed(w, a).runner.pc == To(w.runner, w.record, a)
    ensures Tally(w, a).runner.pc == if a.getOk && a.verdict == NextCycle then Head else Dead
  {
    hide WalletOf, Put, SetStep, SetStatus;
    SettersKeepRunner();
  }

  lemma WorkGoesTo(w: World, a: Answers, stage: Stage)
    ensures Work(w, a, stage).runner.pc == ToFromWork(w.runner, a, stage)
  {
    hide TokenPair;
  }

  lemma CallGoesTo(w: World, a: Answers)
    ensures forall x, t :: Guard(w, a, x, t).runner.pc ==
              (if a.getOk && Recorded(w.record) then Bought(w.record.token.value, w.record.held)
               else if a.rateOk then Posting(BuyCall(x, t), 1) else Failing)
    ensures forall call, attempt: Attempt :: Post(w, a, call, attempt).runner.pc ==
              (if w.runner.cachedWallet.None? then Failing
               else if a.reached then Posted(call, attempt)
               else if attempt < MAX_POSTS then Posting(call, attempt + 1) else AfterFailure(call))
    ensures forall call, attempt: Attempt :: Conclude(w, a, call, attempt).runner.pc == ToFromPosted(a, call, attempt)
    ensures Charge(w, a).runner.pc == if a.treasury.Some? then Posting(FeeCall(a.treasury.value), 1) else Sold
  {
    hide Positive;
  }

  lemma WatchGoesTo(w: World, a: Answers)
    ensures forall resumed, t, held :: w.runner.pc == Watching(resumed, t, held) ==>
              Watch(w, a, resumed, t, held).runner.pc == ToFromWatch(w.runner, w.record, a)
    ensures forall resumed, t, held ::
              Leave(w, a, resumed, t, held).runner.pc == ToFromLeaving(w.runner, a, resumed, t, held)
  {
    hide Positive, SetStep;
    SettersKeepRunner();
  }

  // -- Reaching a round's early points ---------------------------------------

  /** The head loads a goal and goes on with it only if it is pending or running and nothing stands against it. */
  lemma RoundBeginsWhen(w: World, a: Answers)
    ensures Act(w, a).runner.pc.Resolving? <==>
            && w.runner.pc.Head? && !w.runner.cancelled && !a.killFlag && !a.deadlinePassed && a.getOk
            && w.record.status in {Pending, Running}
  {
    ActGoesTo(w, a);
    hide Act, WalletOf, TokenPair, Positive;
  }

  /** A wallet text is a wallet exactly when it is a printed UUID; a stored resolution goes before the creation's. */
  lemma WalletIsKnownWhen(g: Goal)
    ensures WalletOf(g) ==
            match (if g.resolvedWallet.Some? then g.resolvedWallet else g.owner.walletId)
            case Some(Printed(u)) => Some(u)
            case _ => None
  {
  }

  /** With a wallet a round goes on to scouting, or to the stored position on a resumed runner's first round. */
  lemma RoundGoesOnWhen(w: World, a: Answers)
    ensures var r := w.runner; var known := r.cachedWallet.Some? || WalletOf(r.goal).Some?;
            && (Act(w, a).runner.pc.ResumeEntry? <==> r.pc.Resolving? && r.resume && known)
            && (Act(w, a).runner.pc == Entering(Scouting) <==> r.pc.Resolving? && !r.resume && known)
  {
    ActGoesTo(w, a);
    hide Act, WalletOf, TokenPair, Positive;
  }

  /**
   * Risk is entered exactly from a scout's go-ahead, trading from a risk approval, and execution from a
   * trader's go-ahead on two different addresses, each with no cancel in between.
   */
  lemma StagesAreEarned(w: World, a: Answers)
    ensures var r, to := w.runner, Act(w, a).runner.pc; var goAhead := a.outcome == Proceed && !r.cancelled;
            && (to == Entering(Risk) <==> r.pc == Working(Scouting) && goAhead)
            && (to == Entering(Trading) <==> r.pc == Working(Risk) && goAhead)
            && (forall s: Stage :: to == Working(s) <==> r.pc == Entering(s))
            && (forall x, t :: to == EnteringExecuting(x, t) <==>
                  && r.pc == Working(Trading) && goAhead && Lower(x) != Lower(t)
                  && ResolveSwapToken(a.tokenIn, r.goal.chain) == Some(x)
                  && ResolveSwapToken(a.tokenOut, r.goal.chain) == Some(t))
            && (forall x, t :: to == Guarding(x, t) <==> r.pc == EnteringExecuting(x, t))
  {
    ActGoesTo(w, a);
    hide Act, WalletOf, Positive, ResolveSwapToken, Lower;
  }

  /** A blocked risk gate or a holding trader starts a new round and changes nothing; giving up fails the goal. */
  lemma AgentsTurnDown(w: World, a: Answers)
    requires w.runner.pc.Working?
    ensures a.outcome == Again && w.runner.pc.stage != Scouting ==> Act(w, a) == w.(runner := w.runner.(pc := Head))
    ensures a.outcome == Again && w.runner.pc.stage == Scouting ==> Act(w, a) == w.(runner := w.runner.(pc := Failing))
    ensures a.outcome == Abort ==> Act(w, a) == w.(runner := w.runner.(pc := Failing))
    ensures a.outcome == Proceed && w.runner.cancelled ==> Act(w, a) == w.(runner := w.runner.(pc := Head))
  {
    hide TokenPair;
  }

  /** A pair that is none is retried four times in a row and fails the goal at the fifth; a good one resets it. */
  lemma PairsAreRetried(w: World, a: Answers)
    requires w.runner.pc == Working(Trading) && a.outcome == Proceed && !w.runner.cancelled
    ensures var to := Act(w, a).runner;
            var chain := w.runner.goal.chain;
            var x, y := ResolveSwapToken(a.tokenIn, chain), ResolveSwapToken(a.tokenOut, chain);
            if x.Some? && y.Some? && Lower(x.value) != Lower(y.value) then
              to.pc == EnteringExecuting(x.value, y.value) && to.scoutRetries == 0
            else
              && to.scoutRetries == w.runner.scoutRetries + 1
              && to.pc == if w.runner.scoutRetries >= 4 then Failing else Head
  {
    hide ResolveSwapToken, Lower;
  }

  // -- Reaching the requests --------------------------------------------------

  /** A first request follows exactly the checks of its kind. */
  lemma RequestsStartWhen(w: World, a: Answers)
    ensures var pc, to := w.runner.pc, Act(w, a).runner.pc;
            && (forall x, t :: to == Posting(BuyCall(x, t), 1) <==>
                  pc == Guarding(x, t) && a.rateOk && !(a.getOk && w.record.token.Some? && w.record.token.value != ""))
            && (forall resumed, t, m, minOut :: to == Posting(SellCall(resumed, t, m, minOut), 1) <==>
                  && pc == Leaving(resumed, t, Some(m)) && KnownTokenAddress("WETH", w.runner.goal.chain).Some?
                  && (if resumed then m != "" && m != "0" && minOut == "0" else a.rateOk && minOut == a.minOut))
            && (forall treasury ::
                  to == Posting(FeeCall(treasury), 1) <==> pc.Charging? && a.treasury == Some(treasury))
  {
    ActGoesTo(w, a);
    hide Act, WalletOf, TokenPair, KnownTokenAddress;
  }

  /** A later request follows exactly an attempt that did not connect or was not answered in time. */
  lemma RequestsRepeatWhen(w: World, a: Answers, call: Call, attempt: Attempt)
    requires attempt > 1
    ensures Act(w, a).runner.pc == Posting(call, attempt) <==>
            || (w.runner.pc == Posting(call, attempt - 1) && w.runner.cachedWallet.Some? && !a.reached)
            || (w.runner.pc == Posted(call, attempt - 1) && a.reply == TimedOut)
  {
    ActGoesTo(w, a);
    hide Act, WalletOf, TokenPair, Positive, KnownTokenAddress;
  }

  lemma RequestGoesOutWhen(w: World, a: Answers, call: Call, attempt: Attempt)
    ensures Act(w, a).runner.pc == Posted(call, attempt) <==>
            w.runner.pc == Posting(call, attempt) && w.runner.cachedWallet.Some? && a.reached
  {
    ActGoesTo(w, a);
    hide Act, WalletOf, TokenPair, Positive, KnownTokenAddress;
  }

  /** The deed of a step: the request just made, or the amount settled on once a BUY went through. */
  lemma DeedsAre(w: World, a: Answers)
    ensures Act(w, a).deeds ==
            match (w.runner.pc, w.runner.cachedWallet)
            case (Posting(BuyCall(x, t), _), Some(u)) => if a.reached then w.deeds + [Buy(u, x, t)] else w.deeds
            case (Posting(SellCall(_, t, m, o), _), Some(u)) =>
              if a.reached then w.deeds + [Sell(u, t, m, o)] else w.deeds
            case (Posting(FeeCall(y), _), Some(_)) =>
              if a.reached then w.deeds + [Fee(w.runner.goal.owner.goalId, y)] else w.deeds
            case (Posted(BuyCall(_, t), _), _) =>
              if a.reply == Answered && a.txOk then
                w.deeds + [Hold(t, if a.quote in {Some(""), Some("0")} then None else a.quote)]
              else w.deeds
            case _ => w.deeds
  {
    hide Act;
    StepDeeds(w, Advance(a));
  }

  // -- What follows a call ------------------------------------------------------

  /** A call is over once answered, or after the third attempt; it went well if answered so. */
  lemma CallsEndWhen(w: World, a: Answers)
    ensures var r, to := w.runner, Act(w, a).runner.pc;
            && (forall t, held :: to == Recording(t, held) <==>
                  && r.pc.Posted? && r.pc.call.BuyCall? && r.pc.call.token == t && a.reply == Answered && a.txOk
                  && held == if a.quote in {Some(""), Some("0")} then None else a.quote)
            && (to.Charging? <==>
                  r.pc.Posted? && r.pc.call.SellCall? && !r.pc.call.resumed && a.reply == Answered && a.txOk)
            && (to.BuyFailing? <==> FailsNow(r, a) && r.pc.call.BuyCall?)
            && (to.Sold? <==>
                  || (r.pc.Charging? && a.treasury.None?)
                  || (FailsNow(r, a) && (r.pc.call.FeeCall? || (r.pc.call.SellCall? && !r.pc.call.resumed)))
                  || (r.pc.Posted? && r.pc.call.FeeCall? && a.reply == Answered && a.txOk))
  {
    ActGoesTo(w, a);
    hide Act, WalletOf, TokenPair, KnownTokenAddress;
  }

  /** The call fails with this step: a last attempt without connection or answer, a broken or a bad answer. */
  predicate FailsNow(r: Runner, a: Answers) {
    || (r.pc.Posting? && r.cachedWallet.Some? && !a.reached && r.pc.attempt == 3)
    || (&& r.pc.Posted?
        && (a.reply == Broken || (a.reply == Answered && !a.txOk) || (a.reply == TimedOut && r.pc.attempt == 3)))
  }

  lemma FailsNowWhen(r: Runner, a: Answers)
    ensures FailsNow(r, a) ==> r.pc.Posting? || r.pc.Posted?
    ensures r.pc.Posting? ==> (FailsNow(r, a) <==> r.cachedWallet.Some? && !a.reached && r.pc.attempt == 3)
    ensures r.pc.Posted? ==>
              (FailsNow(r, a) <==> !(a.reply == Answered && a.txOk) && !(a.reply == TimedOut && r.pc.attempt < 3))
  {
  }

  // -- Positions and ends --------------------------------------------------------

  /** A position is taken up after its record, or from the store. */
  lemma PositionsStartWhen(w: World, a: Answers)
    ensures var r, g, to := w.runner, w.record, Act(w, a).runner.pc;
            && (forall t, held :: to == Bought(t, held) <==>
                  || r.pc == Recording(t, held)
                  || (r.pc.Guarding? && a.getOk && g.token == Some(t) && t != "" && g.held == held))
            && (forall t, held :: r.pc != Watching(false, t, held) ==>
                  (to == Watching(false, t, held) <==> r.pc == Bought(t, held) && !r.cancelled))
            && (forall t, held :: r.pc != Watching(true, t, held) ==>
                  (to == Watching(true, t, held) <==>
                     r.pc.ResumeEntry? && r.goal.token == Some(t) && t != "" && r.goal.held == held))
  {
    ActGoesTo(w, a);
    hide Act, WalletOf, TokenPair, KnownTokenAddress, Positive;
  }

  /** It is watched on, left, rotated, completed or failed exactly as the watch says, unless a cancel outranks it. */
  lemma PositionsMoveWhen(w: World, a: Answers)
    ensures var r, g, to := w.runner, w.record, Act(w, a).runner.pc;
            && (forall resumed, t, held :: to == Leaving(resumed, t, held) <==>
                  r.pc == Watching(resumed, t, held) && a.monitor == ExitSignal && !r.cancelled)
            && (to.Rotating? <==> r.pc.Watching? && a.monitor == YieldRotate && !r.cancelled)
            && (to.Finishing? <==> r.pc.Watching? && a.monitor == TestnetTimeout)
            && (to.WatchFailing? <==> r.pc.Watching? && a.monitor == CannotEvaluate)
            && (r.pc.Watching? ==>
                  (to == r.pc <==> && !r.cancelled
                                   && (|| a.monitor == KeepWatching
                                       || (a.monitor == SawCancelled && !(a.getOk && g.status == Cancelled)))))
            && (to.BookingGain? <==> r.pc.Sold? && !r.cancelled) && (to.Tallying? <==> r.pc.BookingGain?)
  {
    ActGoesTo(w, a);
    hide Act, WalletOf, TokenPair, KnownTokenAddress, Positive;
  }

  /** The goal is failed for a reason, and for each of these reasons. */
  lemma GoalFailsWhen(w: World, a: Answers)
    ensures var r, g := w.runner, w.record;
            Act(w, a).runner.pc.Failing? <==>
            match r.pc
            case Head => !r.cancelled && !a.killFlag && a.deadlinePassed
            case Resolving => r.cachedWallet.None? && WalletOf(r.goal).None?
            case ResumeEntry => r.goal.token.None? || r.goal.token.value == ""
            case Working(stage) =>
              || a.outcome == Abort || (a.outcome == Again && stage == Scouting)
              || (stage == Trading && a.outcome == Proceed && !r.cancelled && r.scoutRetries >= 4
                  && TokenPair(a, r.goal.chain).None?)
            case Guarding(_, _) => !a.rateOk && !(a.getOk && g.token.Some? && g.token.value != "")
            case Posting(_, _) => r.cachedWallet.None?
            case Leaving(resumed, _, held) =>
              || held.None? || (resumed && (held.value == "" || held.value == "0")) || (!resumed && !a.rateOk)
              || KnownTokenAddress("WETH", r.goal.chain).None?
            case _ => false
  {
    ActGoesTo(w, a);
    hide Act, WalletOf, TokenPair, KnownTokenAddress;
  }

  /** The runner's ends, and its ways back to the head. */
  lemma RunnerStopsWhen(w: World, a: Answers)
    requires !w.runner.pc.Dead?
    ensures var r, g, to := w.runner, w.record, Act(w, a).runner.pc;
            && (to.Dead? <==>
                match r.pc
                case Head =>
                  || r.cancelled
                  || (&& !a.killFlag && !a.deadlinePassed
                      && (!a.getOk || g.status in {Cancelled, Completed, Failed}))
                case Watching(_, _, _) => r.cancelled && a.monitor !in {TestnetTimeout, CannotEvaluate}
                case WatchFailing => r.cancelled
                case Tallying => !a.getOk || a.verdict != NextCycle
                case _ => r.pc.BuyFailing? || r.pc.Finishing? || r.pc.Failing?)
            && (to.Head? <==>
                match r.pc
                case Head => !r.cancelled && (a.killFlag || (!a.deadlinePassed && a.getOk && g.status == Paused))
                case Working(stage) =>
                  || (a.outcome == Again && stage != Scouting) || (a.outcome == Proceed && r.cancelled)
                  || (&& stage == Trading && a.outcome == Proceed && r.scoutRetries < 4
                      && TokenPair(a, r.goal.chain).None?)
                case Bought(_, _) => r.cancelled
                case Posting(call, _) => FailsNow(r, a) && call.SellCall? && call.resumed
                case Posted(call, _) =>
                  call.SellCall? && call.resumed && (FailsNow(r, a) || (a.reply == Answered && a.txOk))
                case Watching(_, _, _) => a.monitor == SawCancelled && !r.cancelled && a.getOk && g.status == Cancelled
                case WatchFailing => !r.cancelled
                case Rotating => true
                case Sold => r.cancelled
                case Tallying => a.getOk && a.verdict == NextCycle
                case _ => false)
  {
    ActGoesTo(w, a);
    hide Act, WalletOf, TokenPair, KnownTokenAddress, Positive;
  }

  // -- What else a step changes ------------------------------------------------------

  /** The runner's other variables, each with the one place that changes it. */
  lemma VariablesAre(w: World, a: Answers)
    ensures var r, r' := w.runner, Act(w, a).runner;
            && r'.cancelled == r.cancelled
            && r'.goal == (if r'.pc.Resolving? then w.record else r.goal)
            && r'.resume == (r.resume && !r.pc.ResumeEntry?)
            && r'.cachedWallet == (if r.pc.Resolving? && r.cachedWallet.None? then WalletOf(r.goal) else r.cachedWallet)
            && r'.scoutRetries ==
               (if r.pc != Working(Trading) || a.outcome != Proceed || r.cancelled then r.scoutRetries
                else if r'.pc.EnteringExecuting? then 0 else r.scoutRetries + 1)
  {
    hide AtHead, Resolve, EnterResumed, Work, Guard, Watch, Leave, Post, Conclude, Charge, Tally, SetStep, SetStatus,
         Put, WalletOf, TokenPair;
    SettersKeepRunner();
    match w.runner.pc {
      case Head => HeadVariables(w, a);
      case Resolving => HeadVariables(w, a);
      case ResumeEntry => HeadVariables(w, a);
      case Tallying => RoundVariables(w, a);
      case Working(stage) => WorkVariables(w, a, stage);
      case Guarding(_, _) => RoundVariables(w, a);
      case Posting(_, _) => RoundVariables(w, a);
      case Posted(_, _) => RoundVariables(w, a);
      case Charging => RoundVariables(w, a);
      case Watching(_, _, _) => RoundVariables(w, a);
      case Leaving(_, _, _) => RoundVariables(w, a);
      case _ =>
    }
  }

  predicate OnlyMoves(r: Runner, r': Runner) {
    r' == r.(pc := r'.pc) && !r'.pc.Resolving?
  }

  lemma HeadVariables(w: World, a: Answers)
    ensures w.runner.pc.Head? ==>
              var r' := AtHead(w, a).runner;
              r' == w.runner.(pc := r'.pc, goal := if r'.pc.Resolving? then w.record else w.runner.goal)
    ensures var r' := Resolve(w, a).runner;
            && !r'.pc.Resolving?
            && r' == w.runner.(pc := r'.pc, cachedWallet :=
                                 if w.runner.cachedWallet.None? then WalletOf(w.runner.goal) else w.runner.cachedWallet)
    ensures OnlyMoves(w.runner.(resume := false), EnterResumed(w, a).runner)
  {
    hide WalletOf, Put, SetStep;
    SettersKeepRunner();
  }

  lemma WorkVariables(w: World, a: Answers, stage: Stage)
    ensures var r, r' := w.runner, Work(w, a, stage).runner;
            && !r'.pc.Resolving?
            && r' == r.(pc := r'.pc, scoutRetries :=
                 if stage != Trading || a.outcome != Proceed || r.cancelled then r.scoutRetries
                 else if r'.pc.EnteringExecuting? then 0 else r.scoutRetries + 1)
  {
    hide TokenPair;
  }

  lemma RoundVariables(w: World, a: Answers)
    ensures OnlyMoves(w.runner, Tally(w, a).runner) && OnlyMoves(w.runner, Charge(w, a).runner)
    ensures forall x, t :: OnlyMoves(w.runner, Guard(w, a, x, t).runner)
    ensures forall call, k: Attempt :: OnlyMoves(w.runner, Post(w, a, call, k).runner)
    ensures forall call, k: Attempt :: OnlyMoves(w.runner, Conclude(w, a, call, k).runner)
    ensures forall resumed, t, held :: w.runner.pc == Watching(resumed, t, held) ==>
              OnlyMoves(w.runner, Watch(w, a, resumed, t, held).runner)
    ensures forall resumed, t, held :: OnlyMoves(w.runner, Leave(w, a, resumed, t, held).runner)
  {
    hide Positive, SetStep, SetStatus, Put;
    SettersKeepRunner();
  }

  /** What a step leaves in the store: the copy it read, with at most its step, end, wallet or position set. */
  lemma RecordIs(w: World, a: Answers)
    ensures var pc, r := w.runner.pc, w.runner;
            var base := if w.snapshot.Some? then w.snapshot.value else w.record;
            Act(w, a).record ==
            if !a.getOk || !a.saved then w.record
            else match pc
                 case Resolving =>
                   if r.cachedWallet.None? && WalletOf(r.goal).Some? && r.goal.resolvedWallet.None?
                   then base.(resolvedWallet := Some(Printed(WalletOf(r.goal).value))) else w.record
                 case ResumeEntry => base.(step := Monitoring)
                 case Entering(stage) => base.(step := stage)
                 case EnteringExecuting(_, _) => base.(step := Executing)
                 case BuyFailing => base.(status := Failed)
                 case Recording(t, held) => base.(token := Some(t), held := held)
                 case Bought(_, _) => if r.cancelled then w.record else base.(step := Monitoring)
                 case WatchFailing => base.(status := Failed)
                 case Finishing => base.(status := Completed)
                 case Rotating => base.(step := Scouting)
                 case Leaving(_, _, _) => base.(step := Exiting)
                 case Sold => if r.cancelled then w.record else base.(step := Compounding)
                 case BookingGain => if a.gain then base else w.record
                 case Tallying =>
                   (match a.verdict
                    case TargetReached => base.(status := Completed)
                    case StopLoss => base.(status := Failed)
                    case NextCycle => base)
                 case Failing => base.(status := Failed)
                 case _ => w.record
  {
    hide AtHead, Resolve, EnterResumed, Work, Guard, Watch, Leave, Post, Conclude, Charge, Tally;
    ReadersWriteNothing(w, a);
    WritersWrite(w, a);
  }

  lemma ReadersWriteNothing(w: World, a: Answers)
    ensures AtHead(w, a).record == Charge(w, a).record == w.record
    ensures forall s: Stage :: Work(w, a, s).record == w.record
    ensures forall x, y :: Guard(w, a, x, y).record == w.record
    ensures forall c, k: Attempt :: Post(w, a, c, k).record == w.record && Conclude(w, a, c, k).record == w.record
    ensures forall r, t, h :: Watch(w, a, r, t, h).record == w.record
  {
    hide TokenPair, Positive;
  }

  lemma WritersWrite(w: World, a: Answers)
    ensures Resolve(w, a).record ==
            if a.getOk && a.saved && w.runner.cachedWallet.None? && WalletOf(w.runner.goal).Some?
               && w.runner.goal.resolvedWallet.None?
            then Base(w).(resolvedWallet := Some(Printed(WalletOf(w.runner.goal).value))) else w.record
    ensures EnterResumed(w, a).record == if a.getOk && a.saved then Base(w).(step := Monitoring) else w.record
    ensures forall r, t, h ::
              Leave(w, a, r, t, h).record == if a.getOk && a.saved then Base(w).(step := Exiting) else w.record
    ensures Tally(w, a).record ==
            if !a.getOk || !a.saved then w.record
            else match a.verdict
                 case TargetReached => Base(w).(status := Completed)
                 case StopLoss => Base(w).(status := Failed)
                 case NextCycle => Base(w)
  {
    hide WalletOf, Positive;
  }

  // -- The other events ------------------------------------------------------------------

  /** Boot starts a runner for a running or paused goal whose runner is gone, and sends it where its step says. */
  lemma BootStartsWhen(w: World)
    ensures var starts := w.runner.pc.Dead? && (w.record.status == Running || w.record.status == Paused);
            var toMonitoring :=
              || w.record.step == Monitoring || w.record.step == Exiting
              || (w.record.step == Executing && w.record.token.Some? && w.record.token.value != "");
            Effect(w, Boot) ==
            if starts then
              w.(snapshot := None, pending := [], runner := Runner(Head, w.record, None, toMonitoring, false, 0))
            else w
  {
  }

  /** What other tasks and a crash do. */
  lemma OthersDo(w: World, a: Answers, s: Status, i: nat)
    ensures Effect(w, Advance(a)) == Act(w, a).(snapshot := None)
    ensures Effect(w, Crash) ==
            w.(runner := w.runner.(pc := Dead, cancelled := false), snapshot := None, pending := [])
    ensures !w.runner.pc.Dead? ==>
              && Effect(w, Signal) == w.(runner := w.runner.(cancelled := true))
              && Effect(w, ReadsForWrite) == w.(snapshot := Some(w.record))
    ensures s != Pending ==>
              && Effect(w, Write(s)) == w.(record := w.record.(status := s))
              && Effect(w, Begin(s)) == w.(pending := w.pending + [w.record.(status := s)])
    ensures i < |w.pending| ==>
              Effect(w, Finish(i)) == w.(record := w.pending[i], pending := w.pending[..i] + w.pending[i + 1..])
  {
  }

  /** Each fault is charged exactly for what it is named after. */
  lemma FaultsAre(w: World, e: Event)
    ensures var f, f', pc, w' := w.faults, Next(w, e).faults, w.runner.pc, Next(w, e);
            && f'.windowCrashes == f.windowCrashes + Note(e.Crash? &&
                 (|| pc.BuyFailing? || pc.Recording? || (pc.Posted? && pc.call.BuyCall?)
                  || (pc.Posting? && pc.call.BuyCall? && pc.attempt > 1)))
            && f'.lostRecords == f.lostRecords + Note(
                 e.Advance? && (pc.Recording? || pc.BuyFailing?) && !(e.a.getOk && e.a.saved))
            && f'.unreadGuards == f.unreadGuards + Note(
                 e.Advance? && pc.Guarding? && !e.a.getOk && w.record.token.Some? && w.record.token.value != "")
            && f'.resends == f.resends + Note(
                 && e.Advance? && pc.Posted? && pc.call.BuyCall? && e.a.reply == TimedOut && pc.attempt < 3)
            && f'.setbacks == f.setbacks + Note(
                 || (w.record.token.Some? && w.record.token.value != ""
                     && !(w'.record.token.Some? && w'.record.token.value != ""))
                 || (w.record.status in {Cancelled, Completed, Failed}
                     && w'.record.status !in {Cancelled, Completed, Failed}))
  {
    if e.Advance? {
      ActGoesTo(w, e.a);
    }
    hide Act;
  }
}
