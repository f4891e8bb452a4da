/** With a reliable store, a crash never loses a position: boot takes up the very one the runner held. */
module GoalResume {
  import opened Wrappers
  import opened SwapToken
  import opened GoalMachine
  import opened GoalSafety
  import opened GoalBuys
  import opened GoalPaths

  /** The position a runner is watching or leaving: its token and amount. */
  function PositionOf(pc: Pc): Option<(string, Option<string>)> {
    match pc
    case Bought(t, held) => Some((t, held))
    case Watching(_, t, held) => Some((t, held))
    case Leaving(_, t, held) => Some((t, held))
    case Posting(SellCall(_, t, amount, _), _) => Some((t, Some(amount)))
    case Posted(SellCall(_, t, amount, _), _) => Some((t, Some(amount)))
    case _ => None
  }

  predicate Stores(g: Goal, position: (string, Option<string>)) {
    g.token == Some(position.0) && g.held == position.1
  }

  /** The stored step and position agree with where the runner is. */
  predicate Routed(w: World) {
    var pc := w.runner.pc;
    && (NearBuy(pc) ==> w.record.step == Executing)
    && (PositionOf(pc).Some? ==> RoutesToMonitoring(w.record) && Stores(w.record, PositionOf(pc).value))
    && (pc.Resolving? || pc.ResumeEntry? ==>
          w.runner.goal.token == w.record.token && w.runner.goal.held == w.record.held)
  }

  lemma ActKeepsRouted(w: World, a: Answers)
    requires Routed(w) && w.snapshot.None? && NamesToken(w.runner.pc) && a.getOk && a.saved
    ensures Routed(Act(w, a))
  {
    hide Routed, AtHead, Resolve, EnterResumed, Work, Guard, Watch, Leave, Tally, Post, Conclude, Charge,
         SetStep, SetStatus, Put;
    var pc := w.runner.pc;
    match pc {
      case Head => LoadKeepsRouted(w, a);
      case Resolving => LoadKeepsRouted(w, a);
      case ResumeEntry => LoadKeepsRouted(w, a);
      case Working(_) => WorkKeepsRouted(w, a);
      case Watching(_, _, _) => WatchKeepsRouted(w, a);
      case Leaving(_, _, _) => LeaveKeepsRouted(w, a);
      case Tallying => TallyKeepsRouted(w, a);
      case Posting(_, _) => CallKeepsRouted(w, a);
      case Posted(_, _) => CallKeepsRouted(w, a);
      case _ => if NearBuy(pc) || pc.Bought? { BuyKeepsRouted(w, a); } else { PlainKeepsRouted(w, a); }
    }
  }

  lemma BuyKeepsRouted(w: World, a: Answers)
    requires Routed(w) && w.snapshot.None? && NamesToken(w.runner.pc) && a.getOk && a.saved
    requires NearBuy(w.runner.pc) || w.runner.pc.Bought?
    requires !w.runner.pc.Posting? && !w.runner.pc.Posted?
    ensures Routed(Act(w, a))
  {
    hide AtHead, Resolve, EnterResumed, Work, Watch, Leave, Tally, Post, Conclude, Charge;
  }

  lemma CallKeepsRouted(w: World, a: Answers)
    requires Routed(w) && (w.runner.pc.Posting? || w.runner.pc.Posted?)
    ensures Routed(Act(w, a))
  {
    hide AtHead, Resolve, EnterResumed, Work, Guard, Watch, Leave, Tally, Charge, SetStep, SetStatus, Positive;
  }

  lemma WatchKeepsRouted(w: World, a: Answers)
    requires Routed(w) && w.runner.pc.Watching?
    ensures Routed(Act(w, a))
  {
    hide AtHead, Resolve, EnterResumed, Work, Guard, Leave, Tally, Post, Conclude, Charge, SetStep, SetStatus;
  }

  lemma StepWritten(w: World, a: Answers)
    requires w.snapshot.None? && a.getOk && a.saved
    ensures forall s :: SetStep(w, a, s) == w.(record := w.record.(step := s))
  {
  }

  lemma LeaveKeepsRouted(w: World, a: Answers)
    requires Routed(w) && w.snapshot.None? && a.getOk && a.saved && w.runner.pc.Leaving?
    ensures Routed(Leave(w, a, w.runner.pc.resumed, w.runner.pc.token, w.runner.pc.held))
  {
    hide Positive, SetStep;
    StepWritten(w, a);
  }

  /** Steps that only write the step or the status, or owe a fee. */
  lemma PlainKeepsRouted(w: World, a: Answers)
    requires Routed(w) && w.snapshot.None? && a.getOk && a.saved
    requires var pc := w.runner.pc;
             || pc.Dead? || pc.Entering? || pc.EnteringExecuting? || pc.WatchFailing? || pc.Finishing? || pc.Rotating?
             || pc.Charging? || pc.Sold? || pc.BookingGain? || pc.Failing?
    ensures Routed(Act(w, a))
  {
    hide AtHead, Resolve, EnterResumed, Work, Guard, Watch, Leave, Post, Conclude, Tally, SetStep, SetStatus;
    StepWritten(w, a);
  }

  lemma LoadKeepsRouted(w: World, a: Answers)
    requires Routed(w) && w.snapshot.None? && a.getOk && a.saved
    ensures w.runner.pc.Head? ==> Routed(AtHead(w, a))
    ensures w.runner.pc.Resolving? ==> Routed(Resolve(w, a))
    ensures w.runner.pc.ResumeEntry? ==> Routed(EnterResumed(w, a))
  {
    hide WalletOf;
  }

  lemma WorkKeepsRouted(w: World, a: Answers)
    requires Routed(w)
    ensures forall stage :: w.runner.pc == Working(stage) ==> Routed(Work(w, a, stage))
  {
    hide TokenPair;
  }

  lemma TallyKeepsRouted(w: World, a: Answers)
    requires Routed(w)
    ensures w.runner.pc.Tallying? ==> Routed(Tally(w, a))
  {
  }

  lemma StepKeepsRouted(w: World, e: Event)
    requires Routed(w) && NothingStale(w) && NamesToken(w.runner.pc) && Reliable(w, e)
    ensures Routed(Next(w, e)) && NothingStale(Next(w, e))
  {
    hide Charged;
    TameStep(w, e);
    if e.Advance? {
      ActKeepsRouted(w, e.a);
      hide Act;
    }
  }

  lemma {:induction false} RunKeepsRouted(owner: Owner, chain: string, es: seq<Event>)
    requires ReliableRun(Created(owner, chain), es)
    ensures var w := Run(Created(owner, chain), es); Routed(w) && NothingStale(w)
  {
    hide Next;
    if |es| > 0 {
      var before := es[..|es| - 1];
      RunKeepsRouted(owner, chain, before);
      RunKeepsGood(Created(owner, chain), before, owner);
      GoodNamesToken(Run(Created(owner, chain), before), owner);
      StepKeepsRouted(Run(Created(owner, chain), before), es[|es| - 1]);
    }
  }

  /**
   * In every run over a reliable store: a crash while a runner holds a position of a goal that is
   * still running or paused, and the boot after it, leave a runner that goes straight back to
   * monitoring that very token and amount.
   */
  lemma {:induction false} CrashKeepsPosition(owner: Owner, chain: string, es: seq<Event>)
    requires ReliableRun(Created(owner, chain), es)
    requires var w := Run(Created(owner, chain), es); PositionOf(w.runner.pc).Some? && Resumable(w.record)
    ensures var w := Run(Created(owner, chain), es);
            var w' := Run(Created(owner, chain), es + [Crash] + [Boot]);
            && w'.runner.pc.Head? && w'.runner.resume
            && Stores(w'.record, PositionOf(w.runner.pc).value)
  {
    hide Run;
    RunKeepsRouted(owner, chain, es);
    RunSnoc(Created(owner, chain), es, Crash);
    RunSnoc(Created(owner, chain), es + [Crash], Boot);
  }

  lemma RunSnoc(w: World, es: seq<Event>, e: Event)
    ensures Run(w, es + [e]) == Next(Run(w, es), e)
  {
    assert (es + [e])[..|es|] == es;
  }

  /** The resumed runner, its goal loaded and its wallet known, watches what the store holds or fails the goal. */
  lemma ResumedRunnerWatches(w: World, a: Answers)
    requires Routed(w) && w.runner.pc.ResumeEntry?
    ensures var pc := Act(w, a).runner.pc;
            if Recorded(w.record) then pc == Watching(true, w.record.token.value, w.record.held) else pc == Failing
  {
  }

  // -- Where a crash leads ------------------------------------------------------

  /** The step in the store while the runner is at a point; none where it may be any. */
  function StepAt(pc: Pc): Option<StepName> {
    match pc
    case Entering(stage) => (match stage case Scouting => None case Risk => Some(Scouting) case _ => Some(Risk))
    case Working(stage) => Some(stage)
    case EnteringExecuting(_, _) => Some(Trading)
    case Guarding(_, _) => Some(Executing)
    case Posting(call, _) => Some(if call.BuyCall? then Executing else Exiting)
    case Posted(call, _) => Some(if call.BuyCall? then Executing else Exiting)
    case BuyFailing => Some(Executing)
    case Recording(_, _) => Some(Executing)
    case Bought(_, _) => Some(Executing)
    case Watching(_, _, _) => Some(Monitoring)
    case WatchFailing => Some(Monitoring)
    case Finishing => Some(Monitoring)
    case Rotating => Some(Monitoring)
    case Leaving(_, _, _) => Some(Monitoring)
    case Charging => Some(Exiting)
    case Sold => Some(Exiting)
    case BookingGain => Some(Compounding)
    case Tallying => Some(Compounding)
    case _ => None
  }

  predicate InStep(w: World) {
    StepAt(w.runner.pc).Some? ==> w.record.step == StepAt(w.runner.pc).value
  }

  lemma ActKeepsInStep(w: World, a: Answers)
    requires InStep(w) && w.snapshot.None? && a.getOk && a.saved
    ensures InStep(Act(w, a))
  {
    hide Act, InStep;
    var pc := w.runner.pc;
    if pc.Working? || pc.Posting? || pc.Posted? || pc.Watching? || pc.Leaving? {
      BusyKeepsInStep(w, a);
    } else {
      OthersKeepInStep(w, a);
    }
  }

  lemma BusyKeepsInStep(w: World, a: Answers)
    requires InStep(w) && w.snapshot.None? && a.getOk && a.saved
    requires var pc := w.runner.pc; pc.Working? || pc.Posting? || pc.Posted? || pc.Watching? || pc.Leaving?
    ensures InStep(Act(w, a))
  {
    ActGoesTo(w, a);
    RecordIs(w, a);
    hide Act, WalletOf, TokenPair, Positive, KnownTokenAddress;
  }

  lemma OthersKeepInStep(w: World, a: Answers)
    requires InStep(w) && w.snapshot.None? && a.getOk && a.saved
    requires var pc := w.runner.pc; !(pc.Working? || pc.Posting? || pc.Posted? || pc.Watching? || pc.Leaving?)
    ensures InStep(Act(w, a))
  {
    ActGoesTo(w, a);
    RecordIs(w, a);
    hide Act, WalletOf, TokenPair, Positive, KnownTokenAddress;
  }

  lemma StepKeepsInStep(w: World, e: Event)
    requires InStep(w) && NothingStale(w) && Reliable(w, e)
    ensures InStep(Next(w, e)) && NothingStale(Next(w, e))
  {
    hide Act, Charged, StepAt;
    TameStep(w, e);
    if e.Advance? { ActKeepsInStep(w, e.a); } else { OtherStep(w, e); }
  }

  lemma OtherStep(w: World, e: Event)
    requires InStep(w) && NothingStale(w) && !e.Advance?
    ensures InStep(Next(w, e))
  {
  }

  lemma {:induction false} RunKeepsInStep(w: World, es: seq<Event>)
    requires InStep(w) && NothingStale(w) && ReliableRun(w, es)
    ensures InStep(Run(w, es)) && NothingStale(Run(w, es))
  {
    hide Next, InStep;
    if |es| > 0 {
      RunKeepsInStep(w, es[..|es| - 1]);
      StepKeepsInStep(Run(w, es[..|es| - 1]), es[|es| - 1]);
    }
  }

  /**
   * Over a reliable store a crash and the boot after it lead a running or paused goal back to
   * monitoring from watching, leaving, a SELL, its fee and the point after it; to the top from
   * scouting, risk, trading and compounding; and while executing to monitoring exactly if the BUY
   * is recorded.
   */
  lemma {:induction false} CrashLeadsTo(owner: Owner, chain: string, es: seq<Event>)
    requires ReliableRun(Created(owner, chain), es)
    requires var w := Run(Created(owner, chain), es); w.record.status == Running || w.record.status == Paused
    ensures var w := Run(Created(owner, chain), es); var pc := w.runner.pc;
            var r := Run(Created(owner, chain), es + [Crash] + [Boot]).runner;
            && r.pc.Head?
            && ((pc.Watching? || pc.Leaving? || pc.Rotating? || pc.Charging? || pc.Sold?
                 || ((pc.Posting? || pc.Posted?) && !pc.call.BuyCall?)) ==> r.resume)
            && (pc.Working? || pc.EnteringExecuting? || pc.BookingGain? || pc.Tallying? ==> !r.resume)
            && ((pc.Guarding? || pc.Recording? || pc.Bought? || ((pc.Posting? || pc.Posted?) && pc.call.BuyCall?)) ==>
                  (r.resume <==> w.record.token.Some? && w.record.token.value != ""))
  {
    assert InStep(Created(owner, chain)) && NothingStale(Created(owner, chain));
    hide Run, Next, InStep;
    RunKeepsInStep(Created(owner, chain), es);
    RunSnoc(Created(owner, chain), es, Crash);
    RunSnoc(Created(owner, chain), es + [Crash], Boot);
    CrashFrom(Run(Created(owner, chain), es));
  }

  lemma CrashFrom(w: World)
    requires InStep(w) && (w.record.status == Running || w.record.status == Paused)
    ensures var pc, r := w.runner.pc, Next(Next(w, Crash), Boot).runner;
            && r.pc.Head?
            && ((pc.Watching? || pc.Leaving? || pc.Rotating? || pc.Charging? || pc.Sold?
                 || ((pc.Posting? || pc.Posted?) && !pc.call.BuyCall?)) ==> r.resume)
            && (pc.Working? || pc.EnteringExecuting? || pc.BookingGain? || pc.Tallying? ==> !r.resume)
            && ((pc.Guarding? || pc.Recording? || pc.Bought? || ((pc.Posting? || pc.Posted?) && pc.call.BuyCall?)) ==>
                  (r.resume <==> w.record.token.Some? && w.record.token.value != ""))
  {
  }

  predicate Starts(pc: Pc) {
    pc.Posting? && pc.attempt == 1
  }

  /**
   * A BUY is first requested only after an accepted rate check and a guard that saw no recorded
   * token; a SELL only on a chain with a known WETH, and after an accepted rate check unless the
   * runner was resumed, when it has no floor; a fee only after a SELL that went through.
   */
  lemma TransactionsAreChecked(w: World, a: Answers)
    requires Starts(Act(w, a).runner.pc) && !Starts(w.runner.pc)
    ensures FirstRequestIsChecked(w, a)
  {
    hide Act, FirstRequestIsChecked;
    if w.runner.pc.Guarding? || w.runner.pc.Leaving? || w.runner.pc.Charging? { CheckedStart(w, a); }
    else { NoOtherStart(w, a); }
  }

  predicate FirstRequestIsChecked(w: World, a: Answers)
    requires Starts(Act(w, a).runner.pc)
  {
    var pc := w.runner.pc;
    match Act(w, a).runner.pc.call
    case BuyCall(x, t) => pc == Guarding(x, t) && a.rateOk && !(a.getOk && Recorded(w.record))
    case SellCall(resumed, t, amount, minOut) =>
      && pc == Leaving(resumed, t, Some(amount)) && KnownTokenAddress("WETH", w.runner.goal.chain).Some?
      && (resumed || a.rateOk) && minOut == if resumed then "0" else a.minOut
    case FeeCall(treasury) => pc.Charging? && a.treasury == Some(treasury)
  }

  lemma CheckedStart(w: World, a: Answers)
    requires Starts(Act(w, a).runner.pc) && (w.runner.pc.Guarding? || w.runner.pc.Leaving? || w.runner.pc.Charging?)
    ensures FirstRequestIsChecked(w, a)
  {
    hide AtHead, Resolve, EnterResumed, Work, Watch, Tally, Post, Conclude, SetStep, SetStatus, Put, KnownTokenAddress;
    SettersKeepRunner();
  }

  lemma NoOtherStart(w: World, a: Answers)
    requires !Starts(w.runner.pc) && !w.runner.pc.Guarding? && !w.runner.pc.Leaving? && !w.runner.pc.Charging?
    ensures !Starts(Act(w, a).runner.pc)
  {
    hide AtHead, Resolve, EnterResumed, Work, Guard, Watch, Leave, Charge, Tally, Conclude, SetStep, SetStatus, Put;
    OtherMoves(w, a);
    SettersKeepRunner();
  }

  lemma OtherMoves(w: World, a: Answers)
    ensures w.runner.pc.Head? ==> !Starts(AtHead(w, a).runner.pc)
    ensures !Starts(Resolve(w, a).runner.pc) && !Starts(EnterResumed(w, a).runner.pc) && !Starts(Tally(w, a).runner.pc)
    ensures forall s :: !Starts(Work(w, a, s).runner.pc)
    ensures forall c, k :: !Starts(Conclude(w, a, c, k).runner.pc)
    ensures forall r, t, h :: w.runner.pc == Watching(r, t, h) ==> !Starts(Watch(w, a, r, t, h).runner.pc)
  {
    hide TokenPair, WalletOf, Put, SetStep, SetStatus;
    SettersKeepRunner();
  }

  /** A fee is considered only after a SELL of the normal path that went through. */
  lemma FeesNeedASell(w: World, a: Answers)
    requires Act(w, a).runner.pc.Charging? && !w.runner.pc.Charging?
    ensures w.runner.pc.Posted? && w.runner.pc.call.SellCall? && !w.runner.pc.call.resumed
    ensures a.reply == Answered && a.txOk
  {
    hide AtHead, Resolve, EnterResumed, Work, Guard, Watch, Leave, Post, Charge, Tally, SetStep, SetStatus, Put;
    NoCharge(w, a);
    NoChargeYet(w, a);
    SettersKeepRunner();
  }

  lemma NoChargeYet(w: World, a: Answers)
    requires !w.runner.pc.Charging?
    ensures !AtHead(w, a).runner.pc.Charging?
    ensures forall s :: !Work(w, a, s).runner.pc.Charging?
    ensures forall x, y :: !Guard(w, a, x, y).runner.pc.Charging?
    ensures forall c, k :: !Post(w, a, c, k).runner.pc.Charging?
    ensures forall r, t, h :: !Watch(w, a, r, t, h).runner.pc.Charging?
    ensures forall r, t, h :: !Leave(w, a, r, t, h).runner.pc.Charging?
  {
    hide TokenPair, Positive, SetStep;
    SettersKeepRunner();
  }

  lemma NoCharge(w: World, a: Answers)
    ensures !Resolve(w, a).runner.pc.Charging? && !EnterResumed(w, a).runner.pc.Charging?
    ensures !Tally(w, a).runner.pc.Charging?
  {
    hide WalletOf, Put, SetStep, SetStatus;
    SettersKeepRunner();
  }
}
