/**
 * The runner in the shape of its source: one loop over rounds, each round a sequence of awaits,
 * with other writers let in at every await. It is proved to make a run of the goal machine, so the
 * machine's bounds hold of it.
 */
module GoalRunner {
  import opened Wrappers
  import opened SwapToken
  import opened GoalMachine
  import opened GoalSafety
  import opened GoalBuys

  /** What another task does while the runner waits. */
  datatype Other = CancelSignal | StatusWritten(status: Status)

  /** One await: what others do meanwhile, and what the runner learns. */
  datatype Tick = Tick(others: seq<Other>, answers: Answers)

  /** How a part of a round ends; `CutOff` is the process dying. */
  datatype Flow = Continue | Break | CutOff | Onward

  /** How one look at a position ends. */
  datatype WatchEnd = GoneOn | Stopped | Cut | BackToHead | Exits | RotatesOut | Completes | Fails

  class GoalTask {
    var record: Goal
    var deeds: seq<Deed>
    var cancelled: bool
    var script: seq<Tick>
    var goal: Goal
    var firstIteration: bool
    var cachedWallet: Option<Uuid>
    var scoutRetries: nat
    const resumeFromMonitoring: bool
    ghost const start: World
    ghost var world: World
    ghost var log: seq<Event>

    /** A runner spawned at creation or at boot. */
    constructor (w: World, script: seq<Tick>)
      requires w.runner.pc.Head? && w.runner == NewRunner(w.runner.goal, w.runner.resume) && NothingStale(w)
      ensures Matches(Head) && start == w && log == [] && this.script == script
    {
      record, deeds, cancelled, goal, this.script := w.record, w.deeds, false, w.runner.goal, script;
      firstIteration, cachedWallet, scoutRetries, resumeFromMonitoring := true, None, 0, w.runner.resume;
      start, world, log := w, w, [];
      new;
      assert Run(w, []) == w;
    }

    /** The machine has run from `start` without crash or boot, and no stale write is about. */
    ghost predicate Logged()
      reads this`world, this`log
    {
      && world == Run(start, log) && NothingStale(world)
      && (forall i :: 0 <= i < |log| ==> !log[i].Boot? && !log[i].Crash?)
    }

    ghost predicate Runs()
      reads this`record, this`deeds, this`world, this`log
    {
      Logged() && world.snapshot.None? && world.record == record && world.deeds == deeds
    }

    /** The machine is at `pc` and its state is what the fields hold. */
    ghost predicate Matches(pc: Pc)
      reads this`record, this`deeds, this`world, this`log, this`goal, this`cachedWallet, this`firstIteration,
            this`cancelled, this`scoutRetries
    {
      && Runs()
      && world.runner == Runner(pc, goal, cachedWallet, firstIteration && resumeFromMonitoring, cancelled, scoutRetries)
      && (cachedWallet.Some? || pc.Head? || pc.Resolving? || pc.Failing? || pc.Dead?)
    }

    /** Where a part of a round leaves the machine. */
    ghost predicate Ended(flow: Flow, onward: Pc)
      reads this`record, this`deeds, this`world, this`log, this`goal, this`cachedWallet, this`firstIteration,
            this`cancelled, this`scoutRetries
    {
      match flow
      case Continue => Matches(Head)
      case Break => Matches(Dead)
      case CutOff => Runs()
      case Onward => Matches(onward)
    }

    ghost method Log(e: Event)
      requires Logged() && !e.Boot? && !e.Crash? && NothingStale(Next(world, e))
      modifies this`world, this`log
      ensures Logged() && world == Next(old(world), e)
    {
      assert (log + [e])[..|log|] == log;
      world, log := Next(world, e), log + [e];
    }

    /** The machine's step for what the fields have just done. */
    ghost method Took(a: Answers)
      requires Logged()
      modifies this`world, this`log
      ensures Logged() && world.snapshot.None?
      ensures var w' := Act(old(world), a);
              world.runner == w'.runner && world.record == w'.record && world.deeds == w'.deeds
    {
      hide Run;
      ActRecord(world, a);
      hide Act;
      Log(Advance(a));
    }

    method LetIn(other: Other, ghost pc: Pc)
      requires Matches(pc) && !pc.Dead?
      modifies this`record, this`cancelled, this`world, this`log
      ensures Matches(pc)
    {
      hide Logged, Charged;
      match other {
        case CancelSignal =>
          cancelled := true;
          LogOther(Signal);
        case StatusWritten(s) =>
          if s != Pending { record := record.(status := s); }
          LogOther(Write(s));
      }
    }

    ghost method LogOther(e: Event)
      requires Logged() && (e.Signal? || e.Write?)
      modifies this`world, this`log
      ensures Logged() && world == Next(old(world), e)
    {
      Log(e);
    }

    /** Lets the others act, then takes the next answers; None is the end of the process. */
    method Await(ghost pc: Pc) returns (a: Option<Answers>)
      requires Matches(pc) && !pc.Dead?
      modifies this`record, this`cancelled, this`script, this`world, this`log
      ensures Matches(pc) && deeds == old(deeds)
      ensures a.Some? ==> |script| < |old(script)|
      ensures a.None? ==> script == old(script) == []
    {
      hide Matches;
      if script == [] { return None; }
      var tick := script[0];
      script := script[1..];
      for i := 0 to |tick.others|
        invariant Matches(pc) && deeds == old(deeds) && script == old(script)[1..]
      {
        LetIn(tick.others[i], pc);
      }
      return Some(tick.answers);
    }

    method UpdateGoalStep(a: Answers, step: StepName)
      modifies this`record
      ensures record == if a.getOk && a.saved then old(record).(step := step) else old(record)
    {
      if a.getOk && a.saved { record := record.(step := step); }
    }

    /** Reads the goal and saves it with a terminal status; either half may fail, and nobody is told. */
    method EndGoal(a: Answers, status: Status)
      modifies this`record
      ensures record == if a.getOk && a.saved then old(record).(status := status) else old(record)
    {
      if a.getOk && a.saved { record := record.(status := status); }
    }

    method FailGoal(ghost pc: Pc) returns (flow: Flow)
      requires Matches(pc) && (pc.Failing? || pc.BuyFailing?)
      modifies this`record, this`cancelled, this`script, this`world, this`log
      ensures flow in {Break, CutOff} && Ended(flow, Dead) && |script| <= |old(script)|
    {
      hide Logged, Next, AtHead, Resolve, EnterResumed, Work, Guard, Watch, Leave, Tally;
      var a := Await(pc);
      if a.None? { return CutOff; }
      EndGoal(a.value, Failed);
      Took(a.value);
      return Break;
    }

    /** The loop head: cancel, kill flag, deadline, load. */
    method LoadGoal() returns (flow: Flow)
      requires Matches(Head)
      modifies this
      ensures Ended(flow, Resolving) && deeds == old(deeds)
      ensures |script| <= |old(script)| && (flow == CutOff || |script| < |old(script)|)
    {
      hide Logged, Next, Resolve, EnterResumed, Work, Guard, Watch, Leave, Tally;
      var next := Await(Head);
      if next.None? { return CutOff; }
      var a := next.value;
      if cancelled { Took(a); return Break; }
      if a.killFlag { Took(a); return Continue; }
      if a.deadlinePassed {
        Took(a);
        flow := FailGoal(Failing);
        return;
      }
      if !a.getOk { Took(a); return Break; }
      match record.status {
        case Cancelled | Completed | Failed => Took(a); return Break;
        case Paused => Took(a); return Continue;
        case Pending | Running =>
          goal := record;
          Took(a);
          return Onward;
      }
    }

    /** Resolves the wallet once and tries to persist it. */
    method ResolveWallet() returns (flow: Flow)
      requires Matches(Resolving)
      modifies this
      ensures Ended(flow, AfterResolving(world.runner)) && |script| <= |old(script)|
      ensures firstIteration == old(firstIteration)
    {
      hide Logged, Next, AtHead, EnterResumed, Work, Guard, Watch, Leave, Tally;
      var next := Await(Resolving);
      if next.None? { return CutOff; }
      var a := next.value;
      if cachedWallet.None? {
        var resolved := WalletOf(goal);
        if resolved.None? {
          Took(a);
          flow := FailGoal(Failing);
          return;
        }
        cachedWallet := resolved;
        if goal.resolvedWallet.None? && a.getOk && a.saved {
          record := record.(resolvedWallet := Some(Printed(resolved.value)));
        }
      }
      Took(a);
      return Onward;
    }

    /** Watches a position until something ends the watch. */
    method MonitorPosition(resumed: bool, token: string, held: Option<string>) returns (flow: Flow)
      requires Matches(Watching(resumed, token, held))
      modifies this
      ensures Ended(flow, Leaving(resumed, token, held)) && |script| <= |old(script)|
    {
      hide Matches, Runs;
      while true
        invariant Matches(Watching(resumed, token, held)) && |script| <= |old(script)|
        decreases |script|
      {
        var end := WatchOnce(resumed, token, held);
        match end {
          case GoneOn =>
          case Stopped => return Break;
          case Cut => return CutOff;
          case BackToHead => return Continue;
          case Exits => return Onward;
          case RotatesOut => flow := Rotate(); return;
          case Completes => flow := FinishAs(Finishing, Completed); return;
          case Fails => flow := FinishAs(WatchFailing, Failed); return;
        }
      }
    }

    /** One look at a position, and where it leaves the machine. */
    method WatchOnce(resumed: bool, token: string, held: Option<string>) returns (end: WatchEnd)
      requires Matches(Watching(resumed, token, held))
      modifies this
      ensures |script| <= |old(script)| && (end == GoneOn ==> |script| < |old(script)|)
      ensures match end
              case Cut => Runs()
              case GoneOn => Matches(Watching(resumed, token, held))
              case Stopped => Matches(Dead)
              case BackToHead => Matches(Head)
              case Exits => Matches(Leaving(resumed, token, held))
              case RotatesOut => Matches(Rotating)
              case Completes => Matches(Finishing)
              case Fails => Matches(WatchFailing)
    {
      hide Logged, Next, AtHead, Resolve, EnterResumed, Work, Guard, Leave, Tally;
      var next := Await(Watching(resumed, token, held));
      if next.None? { return Cut; }
      var a := next.value;
      var sawCancelled := a.getOk && record.status == Cancelled;
      Took(a);
      if a.monitor == TestnetTimeout { return Completes; }
      if a.monitor == CannotEvaluate { return Fails; }
      if cancelled { return Stopped; }
      match a.monitor {
        case ExitSignal => return Exits;
        case YieldRotate => return RotatesOut;
        case SawCancelled => return if sawCancelled then BackToHead else GoneOn;
        case KeepWatching => return GoneOn;
      }
    }

    /** The last write of a watch: completing breaks the loop; failing goes back to the head unless cancelled. */
    method FinishAs(ghost pc: Pc, status: Status) returns (flow: Flow)
      requires Matches(pc) && ((pc.Finishing? && status == Completed) || (pc.WatchFailing? && status == Failed))
      modifies this
      ensures flow != Onward && Ended(flow, Dead) && |script| <= |old(script)|
    {
      hide Logged, Next, AtHead, Resolve, EnterResumed, Work, Guard, Watch, Leave, Tally;
      var next := Await(pc);
      if next.None? { return CutOff; }
      EndGoal(next.value, status);
      Took(next.value);
      return if status == Completed || cancelled then Break else Continue;
    }

    method Rotate() returns (flow: Flow)
      requires Matches(Rotating)
      modifies this
      ensures flow != Onward && Ended(flow, Dead) && |script| <= |old(script)|
    {
      hide Logged, Next, AtHead, Resolve, EnterResumed, Work, Guard, Watch, Leave, Tally;
      var next := Await(Rotating);
      if next.None? { return CutOff; }
      UpdateGoalStep(next.value, Scouting);
      Took(next.value);
      return Continue;
    }

    /** Writes a step to the store. */
    method Enter(ghost pc: Pc, step: StepName, ghost after: Pc) returns (flow: Flow)
      requires Matches(pc)
      requires || (pc.Entering? && pc.stage == step && after == Working(pc.stage))
               || (pc.EnteringExecuting? && step == Executing && after == Guarding(pc.tokenIn, pc.token))
      modifies this
      ensures flow in {Onward, CutOff} && Ended(flow, after) && |script| <= |old(script)|
    {
      hide Logged, Next, AtHead, Resolve, EnterResumed, Work, Guard, Watch, Leave, Tally;
      var next := Await(pc);
      if next.None? { return CutOff; }
      UpdateGoalStep(next.value, step);
      Took(next.value);
      return Onward;
    }

    /** Scouting and risk: an agent that gives up fails the goal; a blocked risk gate starts a new round. */
    method Consult(stage: Stage) returns (flow: Flow)
      requires Matches(Entering(stage)) && stage in {Scouting, Risk}
      modifies this
      ensures Ended(flow, Entering(if stage == Scouting then Risk else Trading)) && |script| <= |old(script)|
    {
      hide Logged, Next, AtHead, Resolve, EnterResumed, Guard, Watch, Leave, Tally;
      flow := Enter(Entering(stage), stage, Working(stage));
      if flow == CutOff { return; }
      var next := Await(Working(stage));
      if next.None? { return CutOff; }
      Took(next.value);
      match next.value.outcome {
        case Proceed => return if cancelled then Continue else Onward;
        case Again => if stage == Risk { return Continue; }
        case Abort =>
      }
      flow := FailGoal(Failing);
    }

    /** Trading: a token pair that does not resolve to two addresses is retried a few rounds, then fails the goal. */
    method Trade() returns (flow: Flow, tokenIn: string, tokenOut: string)
      requires Matches(Entering(Trading))
      modifies this
      ensures Ended(flow, EnteringExecuting(tokenIn, tokenOut)) && |script| <= |old(script)|
    {
      hide Matches, Runs;
      tokenIn, tokenOut := "", "";
      flow := Enter(Entering(Trading), Trading, Working(Trading));
      if flow == CutOff { return; }
      var failed;
      flow, failed, tokenIn, tokenOut := Choose();
      if failed { flow := FailGoal(Failing); }
    }

    /** The trader's choice; `failed` leaves the goal to be failed. */
    method Choose() returns (flow: Flow, failed: bool, tokenIn: string, tokenOut: string)
      requires Matches(Working(Trading))
      modifies this
      ensures |script| <= |old(script)|
      ensures if failed then Matches(Failing) else flow != Break && Ended(flow, EnteringExecuting(tokenIn, tokenOut))
    {
      hide Logged, Next, AtHead, Resolve, EnterResumed, Guard, Watch, Leave, Post, Conclude, Tally,
           ResolveSwapToken, Lower;
      failed, tokenIn, tokenOut := false, "", "";
      var next := Await(Working(Trading));
      if next.None? { flow := CutOff; return; }
      var a := next.value;
      flow := Continue;
      if a.outcome == Proceed && !cancelled {
        var x, y := ResolveSwapToken(a.tokenIn, goal.chain), ResolveSwapToken(a.tokenOut, goal.chain);
        if x.Some? && y.Some? && Lower(x.value) != Lower(y.value) {
          scoutRetries := 0;
          tokenIn, tokenOut := x.value, y.value;
          flow := Onward;
        } else {
          scoutRetries := scoutRetries + 1;
          failed := scoutRetries >= MAX_SCOUT_RETRIES;
        }
      } else {
        failed := a.outcome == Abort;
      }
      Took(a);
    }

    /** The guard, the BUY and its record; the guard's skip takes the stored position instead. */
    method BuyOnce(tokenIn: string, tokenOut: string) returns (flow: Flow, token: string, held: Option<string>)
      requires Matches(EnteringExecuting(tokenIn, tokenOut))
      modifies this
      ensures Ended(flow, Watching(false, token, held)) && |script| <= |old(script)|
    {
      hide Logged, Next, AtHead, Resolve, EnterResumed, Work, Watch, Leave, Tally;
      token, held := tokenOut, None;
      flow := Enter(EnteringExecuting(tokenIn, tokenOut), Executing, Guarding(tokenIn, tokenOut));
      if flow == CutOff { return; }
      var next := Await(Guarding(tokenIn, tokenOut));
      if next.None? { flow := CutOff; return; }
      Took(next.value);
      if next.value.getOk && Recorded(record) {
        token, held := record.token.value, record.held;
      } else {
        if !next.value.rateOk {
          flow := FailGoal(Failing);
          return;
        }
        flow, held := SendAndRecord(tokenIn, tokenOut);
        if flow != Onward { return; }
      }
      flow := StartWatch(token, held);
    }

    method SendAndRecord(tokenIn: string, token: string) returns (flow: Flow, held: Option<string>)
      requires Matches(Posting(BuyCall(tokenIn, token), 1))
      modifies this
      ensures flow != Continue && Ended(flow, Bought(token, held)) && |script| <= |old(script)|
    {
      hide Matches, Runs;
      var done;
      done, held := ExecuteSwap(BuyCall(tokenIn, token));
      if done.None? { flow := CutOff; return; }
      if done.value { flow := Record(token, held); } else { flow := FailGoal(BuyFailing); }
    }

    /** Where a swap that went through leads; a BUY has been valued by then. */
    static function AfterSuccess(call: Call, held: Option<string>): Pc {
      match call
      case BuyCall(_, t) => Recording(t, held)
      case SellCall(resumed, _, _, _) => if resumed then Head else Charging
      case FeeCall(_) => Sold
    }

    /**
     * The executor's loop: up to three requests, as long as there is no connection or no answer in
     * time. Some tells whether the swap went through, as far as the client knows; None is the end.
     */
    method ExecuteSwap(call: Call) returns (done: Option<bool>, held: Option<string>)
      requires Matches(Posting(call, 1))
      modifies this`record, this`cancelled, this`script, this`world, this`log, this`deeds
      ensures |script| <= |old(script)|
      ensures match done
              case None => Runs()
              case Some(ok) => Matches(if ok then AfterSuccess(call, held) else AfterFailure(call))
    {
      hide Matches, Runs;
      held := None;
      for attempt := 1 to MAX_POSTS + 1
        invariant Matches(if attempt <= MAX_POSTS then Posting(call, attempt) else AfterFailure(call))
        invariant |script| <= |old(script)|
      {
        var sent := PostOnce(call, attempt);
        if sent.None? { return None, None; }
        if sent.value {
          var over, ok;
          over, ok, held := AwaitAnswer(call, attempt);
          if over.None? { return None, None; }
          if over.value { return Some(ok), held; }
        }
      }
      return Some(false), None;
    }

    /** Where the loop goes on after an attempt that is to be repeated, or gives up after the third. */
    static function Again(call: Call, attempt: Attempt): Pc {
      if attempt < MAX_POSTS then Posting(call, attempt + 1) else AfterFailure(call)
    }

    method PostOnce(call: Call, attempt: Attempt) returns (sent: Option<bool>)
      requires Matches(Posting(call, attempt))
      modifies this`record, this`cancelled, this`script, this`world, this`log, this`deeds
      ensures |script| <= |old(script)|
      ensures match sent
              case None => Runs()
              case Some(reached) => Matches(if reached then Posted(call, attempt) else Again(call, attempt))
    {
      hide Logged, Next, AtHead, Resolve, EnterResumed, Work, Guard, Watch, Leave, Charge, Tally;
      var next := Await(Posting(call, attempt));
      if next.None? { return None; }
      if next.value.reached { deeds := deeds + [Request(call, cachedWallet.value, goal.owner.goalId)]; }
      Took(next.value);
      return Some(next.value.reached);
    }

    method AwaitAnswer(call: Call, attempt: Attempt) returns (over: Option<bool>, ok: bool, held: Option<string>)
      requires Matches(Posted(call, attempt))
      modifies this`record, this`cancelled, this`script, this`world, this`log, this`deeds
      ensures |script| <= |old(script)|
      ensures match over
              case None => Runs()
              case Some(true) => Matches(if ok then AfterSuccess(call, held) else AfterFailure(call))
              case Some(false) => attempt < MAX_POSTS && Matches(Posting(call, attempt + 1))
    {
      hide Logged, Next, AtHead, Resolve, EnterResumed, Work, Guard, Watch, Leave, Charge, Tally;
      ok, held := false, None;
      var next := Await(Posted(call, attempt));
      if next.None? { over := None; return; }
      var a := next.value;
      over := Some(!(a.reply == TimedOut && attempt < MAX_POSTS));
      if a.reply == Answered && a.txOk {
        ok := true;
        if call.BuyCall? {
          held := Positive(a.quote);
          deeds := deeds + [Hold(call.token, held)];
        }
      }
      Took(a);
    }

    method Record(token: string, held: Option<string>) returns (flow: Flow)
      requires Matches(Recording(token, held))
      modifies this
      ensures flow in {Onward, CutOff} && Ended(flow, Bought(token, held)) && |script| <= |old(script)|
    {
      hide Logged, Next, AtHead, Resolve, EnterResumed, Work, Guard, Watch, Leave, Tally;
      var next := Await(Recording(token, held));
      if next.None? { return CutOff; }
      if next.value.getOk && next.value.saved { record := record.(token := Some(token), held := held); }
      Took(next.value);
      return Onward;
    }

    method StartWatch(token: string, held: Option<string>) returns (flow: Flow)
      requires Matches(Bought(token, held))
      modifies this
      ensures Ended(flow, Watching(false, token, held)) && |script| <= |old(script)|
    {
      hide Logged, Next, AtHead, Resolve, EnterResumed, Work, Guard, Watch, Leave, Tally;
      var next := Await(Bought(token, held));
      if next.None? { return CutOff; }
      if !cancelled { UpdateGoalStep(next.value, Monitoring); }
      Took(next.value);
      return if cancelled then Continue else Onward;
    }

    /** Sells the position; a resumed runner filters the amount, asks no rate limiter and sets no floor. */
    method ExitPosition(resumed: bool, token: string, held: Option<string>) returns (flow: Flow)
      requires Matches(Leaving(resumed, token, held))
      modifies this
      ensures Ended(flow, Sold) && (resumed ==> flow != Onward) && |script| <= |old(script)|
    {
      hide Matches, Runs;
      var call;
      flow, call := PrepareSell(resumed, token, held);
      if flow == CutOff { return; }
      if flow == Onward { flow := SellTokens(call); } else { flow := FailGoal(Failing); }
    }

    /** The checks before a SELL: Onward with the call, or a goal to be failed. */
    method PrepareSell(resumed: bool, token: string, held: Option<string>) returns (flow: Flow, call: Call)
      requires Matches(Leaving(resumed, token, held))
      modifies this
      ensures |script| <= |old(script)|
      ensures match flow
              case Onward => call.SellCall? && call.resumed == resumed && Matches(Posting(call, 1))
              case CutOff => Runs()
              case _ => Matches(Failing)
    {
      hide Logged, Next, AtHead, Resolve, EnterResumed, Work, Guard, Watch, Leave, Post, Conclude, Charge, Tally,
           SetStep, SetStatus, KnownTokenAddress, Positive;
      call := SellCall(resumed, token, "", "");
      var next := Await(Leaving(resumed, token, held));
      if next.None? { flow := CutOff; return; }
      var a := next.value;
      LeaveIs(world, a, resumed, token, held);
      UpdateGoalStep(a, Exiting);
      Took(a);
      if (if resumed then Positive(held) else held).None?
         || KnownTokenAddress("WETH", goal.chain).None? || (!resumed && !a.rateOk) {
        flow := Break;
        return;
      }
      call := SellCall(resumed, token, held.value, if resumed then "0" else a.minOut);
      flow := Onward;
    }

    /** The SELL, and the exit fee if it went through on the normal path. */
    method SellTokens(call: Call) returns (flow: Flow)
      requires call.SellCall? && Matches(Posting(call, 1))
      modifies this
      ensures Ended(flow, Sold) && (call.resumed ==> flow != Onward) && |script| <= |old(script)|
    {
      hide Matches, Runs;
      var done, _ := ExecuteSwap(call);
      if done.None? { return CutOff; }
      if call.resumed { return Continue; }
      if !done.value { return Onward; }
      flow := CollectExitFee();
    }

    /** A fee that is due is swapped towards the treasury, from a wallet named by the goal's id. */
    method CollectExitFee() returns (flow: Flow)
      requires Matches(Charging)
      modifies this`record, this`cancelled, this`script, this`world, this`log, this`deeds
      ensures flow in {Onward, CutOff} && Ended(flow, Sold) && |script| <= |old(script)|
    {
      hide Logged, Next, AtHead, Resolve, EnterResumed, Work, Guard, Watch, Leave, Tally;
      var next := Await(Charging);
      if next.None? { return CutOff; }
      Took(next.value);
      if next.value.treasury.None? { return Onward; }
      flow := PayFee(next.value.treasury.value);
    }

    method PayFee(treasury: string) returns (flow: Flow)
      requires Matches(Posting(FeeCall(treasury), 1))
      modifies this`record, this`cancelled, this`script, this`world, this`log, this`deeds
      ensures flow in {Onward, CutOff} && Ended(flow, Sold) && |script| <= |old(script)|
    {
      hide Matches, Runs;
      var done, _ := ExecuteSwap(FeeCall(treasury));
      return if done.None? then CutOff else Onward;
    }

    /** Compounding: books the gain, then completes, fails or goes round again. */
    method Compound() returns (flow: Flow)
      requires Matches(Sold)
      modifies this
      ensures flow != Onward && Ended(flow, Dead) && |script| <= |old(script)|
    {
      hide Matches, Runs;
      flow := StartCompounding();
      if flow != Onward { return; }
      flow := BookGain();
      if flow != Onward { return; }
      flow := TallyUp();
    }

    method StartCompounding() returns (flow: Flow)
      requires Matches(Sold)
      modifies this
      ensures Ended(flow, BookingGain) && flow != Break && |script| <= |old(script)|
    {
      hide Logged, Next, AtHead, Resolve, EnterResumed, Work, Guard, Watch, Leave, Tally;
      var next := Await(Sold);
      if next.None? { return CutOff; }
      if !cancelled { UpdateGoalStep(next.value, Compounding); }
      Took(next.value);
      return if cancelled then Continue else Onward;
    }

    method BookGain() returns (flow: Flow)
      requires Matches(BookingGain)
      modifies this
      ensures flow in {Onward, CutOff} && Ended(flow, Tallying) && |script| <= |old(script)|
    {
      hide Logged, Next, AtHead, Resolve, EnterResumed, Work, Guard, Watch, Leave, Tally;
      var next := Await(BookingGain);
      if next.None? { return CutOff; }
      Took(next.value);
      return Onward;
    }

    method TallyUp() returns (flow: Flow)
      requires Matches(Tallying)
      modifies this
      ensures flow != Onward && Ended(flow, Dead) && |script| <= |old(script)|
    {
      hide Logged, Next, AtHead, Resolve, EnterResumed, Work, Guard, Watch, Leave;
      var next := Await(Tallying);
      if next.None? { return CutOff; }
      var a := next.value;
      flow := Break;
      if a.getOk {
        match a.verdict {
          case TargetReached => EndGoal(a, Completed);
          case StopLoss => EndGoal(a, Failed);
          case NextCycle => flow := Continue;
        }
      }
      Took(a);
    }

    /** The first round of a runner that boot sent back to monitoring. */
    method Resumed() returns (flow: Flow)
      requires Matches(ResumeEntry) && firstIteration && resumeFromMonitoring
      modifies this
      ensures flow != Onward && Ended(flow, Dead) && |script| <= |old(script)|
    {
      hide Logged, Next, AtHead, Resolve, Work, Guard, Watch, Leave, Tally;
      var next := Await(ResumeEntry);
      if next.None? { return CutOff; }
      firstIteration := false;
      UpdateGoalStep(next.value, Monitoring);
      Took(next.value);
      if !Recorded(goal) {
        flow := FailGoal(Failing);
        return;
      }
      var token, held := goal.token.value, goal.held;
      flow := MonitorPosition(true, token, held);
      if flow == Onward { flow := ExitPosition(true, token, held); }
    }

    /** One round of the loop. */
    method Round() returns (flow: Flow)
      requires Matches(Head)
      modifies this
      ensures flow != Onward && Ended(flow, Dead)
      ensures flow == Continue ==> |script| < |old(script)|
    {
      flow := LoadGoal();
      if flow != Onward { return; }
      flow := ResolveWallet();
      if flow != Onward { return; }
      if firstIteration && resumeFromMonitoring {
        flow := Resumed();
        return;
      }
      firstIteration := false;
      flow := TradeRound();
    }

    /** From scouting to the end of the round. */
    method TradeRound() returns (flow: Flow)
      requires Matches(Entering(Scouting))
      modifies this
      ensures flow != Onward && Ended(flow, Dead) && |script| <= |old(script)|
    {
      hide Matches, Runs;
      flow := Consult(Scouting);
      if flow != Onward { return; }
      flow := Consult(Risk);
      if flow != Onward { return; }
      var tokenIn, token, held;
      flow, tokenIn, token := Trade();
      if flow != Onward { return; }
      flow, token, held := BuyOnce(tokenIn, token);
      if flow != Onward { return; }
      flow := MonitorPosition(false, token, held);
      if flow != Onward { return; }
      flow := ExitPosition(false, token, held);
      if flow != Onward { return; }
      flow := Compound();
    }

    /**
     * The whole life of one runner, up to its end or the death of the process, is a run of the goal
     * machine: the store and the deeds are the machine's, every BUY and SELL is sent from the goal's
     * wallet, and BUYs beyond the first are paid for by faults.
     */
    method RunGoal(ghost owner: Owner)
      requires Matches(Head) && Good(start, owner) && world == start
      modifies this
      ensures Logged() && record == world.record && deeds == world.deeds
      ensures forall d :: d in deeds && (d.Buy? || d.Sell?) ==> ParseWallet(owner.walletId) == Some(d.wallet)
      ensures Buys(deeds) - Buys(start.deeds) <= Budget(world) - Budget(start)
    {
      var flow := Continue;
      while flow == Continue
        invariant flow != Onward && Ended(flow, Dead)
        decreases flow == Continue, |script|
      {
        flow := Round();
      }
      RunKeepsGood(start, log, owner);
      RunPays(start, log, owner);
      SentFromWallet(world, owner);
    }
  }

  lemma LeaveIs(w: World, a: Answers, resumed: bool, t: string, held: Option<string>)
    requires w.snapshot.None?
    ensures Positive(held).Some? ==> held.Some?
    ensures var w' := Leave(w, a, resumed, t, held);
            && w'.deeds == w.deeds
            && w'.record == (if a.getOk && a.saved then w.record.(step := Exiting) else w.record)
            && w'.runner == w.runner.(pc :=
                 if (if resumed then Positive(held) else held).None?
                    || KnownTokenAddress("WETH", w.runner.goal.chain).None? || (!resumed && !a.rateOk) then Failing
                 else Posting(SellCall(resumed, t, held.value, if resumed then "0" else a.minOut), 1))
  {
    hide KnownTokenAddress;
  }

  lemma SentFromWallet(w: World, owner: Owner)
    requires Good(w, owner)
    ensures forall d :: d in w.deeds && (d.Buy? || d.Sell?) ==> ParseWallet(owner.walletId) == Some(d.wallet)
  {
  }
}
