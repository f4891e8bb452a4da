/** The loops around the runner: retrying an agent, watching a position, and resuming goals at boot. */
module GoalLoops {
  import opened Wrappers
  import opened SwapToken
  import opened GoalMachine

  // -- Retrying -------------------------------------------------------------

  const MAX_RETRIES: nat := 3

  predicate Contains(s: string, t: string) {
    |t| <= |s| && (s[..|t|] == t || (s != "" && Contains(s[1..], t)))
  }

  /** An error whose text says that another attempt cannot help. */
  predicate Permanent(error: string) {
    var msg := Lower(error);
    Contains(msg, "chain not found") || Contains(msg, "no rpc_url") || Contains(msg, "unsupported chain")
  }

  lemma {:induction false} IsContained(a: string, t: string, b: string)
    ensures Contains(a + t + b, t)
  {
    if a != "" {
      IsContained(a[1..], t, b);
      assert (a + t + b)[1..] == a[1..] + t + b;
    }
  }

  lemma {:induction false} WhereContained(s: string, t: string) returns (a: string, b: string)
    requires Contains(s, t)
    ensures s == a + t + b
  {
    if s[..|t|] == t {
      a, b := "", s[|t|..];
    } else {
      a, b := WhereContained(s[1..], t);
      a := [s[0]] + a;
    }
  }

  /** An error is permanent when, in whatever case, one of three phrases stands somewhere in it. */
  lemma PermanentWhen(error: string)
    ensures Permanent(error) <==>
            || (exists a, b :: Lower(error) == a + "chain not found" + b)
            || (exists a, b :: Lower(error) == a + "no rpc_url" + b)
            || (exists a, b :: Lower(error) == a + "unsupported chain" + b)
  {
    PhraseWhen(Lower(error), "chain not found");
    PhraseWhen(Lower(error), "no rpc_url");
    PhraseWhen(Lower(error), "unsupported chain");
  }

  lemma PhraseWhen(s: string, t: string)
    ensures Contains(s, t) <==> exists a, b :: s == a + t + b
  {
    if Contains(s, t) {
      var a, b := WhereContained(s, t);
      assert s == a + t + b;
    }
    if a, b :| s == a + t + b { IsContained(a, t, b); }
  }

  /**
   * At most three attempts. The result is that of the first deciding attempt, or of the third, unless
   * a cancel is seen before the attempt it would take.
   */
  method WithRetry(attempts: seq<Result<string, string>>, cancelled: seq<bool>)
    returns (result: Result<string, string>, used: nat)
    requires |attempts| == |cancelled| == 3
    ensures used <= 3
    ensures forall i :: 0 <= i < used ==> !cancelled[i]
    ensures forall i :: 0 <= i < used - 1 ==> attempts[i].Err? && !Permanent(attempts[i].error)
    ensures || (used < 3 && cancelled[used] && result == Err("cancelled")
                && (used > 0 ==> attempts[used - 1].Err? && !Permanent(attempts[used - 1].error)))
            || (used > 0 && result == attempts[used - 1] && (result.Ok? || Permanent(result.error) || used == 3))
  {
    hide Permanent;
    var lastErr := "unknown error";
    used := 0;
    for attempt := 0 to MAX_RETRIES
      invariant used == attempt
      invariant forall i :: 0 <= i < attempt ==> !cancelled[i] && attempts[i].Err? && !Permanent(attempts[i].error)
      invariant attempt > 0 ==> attempts[attempt - 1] == Err(lastErr)
    {
      if cancelled[attempt] { return Err("cancelled"), used; }
      used := attempt + 1;
      match attempts[attempt] {
        case Ok(v) => return Ok(v), used;
        case Err(e) =>
          if Permanent(e) { return Err(e), used; }
          lastErr := e;
      }
    }
    return Err(lastErr), used;
  }

  // -- Watching a position --------------------------------------------------

  const MAX_SENTINEL_PARSE_FAILURES: nat := 3

  datatype Assessment = Exit | Stay | ParseError | OtherError

  datatype Wake = Timer | SentinelExit | Rotation

  /** One pass of the monitoring loop. */
  datatype Pass = Pass(
    cancelled: bool, stored: Option<Status>, periodOver: bool, priceOk: bool, assessment: Assessment, wake: Wake)

  /** What the loop reads of the goal's copy: where it runs, whether it rotates, how far it has fallen. */
  datatype Position = Position(testnet: bool, rotates: bool, pnlPct: real, stopLossPct: real)

  /** Parse errors since the last answer that could be read; no answer is asked for while paused. */
  function ParseErrors(passes: seq<Pass>): nat {
    if |passes| == 0 then 0
    else
      var p, n := passes[|passes| - 1], ParseErrors(passes[..|passes| - 1]);
      if p.stored == Some(Paused) then n
      else match p.assessment
           case ParseError => n + 1
           case Stay => 0
           case _ => n
  }

  /** A rotation is taken unless, off testnet, the loss is within a fifth of the stop loss. */
  predicate Rotates(position: Position) {
    position.rotates && (position.testnet || position.pnlPct > -(position.stopLossPct * 0.8))
  }

  /** What one pass ends the watch with, given the parse errors including its own. */
  function EndOf(position: Position, p: Pass, parseErrors: nat): MonitorEnd {
    var awake :=
      match p.wake
      case SentinelExit => ExitSignal
      case Rotation => if Rotates(position) then YieldRotate else KeepWatching
      case Timer => KeepWatching;
    if p.stored == Some(Cancelled) then SawCancelled
    else if p.stored == Some(Paused) then KeepWatching
    else if position.testnet then (if p.periodOver then TestnetTimeout else awake)
    else if !p.priceOk then CannotEvaluate
    else if p.assessment == Exit then ExitSignal
    else if p.assessment == ParseError && parseErrors >= MAX_SENTINEL_PARSE_FAILURES then CannotEvaluate
    else awake
  }

  /** Each way a pass can end the watch, by its condition; `errors` counts the parse errors in a row. */
  lemma WatchEndsWhen(position: Position, p: Pass, errors: nat)
    ensures var end := EndOf(position, p, errors);
            var looks := p.stored != Some(Cancelled) && p.stored != Some(Paused);
            var blind := !position.testnet && (!p.priceOk || (p.assessment == ParseError && errors >= 3));
            var sells := !position.testnet && p.priceOk && p.assessment == Exit;
            var over := position.testnet && p.periodOver;
            var shallow := position.testnet || position.pnlPct > -(position.stopLossPct * 0.8);
            && (end == SawCancelled <==> p.stored == Some(Cancelled))
            && (end == TestnetTimeout <==> looks && over)
            && (end == CannotEvaluate <==> looks && blind)
            && (end == ExitSignal <==> looks && !over && !blind && (sells || p.wake == SentinelExit))
            && (end == YieldRotate <==>
                  looks && !over && !blind && !sells && p.wake == Rotation && position.rotates && shallow)
  {
  }

  lemma OneMorePass(passes: seq<Pass>, i: nat)
    requires i < |passes|
    ensures var p, n := passes[i], ParseErrors(passes[..i]);
            ParseErrors(passes[..i + 1]) ==
            if p.stored == Some(Paused) then n
            else if p.assessment == ParseError then n + 1
            else if p.assessment == Stay then 0
            else n
  {
    assert passes[..i + 1][..i] == passes[..i];
  }

  lemma NoPassYet()
    ensures ParseErrors([]) == 0
  {
  }

  /**
   * The watch ends with the first pass that ends it, and what that pass says is the end found;
   * Failed and Completed in the store do not end it. None: no pass ended it, or a cancel was seen.
   */
  method WatchPasses(position: Position, passes: seq<Pass>) returns (end: Option<MonitorEnd>, used: nat)
    ensures used <= |passes|
    ensures forall i :: 0 <= i < used ==> !passes[i].cancelled
    ensures forall i :: 0 <= i < (if end.Some? then used - 1 else used) ==>
              EndOf(position, passes[i], ParseErrors(passes[..i + 1])) == KeepWatching
    ensures end.Some? ==>
              used > 0 && end.value != KeepWatching
              && end.value == EndOf(position, passes[used - 1], ParseErrors(passes[..used]))
    ensures end.None? ==> used == |passes| || passes[used].cancelled
  {
    hide Rotates, ParseErrors;
    NoPassYet();
    var parseFailures := 0;
    end, used := None, 0;
    for i := 0 to |passes|
      invariant used == i && (!position.testnet ==> parseFailures == ParseErrors(passes[..i]))
      invariant forall j :: 0 <= j < i ==> !passes[j].cancelled
      invariant forall j :: 0 <= j < i ==> EndOf(position, passes[j], ParseErrors(passes[..j + 1])) == KeepWatching
    {
      var p := passes[i];
      OneMorePass(passes, i);
      if p.cancelled { return None, used; }
      used := i + 1;
      if p.stored == Some(Cancelled) { return Some(SawCancelled), used; }
      if p.stored == Some(Paused) { continue; }
      if position.testnet {
        if p.periodOver { return Some(TestnetTimeout), used; }
        if p.wake == SentinelExit { return Some(ExitSignal), used; }
        if p.wake == Rotation && Rotates(position) { return Some(YieldRotate), used; }
        continue;
      }
      if !p.priceOk { return Some(CannotEvaluate), used; }
      match p.assessment {
        case Exit => return Some(ExitSignal), used;
        case Stay => parseFailures := 0;
        case ParseError =>
          parseFailures := parseFailures + 1;
          if parseFailures >= MAX_SENTINEL_PARSE_FAILURES { return Some(CannotEvaluate), used; }
        case OtherError =>
      }
      if p.wake == SentinelExit { return Some(ExitSignal), used; }
      if p.wake == Rotation && Rotates(position) { return Some(YieldRotate), used; }
    }
  }

  /** What the loop hands to the runner. */
  datatype MonitorResult = ExitSignalled | RotationSignalled | WasCancelled | PeriodOver | NoExit | StillWatching

  /** A cancel seen as the loop is left outranks every end but the testnet timeout. */
  function ResultOf(end: MonitorEnd, cancelled: bool): MonitorResult {
    if end == TestnetTimeout then PeriodOver
    else if end == KeepWatching then StillWatching
    else if cancelled then WasCancelled
    else if end == ExitSignal then ExitSignalled
    else if end == YieldRotate then RotationSignalled
    else NoExit
  }

  /**
   * The whole loop: the result is that of the first pass that ends the watch, weighed against the
   * cancel flag at that moment; the goal is failed exactly when that pass could not evaluate it.
   */
  method RunMonitoringLoop(position: Position, passes: seq<Pass>, cancelledLate: bool)
    returns (result: MonitorResult, failed: bool, used: nat)
    ensures used <= |passes| && forall i :: 0 <= i < used ==> !passes[i].cancelled
    ensures forall i :: 0 <= i < used - 1 ==>
              EndOf(position, passes[i], ParseErrors(passes[..i + 1])) == KeepWatching
    ensures var end :=
              if used == 0 then KeepWatching else EndOf(position, passes[used - 1], ParseErrors(passes[..used]));
            && failed == (end == CannotEvaluate)
            && (end != KeepWatching ==> result == ResultOf(end, cancelledLate))
            && (end == KeepWatching ==>
                  if used == |passes| then result == StillWatching
                  else passes[used].cancelled && result == WasCancelled)
  {
    hide EndOf, ParseErrors;
    var end;
    end, used := WatchPasses(position, passes);
    match end {
      case Some(e) => return ResultOf(e, cancelledLate), e == CannotEvaluate, used;
      case None => return if used == |passes| then StillWatching else WasCancelled, false, used;
    }
  }

  /** The machine's watch goes where these results send the runner; a failed goal is written first. */
  lemma ResultsMatchMachine(w: World, a: Answers, resumed: bool, t: string, held: Option<string>)
    requires w.runner.pc == Watching(resumed, t, held)
    requires a.monitor == SawCancelled ==> a.getOk && w.record.status == Cancelled
    ensures var pc := Act(w, a).runner.pc;
            var after := if pc.WatchFailing? then (if w.runner.cancelled then Dead else Head) else pc;
            (a.monitor == CannotEvaluate <==> pc.WatchFailing?)
            && match ResultOf(a.monitor, w.runner.cancelled)
               case ExitSignalled => after == Leaving(resumed, t, held)
               case RotationSignalled => after == Rotating
               case WasCancelled => after == Dead
               case PeriodOver => after == Finishing
               case NoExit => after == Head
               case StillWatching => after == if w.runner.cancelled then Dead else w.runner.pc
  {
  }

  /** A goal that the sentinel or an operator has ended otherwise than by cancelling is watched on. */
  lemma EndedGoalIsWatchedOn(position: Position, p: Pass, n: nat)
    requires p.stored == Some(Completed) || p.stored == Some(Failed)
    ensures EndOf(position, p, n) == EndOf(position, p.(stored := Some(Running)), n)
  {
  }

  // -- Boot -----------------------------------------------------------------

  datatype Listed = Listed(id: nat, goal: Goal)

  function CountOf(goals: seq<Listed>, p: Goal -> bool): nat {
    if |goals| == 0 then 0 else CountOf(goals[..|goals| - 1], p) + Note(p(goals[|goals| - 1].goal))
  }

  lemma {:induction false} CountIsNumber(goals: seq<Listed>, p: Goal -> bool)
    ensures CountOf(goals, p) == |set i | 0 <= i < |goals| && p(goals[i].goal)|
  {
    if |goals| > 0 {
      var before, last := goals[..|goals| - 1], goals[|goals| - 1];
      CountIsNumber(before, p);
      assert goals == before + [last];
      NumberSnoc(before, last, p);
    }
  }

  lemma NumberSnoc(goals: seq<Listed>, last: Listed, p: Goal -> bool)
    ensures |set i | 0 <= i < |goals| + 1 && p((goals + [last])[i].goal)|
            == |set i | 0 <= i < |goals| && p(goals[i].goal)| + if p(last.goal) then 1 else 0
  {
    var before := set i | 0 <= i < |goals| && p(goals[i].goal);
    var all := set i | 0 <= i < |goals| + 1 && p((goals + [last])[i].goal);
    if p(last.goal) {
      assert all == before + {|goals|};
    } else {
      assert all == before;
    }
  }

  /** Where a listed goal is resumed: the entry of the last listing of its id that can be resumed. */
  function RunnerFor(goals: seq<Listed>, id: nat): Option<bool> {
    if |goals| == 0 then None
    else
      var last := goals[|goals| - 1];
      if last.id == id && Resumable(last.goal) then Some(RoutesToMonitoring(last.goal))
      else RunnerFor(goals[..|goals| - 1], id)
  }

  /** Boot starts a runner for exactly the goals that are running or paused, and counts its routes. */
  method ResumeGoals(goals: seq<Listed>)
    returns (runners: map<nat, bool>, fromMonitoring: nat, fromScouting: nat, paused: nat)
    ensures forall id :: RunnerFor(goals, id) == if id in runners then Some(runners[id]) else None
    ensures fromMonitoring + fromScouting == CountOf(goals, g => Resumable(g))
    ensures fromMonitoring == CountOf(goals, g => Resumable(g) && RoutesToMonitoring(g))
    ensures paused == CountOf(goals, (g: Goal) => g.status == Paused)
  {
    runners, fromMonitoring, fromScouting, paused := map[], 0, 0, 0;
    for i := 0 to |goals|
      invariant forall id :: RunnerFor(goals[..i], id) == if id in runners then Some(runners[id]) else None
      invariant fromMonitoring + fromScouting == CountOf(goals[..i], g => Resumable(g))
      invariant fromMonitoring == CountOf(goals[..i], g => Resumable(g) && RoutesToMonitoring(g))
      invariant paused == CountOf(goals[..i], (g: Goal) => g.status == Paused)
    {
      var g := goals[i].goal;
      assert goals[..i + 1][..i] == goals[..i];
      if g.status == Running || g.status == Paused {
        if g.status == Paused { paused := paused + 1; }
        var toMonitoring;
        match g.step {
          case Monitoring | Exiting => toMonitoring := true;
          case Executing => toMonitoring := Recorded(g);
          case _ => toMonitoring := false;
        }
        if toMonitoring { fromMonitoring := fromMonitoring + 1; } else { fromScouting := fromScouting + 1; }
        runners := runners[goals[i].id := toMonitoring];
      }
    }
    assert goals[..|goals|] == goals;
  }

  /** With every id listed once, each goal's runner starts where its own record says. */
  lemma {:induction false} EachGoalItsOwnRoute(goals: seq<Listed>, i: nat)
    requires i < |goals| && forall j, k :: 0 <= j < k < |goals| ==> goals[j].id != goals[k].id
    ensures RunnerFor(goals, goals[i].id) ==
            if Resumable(goals[i].goal) then Some(RoutesToMonitoring(goals[i].goal)) else None
  {
    if i < |goals| - 1 {
      EachGoalItsOwnRoute(goals[..|goals| - 1], i);
    } else {
      NotListed(goals[..i], goals[i].id);
    }
  }

  lemma {:induction false} NotListed(goals: seq<Listed>, id: nat)
    requires forall j :: 0 <= j < |goals| ==> goals[j].id != id
    ensures RunnerFor(goals, id) == None
  {
    if |goals| > 0 { NotListed(goals[..|goals| - 1], id); }
  }

  /** A terminal or never-started goal gets no runner at boot, and none is counted for it. */
  lemma {:induction false} BootMatchesMachine(w: World, id: nat)
    requires w.runner.pc.Dead?
    ensures var r := RunnerFor([Listed(id, w.record)], id); var w' := Next(w, Boot);
            w'.runner.pc.Head? == r.Some? && (r.Some? ==> w'.runner.resume == r.value)
  {
    assert [Listed(id, w.record)][..0] == [];
    assert RunnerFor([], id) == None;
  }
}
