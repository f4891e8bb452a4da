/**
 * The life of one trading goal as a state machine. The goal's record lives in a store that the
 * runner and other writers share; the runner may be cut off anywhere and be started again at boot.
 * One runner step is one await: one read or write of the store, one answer of an agent, or one
 * request to the key manager. A swap is requested up to three times while no answer comes.
 */
module GoalMachine {
  import opened Wrappers
  import opened SwapToken

  datatype Status = Pending | Running | Paused | Cancelled | Completed | Failed

  datatype StepName = Scouting | Risk | Trading | Executing | Monitoring | Exiting | Compounding

  type Uuid = nat

  /** Wallet text: the printed form of a UUID, or something that does not parse as one. */
  datatype WalletText = Printed(uuid: Uuid) | Malformed

  /** What a goal is created with for good. */
  datatype Owner = Owner(goalId: Uuid, walletId: Option<WalletText>)

  /** The stored record; the fields no step here reads (capital, profit, error text, times) are left out. */
  datatype Goal = Goal(
    owner: Owner,
    chain: string,
    status: Status,
    step: StepName,
    token: Option<string>,
    held: Option<string>,
    resolvedWallet: Option<WalletText>)

  /** What has happened outside the store, in order: requests that reached the key manager, and amounts settled on. */
  datatype Deed =
    | Buy(wallet: Uuid, tokenIn: string, token: string)
    | Hold(token: string, held: Option<string>) // the amount settled on for the BUY just made
    | Sell(wallet: Uuid, token: string, amount: string, minOut: string)
    | Fee(wallet: Uuid, treasury: string)

  /** A swap to be made, however often it has to be requested. */
  datatype Call =
    | BuyCall(tokenIn: string, token: string)
    | SellCall(resumed: bool, token: string, amount: string, minOut: string)
    | FeeCall(treasury: string)

  /** A swap is requested at most three times. */
  const MAX_POSTS := 3
  type Attempt = n: nat | 1 <= n <= MAX_POSTS witness 1

  /** The steps in which an agent is asked. */
  type Stage = s: StepName | s in {Scouting, Risk, Trading} witness Scouting

  datatype Pc =
    | Dead
    | Head
    | Resolving
    | ResumeEntry
    | Entering(stage: Stage)
    | Working(stage: Stage)
    | EnteringExecuting(tokenIn: string, token: string)
    | Guarding(tokenIn: string, token: string)
    | Posting(call: Call, attempt: Attempt)
    | Posted(call: Call, attempt: Attempt)
    | BuyFailing
    | Recording(token: string, held: Option<string>)
    | Bought(token: string, held: Option<string>)
    | Watching(resumed: bool, token: string, held: Option<string>)
    | WatchFailing
    | Finishing
    | Rotating
    | Leaving(resumed: bool, token: string, held: Option<string>)
    | Charging
    | Sold
    | BookingGain
    | Tallying
    | Failing

  /** The runner's own variables: `goal` is the copy loaded at the loop head. */
  datatype Runner = Runner(
    pc: Pc, goal: Goal, cachedWallet: Option<Uuid>, resume: bool, cancelled: bool, scoutRetries: nat)

  /** What has gone wrong so far, as far as it can cost a second BUY. */
  datatype Faults = Faults(
    windowCrashes: nat,   // crashes between sending a BUY and recording it
    lostRecords: nat,     // a BUY's record, or the failure of a BUY, that did not reach the store
    unreadGuards: nat,    // the guard could not read a record that holds a token
    resends: nat,         // a BUY requested again because the answer to it did not come in time
    setbacks: nat)        // the stored record lost its token or its terminal status

  const NoFaults := Faults(0, 0, 0, 0, 0)

  datatype World = World(
    record: Goal,
    snapshot: Option<Goal>,   // what the runner has read for a write it has not done yet
    pending: seq<Goal>,       // what other writers are about to write
    runner: Runner,
    deeds: seq<Deed>,
    faults: Faults)

  datatype Outcome = Proceed | Again | Abort

  datatype MonitorEnd = KeepWatching | ExitSignal | YieldRotate | TestnetTimeout | CannotEvaluate | SawCancelled

  /** The client's view of a request that reached the key manager. */
  datatype Reply = Answered | TimedOut | Broken

  datatype Verdict = TargetReached | StopLoss | NextCycle

  /** Everything a runner step may learn from the outside. */
  datatype Answers = Answers(
    killFlag: bool,
    deadlinePassed: bool,
    getOk: bool,
    saved: bool,          // whether a write reached the store, whatever the caller was told
    outcome: Outcome,
    tokenIn: string,
    tokenOut: string,
    rateOk: bool,
    reached: bool,        // the request reached the key manager
    reply: Reply,
    txOk: bool,
    treasury: Option<string>, // where an exit fee is due
    quote: Option<string>,
    minOut: string,
    monitor: MonitorEnd,
    gain: bool,
    verdict: Verdict)

  datatype Event =
    | Advance(a: Answers)
    | ReadsForWrite            // the read half of a runner's read-modify-write, done early
    | Signal                   // the cancel channel
    | Write(status: Status)    // sentinel or operator, read and write as one step
    | Begin(status: Status)    // the same in two halves
    | Finish(i: nat)
    | Crash
    | Boot

  const MAX_SCOUT_RETRIES := 5

  predicate Terminal(s: Status) {
    s in {Cancelled, Completed, Failed}
  }

  predicate Recorded(g: Goal) {
    g.token.Some? && g.token.value != ""
  }

  function ParseWallet(t: Option<WalletText>): Option<Uuid> {
    match t
    case Some(Printed(u)) => Some(u)
    case _ => None
  }

  /** The stored resolution if there is one, else the wallet the goal was created with. */
  function WalletOf(g: Goal): Option<Uuid> {
    if g.resolvedWallet.Some? then ParseWallet(g.resolvedWallet) else ParseWallet(g.owner.walletId)
  }

  /** A freshly created goal with its runner at the loop head. */
  function Created(owner: Owner, chain: string): World {
    var g := Goal(owner, chain, Running, Scouting, None, None, None);
    World(g, None, [], NewRunner(g, false), [], NoFaults)
  }

  function NewRunner(g: Goal, resume: bool): Runner {
    Runner(Head, g, None, resume, false, 0)
  }

  // -- Runner steps ---------------------------------------------------------

  function Goto(w: World, pc: Pc): World {
    w.(runner := w.runner.(pc := pc))
  }

  /** What a read-modify-write starts from. */
  function Base(w: World): Goal {
    if w.snapshot.Some? then w.snapshot.value else w.record
  }

  function Put(w: World, a: Answers, g: Goal): World {
    if a.getOk && a.saved then w.(record := g) else w
  }

  function SetStep(w: World, a: Answers, step: StepName): World {
    Put(w, a, Base(w).(step := step))
  }

  function SetStatus(w: World, a: Answers, status: Status): World {
    Put(w, a, Base(w).(status := status))
  }

  function Did(w: World, d: Deed): World {
    w.(deeds := w.deeds + [d])
  }

  /** A quote's amount counts only if it is neither empty nor "0". */
  function Positive(quote: Option<string>): Option<string> {
    if quote.Some? && quote.value != "" && quote.value != "0" then quote else None
  }

  function AtHead(w: World, a: Answers): World {
    if w.runner.cancelled then Goto(w, Dead)
    else if a.killFlag then w
    else if a.deadlinePassed then Goto(w, Failing)
    else if !a.getOk || Terminal(w.record.status) then Goto(w, Dead)
    else if w.record.status == Paused then w
    else w.(runner := w.runner.(goal := w.record, pc := Resolving))
  }

  function AfterResolving(r: Runner): Pc {
    if r.resume then ResumeEntry else Entering(Scouting)
  }

  function Resolve(w: World, a: Answers): World {
    var r := w.runner;
    if r.cachedWallet.Some? then Goto(w, AfterResolving(r))
    else match WalletOf(r.goal)
         case None => Goto(w, Failing)
         case Some(u) =>
           var w' := w.(runner := r.(cachedWallet := Some(u), pc := AfterResolving(r)));
           if r.goal.resolvedWallet.None? then Put(w', a, Base(w).(resolvedWallet := Some(Printed(u)))) else w'
  }

  function EnterResumed(w: World, a: Answers): World {
    var g := w.runner.goal;
    var w' := SetStep(w.(runner := w.runner.(resume := false)), a, Monitoring);
    if Recorded(g) then Goto(w', Watching(true, g.token.value, g.held)) else Goto(w', Failing)
  }

  /** A trader's two token texts, resolved; None unless they are two different addresses. */
  function TokenPair(a: Answers, chain: string): Option<(string, string)> {
    match (ResolveSwapToken(a.tokenIn, chain), ResolveSwapToken(a.tokenOut, chain))
    case (Some(x), Some(y)) => if Lower(x) == Lower(y) then None else Some((x, y))
    case _ => None
  }

  /** Scouting, risk and trading: a cancel seen after the agent answers sends the runner back to the head. */
  function Work(w: World, a: Answers, stage: Stage): World {
    var r := w.runner;
    match a.outcome
    case Abort => Goto(w, Failing)
    case Again => if stage == Scouting then Goto(w, Failing) else Goto(w, Head)
    case Proceed =>
      if r.cancelled then Goto(w, Head)
      else if stage == Scouting then Goto(w, Entering(Risk))
      else if stage == Risk then Goto(w, Entering(Trading))
      else match TokenPair(a, r.goal.chain)
           case Some((x, y)) => w.(runner := r.(scoutRetries := 0, pc := EnteringExecuting(x, y)))
           case None =>
             w.(runner := r.(scoutRetries := r.scoutRetries + 1,
                             pc := if r.scoutRetries + 1 >= MAX_SCOUT_RETRIES then Failing else Head))
  }

  function Guard(w: World, a: Answers, tokenIn: string, token: string): World {
    if a.getOk && Recorded(w.record) then Goto(w, Bought(w.record.token.value, w.record.held))
    else if !a.rateOk then Goto(w, Failing)
    else Goto(w, Posting(BuyCall(tokenIn, token), 1))
  }

  /** The request a call makes; the exit fee is requested under the goal's id in place of a wallet's. */
  function Request(call: Call, wallet: Uuid, goalId: Uuid): Deed {
    match call
    case BuyCall(x, t) => Buy(wallet, x, t)
    case SellCall(_, t, amount, minOut) => Sell(wallet, t, amount, minOut)
    case FeeCall(treasury) => Fee(goalId, treasury)
  }

  /** One request. Only a failure to connect or to answer in time is tried again. */
  function Post(w: World, a: Answers, call: Call, attempt: Attempt): World {
    match w.runner.cachedWallet
    case None => Goto(w, Failing)
    case Some(u) =>
      if a.reached then Goto(Did(w, Request(call, u, w.runner.goal.owner.goalId)), Posted(call, attempt))
      else Goto(w, if attempt < MAX_POSTS then Posting(call, attempt + 1) else AfterFailure(call))
  }

  function Conclude(w: World, a: Answers, call: Call, attempt: Attempt): World {
    if a.reply == TimedOut && attempt < MAX_POSTS then Goto(w, Posting(call, attempt + 1))
    else if a.reply != Answered || !a.txOk then Goto(w, AfterFailure(call))
    else match call
         case BuyCall(_, t) => Goto(Did(w, Hold(t, Positive(a.quote))), Recording(t, Positive(a.quote)))
         case SellCall(resumed, _, _, _) => Goto(w, if resumed then Head else Charging)
         case FeeCall(_) => Goto(w, Sold)
  }

  /** A failed BUY fails the goal; a failed SELL or fee is only logged. */
  function AfterFailure(call: Call): Pc {
    match call
    case BuyCall(_, _) => BuyFailing
    case SellCall(resumed, _, _, _) => if resumed then Head else Sold
    case FeeCall(_) => Sold
  }

  /** One end of the monitoring loop; a cancel outranks all but the testnet timeout. */
  function Watch(w: World, a: Answers, resumed: bool, token: string, held: Option<string>): World {
    match a.monitor
    case TestnetTimeout => Goto(w, Finishing)
    case CannotEvaluate => Goto(w, WatchFailing)
    case _ =>
      if w.runner.cancelled then Goto(w, Dead)
      else match a.monitor
           case ExitSignal => Goto(w, Leaving(resumed, token, held))
           case YieldRotate => Goto(w, Rotating)
           case SawCancelled => if a.getOk && w.record.status == Cancelled then Goto(w, Head) else w
           case _ => w
  }

  /** Leaving a position: the resumed path filters the amount but asks no rate limiter. */
  function Leave(w: World, a: Answers, resumed: bool, token: string, held: Option<string>): World {
    var w' := SetStep(w, a, Exiting);
    if held.None? || (resumed && Positive(held).None?) then Goto(w', Failing)
    else if KnownTokenAddress("WETH", w.runner.goal.chain).None? then Goto(w', Failing)
    else if !resumed && !a.rateOk then Goto(w', Failing)
    else Goto(w', Posting(SellCall(resumed, token, held.value, if resumed then "0" else a.minOut), 1))
  }

  /** A profitable exit with a treasury owes a fee. */
  function Charge(w: World, a: Answers): World {
    Goto(w, if a.treasury.Some? then Posting(FeeCall(a.treasury.value), 1) else Sold)
  }

  function Tally(w: World, a: Answers): World {
    if !a.getOk then Goto(w, Dead)
    else match a.verdict
         case TargetReached => Goto(SetStatus(w, a, Completed), Dead)
         case StopLoss => Goto(SetStatus(w, a, Failed), Dead)
         case NextCycle => Goto(Put(w, a, Base(w)), Head)
  }

  function Act(w: World, a: Answers): World {
    var cancelled := w.runner.cancelled;
    match w.runner.pc
    case Dead => w
    case Head => AtHead(w, a)
    case Resolving => Resolve(w, a)
    case ResumeEntry => EnterResumed(w, a)
    case Entering(stage) => Goto(SetStep(w, a, stage), Working(stage))
    case Working(stage) => Work(w, a, stage)
    case EnteringExecuting(x, y) => Goto(SetStep(w, a, Executing), Guarding(x, y))
    case Guarding(x, y) => Guard(w, a, x, y)
    case Posting(call, attempt) => Post(w, a, call, attempt)
    case Posted(call, attempt) => Conclude(w, a, call, attempt)
    case BuyFailing => Goto(SetStatus(w, a, Failed), Dead)
    case Recording(token, held) =>
      Goto(Put(w, a, Base(w).(token := Some(token), held := held)), Bought(token, held))
    case Bought(token, held) =>
      if cancelled then Goto(w, Head) else Goto(SetStep(w, a, Monitoring), Watching(false, token, held))
    case Watching(resumed, token, held) => Watch(w, a, resumed, token, held)
    case WatchFailing => Goto(SetStatus(w, a, Failed), if cancelled then Dead else Head)
    case Finishing => Goto(SetStatus(w, a, Completed), Dead)
    case Rotating => Goto(SetStep(w, a, Scouting), Head)
    case Leaving(resumed, token, held) => Leave(w, a, resumed, token, held)
    case Charging => Charge(w, a)
    case Sold => if cancelled then Goto(w, Head) else Goto(SetStep(w, a, Compounding), BookingGain)
    case BookingGain => Goto(if a.gain then Put(w, a, Base(w)) else w, Tallying)
    case Tallying => Tally(w, a)
    case Failing => Goto(SetStatus(w, a, Failed), Dead)
  }

  // -- Crash and boot -------------------------------------------------------

  /** A BUY may have gone out and is not in the store yet. */
  predicate InWindow(pc: Pc) {
    || pc.BuyFailing? || pc.Recording?
    || (pc.Posted? && pc.call.BuyCall?)
    || (pc.Posting? && pc.call.BuyCall? && pc.attempt > 1)
  }

  predicate Resumable(g: Goal) {
    g.status == Running || g.status == Paused
  }

  /** Whether boot sends a goal straight back to monitoring. */
  predicate RoutesToMonitoring(g: Goal) {
    g.step in {Monitoring, Exiting} || (g.step == Executing && Recorded(g))
  }

  function Stop(w: World): World {
    w.(runner := w.runner.(pc := Dead, cancelled := false), snapshot := None, pending := [])
  }

  function BootUp(w: World): World {
    if w.runner.pc.Dead? && Resumable(w.record)
    then Stop(w).(runner := NewRunner(w.record, RoutesToMonitoring(w.record)))
    else w
  }

  // -- The whole machine ----------------------------------------------------

  function Effect(w: World, e: Event): World {
    match e
    case Advance(a) => Act(w, a).(snapshot := None)
    case ReadsForWrite => if w.runner.pc.Dead? then w else w.(snapshot := Some(w.record))
    case Signal => if w.runner.pc.Dead? then w else w.(runner := w.runner.(cancelled := true))
    case Write(s) => if s == Pending then w else w.(record := w.record.(status := s))
    case Begin(s) => if s == Pending then w else w.(pending := w.pending + [w.record.(status := s)])
    case Finish(i) =>
      if i < |w.pending| then w.(record := w.pending[i], pending := w.pending[..i] + w.pending[i + 1..]) else w
    case Crash => Stop(w)
    case Boot => BootUp(w)
  }

  function Note(b: bool): nat {
    if b then 1 else 0
  }

  function Charged(w: World, e: Event, w': World): Faults {
    var pc, f := w.runner.pc, w.faults;
    var missed := e.Advance? && !(e.a.getOk && e.a.saved);
    Faults(
      f.windowCrashes + Note(e.Crash? && InWindow(pc)),
      f.lostRecords + Note(missed && (pc.Recording? || pc.BuyFailing?)),
      f.unreadGuards + Note(e.Advance? && pc.Guarding? && !e.a.getOk && Recorded(w.record)),
      f.resends + Note(e.Advance? && pc.Posted? && pc.call.BuyCall? && w'.runner.pc.Posting?),
      f.setbacks + Note((Recorded(w.record) && !Recorded(w'.record))
                        || (Terminal(w.record.status) && !Terminal(w'.record.status))))
  }

  function Next(w: World, e: Event): World {
    var w' := Effect(w, e);
    w'.(faults := Charged(w, e, w'))
  }

  function Run(w: World, es: seq<Event>): World {
    if |es| == 0 then w else Next(Run(w, es[..|es| - 1]), es[|es| - 1])
  }
}
