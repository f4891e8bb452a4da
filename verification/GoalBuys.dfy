/** How many swaps a goal can request, over every run with any crashes, boots and writers. */
module GoalBuys {
  import opened Wrappers
  import opened GoalMachine
  import opened GoalSafety
  import opened GoalWrites

  function Buys(deeds: seq<Deed>): nat {
    if |deeds| == 0 then 0 else Buys(deeds[..|deeds| - 1]) + Note(deeds[|deeds| - 1].Buy?)
  }

  /** Requests of any kind: BUYs, SELLs and exit fees. */
  function Sent(deeds: seq<Deed>): nat {
    if |deeds| == 0 then 0 else Sent(deeds[..|deeds| - 1]) + Note(!deeds[|deeds| - 1].Hold?)
  }

  function FaultCount(f: Faults): nat {
    f.windowCrashes + f.lostRecords + f.unreadGuards + f.resends + f.setbacks
  }

  predicate PostingBuy(pc: Pc) {
    pc.Posting? && pc.call.BuyCall?
  }

  /** The one BUY that needs no fault: it is on its way to the store, in the store, or the goal is over. */
  predicate Accounted(w: World) {
    && !PostingBuy(w.runner.pc)
    && (InWindow(w.runner.pc) || Recorded(w.record) || (w.runner.pc.Dead? && Terminal(w.record.status)))
  }

  function Budget(w: World): nat {
    FaultCount(w.faults) + Note(Accounted(w))
  }

  lemma OneMore(deeds: seq<Deed>, d: Deed)
    ensures Buys(deeds + [d]) == Buys(deeds) + Note(d.Buy?)
    ensures Sent(deeds + [d]) == Sent(deeds) + Note(!d.Hold?)
  {
    assert (deeds + [d])[..|deeds|] == deeds;
  }

  /** The deed a step does, if any. */
  function DeedOf(w: World, e: Event): Option<Deed> {
    match (e, w.runner.pc, w.runner.cachedWallet)
    case (Advance(a), Posting(call, _), Some(u)) =>
      if a.reached then Some(Request(call, u, w.runner.goal.owner.goalId)) else None
    case (Advance(a), Posted(BuyCall(_, t), _), _) =>
      if a.reply == Answered && a.txOk then Some(Hold(t, Positive(a.quote))) else None
    case _ => None
  }

  lemma StepDeeds(w: World, e: Event)
    ensures Next(w, e).deeds == if DeedOf(w, e).Some? then w.deeds + [DeedOf(w, e).value] else w.deeds
  {
    hide AtHead, Resolve, EnterResumed, Work, Guard, Watch, Leave, Tally, SetStep, SetStatus;
    if e.Advance? { PlainDeeds(w, e.a); }
  }

  /** Sub-steps that do no deed. */
  lemma PlainDeeds(w: World, a: Answers)
    ensures AtHead(w, a).deeds == Resolve(w, a).deeds == EnterResumed(w, a).deeds == Tally(w, a).deeds == w.deeds
    ensures forall s :: SetStep(w, a, s).deeds == w.deeds
    ensures forall s :: SetStatus(w, a, s).deeds == w.deeds
    ensures forall s :: Work(w, a, s).deeds == w.deeds
    ensures forall x, y :: Guard(w, a, x, y).deeds == w.deeds
    ensures forall r, t, h :: Watch(w, a, r, t, h).deeds == w.deeds
    ensures forall r, t, h :: Leave(w, a, r, t, h).deeds == w.deeds
  {
  }

  predicate NamesToken(pc: Pc) {
    match pc
    case EnteringExecuting(_, t) => t != ""
    case Guarding(_, t) => t != ""
    case Posting(BuyCall(_, t), _) => t != ""
    case Posted(BuyCall(_, t), _) => t != ""
    case Recording(t, _) => t != ""
    case _ => true
  }

  predicate NearBuy(pc: Pc) {
    pc.Guarding? || PostingBuy(pc) || InWindow(pc)
  }

  /** Not in the middle of requesting a BUY. */
  predicate PastBuying(pc: Pc) {
    !((pc.Posting? || pc.Posted?) && pc.call.BuyCall?)
  }

  /** Only a guard that sees no recorded token leads to a BUY. */
  lemma {:induction false} OnlyGuardBuys(w: World, a: Answers)
    requires PastBuying(w.runner.pc)
    ensures PastBuying(Act(w, a).runner.pc) || (w.runner.pc.Guarding? && !(a.getOk && Recorded(w.record)))
  {
    hide AtHead, Resolve, EnterResumed, Work, Watch, Leave, Tally, SetStep, SetStatus, Put, Did;
    SettersKeepRunner();
    QuietMoves(w, a);
  }

  lemma SettersKeepRunner()
    ensures forall w, a, s :: SetStep(w, a, s).runner == w.runner
    ensures forall w, a, s :: SetStatus(w, a, s).runner == w.runner
    ensures forall w, a, g :: Put(w, a, g).runner == w.runner
    ensures forall w, d :: Did(w, d).runner == w.runner
  {
  }

  lemma QuietMoves(w: World, a: Answers)
    requires PastBuying(w.runner.pc)
    ensures PastBuying(AtHead(w, a).runner.pc) && PastBuying(Resolve(w, a).runner.pc)
    ensures PastBuying(EnterResumed(w, a).runner.pc) && PastBuying(Tally(w, a).runner.pc)
    ensures forall s :: PastBuying(Work(w, a, s).runner.pc)
    ensures forall r, t, h :: PastBuying(Watch(w, a, r, t, h).runner.pc)
    ensures forall r, t, h :: PastBuying(Leave(w, a, r, t, h).runner.pc)
  {
    hide TokenPair, WalletOf, SetStep, SetStatus, Put;
    SettersKeepRunner();
  }

  /** Away from the BUY a step can only lose the account by a setback. */
  lemma FarStepPays(w: World, a: Answers)
    requires !NearBuy(w.runner.pc)
    ensures var w' := Next(w, Advance(a)); Budget(w') >= Budget(w)
  {
    OnlyGuardBuys(w, a);
    hide Act;
  }

  predicate Requests(w: World, a: Answers) {
    PostingBuy(w.runner.pc) && w.runner.cachedWallet.Some? && a.reached
  }

  lemma NearStepPays(w: World, a: Answers)
    requires NearBuy(w.runner.pc) && NamesToken(w.runner.pc)
    ensures var w' := Next(w, Advance(a)); Budget(w') >= Budget(w) + Note(Requests(w, a))
  {
    hide AtHead, Resolve, EnterResumed, Work, Watch, Leave, Tally, Positive;
  }

  lemma OutsideStepPays(w: World, e: Event)
    requires !e.Advance?
    ensures var w' := Next(w, e); Budget(w') >= Budget(w)
  {
  }

  /** No step sends a BUY without using up budget, and only a fault or the first BUY adds any. */
  lemma {:induction false} StepPays(w: World, e: Event)
    requires NamesToken(w.runner.pc)
    ensures var w' := Next(w, e); Budget(w') - Buys(w'.deeds) >= Budget(w) - Buys(w.deeds)
  {
    hide Buys, Act, Budget, Next, Effect, Charged;
    StepDeeds(w, e);
    if DeedOf(w, e).Some? { OneMore(w.deeds, DeedOf(w, e).value); }
    if !e.Advance? { OutsideStepPays(w, e); }
    else if NearBuy(w.runner.pc) { NearStepPays(w, e.a); }
    else { FarStepPays(w, e.a); }
  }

  // -- Bounds on BUYs -------------------------------------------------------

  lemma GoodNamesToken(w: World, owner: Owner)
    requires Good(w, owner)
    ensures NamesToken(w.runner.pc)
  {
  }

  lemma {:induction false} RunPays(w: World, es: seq<Event>, owner: Owner)
    requires Good(w, owner)
    ensures var w' := Run(w, es); Budget(w') - Buys(w'.deeds) >= Budget(w) - Buys(w.deeds)
  {
    hide Budget, Buys, Good, Next;
    if |es| > 0 {
      var before := es[..|es| - 1];
      RunPays(w, before, owner);
      RunKeepsGood(w, before, owner);
      GoodNamesToken(Run(w, before), owner);
      StepPays(Run(w, before), es[|es| - 1]);
    }
  }

  /**
   * In every run at most one BUY is sent beyond those that a fault accounts for: a crash between
   * sending and recording, a record that did not reach the store, a guard that could not read a
   * recorded token, or a stored token or terminal status that another writer took away.
   */
  lemma {:induction false} BuysBounded(owner: Owner, chain: string, es: seq<Event>)
    ensures var w := Run(Created(owner, chain), es); Buys(w.deeds) <= 1 + FaultCount(w.faults)
  {
    RunPays(Created(owner, chain), es, owner);
  }

  /** Every read-modify-write is one step, and an operator pauses or resumes no goal that is over. */
  predicate Tame(w: World, e: Event) {
    !e.ReadsForWrite? && !e.Begin? && (e.Write? ==> Terminal(e.status) || !Terminal(w.record.status))
  }

  /** The runner's reads and writes of the store succeed besides. */
  predicate Reliable(w: World, e: Event) {
    Tame(w, e) && (e.Advance? ==> e.a.getOk && e.a.saved)
  }

  /** Every event of a run is tame where it happens; live goals may be paused and resumed at will. */
  predicate TameRun(w: World, es: seq<Event>) {
    |es| == 0 || (TameRun(w, es[..|es| - 1]) && Tame(Run(w, es[..|es| - 1]), es[|es| - 1]))
  }

  predicate ReliableRun(w: World, es: seq<Event>) {
    |es| == 0 || (ReliableRun(w, es[..|es| - 1]) && Reliable(Run(w, es[..|es| - 1]), es[|es| - 1]))
  }

  predicate NothingStale(w: World) {
    w.snapshot.None? && |w.pending| == 0
  }

  /** The runner writes a terminal status or leaves the status alone, and never takes the token away. */
  lemma {:induction false} TameStep(w: World, e: Event)
    requires Tame(w, e) && NothingStale(w)
    ensures var w' := Next(w, e);
            && NothingStale(w')
            && (Terminal(w.record.status) ==> Terminal(w'.record.status))
            && (Recorded(w.record) && NamesToken(w.runner.pc) ==> Recorded(w'.record))
  {
    hide Charged;
    if e.Advance? { ActRecord(w, e.a); }
  }

  lemma ActRecord(w: World, a: Answers)
    requires w.snapshot.None?
    ensures var w' := Act(w, a);
            && w'.pending == w.pending
            && (Terminal(w.record.status) ==> Terminal(w'.record.status))
            && (Recorded(w.record) && NamesToken(w.runner.pc) ==> Recorded(w'.record))
  {
    hide Act, Writes;
    ActLeaves(w, a);
  }

  lemma {:induction false} ReliableFaults(w: World, es: seq<Event>, owner: Owner)
    requires Good(w, owner) && NothingStale(w)
    requires ReliableRun(w, es)
    ensures var w' := Run(w, es);
            && NothingStale(w')
            && w'.faults == w.faults.(windowCrashes := w'.faults.windowCrashes, resends := w'.faults.resends)
  {
    hide Good, Effect;
    if |es| > 0 {
      var before := es[..|es| - 1];
      ReliableFaults(w, before, owner);
      RunKeepsGood(w, before, owner);
      GoodNamesToken(Run(w, before), owner);
      TameStep(Run(w, before), es[|es| - 1]);
    }
  }

  /**
   * With a reliable store BUYs are at most one plus the crashes between sending and recording plus
   * the requests made again after no answer came in time.
   */
  lemma {:induction false} ReliableBuysBounded(owner: Owner, chain: string, es: seq<Event>)
    requires ReliableRun(Created(owner, chain), es)
    ensures var w := Run(Created(owner, chain), es); Buys(w.deeds) <= 1 + w.faults.windowCrashes + w.faults.resends
  {
    hide Run;
    BuysBounded(owner, chain, es);
    ReliableFaults(Created(owner, chain), es, owner);
  }

  predicate AnswersInTime(e: Event) {
    e.Advance? ==> e.a.reply != TimedOut
  }

  lemma {:induction false} NoResends(w: World, es: seq<Event>)
    requires forall i :: 0 <= i < |es| ==> AnswersInTime(es[i])
    ensures Run(w, es).faults.resends == w.faults.resends
  {
    hide Act;
    if |es| > 0 {
      var w1, e := Run(w, es[..|es| - 1]), es[|es| - 1];
      NoResends(w, es[..|es| - 1]);
      if e.Advance? { AnsweredIsOver(w1, e.a); }
    }
  }

  lemma AnsweredIsOver(w: World, a: Answers)
    requires a.reply != TimedOut
    ensures w.runner.pc.Posted? ==> !Act(w, a).runner.pc.Posting?
  {
  }

  /** If besides no answer is late, BUYs are at most one plus the crashes between sending and recording. */
  lemma {:induction false} TimelyBuysBounded(owner: Owner, chain: string, es: seq<Event>)
    requires ReliableRun(Created(owner, chain), es) && forall i :: 0 <= i < |es| ==> AnswersInTime(es[i])
    ensures var w := Run(Created(owner, chain), es); Buys(w.deeds) <= 1 + w.faults.windowCrashes
  {
    hide Run;
    ReliableBuysBounded(owner, chain, es);
    NoResends(Created(owner, chain), es);
  }

  /** The requests that one BUY, whatever comes of it, has used of its three. */
  function Share(w: World): nat {
    var pc := w.runner.pc;
    if PostingBuy(pc) then pc.attempt - 1
    else if pc.Posted? && pc.call.BuyCall? then pc.attempt
    else if Accounted(w) then MAX_POSTS
    else 0
  }

  lemma ShareGrows(w: World, e: Event)
    requires Reliable(w, e) && NothingStale(w) && NamesToken(w.runner.pc) && HasWallet(w.runner)
    ensures var w' := Next(w, e);
            MAX_POSTS * w'.faults.windowCrashes + Share(w') - Buys(w'.deeds)
            >= MAX_POSTS * w.faults.windowCrashes + Share(w) - Buys(w.deeds)
  {
    hide Buys, Act, Next, Effect, Charged, Share;
    StepDeeds(w, e);
    if DeedOf(w, e).Some? { OneMore(w.deeds, DeedOf(w, e).value); }
    if !e.Advance? { OutsideShare(w, e); }
    else if NearBuy(w.runner.pc) { NearShare(w, e.a); }
    else { FarShare(w, e.a); }
  }

  lemma OutsideShare(w: World, e: Event)
    requires Reliable(w, e) && NothingStale(w) && !e.Advance?
    ensures var w' := Next(w, e);
            MAX_POSTS * w'.faults.windowCrashes + Share(w') >= MAX_POSTS * w.faults.windowCrashes + Share(w)
  {
  }

  lemma FarShare(w: World, a: Answers)
    requires Reliable(w, Advance(a)) && NothingStale(w) && NamesToken(w.runner.pc) && !NearBuy(w.runner.pc)
    ensures var w' := Next(w, Advance(a));
            w'.faults.windowCrashes == w.faults.windowCrashes && Share(w') >= Share(w)
  {
    OnlyGuardBuys(w, a);
    TameStep(w, Advance(a));
    hide Act;
  }

  /** The wallet is known wherever a swap can be requested. */
  predicate HasWallet(r: Runner) {
    r.cachedWallet.Some? || r.pc.Dead? || r.pc.Head? || r.pc.Resolving? || r.pc.Failing?
  }

  lemma ActKeepsWallet(w: World, a: Answers)
    requires HasWallet(w.runner)
    ensures HasWallet(Act(w, a).runner)
  {
    hide AtHead, Resolve, EnterResumed, Work, Guard, Watch, Leave, Tally, SetStep, SetStatus, Put, Did;
    SettersKeepRunner();
    PartsKeepWallet(w, a);
    if w.runner.cachedWallet.Some? { RoundKeepsWallet(w, a); }
  }

  lemma PartsKeepWallet(w: World, a: Answers)
    requires HasWallet(w.runner)
    ensures w.runner.pc.Head? ==> HasWallet(AtHead(w, a).runner)
    ensures w.runner.pc.Resolving? ==> HasWallet(Resolve(w, a).runner)
  {
    hide WalletOf, Put;
    SettersKeepRunner();
  }

  /** Once known the wallet stays known. */
  lemma RoundKeepsWallet(w: World, a: Answers)
    requires w.runner.cachedWallet.Some?
    ensures HasWallet(EnterResumed(w, a).runner) && HasWallet(Tally(w, a).runner)
    ensures forall s :: HasWallet(Work(w, a, s).runner)
    ensures forall x, y :: HasWallet(Guard(w, a, x, y).runner)
    ensures forall r, t, h :: HasWallet(Watch(w, a, r, t, h).runner)
    ensures forall r, t, h :: HasWallet(Leave(w, a, r, t, h).runner)
  {
    hide TokenPair, SetStep, SetStatus, Put;
    SettersKeepRunner();
  }

  lemma {:induction false} RunKeepsWallet(w: World, es: seq<Event>)
    requires HasWallet(w.runner)
    ensures HasWallet(Run(w, es).runner)
  {
    hide Act, Charged;
    if |es| > 0 {
      var w1, e := Run(w, es[..|es| - 1]), es[|es| - 1];
      RunKeepsWallet(w, es[..|es| - 1]);
      if e.Advance? { ActKeepsWallet(w1, e.a); }
    }
  }

  lemma NearShare(w: World, a: Answers)
    requires Reliable(w, Advance(a)) && NothingStale(w) && NamesToken(w.runner.pc)
    requires NearBuy(w.runner.pc) && HasWallet(w.runner)
    ensures var w' := Next(w, Advance(a));
            w'.faults.windowCrashes == w.faults.windowCrashes && Share(w') >= Share(w) + Note(Requests(w, a))
  {
    hide AtHead, Resolve, EnterResumed, Work, Watch, Leave, Tally, Positive;
  }

  lemma {:induction false} RunShares(w: World, es: seq<Event>, owner: Owner)
    requires Good(w, owner) && NothingStale(w) && HasWallet(w.runner)
    requires ReliableRun(w, es)
    ensures var w' := Run(w, es);
            MAX_POSTS * w'.faults.windowCrashes + Share(w') - Buys(w'.deeds)
            >= MAX_POSTS * w.faults.windowCrashes + Share(w) - Buys(w.deeds)
  {
    hide Buys, Good, Next, Share;
    if |es| > 0 {
      var before := es[..|es| - 1];
      RunShares(w, before, owner);
      ReliableFaults(w, before, owner);
      RunKeepsWallet(w, before);
      RunKeepsGood(w, before, owner);
      GoodNamesToken(Run(w, before), owner);
      ShareGrows(Run(w, before), es[|es| - 1]);
    }
  }

  /** However late the answers, a reliable store allows three BUY requests and three more per window crash. */
  lemma {:induction false} ThreeBuysPerWindow(owner: Owner, chain: string, es: seq<Event>)
    requires ReliableRun(Created(owner, chain), es)
    ensures var w := Run(Created(owner, chain), es); Buys(w.deeds) <= MAX_POSTS * (1 + w.faults.windowCrashes)
  {
    hide Run;
    RunShares(Created(owner, chain), es, owner);
  }

  lemma FaultsGrow(w: World, e: Event)
    ensures var f, f' := w.faults, Next(w, e).faults;
            f.unreadGuards <= f'.unreadGuards && f.setbacks <= f'.setbacks
  {
  }

  lemma {:induction false} RunFaultsGrow(w: World, es: seq<Event>)
    ensures var f, f' := w.faults, Run(w, es).faults;
            f.unreadGuards <= f'.unreadGuards && f.setbacks <= f'.setbacks
  {
    hide Next;
    if |es| > 0 {
      RunFaultsGrow(w, es[..|es| - 1]);
      FaultsGrow(Run(w, es[..|es| - 1]), es[|es| - 1]);
    }
  }

  lemma RecordedStep(w: World, e: Event)
    requires Recorded(w.record) && PastBuying(w.runner.pc)
    requires Next(w, e).faults.unreadGuards == w.faults.unreadGuards && Next(w, e).faults.setbacks == w.faults.setbacks
    ensures var w' := Next(w, e);
            Recorded(w'.record) && PastBuying(w'.runner.pc) && Buys(w'.deeds) == Buys(w.deeds)
  {
    hide Buys, Act, Guard;
    StepDeeds(w, e);
    if DeedOf(w, e).Some? { OneMore(w.deeds, DeedOf(w, e).value); }
    if e.Advance? { OnlyGuardBuys(w, e.a); }
  }

  /**
   * Once a BUY's token is recorded no iteration, resume or reboot requests another BUY, as long as
   * the guard can read the record and nobody takes the token away.
   */
  lemma {:induction false} NoBuyOnceRecorded(w: World, es: seq<Event>)
    requires Recorded(w.record) && PastBuying(w.runner.pc)
    requires var f, f' := w.faults, Run(w, es).faults; f.unreadGuards == f'.unreadGuards && f.setbacks == f'.setbacks
    ensures var w' := Run(w, es);
            Recorded(w'.record) && PastBuying(w'.runner.pc) && Buys(w'.deeds) == Buys(w.deeds)
  {
    hide Buys, Next, Recorded;
    if |es| > 0 {
      var before := es[..|es| - 1];
      RunFaultsGrow(w, before);
      FaultsGrow(Run(w, before), es[|es| - 1]);
      NoBuyOnceRecorded(w, before);
      RecordedStep(Run(w, before), es[|es| - 1]);
    }
  }
}
