/** Which wallet, token and amount a goal's transactions name, whatever crashes, fails or goes stale. */
module GoalSafety {
  import opened Wrappers
  import opened SwapToken
  import opened GoalMachine

  /** The part of a record that comes from creation, and a position that some BUY left behind. */
  predicate GoodGoal(g: Goal, owner: Owner, deeds: seq<Deed>) {
    && g.owner == owner
    && (g.resolvedWallet.Some? ==>
          ParseWallet(owner.walletId).Some? && g.resolvedWallet == Some(Printed(ParseWallet(owner.walletId).value)))
    && ((g.token.None? && g.held.None?) || (Recorded(g) && Hold(g.token.value, g.held) in deeds))
  }

  predicate TwoAddresses(tokenIn: string, token: string) {
    IsAddress(tokenIn) && IsAddress(token) && Lower(tokenIn) != Lower(token)
  }

  /** The deed is a request of the call. */
  predicate Requests(d: Deed, call: Call) {
    match call
    case BuyCall(x, t) => d.Buy? && d.tokenIn == x && d.token == t
    case SellCall(_, t, amount, minOut) => d.Sell? && d.token == t && d.amount == amount && d.minOut == minOut
    case FeeCall(treasury) => d.Fee? && d.treasury == treasury
  }

  predicate GoodCall(call: Call, deeds: seq<Deed>) {
    match call
    case BuyCall(x, t) => TwoAddresses(x, t)
    case SellCall(_, t, amount, _) => Hold(t, Some(amount)) in deeds
    case FeeCall(_) => |deeds| > 0 && (deeds[|deeds| - 1].Sell? || deeds[|deeds| - 1].Fee?)
  }

  predicate GoodPc(pc: Pc, deeds: seq<Deed>) {
    match pc
    case EnteringExecuting(x, t) => TwoAddresses(x, t)
    case Guarding(x, t) => TwoAddresses(x, t)
    case Posting(call, attempt) => GoodCall(call, deeds)
    case Posted(call, attempt) =>
      GoodCall(call, deeds) && |deeds| > 0 && Requests(deeds[|deeds| - 1], call)
    case Recording(t, held) => t != "" && Hold(t, held) in deeds
    case Bought(t, held) => Hold(t, held) in deeds
    case Watching(_, t, held) => Hold(t, held) in deeds
    case Leaving(_, t, held) => Hold(t, held) in deeds
    case Charging => |deeds| > 0 && deeds[|deeds| - 1].Sell?
    case _ => true
  }

  predicate GoodRunner(r: Runner, owner: Owner, deeds: seq<Deed>) {
    && GoodGoal(r.goal, owner, deeds)
    && (r.cachedWallet.Some? ==> r.cachedWallet == ParseWallet(owner.walletId))
    && GoodPc(r.pc, deeds)
  }

  /**
   * A BUY is between two addresses; a Hold comes straight after its BUY; a SELL is of an earlier
   * Hold; a fee comes straight after a SELL or another request of the fee.
   */
  predicate GoodDeed(d: Deed, before: seq<Deed>, owner: Owner) {
    match d
    case Buy(u, x, t) => ParseWallet(owner.walletId) == Some(u) && TwoAddresses(x, t)
    case Hold(t, held) =>
      && |before| > 0 && before[|before| - 1].Buy? && before[|before| - 1].token == t
      && held == Positive(held)
    case Sell(u, t, amount, _) => ParseWallet(owner.walletId) == Some(u) && Hold(t, Some(amount)) in before
    case Fee(u, _) => u == owner.goalId && |before| > 0 && (before[|before| - 1].Sell? || before[|before| - 1].Fee?)
  }

  ghost predicate GoodDeeds(deeds: seq<Deed>, owner: Owner) {
    forall i :: 0 <= i < |deeds| ==> GoodDeed(deeds[i], deeds[..i], owner)
  }

  ghost predicate GoodPending(pending: seq<Goal>, owner: Owner, deeds: seq<Deed>) {
    forall i :: 0 <= i < |pending| ==> GoodGoal(pending[i], owner, deeds)
  }

  ghost predicate Good(w: World, owner: Owner) {
    && GoodGoal(w.record, owner, w.deeds)
    && (w.snapshot.Some? ==> GoodGoal(w.snapshot.value, owner, w.deeds))
    && GoodPending(w.pending, owner, w.deeds)
    && GoodRunner(w.runner, owner, w.deeds)
    && GoodDeeds(w.deeds, owner)
  }

  /** Doing one more fit deed and moving on keeps everything fit. */
  lemma DeedKeepsGood(w: World, d: Deed, pc: Pc, owner: Owner)
    requires Good(w, owner) && GoodDeed(d, w.deeds, owner) && GoodPc(pc, w.deeds + [d])
    ensures Good(Goto(Did(w, d), pc), owner)
  {
    var deeds := w.deeds + [d];
    forall i | 0 <= i < |deeds| ensures GoodDeed(deeds[i], deeds[..i], owner) {
      assert deeds[..i] == w.deeds[..i];
    }
  }

  lemma PutKeepsGood(w: World, a: Answers, g: Goal, owner: Owner)
    requires Good(w, owner) && GoodGoal(g, owner, w.deeds)
    ensures Good(Put(w, a, g), owner) && Put(w, a, g).runner == w.runner && Put(w, a, g).deeds == w.deeds
  {
  }

  lemma MoveKeepsGood(w: World, pc: Pc, owner: Owner)
    requires Good(w, owner) && GoodPc(pc, w.deeds)
    ensures Good(Goto(w, pc), owner)
  {
  }

  /** Changing the step or the status of what was read touches neither wallet nor position. */
  lemma FieldsKeepGood(w: World, a: Answers, step: StepName, status: Status, owner: Owner)
    requires Good(w, owner)
    ensures var w1 := SetStep(w, a, step); Good(w1, owner) && w1.runner == w.runner && w1.deeds == w.deeds
    ensures var w2 := SetStatus(w, a, status); Good(w2, owner) && w2.runner == w.runner && w2.deeds == w.deeds
  {
    PutKeepsGood(w, a, Base(w).(step := step), owner);
    PutKeepsGood(w, a, Base(w).(status := status), owner);
  }

  lemma ResolveKeepsGood(w: World, a: Answers, owner: Owner)
    requires Good(w, owner)
    ensures Good(Resolve(w, a), owner)
  {
    var r, u := w.runner, WalletOf(w.runner.goal);
    if r.cachedWallet.None? && u.Some? {
      var w' := w.(runner := r.(cachedWallet := u, pc := AfterResolving(r)));
      assert Good(w', owner);
      PutKeepsGood(w', a, Base(w).(resolvedWallet := Some(Printed(u.value))), owner);
    }
  }

  lemma WorkKeepsGood(w: World, a: Answers, stage: Stage, owner: Owner)
    requires Good(w, owner)
    ensures Good(Work(w, a, stage), owner)
  {
    hide ResolveSwapToken, IsAddress, Lower, GoodDeeds, GoodPending, GoodGoal;
    ResolvedIsAddress(a.tokenIn, w.runner.goal.chain);
    ResolvedIsAddress(a.tokenOut, w.runner.goal.chain);
  }

  lemma PostKeepsGood(w: World, a: Answers, call: Call, attempt: Attempt, owner: Owner)
    requires Good(w, owner) && w.runner.pc == Posting(call, attempt)
    ensures Good(Post(w, a, call, attempt), owner)
  {
    hide TwoAddresses, GoodDeeds, GoodPending;
    var r := w.runner;
    if r.cachedWallet.Some? {
      if a.reached {
        DeedKeepsGood(w, Request(call, r.cachedWallet.value, r.goal.owner.goalId), Posted(call, attempt), owner);
      } else {
        MoveKeepsGood(w, if attempt < MAX_POSTS then Posting(call, attempt + 1) else AfterFailure(call), owner);
      }
    }
  }

  lemma ConcludeKeepsGood(w: World, a: Answers, call: Call, attempt: Attempt, owner: Owner)
    requires Good(w, owner) && w.runner.pc == Posted(call, attempt)
    ensures Good(Conclude(w, a, call, attempt), owner)
  {
    hide Good, Positive;
    PcIsGood(w, owner);
    if a.reply == Answered && a.txOk && call.BuyCall? {
      AddressIsNamed(call.tokenIn, call.token);
      SettledKeepsGood(w, call.token, a.quote, owner);
    } else {
      MoveKeepsGood(w, Conclude(w, a, call, attempt).runner.pc, owner);
    }
  }

  lemma AddressIsNamed(x: string, t: string)
    requires TwoAddresses(x, t)
    ensures t != ""
  {
  }

  lemma SettledKeepsGood(w: World, token: string, quote: Option<string>, owner: Owner)
    requires Good(w, owner) && token != ""
    requires |w.deeds| > 0 && w.deeds[|w.deeds| - 1].Buy? && w.deeds[|w.deeds| - 1].token == token
    ensures Good(Goto(Did(w, Hold(token, Positive(quote))), Recording(token, Positive(quote))), owner)
  {
    DeedKeepsGood(w, Hold(token, Positive(quote)), Recording(token, Positive(quote)), owner);
  }

  lemma RecordKeepsGood(w: World, a: Answers, t: string, held: Option<string>, owner: Owner)
    requires Good(w, owner) && w.runner.pc == Recording(t, held)
    ensures Good(Goto(Put(w, a, Base(w).(token := Some(t), held := held)), Bought(t, held)), owner)
  {
    PutKeepsGood(w, a, Base(w).(token := Some(t), held := held), owner);
    MoveKeepsGood(Put(w, a, Base(w).(token := Some(t), held := held)), Bought(t, held), owner);
  }

  lemma LeaveKeepsGood(w: World, a: Answers, resumed: bool, t: string, held: Option<string>, owner: Owner)
    requires Good(w, owner) && w.runner.pc == Leaving(resumed, t, held)
    ensures Good(Leave(w, a, resumed, t, held), owner)
  {
    hide Good, SetStep, Positive, KnownTokenAddress, Goto;
    PcIsGood(w, owner);
    SetKeepsGood(w, a, Exiting, Failing, owner);
    if held.Some? {
      var call := SellCall(resumed, t, held.value, if resumed then "0" else a.minOut);
      SetKeepsGood(w, a, Exiting, Posting(call, 1), owner);
    }
  }

  /** Writing a step and moving on; `FieldsKeepGood` with the move. */
  lemma SetKeepsGood(w: World, a: Answers, step: StepName, pc: Pc, owner: Owner)
    requires Good(w, owner) && GoodPc(pc, w.deeds)
    ensures Good(Goto(SetStep(w, a, step), pc), owner)
  {
    FieldsKeepGood(w, a, step, Failed, owner);
    MoveKeepsGood(SetStep(w, a, step), pc, owner);
  }

  lemma EndKeepsGood(w: World, a: Answers, status: Status, pc: Pc, owner: Owner)
    requires Good(w, owner) && (pc.Dead? || pc.Head?)
    ensures Good(Goto(SetStatus(w, a, status), pc), owner)
  {
    FieldsKeepGood(w, a, Exiting, status, owner);
    MoveKeepsGood(SetStatus(w, a, status), pc, owner);
  }

  lemma EnterResumedKeepsGood(w: World, a: Answers, owner: Owner)
    requires Good(w, owner)
    ensures Good(EnterResumed(w, a), owner)
  {
    var g, w' := w.runner.goal, w.(runner := w.runner.(resume := false));
    assert Good(w', owner);
    if Recorded(g) { SetKeepsGood(w', a, Monitoring, Watching(true, g.token.value, g.held), owner); }
    else { SetKeepsGood(w', a, Monitoring, Failing, owner); }
  }

  lemma HeadKeepsGood(w: World, a: Answers, owner: Owner)
    requires Good(w, owner)
    ensures Good(AtHead(w, a), owner)
  {
    hide GoodDeeds, GoodPending;
  }

  lemma GuardKeepsGood(w: World, a: Answers, x: string, y: string, owner: Owner)
    requires Good(w, owner) && w.runner.pc == Guarding(x, y)
    ensures Good(Guard(w, a, x, y), owner)
  {
    hide GoodDeeds, GoodPending, TwoAddresses;
  }

  lemma WatchKeepsGood(w: World, a: Answers, resumed: bool, t: string, held: Option<string>, owner: Owner)
    requires Good(w, owner) && w.runner.pc == Watching(resumed, t, held)
    ensures Good(Watch(w, a, resumed, t, held), owner)
  {
    hide Good;
    PcIsGood(w, owner);
    MoveKeepsGood(w, Watch(w, a, resumed, t, held).runner.pc, owner);
  }

  lemma ChargeKeepsGood(w: World, a: Answers, owner: Owner)
    requires Good(w, owner) && w.runner.pc.Charging?
    ensures Good(Charge(w, a), owner)
  {
    PcIsGood(w, owner);
    MoveKeepsGood(w, Charge(w, a).runner.pc, owner);
  }

  lemma TallyKeepsGood(w: World, a: Answers, owner: Owner)
    requires Good(w, owner)
    ensures Good(Tally(w, a), owner)
    ensures Good(Goto(if a.gain then Put(w, a, Base(w)) else w, Tallying), owner)
  {
    hide SetStatus, GoodDeeds, GoodPending;
    EndKeepsGood(w, a, Completed, Dead, owner);
    EndKeepsGood(w, a, Failed, Dead, owner);
    PutKeepsGood(w, a, Base(w), owner);
    MoveKeepsGood(Put(w, a, Base(w)), Head, owner);
  }

  lemma ActKeepsGood(w: World, a: Answers, owner: Owner)
    requires Good(w, owner)
    ensures Good(Act(w, a), owner)
  {
    hide Good, AtHead, Resolve, EnterResumed, Work, Guard, Post, Conclude, Watch, Leave, Tally,
         SetStep, SetStatus, Put, Goto, TwoAddresses;
    assert GoodPc(w.runner.pc, w.deeds) by { PcIsGood(w, owner); }
    match w.runner.pc {
      case Dead =>
      case Head => HeadKeepsGood(w, a, owner);
      case Resolving => ResolveKeepsGood(w, a, owner);
      case ResumeEntry => EnterResumedKeepsGood(w, a, owner);
      case Entering(stage) => SetKeepsGood(w, a, stage, Working(stage), owner);
      case Working(stage) => WorkKeepsGood(w, a, stage, owner);
      case EnteringExecuting(x, y) => SetKeepsGood(w, a, Executing, Guarding(x, y), owner);
      case Guarding(x, y) => GuardKeepsGood(w, a, x, y, owner);
      case Posting(call, attempt) => PostKeepsGood(w, a, call, attempt, owner);
      case Posted(call, attempt) => ConcludeKeepsGood(w, a, call, attempt, owner);
      case BuyFailing => EndKeepsGood(w, a, Failed, Dead, owner);
      case Recording(token, held) => RecordKeepsGood(w, a, token, held, owner);
      case Bought(token, held) =>
        MoveKeepsGood(w, Head, owner);
        SetKeepsGood(w, a, Monitoring, Watching(false, token, held), owner);
      case Watching(resumed, token, held) => WatchKeepsGood(w, a, resumed, token, held, owner);
      case WatchFailing => EndKeepsGood(w, a, Failed, if w.runner.cancelled then Dead else Head, owner);
      case Finishing => EndKeepsGood(w, a, Completed, Dead, owner);
      case Rotating => SetKeepsGood(w, a, Scouting, Head, owner);
      case Leaving(resumed, token, held) => LeaveKeepsGood(w, a, resumed, token, held, owner);
      case Charging => ChargeKeepsGood(w, a, owner);
      case Sold =>
        MoveKeepsGood(w, Head, owner);
        SetKeepsGood(w, a, Compounding, BookingGain, owner);
      case BookingGain => TallyKeepsGood(w, a, owner);
      case Tallying => TallyKeepsGood(w, a, owner);
      case Failing => EndKeepsGood(w, a, Failed, Dead, owner);
    }
  }

  lemma PcIsGood(w: World, owner: Owner)
    requires Good(w, owner)
    ensures GoodPc(w.runner.pc, w.deeds)
  {
  }

  lemma {:induction false} NextKeepsGood(w: World, e: Event, owner: Owner)
    requires Good(w, owner)
    ensures Good(Next(w, e), owner)
  {
    hide Act, GoodDeeds, Charged;
    if e.Advance? { ActKeepsGood(w, e.a, owner); }
  }

  lemma {:induction false} RunKeepsGood(w: World, es: seq<Event>, owner: Owner)
    requires Good(w, owner)
    ensures Good(Run(w, es), owner)
  {
    if |es| > 0 {
      RunKeepsGood(w, es[..|es| - 1], owner);
      NextKeepsGood(Run(w, es[..|es| - 1]), es[|es| - 1], owner);
    }
  }

  /**
   * Every BUY and SELL of a goal, over all cycles, crashes and boots, is sent from the one wallet it
   * was created with; its exit fees are requested under the goal's own id instead.
   */
  lemma {:induction false} OneWallet(owner: Owner, chain: string, es: seq<Event>, d: Deed)
    requires d in Run(Created(owner, chain), es).deeds && !d.Hold?
    ensures if d.Fee? then d.wallet == owner.goalId else ParseWallet(owner.walletId) == Some(d.wallet)
  {
    RunKeepsGood(Created(owner, chain), es, owner);
  }

  /** A BUY is always between two different addresses. */
  lemma {:induction false} BuysAreBetweenAddresses(owner: Owner, chain: string, es: seq<Event>, d: Deed)
    requires d in Run(Created(owner, chain), es).deeds && d.Buy?
    ensures IsAddress(d.tokenIn) && IsAddress(d.token) && Lower(d.tokenIn) != Lower(d.token)
  {
    RunKeepsGood(Created(owner, chain), es, owner);
  }

  /**
   * Every SELL comes after a BUY of the same token from the same wallet and names the non-empty,
   * non-zero amount settled on straight after that BUY, on the normal and on the resumed path.
   */
  lemma {:induction false} SellsFollowTheirBuy(owner: Owner, chain: string, es: seq<Event>, i: nat)
    requires var deeds := Run(Created(owner, chain), es).deeds; i < |deeds| && deeds[i].Sell?
    ensures var deeds := Run(Created(owner, chain), es).deeds;
            && deeds[i].amount != "" && deeds[i].amount != "0"
            && exists j :: 0 <= j < i - 1 && deeds[j].Buy? && deeds[j].wallet == deeds[i].wallet
                           && deeds[j].token == deeds[i].token
                           && deeds[j + 1] == Hold(deeds[i].token, Some(deeds[i].amount))
  {
    var deeds := Run(Created(owner, chain), es).deeds;
    RunKeepsGood(Created(owner, chain), es, owner);
    assert GoodDeed(deeds[i], deeds[..i], owner);
    var k :| 0 <= k < i && deeds[k] == Hold(deeds[i].token, Some(deeds[i].amount));
    assert GoodDeed(deeds[k], deeds[..k], owner);
    assert GoodDeed(deeds[k - 1], deeds[..k - 1], owner);
    assert deeds[k - 1 + 1] == deeds[k];
  }

  /** Every fee request follows a SELL at once, but for other requests of the fee in between. */
  lemma {:induction false} FeesFollowSells(owner: Owner, chain: string, es: seq<Event>, i: nat)
    requires var deeds := Run(Created(owner, chain), es).deeds; i < |deeds| && deeds[i].Fee?
    ensures var deeds := Run(Created(owner, chain), es).deeds;
            exists j :: 0 <= j < i && deeds[j].Sell? && forall k :: j < k < i ==> deeds[k].Fee?
  {
    hide Run;
    RunKeepsGood(Created(owner, chain), es, owner);
    FeesFollow(Run(Created(owner, chain), es).deeds, owner, i);
  }

  lemma BeforeFee(deeds: seq<Deed>, owner: Owner, i: nat)
    requires GoodDeeds(deeds, owner) && i < |deeds| && deeds[i].Fee?
    ensures i > 0 && (deeds[i - 1].Sell? || deeds[i - 1].Fee?)
  {
    assert GoodDeed(deeds[i], deeds[..i], owner);
    assert i > 0 ==> deeds[..i][i - 1] == deeds[i - 1];
  }

  lemma {:induction false} FeesFollow(deeds: seq<Deed>, owner: Owner, i: nat)
    requires GoodDeeds(deeds, owner) && i < |deeds| && deeds[i].Fee?
    ensures exists j :: 0 <= j < i && deeds[j].Sell? && forall k :: j < k < i ==> deeds[k].Fee?
  {
    hide GoodDeeds;
    BeforeFee(deeds, owner, i);
    if deeds[i - 1].Fee? {
      FeesFollow(deeds, owner, i - 1);
      var j :| 0 <= j < i - 1 && deeds[j].Sell? && forall k :: j < k < i - 1 ==> deeds[k].Fee?;
      assert 0 <= j < i && deeds[j].Sell? && forall k :: j < k < i ==> deeds[k].Fee?;
    } else {
      assert 0 <= i - 1 < i && deeds[i - 1].Sell?;
    }
  }
}
