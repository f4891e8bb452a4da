/** What the goal machine does not promise: runs that reach the bounds, and runs that sell or buy again. */
module GoalLimits {
  import opened Wrappers
  import opened SwapToken
  import opened GoalMachine
  import opened GoalBuys
  import opened GoalRounds

  const TOKEN := "0x833589fCD6eDb6E08f4c7C32D4f71b54bdA02913"

  /** Everything goes well: the agents agree on a pair, each write lands, and monitoring says to exit. */
  const OK := Answers(false, false, true, true, Proceed, WETH, TOKEN, true, true, Answered, true, None, Some("1"), "0",
                      ExitSignal, true, NextCycle)

  const OWNER := Owner(7, Some(Printed(1)))

  function Start(): World {
    Created(OWNER, "base")
  }

  /** How well the outside behaves: as it likes, with a reliable store, or with no crash or boot besides. */
  datatype Care = Whatever | Steady | Unbroken

  predicate Meets(w: World, e: Event, c: Care) {
    match c
    case Whatever => true
    case Steady => Reliable(w, e)
    case Unbroken => Reliable(w, e) && !e.Crash? && !e.Boot?
  }

  predicate Careful(es: seq<Event>, c: Care) {
    |es| == 0 || (Careful(es[..|es| - 1], c) && Meets(Run(Start(), es[..|es| - 1]), es[|es| - 1], c))
  }

  predicate Leads(es: seq<Event>, c: Care, w: World) {
    Run(Start(), es) == w && Careful(es, c)
  }

  ghost predicate Reachable(w: World, c: Care) {
    exists es :: Leads(es, c, w)
  }

  lemma Then(w: World, e: Event, c: Care)
    requires Reachable(w, c) && Meets(w, e, c)
    ensures Reachable(Next(w, e), c)
  {
    hide Meets, Next;
    var es :| Leads(es, c, w);
    assert (es + [e])[..|es|] == es;
    assert Leads(es + [e], c, Next(w, e));
  }

  predicate Plain(g: Goal) {
    g.owner == OWNER && g.chain == "base" && (g.resolvedWallet.None? || g.resolvedWallet == OWNER.walletId)
  }

  predicate Fine(w: World) {
    && Plain(w.record) && Plain(w.runner.goal) && w.record.status == Running
    && NothingStale(w) && !w.runner.cancelled && !w.runner.resume && NamesToken(w.runner.pc)
    && (|| w.runner.cachedWallet == Some(1)
        || (w.runner.cachedWallet.None? && (w.runner.pc.Head? || w.runner.pc.Resolving?)))
  }

  /** Where a step goes when everything goes well. */
  function OkNext(pc: Pc, g: Goal): Pc {
    match pc
    case Head => Resolving
    case Resolving => Entering(Scouting)
    case Entering(stage) => Working(stage)
    case Working(stage) =>
      if stage == Scouting then Entering(Risk)
      else if stage == Risk then Entering(Trading)
      else EnteringExecuting(WETH, TOKEN)
    case EnteringExecuting(x, t) => Guarding(x, t)
    case Guarding(x, t) => if Recorded(g) then Bought(g.token.value, g.held) else Posting(BuyCall(x, t), 1)
    case Posting(call, attempt) => Posted(call, attempt)
    case Posted(call, _) =>
      (match call
       case BuyCall(_, t) => Recording(t, Some("1"))
       case SellCall(resumed, _, _, _) => if resumed then Head else Charging
       case FeeCall(_) => Sold)
    case Recording(t, held) => Bought(t, held)
    case Bought(t, held) => Watching(false, t, held)
    case Watching(resumed, t, held) => Leaving(resumed, t, held)
    case Leaving(resumed, t, held) => if held.Some? then Posting(SellCall(resumed, t, held.value, "0"), 1) else Failing
    case Charging => Sold
    case Sold => BookingGain
    case BookingGain => Tallying
    case Tallying => Head
    case _ => Dead
  }

  predicate OnThePath(pc: Pc) {
    !pc.Dead? && !pc.BuyFailing? && !pc.WatchFailing? && !pc.Finishing? && !pc.Rotating? && !pc.Failing?
    && !pc.ResumeEntry? && (pc.Leaving? ==> !pc.resumed && pc.held.Some?)
  }

  lemma Untrimmed(s: string)
    requires s != "" && !IsSpace(s[0]) && !IsSpace(s[|s| - 1])
    ensures Trim(s) == s
  {
  }

  lemma LowerDiffers(s: string, t: string, i: nat)
    requires i < |s| && i < |t| && '0' <= s[i] < 'A' && '0' <= t[i] < 'A' && s[i] != t[i]
    ensures Lower(s) != Lower(t)
  {
    assert Lower(s)[i] == s[i] && Lower(t)[i] == t[i];
  }

  lemma AddressResolves(s: string, chain: string)
    requires IsAddress(s) && !IsSpace(s[41])
    ensures ResolveSwapToken(s, chain) == Some(s)
  {
    Untrimmed(s);
  }

  lemma PairResolves(x: string, t: string, a: Answers, chain: string)
    requires a.tokenIn == x && a.tokenOut == t && IsAddress(x) && IsAddress(t)
    requires !IsSpace(x[41]) && !IsSpace(t[41]) && '0' <= x[2] < 'A' && '0' <= t[2] < 'A' && x[2] != t[2]
    ensures TokenPair(a, chain) == Some((x, t))
  {
    hide ResolveSwapToken, Lower;
    AddressResolves(x, chain);
    AddressResolves(t, chain);
    LowerDiffers(x, t, 2);
  }

  lemma LiteralAddresses()
    ensures IsAddress(WETH) && WETH[2] == '4' && WETH[41] == '6'
    ensures IsAddress(TOKEN) && TOKEN[2] == '8' && TOKEN[41] == '3'
  {
    assert |WETH| == 42 && WETH[0] == '0' && WETH[1] == 'x';
    assert |TOKEN| == 42 && TOKEN[0] == '0' && TOKEN[1] == 'x';
  }

  lemma OkPairResolves()
    ensures TokenPair(OK, "base") == Some((WETH, TOKEN))
  {
    hide TokenPair, IsAddress;
    LiteralAddresses();
    PairResolves(WETH, TOKEN, OK, "base");
  }

  lemma WethIsKnown()
    ensures KnownTokenAddress("WETH", "base").Some?
  {
    Untrimmed("WETH");
    assert Lower("base") == "base" && Upper("WETH") == "WETH";
    hide Trim, Lower, Upper;
  }

  /** What a step does when everything goes well. */
  predicate GoesWell(w: World, w': World) {
    var pc, d := w.runner.pc, DeedOf(w, Advance(OK));
    && Fine(w') && w'.runner.pc == OkNext(pc, w.record) && w'.faults == w.faults
    && w'.deeds == (if d.Some? then w.deeds + [d.value] else w.deeds)
    && (pc.EnteringExecuting? ==> w'.record.step == Executing)
    && (pc.Guarding? || PostingBuy(pc) ==> w'.record.step == w.record.step)
    && (if pc.Recording? then w'.record.token == Some(pc.token) && w'.record.held == pc.held
        else w'.record.token == w.record.token && w'.record.held == w.record.held)
  }

  lemma OkLands(w: World)
    requires Fine(w) && OnThePath(w.runner.pc)
    ensures GoesWell(w, Next(w, Advance(OK)))
  {
    hide Next, GoesWell;
    var pc := w.runner.pc;
    if pc.Posting? || pc.Posted? || pc.Charging? { OkCall(w); }
    else if pc.Working? || pc.Leaving? { OkChoice(w); }
    else { OkWrite(w); }
  }

  lemma OkCall(w: World)
    requires Fine(w) && (w.runner.pc.Posting? || w.runner.pc.Posted? || w.runner.pc.Charging?)
    ensures GoesWell(w, Next(w, Advance(OK)))
  {
    hide AtHead, Resolve, EnterResumed, Work, Guard, Watch, Leave, Tally, SetStep, SetStatus;
  }

  lemma OkChoice(w: World)
    requires Fine(w) && OnThePath(w.runner.pc) && (w.runner.pc.Working? || w.runner.pc.Leaving?)
    ensures GoesWell(w, Next(w, Advance(OK)))
  {
    hide AtHead, Resolve, EnterResumed, Guard, Watch, Post, Conclude, Charge, Tally, SetStatus,
         TokenPair, KnownTokenAddress;
    OkPairResolves();
    WethIsKnown();
  }

  lemma OkWrite(w: World)
    requires Fine(w) && OnThePath(w.runner.pc)
    requires var pc := w.runner.pc; !pc.Posting? && !pc.Posted? && !pc.Charging? && !pc.Working? && !pc.Leaving?
    ensures GoesWell(w, Next(w, Advance(OK)))
  {
    hide EnterResumed, Work, Leave, Post, Conclude, Charge, SetStatus;
  }

  lemma OkStep(w: World, c: Care)
    requires Reachable(w, c) && Fine(w) && OnThePath(w.runner.pc)
    ensures Reachable(Next(w, Advance(OK)), c) && GoesWell(w, Next(w, Advance(OK)))
  {
    hide Next, Reachable, GoesWell;
    OkLands(w);
    Then(w, Advance(OK), c);
  }

  predicate PostingSell(pc: Pc) {
    pc.Posting? && pc.call.SellCall?
  }

  predicate ReadyToBuy(w: World, buys: nat, faults: Faults) {
    && Fine(w) && w.runner.pc.Head? && !Recorded(w.record)
    && Buys(w.deeds) == buys && w.faults == faults
  }

  /** The same position and faults, and so many BUYs and SELLs more. */
  predicate Follows(w: World, w': World, buys: nat, sells: nat) {
    && w'.faults == w.faults && w'.record.token == w.record.token && w'.record.held == w.record.held
    && Buys(w'.deeds) == Buys(w.deeds) + buys && Sells(w'.deeds) == Sells(w.deeds) + sells
  }

  lemma OkMove(w: World, pc: Pc, c: Care) returns (w': World)
    requires Reachable(w, c) && Fine(w) && OnThePath(w.runner.pc) && !w.runner.pc.Recording?
    requires pc == OkNext(w.runner.pc, w.record)
    ensures Reachable(w', c) && Fine(w') && w'.runner.pc == pc
    ensures Follows(w, w', Note(PostingBuy(w.runner.pc)), Note(PostingSell(w.runner.pc)))
    ensures w.runner.pc.EnteringExecuting? ==> w'.record.step == Executing
    ensures w.runner.pc.Guarding? || PostingBuy(w.runner.pc) ==> w'.record.step == w.record.step
  {
    hide Next, Buys, Sells, Reachable, NothingStale, NamesToken;
    w' := Next(w, Advance(OK));
    OkStep(w, c);
    if DeedOf(w, Advance(OK)).Some? {
      OneMore(w.deeds, DeedOf(w, Advance(OK)).value);
      OneMoreSell(w.deeds, DeedOf(w, Advance(OK)).value);
    }
  }

  /** From the loop head to trading. */
  lemma HeadToTrading(w: World, c: Care) returns (w': World)
    requires Reachable(w, c) && Fine(w) && w.runner.pc.Head?
    ensures Reachable(w', c) && Fine(w') && w'.runner.pc == Entering(Trading) && Follows(w, w', 0, 0)
  {
    hide Fine, Buys, Sells, Reachable;
    w' := OkMove(w, Resolving, c);
    w' := OkMove(w', Entering(Scouting), c);
    w' := OkMove(w', Working(Scouting), c);
    w' := OkMove(w', Entering(Risk), c);
    w' := OkMove(w', Working(Risk), c);
    w' := OkMove(w', Entering(Trading), c);
  }

  /** From the loop head to the guard. */
  lemma HeadToGuard(w: World, c: Care) returns (w': World)
    requires Reachable(w, c) && Fine(w) && w.runner.pc.Head?
    ensures Reachable(w', c) && Fine(w') && w'.runner.pc == Guarding(WETH, TOKEN)
    ensures Follows(w, w', 0, 0) && w'.record.step == Executing
  {
    hide Fine, Buys, Sells, Reachable;
    w' := HeadToTrading(w, c);
    w' := OkMove(w', Working(Trading), c);
    w' := OkMove(w', EnteringExecuting(WETH, TOKEN), c);
    w' := OkMove(w', Guarding(WETH, TOKEN), c);
  }

  const THE_BUY := BuyCall(WETH, TOKEN)

  /** From the head to a BUY requested once but not recorded. */
  lemma ToUnrecordedBuy(w: World, buys: nat, faults: Faults, c: Care) returns (w': World)
    requires Reachable(w, c) && ReadyToBuy(w, buys, faults)
    ensures Reachable(w', c) && Fine(w') && w'.runner.pc == Posted(THE_BUY, 1)
    ensures Follows(w, w', 1, 0) && w'.record.step == Executing
  {
    hide Fine, Buys, Sells, Reachable;
    w' := HeadToGuard(w, c);
    w' := OkMove(w', Posting(THE_BUY, 1), c);
    w' := OkMove(w', Posted(THE_BUY, 1), c);
  }

  /** No answer in time, so the BUY is requested again. */
  lemma AskAgain(w: World, c: Care) returns (w': World)
    requires Reachable(w, c) && Fine(w)
    requires w.runner.pc.Posted? && w.runner.pc.call == THE_BUY && w.runner.pc.attempt < MAX_POSTS
    ensures Reachable(w', c) && Fine(w') && w'.runner.pc == Posted(THE_BUY, w.runner.pc.attempt + 1)
    ensures Buys(w'.deeds) == Buys(w.deeds) + 1 && w'.record.token == w.record.token && w'.record.step == w.record.step
    ensures w'.faults == w.faults.(resends := w.faults.resends + 1)
  {
    hide Reachable, Buys, Sells, Fine;
    w' := LateAnswer(w, c);
    w' := OkMove(w', Posted(THE_BUY, w.runner.pc.attempt + 1), c);
  }

  lemma LateAnswer(w: World, c: Care) returns (w': World)
    requires Reachable(w, c) && Fine(w)
    requires w.runner.pc.Posted? && w.runner.pc.call == THE_BUY && w.runner.pc.attempt < MAX_POSTS
    ensures Reachable(w', c) && Fine(w') && w'.runner.pc == Posting(THE_BUY, w.runner.pc.attempt + 1)
    ensures w'.deeds == w.deeds && w'.record == w.record
    ensures w'.faults == w.faults.(resends := w.faults.resends + 1)
  {
    hide Reachable, AtHead, Resolve, EnterResumed, Work, Guard, Watch, Leave, Post, Charge, Tally, SetStep, SetStatus;
    Then(w, Advance(OK.(reply := TimedOut)), c);
    w' := Next(w, Advance(OK.(reply := TimedOut)));
  }

  /** From the head to a BUY requested all three times. */
  lemma ToThirdRequest(w: World, buys: nat, faults: Faults, c: Care) returns (w': World)
    requires Reachable(w, c) && ReadyToBuy(w, buys, faults)
    ensures Reachable(w', c) && Fine(w') && w'.runner.pc == Posted(THE_BUY, 3) && !Recorded(w'.record)
    ensures Buys(w'.deeds) == buys + 3 && w'.record.step == Executing
    ensures w'.faults == faults.(resends := faults.resends + 2)
  {
    hide Fine, Reachable, Buys, Sells;
    w' := ToUnrecordedBuy(w, buys, faults, c);
    w' := AskAgain(w', c);
    w' := AskAgain(w', c);
  }

  /** A crash before the BUY is recorded and a boot put the goal back where it was. */
  lemma CrashAndBoot(w: World, c: Care) returns (w': World)
    requires Reachable(w, c) && Fine(w) && w.runner.pc.Posted? && w.runner.pc.call == THE_BUY
    requires !Recorded(w.record) && w.record.step == Executing && !c.Unbroken?
    ensures Reachable(w', c)
    ensures ReadyToBuy(w', Buys(w.deeds), w.faults.(windowCrashes := w.faults.windowCrashes + 1))
  {
    hide Reachable, Buys;
    Then(w, Crash, c);
    Then(Next(w, Crash), Boot, c);
    w' := Next(Next(w, Crash), Boot);
  }

  /**
   * With a reliable store and timely answers, `n` crashes after a BUY is sent cost `n` BUYs more
   * than one: the bound is reached.
   */
  lemma {:induction false} BoundIsReached(n: nat)
    ensures exists es, w :: Leads(es, Steady, w) && w.faults == Faults(n, 0, 0, 0, 0) && Buys(w.deeds) == n + 1
  {
    hide Fine;
    StartIsReady(Steady);
    var w := Start();
    for i := 0 to n
      invariant Reachable(w, Steady) && ReadyToBuy(w, i, Faults(i, 0, 0, 0, 0))
    {
      w := ToUnrecordedBuy(w, i, Faults(i, 0, 0, 0, 0), Steady);
      w := CrashAndBoot(w, Steady);
    }
    w := ToUnrecordedBuy(w, n, Faults(n, 0, 0, 0, 0), Steady);
  }

  /** With late answers as well, `n` such crashes cost three BUYs each, on top of the first three. */
  lemma {:induction false} LateAnswersReachBound(n: nat)
    ensures exists es, w ::
              Leads(es, Steady, w) && w.faults == Faults(n, 0, 0, 2 * n + 2, 0) && Buys(w.deeds) == 3 * n + 3
  {
    hide Fine;
    StartIsReady(Steady);
    var w := Start();
    for i := 0 to n
      invariant Reachable(w, Steady) && ReadyToBuy(w, 3 * i, Faults(i, 0, 0, 2 * i, 0))
    {
      w := ToThirdRequest(w, 3 * i, Faults(i, 0, 0, 2 * i, 0), Steady);
      w := CrashAndBoot(w, Steady);
    }
    w := ToThirdRequest(w, 3 * n, Faults(n, 0, 0, 2 * n, 0), Steady);
  }

  /** A reliable store and a runner that never crashes: late answers alone make three BUYs of one. */
  lemma ThreeBuysWithoutCrash()
    ensures exists es, w :: Leads(es, Unbroken, w) && w.faults == Faults(0, 0, 0, 2, 0) && Buys(w.deeds) == 3
  {
    hide Fine;
    StartIsReady(Unbroken);
    var w := ToThirdRequest(Start(), 0, NoFaults, Unbroken);
  }

  /** Having bought, at the point where a first round and a later one meet. */
  predicate Holding(w: World, buys: nat, sells: nat) {
    && Fine(w) && w.runner.pc == Bought(TOKEN, Some("1")) && w.record.token == Some(TOKEN) && w.record.held == Some("1")
    && Buys(w.deeds) == buys && Sells(w.deeds) == sells && w.faults == NoFaults
  }

  const THE_SELL := SellCall(false, TOKEN, "1", "0")

  /** From a position to a SELL that went through. */
  lemma ToSold(w: World, c: Care) returns (w': World)
    requires Reachable(w, c) && Fine(w) && w.runner.pc == Bought(TOKEN, Some("1"))
    ensures Reachable(w', c) && Fine(w') && w'.runner.pc.Sold? && Follows(w, w', 0, 1)
  {
    hide Fine, Buys, Sells, Reachable;
    w' := OkMove(w, Watching(false, TOKEN, Some("1")), c);
    w' := OkMove(w', Leaving(false, TOKEN, Some("1")), c);
    w' := OkMove(w', Posting(THE_SELL, 1), c);
    w' := OkMove(w', Posted(THE_SELL, 1), c);
    w' := OkMove(w', Charging, c);
    w' := OkMove(w', Sold, c);
  }

  /** And from there back to the head. */
  lemma SellOff(w: World, c: Care) returns (w': World)
    requires Reachable(w, c) && Fine(w) && w.runner.pc == Bought(TOKEN, Some("1"))
    ensures Reachable(w', c) && Fine(w') && w'.runner.pc.Head? && Follows(w, w', 0, 1)
  {
    hide Fine, Buys, Sells, Reachable;
    w' := ToSold(w, c);
    w' := OkMove(w', BookingGain, c);
    w' := OkMove(w', Tallying, c);
    w' := OkMove(w', Head, c);
  }

  /** And round to the guard, which skips the BUY and holds the same position. */
  lemma SellAndComeRound(w: World, buys: nat, sells: nat, c: Care) returns (w': World)
    requires Reachable(w, c) && Holding(w, buys, sells)
    ensures Reachable(w', c) && Holding(w', buys, sells + 1)
  {
    hide Fine, Buys, Sells, Reachable;
    w' := SellOff(w, c);
    w' := HeadToGuard(w', c);
    w' := OkMove(w', Bought(TOKEN, Some("1")), c);
  }

  /**
   * A recorded token is never cleared, so with no fault, crash or boot at all one BUY can be followed
   * by any number of SELLs.
   */
  lemma {:induction false} SellsAreUnbounded(n: nat)
    ensures exists es, w :: Leads(es, Unbroken, w) && w.faults == NoFaults && Buys(w.deeds) == 1 && Sells(w.deeds) == n
  {
    var w := FirstPosition(Unbroken);
    for i := 0 to n
      invariant Reachable(w, Unbroken) && Holding(w, 1, i)
    {
      w := SellAndComeRound(w, 1, i, Unbroken);
    }
  }

  lemma FirstPosition(c: Care) returns (w: World)
    ensures Reachable(w, c) && Holding(w, 1, 0)
  {
    hide Reachable, Buys, Sells, Next, Fine;
    StartIsReady(c);
    w := ToUnrecordedBuy(Start(), 0, NoFaults, c);
    w := OkMove(w, Recording(TOKEN, Some("1")), c);
    OkStep(w, c);
    w := Next(w, Advance(OK));
  }

  lemma StartIsReady(c: Care)
    ensures Reachable(Start(), c) && ReadyToBuy(Start(), 0, NoFaults) && Sells(Start().deeds) == 0
  {
    assert Leads([], c, Start());
  }

  /** A guard that cannot read the store takes the position for absent and buys again. */
  lemma UnreadGuardBuysTwice()
    ensures exists es, w :: Leads(es, Whatever, w) && w.faults == Faults(0, 0, 1, 0, 0) && Buys(w.deeds) == 2
  {
    var w := AfterBlindGuard();
  }

  lemma AfterBlindGuard() returns (w: World)
    ensures Reachable(w, Whatever) && w.faults == Faults(0, 0, 1, 0, 0) && Buys(w.deeds) == 2
  {
    hide Fine, Buys, Sells, Reachable;
    w := FirstPosition(Whatever);
    w := SellOff(w, Whatever);
    w := HeadToGuard(w, Whatever);
    w := BlindGuard(w);
    w := OkMove(w, Posted(THE_BUY, 1), Whatever);
  }

  lemma BlindGuard(w: World) returns (w': World)
    requires Reachable(w, Whatever) && Fine(w) && w.runner.pc == Guarding(WETH, TOKEN) && Recorded(w.record)
    ensures Reachable(w', Whatever) && Fine(w') && w'.runner.pc == Posting(THE_BUY, 1) && w'.deeds == w.deeds
    ensures w'.faults == w.faults.(unreadGuards := w.faults.unreadGuards + 1)
  {
    hide Reachable;
    Then(w, Advance(OK.(getOk := false)), Whatever);
    w' := Next(w, Advance(OK.(getOk := false)));
  }

  /** A BUY whose record does not reach the store is made again in the next round. */
  lemma LostRecordBuysTwice()
    ensures exists es, w :: Leads(es, Whatever, w) && w.faults == Faults(0, 1, 0, 0, 0) && Buys(w.deeds) == 2
  {
    var w := AfterLostRecord();
  }

  lemma AfterLostRecord() returns (w: World)
    ensures Reachable(w, Whatever) && w.faults == Faults(0, 1, 0, 0, 0) && Buys(w.deeds) == 2
  {
    hide Fine, Buys, Sells, Reachable;
    StartIsReady(Whatever);
    w := ToUnrecordedBuy(Start(), 0, NoFaults, Whatever);
    w := OkMove(w, Recording(TOKEN, Some("1")), Whatever);
    w := LoseRecord(w);
    w := SellOff(w, Whatever);
    w := HeadToGuard(w, Whatever);
    w := OkMove(w, Posting(THE_BUY, 1), Whatever);
    w := OkMove(w, Posted(THE_BUY, 1), Whatever);
  }

  lemma LoseRecord(w: World) returns (w': World)
    requires Reachable(w, Whatever) && Fine(w) && w.runner.pc == Recording(TOKEN, Some("1"))
    ensures Reachable(w', Whatever) && Fine(w') && w'.runner.pc == Bought(TOKEN, Some("1"))
    ensures w'.record == w.record && w'.deeds == w.deeds
    ensures w'.faults == w.faults.(lostRecords := w.faults.lostRecords + 1)
  {
    hide Reachable;
    Then(w, Advance(OK.(saved := false)), Whatever);
    w' := Next(w, Advance(OK.(saved := false)));
  }

  /** A failed BUY ends the goal; an operator who resumes it gets a second one after the next boot. */
  lemma ReopenedGoalBuysAgain()
    ensures exists es, w :: Leads(es, Whatever, w) && w.faults == Faults(0, 0, 0, 0, 1) && Buys(w.deeds) == 2
  {
    hide Fine;
    StartIsReady(Whatever);
    var w := ToUnrecordedBuy(Start(), 0, NoFaults, Whatever);
    w := Reopen(w);
    w := ToUnrecordedBuy(w, 1, Faults(0, 0, 0, 0, 1), Whatever);
  }

  lemma Reopen(w: World) returns (w': World)
    requires Reachable(w, Whatever) && Fine(w) && w.runner.pc == Posted(THE_BUY, 1)
    requires !Recorded(w.record) && w.record.step == Executing && Buys(w.deeds) == 1 && w.faults == NoFaults
    ensures Reachable(w', Whatever) && ReadyToBuy(w', 1, Faults(0, 0, 0, 0, 1))
  {
    hide Reachable, Buys;
    var reverted := Advance(OK.(txOk := false));
    Then(w, reverted, Whatever);
    var w1 := Next(w, reverted);
    Then(w1, Advance(OK), Whatever);
    var w2 := Next(w1, Advance(OK));
    Then(w2, Write(Running), Whatever);
    var w3 := Next(w2, Write(Running));
    Then(w3, Boot, Whatever);
    w' := Next(w3, Boot);
  }

  // -- Reads and writes in two halves ---------------------------------------

  /** The sentinel fails a goal between the two halves of a runner's step update: the failure is undone. */
  lemma StaleStepUndoesFailure(w: World, a: Answers)
    requires w.runner.pc.Entering? && !Terminal(w.record.status) && a.getOk && a.saved
    ensures var w1 := Next(Next(w, ReadsForWrite), Write(Failed));
            Terminal(w1.record.status) && !Terminal(Next(w1, Advance(a)).record.status)
  {
  }

  /** An operator's pause that read before the BUY was recorded and writes after it wipes the token. */
  lemma StalePauseForgetsToken(w: World, a: Answers)
    requires w.runner.pc.Recording? && w.runner.pc.token != "" && !Recorded(w.record) && |w.pending| == 0
    requires w.snapshot.None? && a.getOk && a.saved
    ensures var w1 := Next(Next(w, Begin(Paused)), Advance(a));
            Recorded(w1.record) && !Recorded(Next(w1, Finish(0)).record)
  {
  }
}
