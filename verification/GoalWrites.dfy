/** What each step writes to the stored record, and exactly which steps take away a token or an end. */
module GoalWrites {
  import opened Wrappers
  import opened GoalMachine

  /** The steps that write the record they have read. */
  predicate Writes(w: World, a: Answers) {
    match w.runner.pc
    case Resolving =>
      w.runner.cachedWallet.None? && WalletOf(w.runner.goal).Some? && w.runner.goal.resolvedWallet.None?
    case ResumeEntry => true
    case Entering(_) => true
    case EnteringExecuting(_, _) => true
    case BuyFailing => true
    case Recording(_, _) => true
    case Bought(_, _) => !w.runner.cancelled
    case WatchFailing => true
    case Finishing => true
    case Rotating => true
    case Leaving(_, _, _) => true
    case Sold => !w.runner.cancelled
    case BookingGain => a.gain
    case Tallying => true
    case Failing => true
    case _ => false
  }

  /** The terminal status a step writes, if it writes one. */
  function EndOf(pc: Pc, a: Answers): Option<Status> {
    match pc
    case BuyFailing => Some(Failed)
    case WatchFailing => Some(Failed)
    case Failing => Some(Failed)
    case Finishing => Some(Completed)
    case Tallying =>
      (match a.verdict
       case TargetReached => Some(Completed)
       case StopLoss => Some(Failed)
       case NextCycle => None)
    case _ => None
  }

  predicate Reaches(w: World, a: Answers) {
    a.getOk && a.saved && Writes(w, a)
  }

  /** The status and token a runner step leaves in the store. */
  predicate Leaves(w: World, a: Answers, g: Goal) {
    if !Reaches(w, a) then g == w.record
    else
      && g.status == (match EndOf(w.runner.pc, a) case Some(s) => s case None => Base(w).status)
      && g.token == (if w.runner.pc.Recording? then Some(w.runner.pc.token) else Base(w).token)
  }

  predicate OnlyReads(pc: Pc) {
    pc.Dead? || pc.Head? || pc.Working? || pc.Guarding? || pc.Posting? || pc.Posted? || pc.Watching? || pc.Charging?
  }

  lemma ActLeaves(w: World, a: Answers)
    ensures var w' := Act(w, a); w'.pending == w.pending && Leaves(w, a, w'.record)
  {
    hide Act, Leaves;
    if OnlyReads(w.runner.pc) { ReaderLeaves(w, a); } else { WriterLeaves(w, a); }
  }

  lemma ReaderLeaves(w: World, a: Answers)
    requires OnlyReads(w.runner.pc)
    ensures var w' := Act(w, a); w'.pending == w.pending && Leaves(w, a, w'.record)
  {
    hide AtHead, Resolve, EnterResumed, Work, Guard, Post, Conclude, Watch, Leave, Charge, Tally, SetStep, SetStatus;
    ReadsLeave(w, a);
  }

  lemma WriterLeaves(w: World, a: Answers)
    requires !OnlyReads(w.runner.pc)
    ensures var w' := Act(w, a); w'.pending == w.pending && Leaves(w, a, w'.record)
  {
    hide AtHead, Resolve, EnterResumed, Work, Guard, Post, Conclude, Watch, Leave, Charge, Tally, SetStep, SetStatus;
    SettersLeave(w, a);
    PartsLeave(w, a);
    EntriesLeave(w, a);
  }

  /** The copy read is written back with a status; the token comes from the copy. */
  predicate Overwritten(w: World, a: Answers, w': World, status: Status) {
    && w'.pending == w.pending
    && w'.record.status == (if a.getOk && a.saved then status else w.record.status)
    && w'.record.token == (if a.getOk && a.saved then Base(w).token else w.record.token)
    && (!(a.getOk && a.saved) ==> w'.record == w.record)
  }

  lemma SettersLeave(w: World, a: Answers)
    ensures forall s :: Overwritten(w, a, SetStep(w, a, s), Base(w).status)
    ensures forall s :: Overwritten(w, a, SetStatus(w, a, s), s)
  {
  }

  lemma PartsLeave(w: World, a: Answers)
    ensures w.runner.pc.Resolving? ==> Resolve(w, a).pending == w.pending && Leaves(w, a, Resolve(w, a).record)
    ensures w.runner.pc.Tallying? ==> Tally(w, a).pending == w.pending && Leaves(w, a, Tally(w, a).record)
  {
    hide WalletOf;
  }

  lemma EntriesLeave(w: World, a: Answers)
    ensures Overwritten(w, a, EnterResumed(w, a), Base(w).status)
    ensures forall r, t, h :: Overwritten(w, a, Leave(w, a, r, t, h), Base(w).status)
  {
    hide Positive;
  }

  /** Reading, deciding and requesting leave the store alone. */
  lemma ReadsLeave(w: World, a: Answers)
    ensures AtHead(w, a).record == Charge(w, a).record == w.record
    ensures AtHead(w, a).pending == Charge(w, a).pending == w.pending
    ensures forall s :: Work(w, a, s).record == w.record && Work(w, a, s).pending == w.pending
    ensures forall x, y :: Guard(w, a, x, y).record == w.record && Guard(w, a, x, y).pending == w.pending
    ensures forall c, k :: Post(w, a, c, k).record == w.record && Post(w, a, c, k).pending == w.pending
    ensures forall c, k :: Conclude(w, a, c, k).record == w.record && Conclude(w, a, c, k).pending == w.pending
    ensures forall r, t, h :: Watch(w, a, r, t, h).record == w.record && Watch(w, a, r, t, h).pending == w.pending
  {
    hide TokenPair, Positive;
  }

  /**
   * A step takes a goal out of a terminal status exactly when an operator's pause or resume writes
   * over it, a writer finishes with a copy read before the end, or the runner writes anything but an
   * end from such a copy.
   */
  lemma {:induction false} LosesEndWhen(w: World, e: Event)
    requires Terminal(w.record.status)
    ensures !Terminal(Next(w, e).record.status) <==>
            match e
            case Write(s) => s == Running || s == Paused
            case Finish(i) => i < |w.pending| && !Terminal(w.pending[i].status)
            case Advance(a) => Reaches(w, a) && EndOf(w.runner.pc, a).None? && !Terminal(Base(w).status)
            case _ => false
  {
    hide Act, Charged;
    if e.Advance? { ActLeaves(w, e.a); }
  }

  /** A step takes a recorded token away exactly when it writes a copy read before the record. */
  lemma {:induction false} LosesTokenWhen(w: World, e: Event)
    requires Recorded(w.record)
    ensures !Recorded(Next(w, e).record) <==>
            match e
            case Finish(i) => i < |w.pending| && !Recorded(w.pending[i])
            case Advance(a) =>
              Reaches(w, a) && if w.runner.pc.Recording? then w.runner.pc.token == "" else !Recorded(Base(w))
            case _ => false
  {
    hide Act, Charged;
    if e.Advance? { ActLeaves(w, e.a); }
  }
}
