/** The sentinel's tick: it looks at every running goal in monitoring and ends or signals some of them. */
module Sentinel {
  import opened Wrappers
  import opened GoalMachine

  datatype Publish = Published | NotPublished | UncountedSignal // the last two end the tick with an error

  /** A listed goal with what the tick learns of it; `price` is None for NaN, infinity or no answer. */
  datatype Listed = Listed(
    id: nat, copy: Goal, testnet: bool, minutes: nat, price: Option<real>, entryEth: real, pnlPct: real,
    exits: bool, publish: Publish, getOk: bool, saved: bool)

  datatype Judgement = Complete | Fail | Exit | Leave

  /** The entry price worked back from the profit so far; None where it is not a finite positive number. */
  function EntryPrice(price: real, entryEth: real, pnlPct: real): Option<real> {
    if entryEth > 0.0 && pnlPct != 0.0 then
      var growth := 1.0 + pnlPct / 100.0;
      if growth == 0.0 || price / growth <= 0.0 then None else Some(price / growth)
    else if price <= 0.0 then None else Some(price)
  }

  function Judge(g: Listed, timeoutMins: nat): Judgement {
    if g.testnet then (if g.minutes >= timeoutMins then Complete else Leave)
    else if g.price.None? || g.price.value <= 0.0 then Fail
    else if EntryPrice(g.price.value, g.entryEth, g.pnlPct).None? then Fail
    else if g.exits then Exit
    else Leave
  }

  lemma QuotientSign(price: real, growth: real)
    requires price > 0.0 && growth != 0.0
    ensures price / growth <= 0.0 <==> growth < 0.0
  {
    var q := price / growth;
    assert q * growth == price;
  }

  /** Off testnet a goal is failed exactly for want of a positive price, or with its whole stake or more lost. */
  lemma FailsExactlyWhen(g: Listed, timeoutMins: nat)
    ensures Judge(g, timeoutMins) == Fail <==>
            !g.testnet && (g.price.None? || g.price.value <= 0.0 || (g.entryEth > 0.0 && g.pnlPct <= -100.0))
  {
    var growth := 1.0 + g.pnlPct / 100.0;
    if g.price.Some? && g.price.value > 0.0 && growth != 0.0 {
      QuotientSign(g.price.value, growth);
    }
  }

  /**
   * The other verdicts by their conditions: on testnet a goal completes once its time is up and is
   * left alone until then; elsewhere a sound goal exits on a signal and is left alone without one.
   */
  lemma JudgedWhen(g: Listed, timeoutMins: nat)
    ensures var lost := g.price.None? || g.price.value <= 0.0 || (g.entryEth > 0.0 && g.pnlPct <= -100.0);
            && (Judge(g, timeoutMins) == Complete <==> g.testnet && g.minutes >= timeoutMins)
            && (Judge(g, timeoutMins) == Exit <==> !g.testnet && !lost && g.exits)
            && (Judge(g, timeoutMins) == Leave <==> if g.testnet then g.minutes < timeoutMins else !lost && !g.exits)
  {
    hide EntryPrice;
    FailsExactlyWhen(g, timeoutMins);
  }

  /** The listing a tick acts on for an id: the first one in monitoring. */
  function ActedOn(listed: seq<Listed>, id: nat): Option<Listed> {
    if |listed| == 0 then None
    else
      var r, g := ActedOn(listed[..|listed| - 1], id), listed[|listed| - 1];
      if r.None? && g.id == id && g.copy.step == Monitoring then Some(g) else r
  }

  /** What a tick makes of a stored goal: at most its status changes, to what the judgement says. */
  function Treated(stored: Goal, acted: Option<Listed>, timeoutMins: nat): Goal {
    if acted.None? || !acted.value.getOk || !acted.value.saved then stored
    else match Judge(acted.value, timeoutMins)
         case Complete => stored.(status := Completed)
         case Fail => stored.(status := Failed)
         case _ => stored
  }

  /** The goals an exit signal goes out for. */
  function Signalled(listed: seq<Listed>, timeoutMins: nat): seq<nat> {
    if |listed| == 0 then []
    else
      var before, g := listed[..|listed| - 1], listed[|listed| - 1];
      Signalled(before, timeoutMins) +
      if ActedOn(before, g.id).None? && g.copy.step == Monitoring
         && Judge(g, timeoutMins) == Exit && g.publish != NotPublished
      then [g.id] else []
  }

  /** A tick acts on an id at its first listing in monitoring. */
  lemma {:induction false} ActsOnFirst(listed: seq<Listed>, id: nat)
    ensures match ActedOn(listed, id)
            case None => forall i :: 0 <= i < |listed| ==> listed[i].id != id || listed[i].copy.step != Monitoring
            case Some(g) =>
              exists i :: && 0 <= i < |listed| && listed[i] == g && g.id == id && g.copy.step == Monitoring
                          && forall j :: 0 <= j < i ==> listed[j].id != id || listed[j].copy.step != Monitoring
  {
    if |listed| > 0 {
      var last := |listed| - 1;
      ActsOnFirst(listed[..last], id);
      if ActedOn(listed[..last], id).None? {
        assert forall j :: 0 <= j < last ==> listed[..last][j] == listed[j];
      } else {
        var i :| && 0 <= i < last && listed[..last][i] == ActedOn(listed[..last], id).value
                 && forall j :: 0 <= j < i ==>
                      listed[..last][j].id != id || listed[..last][j].copy.step != Monitoring;
        assert forall j :: 0 <= j < i ==> listed[..last][j] == listed[j];
        assert listed[i] == ActedOn(listed, id).value;
      }
    }
  }

  /** What a tick writes: a terminal status for the goals it can read and save, and nothing else. */
  lemma WritesWhen(stored: Goal, g: Listed, timeoutMins: nat)
    ensures Treated(stored, None, timeoutMins) == stored
    ensures var lost := g.price.None? || g.price.value <= 0.0 || (g.entryEth > 0.0 && g.pnlPct <= -100.0);
            Treated(stored, Some(g), timeoutMins) ==
            if !g.getOk || !g.saved then stored
            else if g.testnet then (if g.minutes >= timeoutMins then stored.(status := Completed) else stored)
            else if lost then stored.(status := Failed)
            else stored
  {
    hide Judge;
    FailsExactlyWhen(g, timeoutMins);
    JudgedWhen(g, timeoutMins);
  }

  /** Exits are signalled once, and exactly for sound goals off testnet whose publishing reached the list. */
  lemma {:induction false} SignalsWhen(listed: seq<Listed>, timeoutMins: nat, id: nat)
    ensures id in Signalled(listed, timeoutMins) <==>
            && ActedOn(listed, id).Some?
            && var g := ActedOn(listed, id).value;
               && !g.testnet && g.price.Some? && g.price.value > 0.0 && !(g.entryEth > 0.0 && g.pnlPct <= -100.0)
               && g.exits && g.publish != NotPublished
    ensures var s := Signalled(listed, timeoutMins);
            forall i, j :: 0 <= i < j < |s| ==> s[i] != s[j]
  {
    hide Judge;
    if |listed| > 0 {
      var g := listed[|listed| - 1];
      SignalsWhen(listed[..|listed| - 1], timeoutMins, id);
      SignalsWhen(listed[..|listed| - 1], timeoutMins, g.id);
      JudgedWhen(g, timeoutMins);
    }
  }

  lemma NothingListed(timeoutMins: nat)
    ensures Signalled([], timeoutMins) == [] && forall id :: ActedOn([], id) == None
  {
  }

  /** What one more listing adds; a goal already acted on is skipped. */
  lemma OneMoreListing(listed: seq<Listed>, i: nat, timeoutMins: nat)
    requires i < |listed|
    ensures var g, acts := listed[i], ActedOn(listed[..i], listed[i].id).None? && listed[i].copy.step == Monitoring;
            && (forall id ::
                  ActedOn(listed[..i + 1], id) == if acts && id == g.id then Some(g) else ActedOn(listed[..i], id))
            && Signalled(listed[..i + 1], timeoutMins) == Signalled(listed[..i], timeoutMins) +
               (if acts && Judge(g, timeoutMins) == Exit && g.publish != NotPublished then [g.id] else [])
  {
    hide Judge;
    assert listed[..i + 1][..i] == listed[..i];
  }

  /** Where a tick ends with an error: listing the goals, publishing a signal, or reading the daily count. */
  datatype TickError = NoList | NoPublish | NoStatus

  class Monitor {
    var goals: map<nat, Goal>
    var signals: seq<nat>
    var activeGoals: set<nat>
    var goalsMonitored: nat

    /**
     * However often a goal is listed the tick acts on it once; it rewrites nothing but the status of
     * goals it completes or fails, and signals each exit once. An error ends the tick: before any goal,
     * at the exit that could not be published, or after all goals when the count cannot be read.
     */
    method Tick(running: Option<seq<Listed>>, timeoutMins: nat, countUp: bool)
      returns (error: Option<TickError>, ghost used: nat)
      modifies this
      ensures running.None? ==>
                && error == Some(NoList) && used == 0
                && goals == old(goals) && signals == old(signals) && activeGoals == old(activeGoals)
      ensures running.Some? ==>
                var listed := running.value;
                && used <= |listed| && goals.Keys == old(goals).Keys
                && (forall id :: id in goals ==>
                      goals[id] == Treated(old(goals)[id], ActedOn(listed[..used], id), timeoutMins))
                && signals == old(signals) + Signalled(listed[..used], timeoutMins)
                && match error
                   case None => used == |listed| && countUp
                   case Some(NoStatus) => used == |listed| && !countUp
                   case Some(NoPublish) =>
                     used > 0 && Judge(listed[used - 1], timeoutMins) == Exit && listed[used - 1].publish != Published
                   case Some(NoList) => false
      ensures goalsMonitored == if error == None then |running.value| else old(goalsMonitored)
    {
      if running.None? { return Some(NoList), 0; }
      error, used := TreatAll(running.value, timeoutMins);
      if error == None {
        if countUp { goalsMonitored := |running.value|; } else { error := Some(NoStatus); }
      }
    }

    method TreatAll(listed: seq<Listed>, timeoutMins: nat) returns (error: Option<TickError>, ghost used: nat)
      modifies this
      ensures used <= |listed| && goals.Keys == old(goals).Keys && goalsMonitored == old(goalsMonitored)
      ensures forall id :: id in goals ==>
                goals[id] == Treated(old(goals)[id], ActedOn(listed[..used], id), timeoutMins)
      ensures signals == old(signals) + Signalled(listed[..used], timeoutMins)
      ensures error in {None, Some(NoPublish)} && (error == None ==> used == |listed|)
      ensures error.Some? ==>
                used > 0 && Judge(listed[used - 1], timeoutMins) == Exit && listed[used - 1].publish != Published
    {
      hide Judge, ActedOn, Signalled;
      NothingListed(timeoutMins);
      activeGoals := {};
      error, used := None, 0;
      for i := 0 to |listed|
        invariant used == i && error == None && goalsMonitored == old(goalsMonitored)
        invariant forall id :: id in activeGoals <==> ActedOn(listed[..i], id).Some?
        invariant goals.Keys == old(goals).Keys
        invariant forall id :: id in goals ==>
                    goals[id] == Treated(old(goals)[id], ActedOn(listed[..i], id), timeoutMins)
        invariant signals == old(signals) + Signalled(listed[..i], timeoutMins)
      {
        var g := listed[i];
        used := i + 1;
        OneMoreListing(listed, i, timeoutMins);
        if g.copy.step != Monitoring || g.id in activeGoals { continue; }
        activeGoals := activeGoals + {g.id};
        match Judge(g, timeoutMins) {
          case Complete => End(g, Completed);
          case Fail => End(g, Failed);
          case Exit =>
            if g.publish != NotPublished { signals := signals + [g.id]; }
            if g.publish != Published { return Some(NoPublish), used; }
          case Leave =>
        }
      }
      assert listed[..|listed|] == listed;
    }

    /** Reads the stored goal again and saves it with a terminal status. */
    method End(g: Listed, status: Status)
      modifies this`goals
      ensures goals == if g.id in old(goals) && g.getOk && g.saved
                       then old(goals)[g.id := old(goals)[g.id].(status := status)] else old(goals)
    {
      if g.id in goals && g.getOk && g.saved {
        goals := goals[g.id := goals[g.id].(status := status)];
      }
    }
  }
}
