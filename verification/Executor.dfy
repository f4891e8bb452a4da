/** The tracker bridge: reporting a run's status changes while polling, and closing a claimed task. */
module Executor {
  import opened Wrappers

  // -- Polling --------------------------------------------------------------

  /** What an event is about: the run as a whole, or one of its steps. */
  datatype Subject = Run | StepOf(id: string)

  datatype Event = Event(subject: Subject, status: string)

  /** One step entry of a reply, None where it is not an object with a text id and status. */
  datatype StepEntry = StepEntry(id: string, status: string)

  /** One poll: the heartbeat has failed, the reply is unusable, or it is run data. */
  datatype Poll =
    | HeartbeatFailed
    | BadReply
    | Data(status: Option<string>, steps: seq<Option<StepEntry>>)

  datatype PollResult = Finished(data: Poll) | PollFailed | StillRunning

  predicate Terminal(status: Option<string>) {
    status in {Some("completed"), Some("failed"), Some("cancelled")}
  }

  /** What the step entries of a reply show, in order; the event type doubles for observations. */
  function StepsShown(steps: seq<Option<StepEntry>>): seq<Event> {
    if |steps| == 0 then []
    else
      StepsShown(steps[..|steps| - 1])
      + match steps[|steps| - 1]
        case Some(e) => [Event(StepOf(e.id), e.status)]
        case None => []
  }

  function RunShown(status: Option<string>): seq<Event> {
    match status case Some(s) => [Event(Run, s)] case None => []
  }

  /** Everything a sequence of polls showed, run status first within each. */
  function Seen(polls: seq<Poll>): seq<Event> {
    if |polls| == 0 then []
    else
      Seen(polls[..|polls| - 1])
      + match polls[|polls| - 1]
        case Data(status, steps) => RunShown(status) + StepsShown(steps)
        case _ => []
  }

  /** The statuses of one subject. */
  function Of(events: seq<Event>, subject: Subject): seq<string> {
    if |events| == 0 then []
    else
      var e := events[|events| - 1];
      Of(events[..|events| - 1], subject) + if e.subject == subject then [e.status] else []
  }

  /** A sequence with immediate repeats removed. */
  function Changes(s: seq<string>): seq<string> {
    if |s| == 0 then []
    else if |s| > 1 && s[|s| - 1] == s[|s| - 2] then Changes(s[..|s| - 1])
    else Changes(s[..|s| - 1]) + [s[|s| - 1]]
  }

  function Last(s: seq<string>): Option<string> {
    if |s| == 0 then None else Some(s[|s| - 1])
  }

  /** The loop's two variables as one: the last status reported for each subject. */
  function LastReported(
      lastRunStatus: Option<string>, stepStatuses: map<string, string>, subject: Subject): Option<string>
  {
    match subject
    case Run => lastRunStatus
    case StepOf(id) => if id in stepStatuses then Some(stepStatuses[id]) else None
  }

  /** For every subject: what was posted is what was seen with repeats removed. */
  ghost predicate Tracked(
      events: seq<Event>, seen: seq<Event>, lastRunStatus: Option<string>, stepStatuses: map<string, string>)
  {
    forall subject :: TracksSubject(events, seen, LastReported(lastRunStatus, stepStatuses, subject), subject)
  }

  ghost predicate TracksSubject(events: seq<Event>, seen: seq<Event>, last: Option<string>, subject: Subject) {
    Of(events, subject) == Changes(Of(seen, subject)) && last == Last(Of(seen, subject))
  }

  /** One more status is a change exactly when it differs from the one before it. */
  lemma ChangesAppend(s: seq<string>, status: string)
    ensures Changes([]) == []
    ensures Changes(s + [status]) == if s != [] && s[|s| - 1] == status then Changes(s) else Changes(s) + [status]
    ensures Changes(s + [status]) == if Last(s) == Some(status) then Changes(s) else Changes(s) + [status]
  {
    assert (s + [status])[..|s|] == s;
  }

  lemma OfAppend(events: seq<Event>, e: Event, subject: Subject)
    ensures Of(events + [e], subject) ==
            if e.subject == subject then Of(events, subject) + [e.status] else Of(events, subject)
  {
    assert (events + [e])[..|events|] == events;
  }

  /** What one more poll shows of the run, and of a step: the statuses of its entries in order. */
  lemma PollShows(polls: seq<Poll>, status: Option<string>, steps: seq<Option<StepEntry>>, id: string)
    ensures var before, after := Seen(polls), Seen(polls + [Data(status, steps)]);
            && Of(after, Run) == Of(before, Run) + (if status.Some? then [status.value] else [])
            && Of(after, StepOf(id)) == Of(before, StepOf(id)) + Of(StepsShown(steps), StepOf(id))
    ensures Seen([]) == [] && Seen(polls + [HeartbeatFailed]) == Seen(polls + [BadReply]) == Seen(polls)
  {
    hide Of, StepsShown;
    assert (polls + [Data(status, steps)])[..|polls|] == polls;
    assert (polls + [HeartbeatFailed])[..|polls|] == polls;
    assert (polls + [BadReply])[..|polls|] == polls;
    var run, shown := RunShown(status), StepsShown(steps);
    OfConcat(Seen(polls), run + shown, Run);
    OfConcat(run, shown, Run);
    OfConcat(Seen(polls), run + shown, StepOf(id));
    OfConcat(run, shown, StepOf(id));
    RunAlone(status, id);
    NoRunAmongSteps(steps);
  }

  lemma RunAlone(status: Option<string>, id: string)
    ensures Of(RunShown(status), Run) == if status.Some? then [status.value] else []
    ensures Of(RunShown(status), StepOf(id)) == []
  {
  }

  lemma {:induction false} NoRunAmongSteps(steps: seq<Option<StepEntry>>)
    ensures Of(StepsShown(steps), Run) == []
  {
    if |steps| > 0 {
      var before, entry := steps[..|steps| - 1], steps[|steps| - 1];
      NoRunAmongSteps(before);
      if entry.Some? {
        OfAppend(StepsShown(before), Event(StepOf(entry.value.id), entry.value.status), Run);
      } else {
        assert StepsShown(before) + [] == StepsShown(before);
      }
    }
  }

  /** An entry of a reply shows a status of its own step and of no other; a malformed one shows nothing. */
  lemma EntryShows(steps: seq<Option<StepEntry>>, entry: Option<StepEntry>, id: string)
    ensures Of(StepsShown([]), StepOf(id)) == []
    ensures Of(StepsShown(steps + [entry]), StepOf(id)) ==
            Of(StepsShown(steps), StepOf(id)) +
            if entry.Some? && entry.value.id == id then [entry.value.status] else []
  {
    assert (steps + [entry])[..|steps|] == steps;
    if entry.Some? {
      OfAppend(StepsShown(steps), Event(StepOf(entry.value.id), entry.value.status), StepOf(id));
    } else {
      assert StepsShown(steps) + [] == StepsShown(steps);
    }
  }

  /** One status seen is posted exactly when it differs from the last one of its subject. */
  lemma Observe(events: seq<Event>, seen: seq<Event>, last: Option<string>, subject: Subject, e: Event)
    requires TracksSubject(events, seen, last, subject)
    ensures e.subject != subject ==> TracksSubject(events, seen + [e], last, subject)
    ensures e.subject != subject ==> TracksSubject(events + [e], seen + [e], last, subject)
    ensures e.subject == subject && last == Some(e.status) ==> TracksSubject(events, seen + [e], last, subject)
    ensures e.subject == subject && last != Some(e.status) ==>
              TracksSubject(events + [e], seen + [e], Some(e.status), subject)
  {
    hide Of, Changes;
    OfAppend(seen, e, subject);
    OfAppend(events, e, subject);
    ChangesAppend(Of(seen, subject), e.status);
  }

  /** Nothing was posted out of turn: for every subject the events are a first part of its changes. */
  ghost predicate Behind(events: seq<Event>, seen: seq<Event>) {
    forall subject :: Of(events, subject) <= Changes(Of(seen, subject))
  }

  lemma {:induction false} OfConcat(a: seq<Event>, b: seq<Event>, subject: Subject)
    ensures Of(a + b, subject) == Of(a, subject) + Of(b, subject)
  {
    if |b| == 0 {
      assert a + b == a;
    } else {
      assert (a + b)[..|a + b| - 1] == a + b[..|b| - 1];
      OfConcat(a, b[..|b| - 1], subject);
    }
  }

  lemma {:induction false} ChangesGrow(s: seq<string>, t: seq<string>)
    ensures Changes(s) <= Changes(s + t)
  {
    if |t| == 0 {
      assert s + t == s;
    } else {
      var before := s + t[..|t| - 1];
      assert s + t == before + [t[|t| - 1]];
      ChangesGrow(s, t[..|t| - 1]);
      ChangesAppend(before, t[|t| - 1]);
    }
  }

  lemma TrackedIsBehind(events: seq<Event>, seen: seq<Event>, more: seq<Event>,
                        lastRunStatus: Option<string>, stepStatuses: map<string, string>)
    requires Tracked(events, seen, lastRunStatus, stepStatuses)
    ensures Behind(events, seen + more)
  {
    hide Of, Changes;
    TrackedMeans(events, seen, lastRunStatus, stepStatuses);
    forall subject ensures Of(events, subject) <= Changes(Of(seen + more, subject)) {
      OfConcat(seen, more, subject);
      ChangesGrow(Of(seen, subject), Of(more, subject));
    }
  }

  lemma {:induction false} ShownSplit(steps: seq<Option<StepEntry>>, k: nat) returns (rest: seq<Event>)
    requires k <= |steps|
    ensures StepsShown(steps) == StepsShown(steps[..k]) + rest
  {
    if k == |steps| {
      assert steps[..k] == steps;
      rest := [];
    } else {
      var before := steps[..|steps| - 1];
      assert before[..k] == steps[..k];
      var r := ShownSplit(before, k);
      rest := r + match steps[|steps| - 1] case Some(e) => [Event(StepOf(e.id), e.status)] case None => [];
    }
  }

  /** Posting one event; the tracker raises at the event after the first `failsAt`. */
  method Post(events: seq<Event>, e: Event, failsAt: Option<nat>) returns (events': seq<Event>, raised: bool)
    ensures raised <==> failsAt == Some(|events|)
    ensures events' == if raised then events else events + [e]
  {
    if failsAt == Some(|events|) { return events, true; }
    return events + [e], false;
  }

  /**
   * Over any number of polls, the events posted for the run and for every step are exactly the
   * statuses seen with repeats removed, and the loop returns data only on a terminal run status. If
   * posting raises, even in the middle of a reply, polling fails and the events are a first part of
   * those statuses for the run and for every step.
   */
  method PollBoilerRun(polls: seq<Poll>, failsAt: Option<nat>)
    returns (result: PollResult, events: seq<Event>, used: nat, raised: bool)
    ensures used <= |polls|
    ensures forall i :: 0 <= i < used - 1 ==>
              polls[i].Data? && polls[i].status !in {Some("completed"), Some("failed"), Some("cancelled")}
    ensures raised ==>
              result == PollFailed && used > 0 && failsAt == Some(|events|) && Behind(events, Seen(polls[..used]))
    ensures !raised ==>
              match result
              case Finished(d) =>
                && used > 0 && d == polls[used - 1] && d.Data?
                && (d.status == Some("completed") || d.status == Some("failed") || d.status == Some("cancelled"))
              case PollFailed => used > 0 && !polls[used - 1].Data?
              case StillRunning =>
                && used == |polls|
                && (used > 0 ==>
                      && polls[used - 1].Data?
                      && polls[used - 1].status !in {Some("completed"), Some("failed"), Some("cancelled")})
    ensures !raised ==> forall subject :: Of(events, subject) == Changes(Of(Seen(polls[..used]), subject))
  {
    hide Changes, Of, Behind;
    NothingSeen();
    var lastRunStatus: Option<string> := None;
    var stepStatuses: map<string, string> := map[];
    events, used, raised := [], 0, false;
    for i := 0 to |polls|
      invariant used == i && !raised
      invariant forall j :: 0 <= j < i ==> polls[j].Data? && !Terminal(polls[j].status)
      invariant Tracked(events, Seen(polls[..i]), lastRunStatus, stepStatuses)
    {
      var p := polls[i];
      used := i + 1;
      assert polls[..i + 1][..i] == polls[..i];
      if !p.Data? {
        assert Seen(polls[..used]) == Seen(polls[..i]);
        TrackedMeans(events, Seen(polls[..used]), lastRunStatus, stepStatuses);
        return PollFailed, events, used, false;
      }
      ghost var seen := Seen(polls[..i]);
      ghost var shown := RunShown(p.status) + StepsShown(p.steps);
      assert Seen(polls[..used]) == seen + shown;
      events, lastRunStatus, raised := ReportRun(events, seen, lastRunStatus, stepStatuses, p.status, failsAt);
      if raised {
        TrackedIsBehind(events, seen, shown, lastRunStatus, stepStatuses);
        return PollFailed, events, used, true;
      }
      seen := seen + RunShown(p.status);
      assert seen + StepsShown(p.steps) == Seen(polls[..used]);
      events, stepStatuses, raised := ReportSteps(events, seen, lastRunStatus, stepStatuses, p.steps, failsAt);
      if raised { return PollFailed, events, used, true; }
      if Terminal(p.status) {
        TrackedMeans(events, Seen(polls[..used]), lastRunStatus, stepStatuses);
        return Finished(p), events, used, false;
      }
    }
    assert polls[..used] == polls;
    TrackedMeans(events, Seen(polls[..used]), lastRunStatus, stepStatuses);
    return StillRunning, events, used, false;
  }

  lemma TrackedMeans(
      events: seq<Event>, seen: seq<Event>, lastRunStatus: Option<string>, stepStatuses: map<string, string>)
    requires Tracked(events, seen, lastRunStatus, stepStatuses)
    ensures forall subject :: Of(events, subject) == Changes(Of(seen, subject))
  {
    forall subject ensures Of(events, subject) == Changes(Of(seen, subject)) {
      assert TracksSubject(events, seen, LastReported(lastRunStatus, stepStatuses, subject), subject);
    }
  }

  lemma NothingSeen()
    ensures Tracked([], Seen([]), None, map[])
  {
  }

  method ReportRun(events: seq<Event>, ghost seen: seq<Event>, lastRunStatus: Option<string>,
                   ghost stepStatuses: map<string, string>, status: Option<string>, failsAt: Option<nat>)
    returns (events': seq<Event>, lastRunStatus': Option<string>, raised: bool)
    requires Tracked(events, seen, lastRunStatus, stepStatuses)
    ensures !raised ==> Tracked(events', seen + RunShown(status), lastRunStatus', stepStatuses)
    ensures raised ==> events' == events && lastRunStatus' == lastRunStatus && failsAt == Some(|events'|)
  {
    hide TracksSubject;
    events', lastRunStatus', raised := events, lastRunStatus, false;
    if status.Some? {
      var e := Event(Run, status.value);
      if status != lastRunStatus {
        events', raised := Post(events, e, failsAt);
        if raised { return; }
        lastRunStatus' := status;
      }
      forall subject
        ensures TracksSubject(events', seen + [e], LastReported(lastRunStatus', stepStatuses, subject), subject)
      {
        Observe(events, seen, LastReported(lastRunStatus, stepStatuses, subject), subject, e);
      }
    } else {
      assert seen + [] == seen;
    }
  }

  method ReportSteps(events: seq<Event>, ghost seen: seq<Event>, ghost lastRunStatus: Option<string>,
                     stepStatuses: map<string, string>, steps: seq<Option<StepEntry>>, failsAt: Option<nat>)
    returns (events': seq<Event>, stepStatuses': map<string, string>, raised: bool)
    requires Tracked(events, seen, lastRunStatus, stepStatuses)
    ensures !raised ==> Tracked(events', seen + StepsShown(steps), lastRunStatus, stepStatuses')
    ensures raised ==> Behind(events', seen + StepsShown(steps)) && failsAt == Some(|events'|)
  {
    hide TracksSubject, Behind;
    events', stepStatuses', raised := events, stepStatuses, false;
    assert seen + [] == seen;
    for k := 0 to |steps|
      invariant !raised && Tracked(events', seen + StepsShown(steps[..k]), lastRunStatus, stepStatuses')
    {
      assert steps[..k + 1][..k] == steps[..k];
      if steps[k].Some? {
        var e := Event(StepOf(steps[k].value.id), steps[k].value.status);
        ghost var before, shown, prev := events', seen + StepsShown(steps[..k]), stepStatuses';
        if LastReported(None, stepStatuses', e.subject) != Some(e.status) {
          stepStatuses' := stepStatuses'[e.subject.id := e.status];
          events', raised := Post(events', e, failsAt);
          if raised {
            var rest := ShownSplit(steps, k);
            assert shown + rest == seen + StepsShown(steps);
            TrackedIsBehind(before, shown, rest, lastRunStatus, prev);
            return;
          }
        }
        forall subject
          ensures TracksSubject(events', shown + [e], LastReported(lastRunStatus, stepStatuses', subject), subject)
        {
          Observe(before, shown, LastReported(lastRunStatus, prev, subject), subject, e);
        }
        assert shown + [e] == seen + StepsShown(steps[..k + 1]);
      } else {
        assert StepsShown(steps[..k + 1]) == StepsShown(steps[..k]);
      }
    }
    assert steps[..|steps|] == steps;
  }

  // -- Closing a claim ------------------------------------------------------

  /** A call to the tracker or the file system: done, turned down, or an exception. */
  datatype Call = Accepted | Rejected | Raised

  /** The replies of one claim, in the order the calls are made. */
  datatype Claim = Claim(
    claimed: Call, createRun: Call, started: Call, poll: PollResult, report: Call, artifact: Call, finished: Call,
    trigger: Call, hasTrigger: bool, transition: Call, fail: Call)

  /** A claim returns, lets an exception escape, or polls on. */
  datatype Ending = Returned | Escaped | PollingOn

  /** What a claim leaves behind. */
  class Tracker {
    var heartbeat: bool
    var transitions: nat  // accepted
    var failReports: nat

    constructor ()
      ensures !heartbeat && transitions == 0 && failReports == 0
    {
      heartbeat, transitions, failReports := false, 0, 0;
    }

    /** Reports a failure; a refusal is only logged, an exception escapes. */
    method Fail(reply: Call) returns (ending: Ending)
      modifies this
      ensures transitions == old(transitions) && heartbeat == old(heartbeat)
      ensures ending == if reply == Raised then Escaped else Returned
      ensures failReports == old(failReports) + if reply == Raised then 0 else 1
    {
      if reply == Raised { return Escaped; }
      failReports := failReports + 1;
      ending := Returned;
    }

    /** The calls whose exceptions nothing catches, once the heartbeat runs. */
    static predicate RaisesUncaught(c: Claim) {
      || (c.createRun != Accepted && c.fail == Raised)
      || (c.createRun == Accepted
          && (|| c.started == Raised
              || (c.poll.PollFailed? && c.fail == Raised)
              || (c.poll.Finished? &&
                  (|| c.report == Raised || c.artifact == Raised || c.finished == Raised
                   || (Completed(c.poll)
                       && (|| c.trigger == Raised
                           || (c.trigger == Accepted && c.hasTrigger && c.transition == Raised)
                           || (!(c.trigger == Accepted && c.hasTrigger && c.transition == Accepted)
                               && c.fail == Raised)))
                   || (!Completed(c.poll) && c.fail == Raised)))))
    }

    static predicate Completed(r: PollResult) {
      r.Finished? && r.data.Data? && r.data.status == Some("completed")
    }

    /**
     * A claim that returns has stopped its heartbeat and closed its task in exactly one way. It polls
     * on exactly when its run never ends, and lets an exception escape exactly when an uncaught call
     * raises; in both cases the heartbeat, once started, is still running and nothing is closed.
     */
    method ProcessClaim(c: Claim) returns (ending: Ending)
      requires !heartbeat && transitions == 0 && failReports == 0
      modifies this
      ensures ending == Returned ==> !heartbeat && transitions + failReports == 1
      ensures ending == Escaped <==> c.claimed == Raised || RaisesUncaught(c)
      ensures ending == PollingOn <==>
                c.claimed != Raised && c.createRun == Accepted && c.started != Raised && c.poll == StillRunning
      ensures ending != Returned ==> heartbeat == (c.claimed != Raised) && failReports == 0 && transitions == 0
      ensures ending == Returned <==> transitions + failReports == 1
      ensures var completed := c.poll.Finished? && c.poll.data.Data? && c.poll.data.status == Some("completed");
              var ran := c.claimed != Raised && c.createRun == Accepted && c.started != Raised;
              var reported := c.report != Raised && c.artifact != Raised && c.finished != Raised;
              && (transitions == 1 <==>
                    && ran && completed && reported
                    && c.trigger == Accepted && c.hasTrigger && c.transition == Accepted)
              && (failReports == 1 <==>
                    && c.fail != Raised && c.claimed != Raised
                    && (|| c.createRun != Accepted
                        || (ran && c.poll.PollFailed?)
                        || (&& ran && c.poll.Finished? && reported
                            && (|| !completed || c.trigger == Rejected
                                || (c.trigger == Accepted && (!c.hasTrigger || c.transition == Rejected))))))
    {
      if c.claimed == Raised { return Escaped; }
      heartbeat := true;
      if c.createRun != Accepted {
        ending := Fail(c.fail);
        if ending == Returned { heartbeat := false; }
        return;
      }
      if c.started == Raised { return Escaped; }
      if c.poll.StillRunning? { return PollingOn; }
      if c.poll.PollFailed? {
        ending := Fail(c.fail);
        if ending == Returned { heartbeat := false; }
        return;
      }
      if c.report == Raised || c.artifact == Raised || c.finished == Raised { return Escaped; }
      if Completed(c.poll) {
        if c.trigger == Raised { return Escaped; }
        if c.trigger != Accepted || !c.hasTrigger {
          ending := Fail(c.fail);
          if ending == Returned { heartbeat := false; }
          return;
        }
        if c.transition == Raised { return Escaped; }
        if c.transition == Accepted {
          transitions := transitions + 1;
          ending := Returned;
        } else {
          ending := Fail(c.fail);
        }
      } else {
        ending := Fail(c.fail);
      }
      if ending == Returned { heartbeat := false; }
    }
  }
}
