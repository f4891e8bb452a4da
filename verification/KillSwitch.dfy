/**
 * The kill switch: a flag in memory, a state file that a restart reads back, and the request
 * handlers that check the flag before anything else.
 */
module KillSwitch {
  import opened Wrappers

  // -- The switch itself ----------------------------------------------------

  /** The state file: absent, unreadable, or the flag and time last written. */
  datatype File = Missing | Torn | Written(active: bool, activatedAt: Option<nat>)

  function LoadedFlag(f: File): bool {
    f.Written? && f.active
  }

  function LoadedTime(f: File): Option<nat> {
    if f.Written? then f.activatedAt else None
  }

  /** How writing the file ends; a write that fails midway leaves neither the old text nor the new. */
  datatype WriteEnd = Whole | Untouched | Partial

  function AfterWrite(before: File, end: WriteEnd, active: bool, activatedAt: Option<nat>): File {
    match end
    case Whole => Written(active, activatedAt)
    case Untouched => before
    case Partial => Torn
  }

  class Disk {
    var file: File

    constructor ()
      ensures file == Missing
    {
      file := Missing;
    }
  }

  class Switch {
    const disk: Disk
    var active: bool
    var activatedAt: Option<nat>

    constructor Load(disk: Disk)
      ensures this.disk == disk
      ensures active == LoadedFlag(disk.file) && activatedAt == LoadedTime(disk.file)
      ensures Check() <==> !(disk.file.Written? && disk.file.active)
    {
      this.disk := disk;
      match disk.file {
        case Written(a, t) => active, activatedAt := a, t;
        case _ => active, activatedAt := false, None;
      }
    }

    method Activate(now: nat, end: WriteEnd)
      modifies this, disk
      ensures active && activatedAt == Some(now)
      ensures disk.file == AfterWrite(old(disk.file), end, true, Some(now))
      ensures !Check()
      ensures end.Whole? ==> disk.file.Written? && disk.file.active
      ensures end.Untouched? ==> disk.file == old(disk.file)
      ensures end.Partial? ==> !disk.file.Written?
    {
      active := true;
      activatedAt := Some(now);
      Persist(end);
    }

    method Deactivate(end: WriteEnd)
      modifies this, disk
      ensures !active && activatedAt == None
      ensures disk.file == AfterWrite(old(disk.file), end, false, None)
      ensures Check()
      ensures end.Whole? ==> disk.file.Written? && !disk.file.active
      ensures end.Untouched? ==> disk.file == old(disk.file)
      ensures end.Partial? ==> !disk.file.Written?
    {
      active := false;
      activatedAt := None;
      Persist(end);
    }

    method Persist(end: WriteEnd)
      modifies disk
      ensures disk.file == AfterWrite(old(disk.file), end, active, activatedAt)
    {
      match end {
        case Whole => disk.file := Written(active, activatedAt);
        case Partial => disk.file := Torn;
        case Untouched =>
      }
    }

    /** What every signing handler asks first. */
    predicate Check()
      reads this
    {
      !active
    }
  }

  // -- Commands, restarts and handlers, step by step ------------------------

  /** Storing the flag and writing the file are separate steps of a command. */
  datatype Event =
    | Store(active: bool)
    | Write(active: bool)
    | TearWrite               // a write that fails or is cut off midway
    | Restart                 // also loses every handler in flight
    | Start                   // a signing handler makes its check
    | Broadcasts(handler: nat) // a handler that passed sends a transaction

  /** A handler remembers only whether the check let it through; it dies with its process. */
  datatype State = State(flag: bool, file: File, handlers: seq<bool>, sent: seq<nat>)

  const FreshStart: State := State(false, Missing, [], [])

  function Next(s: State, e: Event): State {
    match e
    case Store(active) => s.(flag := active)
    case Write(active) => s.(file := Written(active, None))
    case TearWrite => s.(file := Torn)
    case Restart => s.(flag := LoadedFlag(s.file), handlers := seq(|s.handlers|, _ => false))
    case Start => s.(handlers := s.handlers + [!s.flag])
    case Broadcasts(h) =>
      if h < |s.handlers| && s.handlers[h] then s.(sent := s.sent + [h]) else s
  }

  function Run(es: seq<Event>): State {
    if |es| == 0 then FreshStart else Next(Run(es[..|es| - 1]), es[|es| - 1])
  }

  /** The last value stored by a command, false before any. */
  function Intended(es: seq<Event>): bool {
    if |es| == 0 then false
    else if es[|es| - 1].Store? then es[|es| - 1].active
    else Intended(es[..|es| - 1])
  }

  /** The handlers started so far; a handler's number is its place in this order. */
  function Started(es: seq<Event>): nat {
    if |es| == 0 then 0
    else Started(es[..|es| - 1]) + if es[|es| - 1].Start? then 1 else 0
  }

  /** The command under way: none, one that has stored its flag, or a sequence out of order. */
  datatype Command = NoCommand | Storing(active: bool) | OutOfOrder

  /**
   * Commands one at a time: between a store and its write there is no other store, write or restart,
   * and no write fails. Handlers start and broadcast whenever they like.
   */
  function CommandAfter(es: seq<Event>): Command {
    if |es| == 0 then NoCommand
    else
      var c := CommandAfter(es[..|es| - 1]);
      match es[|es| - 1]
      case Store(active) => if c.NoCommand? then Storing(active) else OutOfOrder
      case Write(active) => if c == Storing(active) then NoCommand else OutOfOrder
      case TearWrite => OutOfOrder
      case Restart => if c.NoCommand? then NoCommand else OutOfOrder
      case _ => c
  }

  predicate Orderly(es: seq<Event>) {
    !CommandAfter(es).OutOfOrder?
  }

  /** The flag is always the last command's, also while its write is still to come; between commands so is the file. */
  lemma {:induction false} FlagIsIntended(es: seq<Event>)
    requires Orderly(es)
    ensures Run(es).flag == Intended(es)
    ensures match CommandAfter(es)
            case Storing(active) => Intended(es) == active
            case _ => LoadedFlag(Run(es).file) == Intended(es)
    ensures |Run(es).handlers| == Started(es)
  {
    if |es| > 0 {
      FlagIsIntended(es[..|es| - 1]);
    }
  }

  lemma {:induction false} BlockedStaysBlocked(es: seq<Event>, k: nat, h: nat)
    requires k <= |es| && h < |Run(es[..k]).handlers|
    requires !Run(es[..k]).handlers[h]
    ensures h < |Run(es).handlers| && !Run(es).handlers[h]
    ensures forall j :: |Run(es[..k]).sent| <= j < |Run(es).sent| ==> Run(es).sent[j] != h
    ensures Run(es[..k]).sent <= Run(es).sent
  {
    if k == |es| {
      assert es[..k] == es;
    } else {
      assert es[..|es| - 1][..k] == es[..k];
      BlockedStaysBlocked(es[..|es| - 1], k, h);
    }
  }

  lemma {:induction false} SentWasStarted(es: seq<Event>)
    ensures forall j :: 0 <= j < |Run(es).sent| ==> Run(es).sent[j] < |Run(es).handlers|
  {
    if |es| > 0 { SentWasStarted(es[..|es| - 1]); }
  }

  /**
   * In every run with restarts in which up to some moment commands did not overlap and their writes
   * succeeded, a handler that starts then, the last command being an activation, never broadcasts
   * anything, whatever happens later. The activation counts from its store on.
   */
  lemma NoBroadcastAfterActivation(es: seq<Event>, k: nat)
    requires k < |es| && es[k] == Start && Orderly(es[..k])
    requires Intended(es[..k])
    ensures Started(es[..k]) !in Run(es).sent
  {
    var before, h := es[..k], Started(es[..k]);
    FlagIsIntended(before);
    assert es[..k + 1][..k] == before;
    SentWasStarted(before);
    assert Run(es[..k + 1]).sent == Run(before).sent;
    BlockedStaysBlocked(es, k + 1, h);
  }

  /**
   * With orderly commands so far, a handler that starts now and goes on to broadcast does so exactly
   * when the last command was not an activation.
   */
  lemma BroadcastsWhen(es: seq<Event>)
    requires Orderly(es)
    ensures Run(es + [Start] + [Broadcasts(Started(es))]).sent ==
            Run(es).sent + if Intended(es) then [] else [Started(es)]
  {
    FlagIsIntended(es);
    RunSnoc(es, Start);
    RunSnoc(es + [Start], Broadcasts(Started(es)));
  }

  /** The value a restart would read: that of the last whole write, false with none or a torn one. */
  function LastWritten(es: seq<Event>): bool {
    if |es| == 0 then false
    else match es[|es| - 1]
      case Write(active) => active
      case TearWrite => false
      case _ => LastWritten(es[..|es| - 1])
  }

  lemma {:induction false} FileIsLastWritten(es: seq<Event>)
    ensures LoadedFlag(Run(es).file) == LastWritten(es)
  {
    if |es| > 0 { FileIsLastWritten(es[..|es| - 1]); }
  }

  /**
   * Without those assumptions: the first handler after a restart is stopped exactly when the last
   * write, over all commands whatever their overlap, was a whole one of an activation.
   */
  lemma {:induction false} RestartStopsWhen(es: seq<Event>)
    ensures Run(es + [Restart]).flag == LastWritten(es)
    ensures var after := Run(es + [Restart] + [Start]);
            |after.handlers| > 0 && after.handlers[|after.handlers| - 1] == !LastWritten(es)
  {
    FileIsLastWritten(es);
    assert (es + [Restart])[..|es|] == es;
    assert (es + [Restart] + [Start])[..|es| + 1] == es + [Restart];
  }

  lemma RunSnoc(es: seq<Event>, e: Event)
    ensures Run(es + [e]) == Next(Run(es), e)
    ensures Intended(es + [e]) == if e.Store? then e.active else Intended(es)
  {
    assert (es + [e])[..|es|] == es;
  }

  /**
   * Overlapping commands can leave flag and file apart: a deactivation interrupted by an activation
   * writes last, and after the next restart a handler signs although the last command was to stop.
   */
  lemma OverlapLosesActivation()
    ensures var es := [Store(false), Store(true), Write(true), Write(false)];
            && Intended(es) && Run(es).flag
            && Intended(es + [Restart] + [Start])
            && 0 in Run(es + [Restart] + [Start] + [Broadcasts(0)]).sent
  {
    var es := [] + [Store(false)] + [Store(true)] + [Write(true)] + [Write(false)];
    assert es == [Store(false), Store(true), Write(true), Write(false)];
    RunSnoc([], Store(false));
    RunSnoc([] + [Store(false)], Store(true));
    RunSnoc([] + [Store(false)] + [Store(true)], Write(true));
    RunSnoc([] + [Store(false)] + [Store(true)] + [Write(true)], Write(false));
    RunSnoc(es, Restart);
    RunSnoc(es + [Restart], Start);
    RunSnoc(es + [Restart] + [Start], Broadcasts(0));
    assert Run(es + [Restart] + [Start] + [Broadcasts(0)]).sent == [0];
  }
}
