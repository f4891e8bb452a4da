/** The hourly transaction limiter: one Redis counter per hour, read together with the hour before. */
module Safeguards {
  import opened Wrappers

  const HOUR: nat := 3600
  const TTL: nat := 7200

  function HourBucket(unixSecs: nat): nat {
    unixSecs / HOUR
  }

  /** `saturating_sub(1)`: in hour zero the prior bucket is the current one. */
  function Prior(bucket: nat): nat {
    if bucket == 0 then 0 else bucket - 1
  }

  // -- The store ------------------------------------------------------------

  /** A counter and when it expires, if it has been given a time to live. */
  datatype Entry = Entry(count: nat, expiresAt: Option<nat>)

  type Store = map<nat, Entry>

  predicate Alive(e: Entry, now: nat) {
    e.expiresAt.None? || now < e.expiresAt.value
  }

  /** GET: an expired key reads as missing, a missing one as zero. */
  function Read(s: Store, bucket: nat, now: nat): nat {
    if bucket in s && Alive(s[bucket], now) then s[bucket].count else 0
  }

  /** INCR keeps the time to live of a live key and starts a dead one afresh. */
  function Incr(s: Store, bucket: nat, now: nat): Store {
    if bucket in s && Alive(s[bucket], now) then s[bucket := s[bucket].(count := s[bucket].count + 1)]
    else s[bucket := Entry(1, None)]
  }

  function Expire(s: Store, bucket: nat, now: nat): Store {
    if bucket in s then s[bucket := s[bucket].(expiresAt := Some(now + TTL))] else s
  }

  /** Where a check loses its connection: before, during or after the increment, or at the expiry. */
  datatype Fault = Never | BeforeIncr | IncrUnseen | ExpireLost | ExpireUnseen | ReadLost

  /** Redis deletes what has expired; it is gone for good, even if the clock were to go back. */
  function Live(s: Store, now: nat): Store {
    map b | b in s && Alive(s[b], now) :: s[b]
  }

  /** The store after one check. */
  function Touched(s: Store, now: nat, fault: Fault): Store {
    var b, live := HourBucket(now), Live(s, now);
    match fault
    case BeforeIncr => live
    case IncrUnseen => Incr(live, b, now)
    case ExpireLost => Incr(live, b, now)
    case _ => Expire(Incr(live, b, now), b, now)
  }

  class Limiter {
    var store: Store

    constructor ()
      ensures store == map[]
    {
      store := map[];
    }

    method IncrementAndRead(now: nat, fault: Fault) returns (r: Result<(nat, nat), ()>)
      modifies this
      ensures store == Touched(old(store), now, fault)
      ensures r == if fault == Never
                   then Ok((Read(store, HourBucket(now), now), Read(store, Prior(HourBucket(now)), now)))
                   else Err(())
    {
      var b := HourBucket(now);
      store := Live(store, now);
      if fault == BeforeIncr { return Err(()); }
      store := Incr(store, b, now);
      if fault == IncrUnseen || fault == ExpireLost { return Err(()); }
      store := Expire(store, b, now);
      if fault == ExpireUnseen || fault == ReadLost { return Err(()); }
      r := Ok((Read(store, b, now), Read(store, Prior(b), now)));
    }

    /** No limit configured: nothing is counted. A store error refuses the transaction. */
    method CheckTxRateLimit(maxPerHour: Option<nat>, now: nat, fault: Fault) returns (allowed: bool)
      modifies this
      ensures maxPerHour == None ==> allowed && store == old(store)
      ensures maxPerHour.Some? ==>
                && store == Touched(old(store), now, fault)
                && (allowed <==> fault == Never
                                 && Read(store, HourBucket(now), now) + Read(store, Prior(HourBucket(now)), now)
                                    <= maxPerHour.value)
    {
      if maxPerHour.None? { return true; }
      var counts := IncrementAndRead(now, fault);
      allowed := counts.Ok? && counts.value.0 + counts.value.1 <= maxPerHour.value;
    }
  }

  // -- Runs -----------------------------------------------------------------

  /** One check: its clock reading and its fault. */
  datatype Attempt = Attempt(time: nat, fault: Fault)

  ghost predicate ClockOk(h: seq<Attempt>) {
    forall i, j :: 0 <= i <= j < |h| ==> h[i].time <= h[j].time
  }

  function StoreAfter(h: seq<Attempt>): Store {
    if |h| == 0 then map[] else Touched(StoreAfter(h[..|h| - 1]), h[|h| - 1].time, h[|h| - 1].fault)
  }

  /** Whether the last attempt of a run was let through. */
  predicate Allowed(h: seq<Attempt>, max: nat)
    requires |h| > 0
  {
    var a := h[|h| - 1];
    && a.fault == Never
    && Read(StoreAfter(h), HourBucket(a.time), a.time) + Read(StoreAfter(h), Prior(HourBucket(a.time)), a.time) <= max
  }

  /** Attempts of one hour that reached the counter, accepted or not. */
  function Attempts(h: seq<Attempt>, bucket: nat): nat {
    if |h| == 0 then 0
    else Attempts(h[..|h| - 1], bucket)
         + if HourBucket(h[|h| - 1].time) == bucket && h[|h| - 1].fault != BeforeIncr then 1 else 0
  }

  lemma {:induction false} AttemptsAre(h: seq<Attempt>, bucket: nat)
    ensures Attempts(h, bucket) ==
            |set i | 0 <= i < |h| && h[i].time / 3600 == bucket && h[i].fault != BeforeIncr|
  {
    if |h| > 0 {
      var before, a := h[..|h| - 1], h[|h| - 1];
      assert h == before + [a];
      AttemptsAre(before, bucket);
      AttemptsSnoc(before, a, bucket);
    }
  }

  lemma AttemptsSnoc(h: seq<Attempt>, a: Attempt, bucket: nat)
    ensures |set i | 0 <= i < |h| + 1 && (h + [a])[i].time / 3600 == bucket && (h + [a])[i].fault != BeforeIncr|
            == |set i | 0 <= i < |h| && h[i].time / 3600 == bucket && h[i].fault != BeforeIncr|
               + if a.time / 3600 == bucket && a.fault != BeforeIncr then 1 else 0
  {
    var before := set i | 0 <= i < |h| && h[i].time / 3600 == bucket && h[i].fault != BeforeIncr;
    var all := set i | 0 <= i < |h| + 1 && (h + [a])[i].time / 3600 == bucket && (h + [a])[i].fault != BeforeIncr;
    if a.time / 3600 == bucket && a.fault != BeforeIncr {
      assert all == before + {|h|};
    } else {
      assert all == before;
    }
  }

  /** No clock reading of the run has reached the end of the two hours in which the bucket can be read. */
  ghost predicate Current(h: seq<Attempt>, bucket: nat) {
    forall i :: 0 <= i < |h| ==> h[i].time < bucket * HOUR + TTL
  }

  /** What is stored for a bucket is what was attempted in its hour, to live for that hour and the next. */
  predicate Holds(s: Store, h: seq<Attempt>, bucket: nat) {
    && (bucket in s <==> Attempts(h, bucket) > 0)
    && (bucket in s ==> s[bucket].count == Attempts(h, bucket))
    && (bucket in s && s[bucket].expiresAt.Some? ==> bucket * HOUR + TTL <= s[bucket].expiresAt.value)
  }

  /** The store holds exactly the attempts of every hour that is still current. */
  ghost predicate Faithful(s: Store, h: seq<Attempt>) {
    forall b: nat :: Current(h, b) ==> Holds(s, h, b)
  }

  /** A key whose lifetime was set during its own hour is alive for that hour and the next. */
  lemma TtlCoversTwoHours(e: Entry, bucket: nat, now: nat)
    requires e.expiresAt.Some? ==> bucket * HOUR + TTL <= e.expiresAt.value
    requires HourBucket(now) == bucket || Prior(HourBucket(now)) == bucket
    ensures now < bucket * HOUR + TTL && Alive(e, now)
  {
  }

  lemma TouchKeepsFaithful(s: Store, before: seq<Attempt>, a: Attempt)
    requires Faithful(s, before)
    ensures Faithful(Touched(s, a.time, a.fault), before + [a])
  {
    var h := before + [a];
    assert h[..|before|] == before;
    forall b: nat | Current(h, b)
      ensures Holds(Touched(s, a.time, a.fault), h, b)
    {
      assert h[|before|] == a;
      assert forall i :: 0 <= i < |before| ==> h[i] == before[i];
      assert Current(before, b) && Holds(s, before, b);
      assert b in s ==> Alive(s[b], a.time);
      TouchHolds(s, before, a, b);
    }
  }

  lemma TouchHolds(s: Store, before: seq<Attempt>, a: Attempt, b: nat)
    requires Holds(s, before, b) && (b in s ==> Alive(s[b], a.time))
    ensures Holds(Touched(s, a.time, a.fault), before + [a], b)
  {
    assert (before + [a])[..|before|] == before;
    assert b in Live(s, a.time) <==> b in s;
  }

  lemma {:induction false} StoreIsFaithful(h: seq<Attempt>)
    ensures Faithful(StoreAfter(h), h)
  {
    hide Touched, Faithful;
    if |h| == 0 {
      NothingCounted();
    } else {
      StoreIsFaithful(h[..|h| - 1]);
      TouchKeepsFaithful(StoreAfter(h[..|h| - 1]), h[..|h| - 1], h[|h| - 1]);
      assert h[..|h| - 1] + [h[|h| - 1]] == h;
    }
  }

  lemma NothingCounted()
    ensures Faithful(map[], [])
  {
  }

  /**
   * In every run, as long as the clock has not gone back, no counter expires while a check could
   * still read it as current or prior hour: what is read is what was attempted.
   */
  lemma NeverExpiresWhileReadable(h: seq<Attempt>, bucket: nat, now: nat)
    requires forall i :: 0 <= i < |h| ==> h[i].time <= now
    requires HourBucket(now) == bucket || Prior(HourBucket(now)) == bucket
    ensures Read(StoreAfter(h), bucket, now) == Attempts(h, bucket)
  {
    StoreIsFaithful(h);
    TtlCoversTwoHours(Entry(0, None), bucket, now);
    assert Current(h, bucket);
    assert Holds(StoreAfter(h), h, bucket);
    if bucket in StoreAfter(h) { TtlCoversTwoHours(StoreAfter(h)[bucket], bucket, now); }
  }

  /**
   * The counters with their expiries refine the plain rule: a check is allowed exactly when the
   * attempts of this hour and the last, itself included and refused ones too, number at most `max`.
   */
  lemma AllowedExactlyWhen(h: seq<Attempt>, max: nat)
    requires |h| > 0 && ClockOk(h)
    ensures var a := h[|h| - 1]; var b := a.time / 3600;
            Allowed(h, max) <==> a.fault == Never && Attempts(h, b) + Attempts(h, if b == 0 then 0 else b - 1) <= max
  {
    var a := h[|h| - 1];
    var b := HourBucket(a.time);
    NeverExpiresWhileReadable(h, b, a.time);
    NeverExpiresWhileReadable(h, Prior(b), a.time);
  }

  // -- The bound ------------------------------------------------------------

  /** How many checks of a run were let through with a clock reading in [from, from + 3600). */
  function AllowedIn(h: seq<Attempt>, max: nat, from: nat): nat {
    if |h| == 0 then 0
    else AllowedIn(h[..|h| - 1], max, from)
         + if from <= h[|h| - 1].time < from + 3600 && Allowed(h, max) then 1 else 0
  }

  /** Seen from a moment inside the window, everything allowed in it was counted in two adjacent hours. */
  lemma {:induction false} WindowSpansTwoHours(h: seq<Attempt>, max: nat, from: nat, now: nat)
    requires forall i :: 0 <= i < |h| ==> h[i].time <= now
    requires from <= now < from + HOUR
    ensures AllowedIn(h, max, from) <= Attempts(h, HourBucket(now)) + Attempts(h, Prior(HourBucket(now)))
  {
    if |h| > 0 {
      WindowSpansTwoHours(h[..|h| - 1], max, from, now);
    }
  }

  /** With a non-decreasing clock and whole checks, at most `max` are allowed in any 3600 seconds. */
  lemma {:induction false} AtMostMaxPerWindow(h: seq<Attempt>, max: nat, from: nat)
    requires ClockOk(h)
    ensures AllowedIn(h, max, from) <= max
  {
    if |h| > 0 {
      var a := h[|h| - 1];
      if from <= a.time < from + HOUR && Allowed(h, max) {
        WindowSpansTwoHours(h, max, from, a.time);
        AllowedExactlyWhen(h, max);
      } else {
        AtMostMaxPerWindow(h[..|h| - 1], max, from);
      }
    }
  }

  /** Refused attempts are counted too: `max` attempts in one hour shut out the whole next hour. */
  lemma RefusalsLockOut(h: seq<Attempt>, max: nat)
    requires |h| > 0 && ClockOk(h)
    requires var b := HourBucket(h[|h| - 1].time); b > 0 && Attempts(h[..|h| - 1], b - 1) >= max
    ensures !Allowed(h, max)
  {
    AllowedExactlyWhen(h, max);
  }
}
