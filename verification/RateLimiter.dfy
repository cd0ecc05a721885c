/**
  The sliding-window rate limiter, and why a truncated, evicted and purged deque gives the same
  verdicts as counting over every attempt ever made.

  Seconds are reals, read from one monotone clock. A caller is a (scope, caller) pair and keeps
  one window width for its whole life, as every call site does.
*/
module RateLimiter {

  const MAX_TIMESTAMPS_PER_CALLER: nat := 128

  type Caller = (string, string)

  datatype Verdict = Admitted | Refused(retryAfter: real)

  // ---------------------------------------------------------------- what one check does

  /** Drops the entries at the front that are no later than the cutoff. */
  function Evict(stamps: seq<real>, cutoff: real): seq<real> {
    if stamps != [] && stamps[0] <= cutoff then Evict(stamps[1..], cutoff) else stamps
  }

  /** The deque after an attempt at `now`: evicted, appended to, and cut to its cap. */
  function Recorded(stamps: seq<real>, now: real, window: real): seq<real> {
    var appended := Evict(stamps, now - window) + [now];
    if |appended| > MAX_TIMESTAMPS_PER_CALLER then appended[1..] else appended
  }

  function Judged(stamps: seq<real>, now: real, limit: nat, window: real): Verdict
    requires stamps != []
  {
    if |stamps| <= limit then Admitted
    else Refused(if window - (now - stamps[0]) > 1.0 then window - (now - stamps[0]) else 1.0)
  }

  /** What a purge leaves of one caller's deque; a deque it empties is dropped with its key. */
  function Purged(stamps: seq<real>, cutoff: real): seq<real> {
    if stamps == [] || stamps[|stamps| - 1] <= cutoff then [] else stamps
  }

  /** A caller's deque, with an absent caller reading as one that made no attempt. */
  function KeptIn(attempts: map<Caller, seq<real>>, who: Caller): seq<real> {
    if who in attempts then attempts[who] else []
  }

  /**
    What is left of all attempts so far: the newest of them, this one among them. Every one that is
    gone is past the cutoff, but one that 128 newer ones have pushed out; and the oldest one kept is
    inside the window, unless it is this very attempt.
  */
  predicate IsTail(kept: seq<real>, all: seq<real>, cutoff: real) {
    && 0 < |kept| <= |all| && kept == all[|all| - |kept|..]
    && (|all| <= 129 ==> |kept| <= 128)
    && (Rising(all) && |kept| > 1 ==> kept[0] > cutoff)
    && forall i :: 0 <= i < |all| - |kept| ==> all[i] <= cutoff || (i == |all| - |kept| - 1 && |kept| >= 128)
  }

  predicate Rising(stamps: seq<real>) { forall i :: 0 < i < |stamps| ==> stamps[i - 1] <= stamps[i] }

  /** The wait, but never less than a second. */
  predicate LeastWait(advertised: real, wait: real) {
    advertised >= 1.0 && advertised >= wait && (advertised == 1.0 || advertised == wait)
  }

  class InMemoryRateLimiter {
    var attempts: map<Caller, seq<real>>

    constructor ()
      ensures attempts == map[]
    {
      attempts := map[];
    }

    method Check(who: Caller, now: real, limit: nat, window: real) returns (verdict: Verdict)
      modifies this
      ensures attempts == old(attempts)[who := Recorded(KeptIn(old(attempts), who), now, window)]
      ensures verdict == Judged(KeptIn(attempts, who), now, limit, window)
      ensures who in attempts && attempts == old(attempts)[who := attempts[who]]
      ensures var all := (if who in old(attempts) then old(attempts)[who] else []) + [now];
              IsTail(attempts[who], all, now - window)
      ensures var kept := attempts[who];
              && (verdict.Admitted? <==> |kept| <= limit)
              && (verdict.Refused? ==> LeastWait(verdict.retryAfter, window - (now - kept[0])))
    {
      Tail(if who in attempts then attempts[who] else [], now, window);
      var stamps := if who in attempts then attempts[who] else [];
      ghost var before := stamps;
      while stamps != [] && stamps[0] <= now - window
        invariant Evict(stamps, now - window) == Evict(before, now - window)
      {
        stamps := stamps[1..];
      }
      stamps := stamps + [now];
      if |stamps| > MAX_TIMESTAMPS_PER_CALLER {
        stamps := stamps[1..];
      }
      attempts := attempts[who := stamps];
      if |stamps| <= limit {
        return Admitted;
      }
      var wait := window - (now - stamps[0]);
      return Refused(if wait > 1.0 then wait else 1.0);
    }

    method Reset(who: Caller)
      modifies this
      ensures attempts == old(attempts) - {who}
    {
      attempts := attempts - {who};
    }

    method PurgeExpired(now: real, window: real) returns (gone: nat)
      modifies this
      ensures forall who :: who in attempts
                <==> && who in old(attempts) && var was := old(attempts)[who];
                     was != [] && was[|was| - 1] > now - window
      ensures forall who :: who in attempts ==> attempts[who] == old(attempts)[who]
      ensures gone == |old(attempts).Keys - attempts.Keys|
    {
      var doomed := set who | who in attempts && Purged(attempts[who], now - window) == [];
      gone := |doomed|;
      ghost var all, before := doomed, attempts;
      while doomed != {}
        invariant doomed <= all
        invariant attempts == before - (all - doomed)
        decreases doomed
      {
        var who :| who in doomed;
        attempts := attempts - {who};
        doomed := doomed - {who};
      }
      assert before.Keys - attempts.Keys == all;
    }
  }

  // ---------------------------------------------------------------- the reference: a full log

  /** Attempts strictly after `now - window`, oldest first. */
  function InWindow(log: seq<real>, now: real, window: real): seq<real> {
    if log == [] then []
    else if log[0] > now - window then [log[0]] + InWindow(log[1..], now, window)
    else InWindow(log[1..], now, window)
  }

  function Newest(stamps: seq<real>, most: nat): seq<real> {
    if |stamps| <= most then stamps else stamps[|stamps| - most..]
  }

  /** One caller's life: attempts, resets after a success, and sweeps of the whole limiter. */
  datatype Event = Attempt(at: real) | Forget | Purge(at: real, width: real)

  predicate Timed(e: Event) { !e.Forget? }

  ghost predicate Monotone(run: seq<Event>) {
    forall i, j :: 0 <= i < j < |run| && Timed(run[i]) && Timed(run[j]) ==> run[i].at <= run[j].at
  }

  /** Every purge in the run reaches at least `window` back. */
  ghost predicate PurgesAtLeast(run: seq<Event>, window: real) {
    forall i :: 0 <= i < |run| && run[i].Purge? ==> run[i].width >= window
  }

  /** The deque a run leaves. */
  function KeptAfter(run: seq<Event>, window: real): seq<real> {
    if run == [] then [] else
      var kept := KeptAfter(run[..|run| - 1], window);
      match run[|run| - 1]
      case Attempt(at) => Recorded(kept, at, window)
      case Forget => []
      case Purge(at, width) => Purged(kept, at - width)
  }

  /** Every attempt since the last reset: nothing evicted, capped or purged. */
  function FullLog(run: seq<Event>): seq<real> {
    if run == [] then [] else
      var log := FullLog(run[..|run| - 1]);
      match run[|run| - 1]
      case Attempt(at) => log + [at]
      case Forget => []
      case Purge(_, _) => log
  }

  // ---------------------------------------------------------------- the deque is the log's tail

  ghost predicate Ordered(stamps: seq<real>) {
    forall i, j :: 0 <= i < j < |stamps| ==> stamps[i] <= stamps[j]
  }

  ghost predicate AllUpTo(stamps: seq<real>, bound: real) {
    forall i :: 0 <= i < |stamps| ==> stamps[i] <= bound
  }

  /** The log is what the deque lacks and then the deque; what it lacks has aged out or fell off the cap. */
  ghost predicate Split(gone: seq<real>, kept: seq<real>, log: seq<real>, clock: real, window: real) {
    && log == gone + kept
    && |kept| <= MAX_TIMESTAMPS_PER_CALLER
    && (|kept| == MAX_TIMESTAMPS_PER_CALLER || AllUpTo(gone, clock - window))
  }

  lemma {:induction false} EvictConcat(gone: seq<real>, kept: seq<real>, cutoff: real)
    ensures Evict(gone + kept, cutoff)
         == if Evict(gone, cutoff) == [] then Evict(kept, cutoff) else Evict(gone, cutoff) + kept
  {
    if gone == [] {
      assert gone + kept == kept;
    } else if gone[0] <= cutoff {
      assert (gone + kept)[1..] == gone[1..] + kept;
      EvictConcat(gone[1..], kept, cutoff);
    }
  }

  /** What eviction removes is a prefix no later than the cutoff. */
  lemma {:induction false} Evicted(stamps: seq<real>, cutoff: real) returns (front: seq<real>)
    ensures stamps == front + Evict(stamps, cutoff)
    ensures AllUpTo(front, cutoff)
    ensures Evict(stamps, cutoff) == [] || Evict(stamps, cutoff)[0] > cutoff
  {
    front := [];
    if stamps != [] && stamps[0] <= cutoff {
      front := Evicted(stamps[1..], cutoff);
      front := [stamps[0]] + front;
    }
  }

  lemma Tail(stamps: seq<real>, now: real, window: real)
    ensures IsTail(Recorded(stamps, now, window), stamps + [now], now - window)
  {
    var front := Evicted(stamps, now - window);
    var left, all := Evict(stamps, now - window), stamps + [now];
    assert all == front + (left + [now]);
    var k := |all| - |Recorded(stamps, now, window)|;
    assert k <= |front| + 1 && forall i :: 0 <= i < |front| ==> all[i] == front[i];
    assert Recorded(stamps, now, window) == all[k..];
    if k > |front| && Rising(all) {
      assert all[k - 1] == left[0] && all[k - 1] <= all[k];
    }
  }

  /** In an ordered log the window is what eviction leaves. */
  lemma {:induction false} WindowIsEvict(log: seq<real>, now: real, window: real)
    requires Ordered(log)
    ensures InWindow(log, now, window) == Evict(log, now - window)
  {
    if log == [] {
    } else {
      WindowIsEvict(log[1..], now, window);
      if log[0] > now - window {
        assert |log| > 1 ==> log[0] <= log[1];
        assert [log[0]] + log[1..] == log;
      }
    }
  }

  lemma RecordKeepsSplit(gone: seq<real>, kept: seq<real>, log: seq<real>, now: real, window: real)
      returns (lost: seq<real>)
    requires Ordered(log) && Split(gone, kept, log, now, window)
    ensures Split(lost, Recorded(kept, now, window), log + [now], now, window)
  {
    var front := Evicted(kept, now - window);
    var left := Evict(kept, now - window);
    lost := gone + front;
    if front != [] {
      assert log[|gone|] == front[0];
      forall i | 0 <= i < |gone| ensures gone[i] <= now - window {
        assert log[i] == gone[i];
      }
    }
    if |left| == MAX_TIMESTAMPS_PER_CALLER {
      lost := lost + [left[0]];
    }
  }

  lemma PurgeKeepsSplit(gone: seq<real>, kept: seq<real>, log: seq<real>, at: real, width: real, window: real)
      returns (lost: seq<real>)
    requires Ordered(log) && Split(gone, kept, log, at, window) && width >= window
    ensures Split(lost, Purged(kept, at - width), log, at, window)
  {
    lost := gone;
    if kept != [] && kept[|kept| - 1] <= at - width {
      lost := log;
      assert log[|log| - 1] == kept[|kept| - 1];
    }
  }

  lemma SplitLater(gone: seq<real>, kept: seq<real>, log: seq<real>, clock: real, later: real, window: real)
    requires Split(gone, kept, log, clock, window) && clock <= later
    ensures Split(gone, kept, log, later, window)
  {
  }

  lemma OrderedFurther(log: seq<real>, at: real, clock: real)
    requires Ordered(log) && AllUpTo(log, at) && at <= clock
    ensures Ordered(log + [at]) && AllUpTo(log + [at], clock)
  {
  }

  lemma MonotoneBefore(run: seq<Event>, window: real, clock: real)
    requires run != [] && Monotone(run) && PurgesAtLeast(run, window)
    requires forall i :: 0 <= i < |run| && Timed(run[i]) ==> run[i].at <= clock
    ensures var before, last := run[..|run| - 1], run[|run| - 1];
            && Monotone(before) && PurgesAtLeast(before, window)
            && forall i :: 0 <= i < |before| && Timed(before[i]) ==>
               before[i].at <= if Timed(last) then last.at else clock
  {
  }

  /** What holds after every run on a monotone clock, whatever is swept in between. */
  lemma {:induction false} SplitAlways(run: seq<Event>, window: real, clock: real) returns (gone: seq<real>)
    requires Monotone(run) && PurgesAtLeast(run, window)
    requires forall i :: 0 <= i < |run| && Timed(run[i]) ==> run[i].at <= clock
    ensures Ordered(FullLog(run)) && AllUpTo(FullLog(run), clock)
    ensures Split(gone, KeptAfter(run, window), FullLog(run), clock, window)
  {
    gone := [];
    if run == [] {
    } else {
      var last, before := run[|run| - 1], run[..|run| - 1];
      MonotoneBefore(run, window, clock);
      gone := SplitAlways(before, window, if Timed(last) then last.at else clock);
      var kept, log := KeptAfter(before, window), FullLog(before);
      match last {
        case Attempt(at) =>
          gone := RecordKeepsSplit(gone, kept, log, at, window);
          SplitLater(gone, Recorded(kept, at, window), log + [at], at, clock, window);
          OrderedFurther(log, at, clock);
        case Forget => gone := [];
        case Purge(at, width) =>
          gone := PurgeKeepsSplit(gone, kept, log, at, width, window);
          SplitLater(gone, Purged(kept, at - width), log, at, clock, window);
      }
    }
  }

  // ---------------------------------------------------------------- the main results

  /** The deque after the next attempt is the newest 128 of the log's window. */
  lemma RecordedIsNewest(gone: seq<real>, kept: seq<real>, log: seq<real>, now: real, window: real)
    requires window > 0.0 && Ordered(log) && AllUpTo(log, now)
    requires Split(gone, kept, log, now, window)
    ensures Recorded(kept, now, window)
         == Newest(InWindow(log + [now], now, window), MAX_TIMESTAMPS_PER_CALLER)
  {
    var cutoff := now - window;
    assert Ordered(log + [now]);
    WindowIsEvict(log + [now], now, window);
    EvictConcat(gone, kept, cutoff);
    EvictConcat(log, [now], cutoff);
    var front := Evicted(gone, cutoff);
    var late := Evict(gone, cutoff);
    if late == [] {
      var _ := Evicted(kept, cutoff);
      assert Recorded(kept, now, window) == Newest(Evict(kept, cutoff) + [now], MAX_TIMESTAMPS_PER_CALLER);
    } else {
      LateWindow(gone, kept, log, now, window);
      var recent := late + kept + [now];
      assert recent[|recent| - MAX_TIMESTAMPS_PER_CALLER..] == (kept + [now])[1..];
    }
  }

  /** While an entry the deque gave up is still inside the window, so is everything the deque kept. */
  lemma LateWindow(gone: seq<real>, kept: seq<real>, log: seq<real>, now: real, window: real)
    requires window > 0.0 && Ordered(log) && AllUpTo(log, now)
    requires Split(gone, kept, log, now, window) && Evict(gone, now - window) != []
    ensures |kept| == MAX_TIMESTAMPS_PER_CALLER && kept[0] > now - window
    ensures InWindow(log + [now], now, window) == Evict(gone, now - window) + kept + [now]
  {
    var cutoff := now - window;
    assert Ordered(log + [now]);
    WindowIsEvict(log + [now], now, window);
    EvictConcat(gone, kept, cutoff);
    EvictConcat(log, [now], cutoff);
    var front := Evicted(gone, cutoff);
    var late := Evict(gone, cutoff);
    assert gone[|front|] == late[0];
    assert kept[0] > cutoff by {
      assert log[|front|] == late[0] && log[|gone|] == kept[0];
    }
  }

  lemma MonotonePrefix(run: seq<Event>, now: real)
    requires Monotone(run + [Attempt(now)])
    ensures Monotone(run) && forall i :: 0 <= i < |run| && Timed(run[i]) ==> run[i].at <= now
  {
    var full := run + [Attempt(now)];
    assert full[|run|] == Attempt(now);
    assert forall i :: 0 <= i < |run| ==> full[i] == run[i];
  }

  /**
    After any run, the next attempt leaves exactly the newest 128 attempts of the window that
    ends now, counting refused attempts and forgetting nothing but resets.
  */
  lemma RecordRefinesLog(run: seq<Event>, now: real, window: real)
    requires window > 0.0 && Monotone(run + [Attempt(now)]) && PurgesAtLeast(run, window)
    ensures Recorded(KeptAfter(run, window), now, window)
         == Newest(InWindow(FullLog(run) + [now], now, window), MAX_TIMESTAMPS_PER_CALLER)
  {
    MonotonePrefix(run, now);
    var gone := SplitAlways(run, window, now);
    RecordedIsNewest(gone, KeptAfter(run, window), FullLog(run), now, window);
  }

  /** The verdict is the full log's, for every limit the 128-entry cap can tell apart. */
  lemma VerdictIsTheLogs(run: seq<Event>, now: real, limit: nat, window: real)
    requires window > 0.0 && Monotone(run + [Attempt(now)]) && PurgesAtLeast(run, window)
    requires limit < MAX_TIMESTAMPS_PER_CALLER
    ensures var kept := Recorded(KeptAfter(run, window), now, window);
            Judged(kept, now, limit, window).Admitted?
            <==> |InWindow(FullLog(run) + [now], now, window)| <= limit
  {
    RecordRefinesLog(run, now, window);
  }

  ghost predicate AgreesWithLog(limit: nat, window: real) {
    forall run, now :: Monotone(run + [Attempt(now)]) && PurgesAtLeast(run, window) ==>
      (Judged(Recorded(KeptAfter(run, window), now, window), now, limit, window).Admitted?
       <==> |InWindow(FullLog(run) + [now], now, window)| <= limit)
  }

  /** And for no other limit: from 128 on, nothing is ever refused, however long the log is. */
  lemma AgreementNeedsSmallLimit(limit: nat, window: real)
    requires window > 0.0
    ensures AgreesWithLog(limit, window) <==> limit < 128
  {
    if limit < MAX_TIMESTAMPS_PER_CALLER {
      forall run, now | Monotone(run + [Attempt(now)]) && PurgesAtLeast(run, window)
        ensures Judged(Recorded(KeptAfter(run, window), now, window), now, limit, window).Admitted?
                <==> |InWindow(FullLog(run) + [now], now, window)| <= limit
      {
        VerdictIsTheLogs(run, now, limit, window);
      }
    } else {
      var run := seq(limit, _ => Attempt(0.0));
      BurstLog(limit);
      AllInWindow(FullLog(run) + [0.0], 0.0, window);
      RecordRefinesLog(run, 0.0, window);
    }
  }

  lemma {:induction false} BurstLog(n: nat)
    ensures FullLog(seq(n, _ => Attempt(0.0))) == seq(n, _ => 0.0)
  {
    if n == 0 {
    } else {
      BurstLog(n - 1);
      assert seq(n, _ => Attempt(0.0))[..n - 1] == seq(n - 1, _ => Attempt(0.0));
    }
  }

  lemma {:induction false} AllInWindow(log: seq<real>, now: real, window: real)
    requires forall i :: 0 <= i < |log| ==> log[i] > now - window
    ensures InWindow(log, now, window) == log
  {
    if log == [] {
    } else {
      AllInWindow(log[1..], now, window);
    }
  }

  // ---------------------------------------------------------------- no window is overspent

  predicate NoResets(run: seq<Event>) { forall i :: 0 <= i < |run| ==> !run[i].Forget? }

  /** How many attempts of a run fell in (from, from + window] and were admitted by the deque they left. */
  ghost function Admissions(run: seq<Event>, from: real, limit: nat, window: real): nat {
    if run == [] then 0
    else
      var last := run[|run| - 1];
      Admissions(run[..|run| - 1], from, limit, window)
      + if last.Attempt? && from < last.at <= from + window
          && Judged(KeptAfter(run, window), last.at, limit, window).Admitted?
        then 1 else 0
  }

  lemma {:induction false} InWindowAppend(log: seq<real>, t: real, now: real, window: real)
    ensures InWindow(log + [t], now, window)
         == InWindow(log, now, window) + if t > now - window then [t] else []
  {
    if log == [] {
      assert log + [t] == [t];
    } else {
      assert (log + [t])[1..] == log[1..] + [t];
      InWindowAppend(log[1..], t, now, window);
    }
  }

  /** Admissions so far are among the attempts a later check inside the same window counts. */
  lemma {:induction false} AdmissionsAreCounted(run: seq<Event>, from: real, limit: nat, window: real, now: real)
    requires NoResets(run) && now <= from + window
    ensures Admissions(run, from, limit, window) <= |InWindow(FullLog(run), now, window)|
  {
    if run == [] {
    } else {
      var before, last := run[..|run| - 1], run[|run| - 1];
      AdmissionsAreCounted(before, from, limit, window, now);
      if last.Attempt? {
        InWindowAppend(FullLog(before), last.at, now, window);
      }
    }
  }

  lemma {:induction false} AdmissionsLimited(run: seq<Event>, from: real, limit: nat, window: real)
    requires window > 0.0 && Monotone(run) && PurgesAtLeast(run, window) && NoResets(run)
    requires limit < MAX_TIMESTAMPS_PER_CALLER
    ensures Admissions(run, from, limit, window) <= limit
  {
    if run == [] {
    } else {
      var before, last := run[..|run| - 1], run[|run| - 1];
      AdmissionsLimited(before, from, limit, window);
      if last.Attempt? && from < last.at <= from + window {
        assert before + [Attempt(last.at)] == run;
        VerdictIsTheLogs(before, last.at, limit, window);
        AdmissionsAreCounted(run, from, limit, window, last.at);
      }
    }
  }

  ghost predicate NeverOverspent(limit: nat, window: real) {
    forall run, from :: Monotone(run) && PurgesAtLeast(run, window) && NoResets(run) ==>
      Admissions(run, from, limit, window) <= limit
  }

  /**
    Over every run of attempts and wide sweeps, the deque admits at most `limit` attempts in any
    window of the full width, wherever it starts; and this holds of exactly the limits the cap can
    tell apart.
  */
  lemma NoWindowOverspent(limit: nat, window: real)
    requires window > 0.0
    ensures NeverOverspent(limit, window) <==> limit < 128
  {
    if limit < MAX_TIMESTAMPS_PER_CALLER {
      forall run, from | Monotone(run) && PurgesAtLeast(run, window) && NoResets(run)
        ensures Admissions(run, from, limit, window) <= limit
      {
        AdmissionsLimited(run, from, limit, window);
      }
    } else {
      var run := seq(limit + 1, _ => Attempt(0.0));
      BurstAdmitted(limit + 1, limit, window);
      assert Monotone(run) && PurgesAtLeast(run, window) && NoResets(run);
      assert Admissions(run, -window / 2.0, limit, window) > limit;
    }
  }

  /** From 128 on, a burst of any length is admitted whole. */
  lemma {:induction false} BurstAdmitted(n: nat, limit: nat, window: real)
    requires window > 0.0 && limit >= MAX_TIMESTAMPS_PER_CALLER
    ensures |KeptAfter(seq(n, _ => Attempt(0.0)), window)| <= MAX_TIMESTAMPS_PER_CALLER
    ensures Admissions(seq(n, _ => Attempt(0.0)), -window / 2.0, limit, window) == n
  {
    var run := seq(n, _ => Attempt(0.0));
    if n == 0 {
    } else {
      BurstAdmitted(n - 1, limit, window);
      assert run[..n - 1] == seq(n - 1, _ => Attempt(0.0));
      EvictShrinks(KeptAfter(run[..n - 1], window), 0.0 - window);
    }
  }

  lemma {:induction false} EvictShrinks(stamps: seq<real>, cutoff: real)
    ensures |Evict(stamps, cutoff)| <= |stamps|
  {
    if stamps == [] {
    } else if stamps[0] <= cutoff {
      EvictShrinks(stamps[1..], cutoff);
    }
  }

  // ---------------------------------------------------------------- waiting and sweeping

  /** More than `limit` entries, none older than `oldest`. */
  predicate Full(kept: seq<real>, oldest: real, limit: nat) {
    limit < |kept| <= MAX_TIMESTAMPS_PER_CALLER && forall i :: 0 <= i < |kept| ==> oldest <= kept[i]
  }

  /** An attempt or a wide sweep while `oldest` is still inside the window. */
  predicate InTime(e: Event, oldest: real, window: real) {
    !e.Forget? && oldest <= e.at < oldest + window && (e.Purge? ==> e.width >= window)
  }

  lemma {:induction false} StaysFull(run: seq<Event>, more: seq<Event>, oldest: real, limit: nat, window: real)
    requires Full(KeptAfter(run, window), oldest, limit)
    requires forall i :: 0 <= i < |more| ==> InTime(more[i], oldest, window)
    ensures Full(KeptAfter(run + more, window), oldest, limit)
  {
    if more == [] {
      assert run + more == run;
    } else {
      var before, last := more[..|more| - 1], more[|more| - 1];
      StaysFull(run, before, oldest, limit, window);
      assert run + more == (run + before) + [last];
      assert (run + more)[..|run + before|] == run + before;
      var kept := KeptAfter(run + before, window);
      if last.Attempt? {
        assert Evict(kept, last.at - window) == kept;
      }
    }
  }

  /**
    After a refusal, every attempt made before the oldest kept entry ages out is refused as well,
    however many come and whatever is swept meanwhile: the advertised wait is a lower bound, because
    the refused attempts in between count.
  */
  lemma RefusedUntilOldestAges(run: seq<Event>, now: real, more: seq<Event>, limit: nat, window: real)
    requires window > 0.0 && Monotone(run + [Attempt(now)]) && PurgesAtLeast(run, window)
    requires Judged(KeptAfter(run + [Attempt(now)], window), now, limit, window).Refused?
    requires more != [] && more[|more| - 1].Attempt?
    requires forall i :: 0 <= i < |more| ==>
               !more[i].Forget? && now <= more[i].at < KeptAfter(run + [Attempt(now)], window)[0] + window
               && (more[i].Purge? ==> more[i].width >= window)
    ensures var all := run + [Attempt(now)] + more;
            Judged(KeptAfter(all, window), more[|more| - 1].at, limit, window).Refused?
  {
    var refused := run + [Attempt(now)];
    MonotonePrefix(run, now);
    assert refused[..|run|] == run;
    var gone := SplitAlways(refused, window, now);
    var kept := KeptAfter(refused, window);
    var oldest := kept[0];
    forall i | 0 <= i < |kept| ensures oldest <= kept[i] <= now {
      assert FullLog(refused)[|gone|] == kept[0] && FullLog(refused)[|gone| + i] == kept[i];
    }
    forall i | 0 <= i < |more| ensures InTime(more[i], oldest, window) {
      assert oldest <= now;
    }
    StaysFull(refused, more, oldest, limit, window);
  }

  lemma FullLogStep(run: seq<Event>, last: Event)
    requires !last.Purge?
    ensures FullLog(run + [last]) == if last.Forget? then [] else FullLog(run) + [last.at]
  {
    assert (run + [last])[..|run|] == run;
  }

  function WithoutPurges(run: seq<Event>): seq<Event> {
    if run == [] then [] else
      WithoutPurges(run[..|run| - 1]) + if run[|run| - 1].Purge? then [] else [run[|run| - 1]]
  }

  lemma {:induction false} WithoutPurgesKeepsLog(run: seq<Event>)
    ensures FullLog(WithoutPurges(run)) == FullLog(run)
  {
    if run == [] {
    } else {
      var before := run[..|run| - 1];
      WithoutPurgesKeepsLog(before);
      var last := run[|run| - 1];
      if !last.Purge? {
        FullLogStep(WithoutPurges(before), last);
        assert WithoutPurges(run) == WithoutPurges(before) + [last];
      } else {
        assert WithoutPurges(run) == WithoutPurges(before);
      }
    }
  }

  lemma {:induction false} WithoutPurgesHasNone(run: seq<Event>)
    ensures forall i :: 0 <= i < |WithoutPurges(run)| ==> !WithoutPurges(run)[i].Purge?
  {
    if run == [] {
    } else {
      WithoutPurgesHasNone(run[..|run| - 1]);
    }
  }

  lemma {:induction false} WithoutPurgesMonotone(run: seq<Event>, bound: real)
    requires Monotone(run) && forall i :: 0 <= i < |run| && Timed(run[i]) ==> run[i].at <= bound
    ensures Monotone(WithoutPurges(run) + [Attempt(bound)])
  {
    if run == [] {
    } else {
      var before, last := run[..|run| - 1], run[|run| - 1];
      var clockThen := if Timed(last) then last.at else bound;
      WithoutPurgesMonotone(before, clockThen);
      var small := WithoutPurges(before) + [Attempt(clockThen)];
      var big := WithoutPurges(run) + [Attempt(bound)];
      forall i, j | 0 <= i < j < |big| && Timed(big[i]) && Timed(big[j]) ensures big[i].at <= big[j].at {
        if i < |WithoutPurges(before)| {
          assert small[i] == big[i] && small[|small| - 1].at == clockThen;
          if j < |WithoutPurges(before)| { assert small[j] == big[j]; }
        }
      }
    }
  }

  /**
    Sweeping is invisible when every sweep reaches as far back as the caller's window: each check
    leaves the same deque, hence the same verdict and the same advertised wait, as if no sweep had
    happened.
  */
  lemma PurgingIsInvisible(run: seq<Event>, now: real, window: real)
    requires window > 0.0 && Monotone(run + [Attempt(now)]) && PurgesAtLeast(run, window)
    ensures Recorded(KeptAfter(run, window), now, window)
         == Recorded(KeptAfter(WithoutPurges(run), window), now, window)
  {
    RecordRefinesLog(run, now, window);
    WithoutPurgesKeepsLog(run);
    MonotonePrefix(run, now);
    WithoutPurgesMonotone(run, now);
    WithoutPurgesHasNone(run);
    RecordRefinesLog(WithoutPurges(run), now, window);
  }

  /** How far back the retention sweep reaches: the widest of three windows, and no others. */
  function SweepWidth(login: real, reset: real, invite: real): (widest: real)
    ensures widest >= login && widest >= reset && widest >= invite
    ensures widest == login || widest == reset || widest == invite
  {
    var two := if login >= reset then login else reset;
    if two >= invite then two else invite
  }

  /** A run whose purges are the retention sweep's. */
  ghost predicate SweptAt(run: seq<Event>, width: real) {
    forall i :: 0 <= i < |run| && run[i].Purge? ==> run[i].width == width
  }

  ghost predicate SweepsInvisible(width: real, limit: nat, window: real) {
    forall run, now :: Monotone(run + [Attempt(now)]) && SweptAt(run, width) ==>
      Judged(Recorded(KeptAfter(run, window), now, window), now, limit, window)
      == Judged(Recorded(KeptAfter(WithoutPurges(run), window), now, window), now, limit, window)
  }

  /**
    The sweep's width leaves out the per-recipient mail window. Sweeping changes no verdict of
    the mail cap exactly when that window is no wider than the login, reset and invite windows.
  */
  lemma SweepSparesMailCap(login: real, reset: real, invite: real, mail: real, limit: nat)
    requires login > 0.0 && reset > 0.0 && invite > 0.0 && mail > 0.0
    requires 0 < limit < MAX_TIMESTAMPS_PER_CALLER
    ensures SweepsInvisible(SweepWidth(login, reset, invite), limit, mail)
       <==> mail <= SweepWidth(login, reset, invite)
  {
    var width := SweepWidth(login, reset, invite);
    if mail <= width {
      forall run, now | Monotone(run + [Attempt(now)]) && SweptAt(run, width)
        ensures Judged(Recorded(KeptAfter(run, mail), now, mail), now, limit, mail)
             == Judged(Recorded(KeptAfter(WithoutPurges(run), mail), now, mail), now, limit, mail)
      {
        PurgingIsInvisible(run, now, mail);
      }
    } else {
      NarrowSweepForgets(limit, width, mail);
    }
  }

  /** A full budget at time 0, a sweep that reaches back to 0, and one more message inside the window. */
  lemma NarrowSweepForgets(limit: nat, width: real, window: real)
    requires 0 < limit < MAX_TIMESTAMPS_PER_CALLER && 0.0 < width < window
    ensures !SweepsInvisible(width, limit, window)
  {
    var spent := seq(limit, _ => Attempt(0.0));
    var run := spent + [Purge(width, width)];
    NoPurgesInBurst(limit);
    assert run[..limit] == spent;
    assert WithoutPurges(run) == spent;
    SpentThenSwept(limit, width, window);
    SpentIsRefused(limit, width, window);
    assert Monotone(run + [Attempt(width)]) && SweptAt(run, width);
  }

  lemma SpentIsRefused(limit: nat, now: real, window: real)
    requires 0 < limit < MAX_TIMESTAMPS_PER_CALLER && 0.0 < now < window
    ensures var kept := Recorded(KeptAfter(seq(limit, _ => Attempt(0.0)), window), now, window);
            !Judged(kept, now, limit, window).Admitted?
  {
    var spent := seq(limit, _ => Attempt(0.0));
    BurstLog(limit);
    VerdictIsTheLogs(spent, now, limit, window);
    AllInWindow(FullLog(spent) + [now], now, window);
  }

  lemma SpentThenSwept(limit: nat, width: real, window: real)
    requires 0.0 < width < window
    ensures KeptAfter(seq(limit, _ => Attempt(0.0)) + [Purge(width, width)], window) == []
  {
    var spent := seq(limit, _ => Attempt(0.0));
    var run := spent + [Purge(width, width)];
    assert run[..|run| - 1] == spent;
    var gone := SplitAlways(spent, window, 0.0);
  }

  lemma {:induction false} NoPurgesInBurst(n: nat)
    ensures WithoutPurges(seq(n, _ => Attempt(0.0))) == seq(n, _ => Attempt(0.0))
  {
    if n == 0 {
    } else {
      NoPurgesInBurst(n - 1);
      assert seq(n, _ => Attempt(0.0))[..n - 1] == seq(n - 1, _ => Attempt(0.0));
    }
  }
}
