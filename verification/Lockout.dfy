/**
  One account against guessing. Logins and password confirmations share one failure count and one
  fixed-length lock; a new password clears both.

  A password stands for its hash. Trying one is a read of the account, a check, and a save of what
  follows from what was read.
*/
module Lockout {
  import opened Options

  /** `duration` is positive and `threshold` at least one, as the configuration is. */
  datatype Settings = Settings(threshold: nat, duration: int)

  predicate Configured(cfg: Settings) { cfg.threshold > 0 && cfg.duration > 0 }

  datatype Account = Account(password: string, active: bool, failedAttempts: nat, lockedUntil: Option<int>)

  datatype Door = Login | Confirm

  datatype Verdict = NotAuthenticable | Wrong | Right

  predicate IsLocked(a: Account, now: int) { a.lockedUntil.Some? && now < a.lockedUntil.value }

  function WithFailure(cfg: Settings, a: Account, now: int): Account {
    var attempts := a.failedAttempts + 1;
    a.(failedAttempts := attempts,
       lockedUntil := if attempts >= cfg.threshold then Some(now + cfg.duration) else a.lockedUntil)
  }

  function WithSuccess(a: Account): Account { a.(failedAttempts := 0, lockedUntil := None) }

  function WithPassword(a: Account, password: string): Account { WithSuccess(a).(password := password) }

  function Judge(a: Account, password: string, now: int): Verdict {
    if IsLocked(a, now) || !a.active then NotAuthenticable else if a.password != password then Wrong else Right
  }

  /** The account after a try. A confirmation saves nothing when there is no failure to clear. */
  function Tried(cfg: Settings, a: Account, door: Door, password: string, now: int): Account {
    match Judge(a, password, now)
    case NotAuthenticable => a
    case Wrong => WithFailure(cfg, a, now)
    case Right => if Saves(a, door) then WithSuccess(a) else a
  }

  // ---------------------------------------------------------------- runs

  /** `failures` is when each wrong password was judged, since the last right one or new password. */
  datatype World = World(account: Account, saving: map<nat, Account>, failures: seq<int>)

  datatype Event =
    | Try(k: nat, door: Door, password: string, now: int)
    | SetStatus(k: nat, active: bool)
    | SetPassword(k: nat, password: string)
    | Save(k: nat)

  /** A right password is saved after a login, and after a confirmation that has failures to clear. */
  predicate Saves(a: Account, door: Door) { door.Login? || a.failedAttempts != 0 }

  predicate Enabled(w: World, e: Event) { if e.Save? then e.k in w.saving else e.k !in w.saving }

  function Do(cfg: Settings, w: World, e: Event): World
    requires Enabled(w, e)
  {
    match e
    case Try(k, door, password, now) =>
      var after := w.(saving := w.saving[k := Tried(cfg, w.account, door, password, now)]);
      (match Judge(w.account, password, now)
       case NotAuthenticable => w
       case Wrong => after.(failures := w.failures + [now])
       case Right => (if Saves(w.account, door) then after else w).(failures := []))
    case SetStatus(k, active) => w.(saving := w.saving[k := w.account.(active := active)])
    case SetPassword(k, password) => w.(saving := w.saving[k := WithPassword(w.account, password)], failures := [])
    case Save(k) => w.(account := w.saving[k], saving := w.saving - {k})
  }

  /**
    What a try does, by what the account holds: nothing while it is disabled or its lock is ahead; a
    wrong password is one more failure, and from the threshold on a lock from now; the right one
    clears both. It is saved by a later step, or by none when there is nothing to clear.
  */
  lemma TryByTheAccount(cfg: Settings, w: World, k: nat, door: Door, password: string, now: int)
    requires k !in w.saving
    ensures var a, w' := w.account, Do(cfg, w, Try(k, door, password, now));
            if !a.active || (a.lockedUntil.Some? && a.lockedUntil.value > now) then w' == w
            else if password != a.password
            then
              && w'.failures == w.failures + [now]
              && w'.saving == w.saving[k := Account(a.password, true, a.failedAttempts + 1,
                   if a.failedAttempts + 1 >= cfg.threshold then Some(now + cfg.duration) else a.lockedUntil)]
            else
              && w'.failures == []
              && w'.saving == if door.Confirm? && a.failedAttempts == 0 then w.saving
                              else w.saving[k := Account(a.password, true, 0, None)]
  {
  }

  ghost predicate Runs(cfg: Settings, start: World, run: seq<Event>)
    decreases |run|, 0
  {
    run == [] || (Runs(cfg, start, run[..|run| - 1]) && Enabled(After(cfg, start, run[..|run| - 1]), run[|run| - 1]))
  }

  ghost function After(cfg: Settings, start: World, run: seq<Event>): World
    requires Runs(cfg, start, run)
    decreases |run|, 1
  {
    if run == [] then start else Do(cfg, After(cfg, start, run[..|run| - 1]), run[|run| - 1])
  }

  /** Nothing reads the account while another request is about to save it. */
  ghost predicate Alone(cfg: Settings, start: World, run: seq<Event>)
    requires Runs(cfg, start, run)
  {
    run == [] || (Alone(cfg, start, run[..|run| - 1])
                  && (run[|run| - 1].Save? || After(cfg, start, run[..|run| - 1]).saving == map[]))
  }

  predicate NewAccount(w: World) {
    w.account.failedAttempts == 0 && w.account.lockedUntil.None? && w.saving == map[] && w.failures == []
  }

  // ---------------------------------------------------------------- the bound

  predicate Spaced(cfg: Settings, failures: seq<int>) {
    forall i :: 0 < i < |failures| && cfg.threshold <= i ==> failures[i - 1] + cfg.duration <= failures[i]
  }

  /** The account's count and lock are those of its failures. */
  predicate Counted(cfg: Settings, a: Account, failures: seq<int>) {
    && a.failedAttempts == |failures| && Spaced(cfg, failures)
    && a.lockedUntil == if 0 < cfg.threshold <= |failures| then Some(failures[|failures| - 1] + cfg.duration) else None
  }

  predicate Tracked(cfg: Settings, w: World) {
    && (forall j, k :: j in w.saving && k in w.saving ==> j == k)
    && (w.saving == map[] ==> Counted(cfg, w.account, w.failures))
    && (forall k :: k in w.saving ==> Counted(cfg, w.saving[k], w.failures))
  }

  lemma StepKeepsTracked(cfg: Settings, w: World, e: Event)
    requires Configured(cfg) && Enabled(w, e) && Tracked(cfg, w) && (e.Save? || w.saving == map[])
    ensures Tracked(cfg, Do(cfg, w, e))
  {
    var w' := Do(cfg, w, e);
    if e.Try? && Judge(w.account, e.password, e.now).Wrong? {
      assert w'.failures[..|w.failures|] == w.failures;
    } else if e.Save? {
      assert w'.saving == map[];
    }
  }

  lemma {:induction false} SpacedOut(cfg: Settings, failures: seq<int>, n: nat)
    requires Configured(cfg) && Spaced(cfg, failures) && cfg.threshold <= n <= |failures|
    ensures failures[n - 1] >= failures[cfg.threshold - 1] + (n - cfg.threshold) * cfg.duration
    decreases n
  {
    if n > cfg.threshold {
      SpacedOut(cfg, failures, n - 1);
      assert (n - cfg.threshold) * cfg.duration == (n - 1 - cfg.threshold) * cfg.duration + cfg.duration;
    }
  }

  lemma {:induction false} TrackedAlways(cfg: Settings, start: World, run: seq<Event>)
    requires Configured(cfg) && NewAccount(start) && Runs(cfg, start, run) && Alone(cfg, start, run)
    ensures Tracked(cfg, After(cfg, start, run))
    ensures AlwaysReaches(cfg, start, run)
    decreases |run|
  {
    if run == [] {
    } else {
      TrackedAlways(cfg, start, run[..|run| - 1]);
      StepKeepsTracked(cfg, After(cfg, start, run[..|run| - 1]), run[|run| - 1]);
    }
  }

  /**
    The stored lock covers the one the failures call for: there are not enough of them yet, or it
    lasts at least one lock past the last of them, or the account is disabled.
  */
  predicate LockReaches(cfg: Settings, w: World) {
    || |w.failures| < cfg.threshold || !w.account.active
    || (w.failures != [] && w.account.lockedUntil.Some?
        && w.failures[|w.failures| - 1] + cfg.duration <= w.account.lockedUntil.value)
  }

  /** Whatever is tried next, at whatever time, is not judged wrong too early. */
  ghost predicate NextKeepsSpacing(cfg: Settings, w: World) {
    forall k, door, password, now :: k !in w.saving ==> Spaced(cfg, Do(cfg, w, Try(k, door, password, now)).failures)
  }

  /** The exact condition on a state for the bound to survive the next try. */
  lemma NextKeepsSpacingIff(cfg: Settings, w: World)
    requires Configured(cfg) && Spaced(cfg, w.failures)
    ensures NextKeepsSpacing(cfg, w) <==> LockReaches(cfg, w)
  {
    if LockReaches(cfg, w) {
      forall k, door, password, now | k !in w.saving
        ensures Spaced(cfg, Do(cfg, w, Try(k, door, password, now)).failures)
      {
        NextIsSpaced(cfg, w, Try(k, door, password, now));
      }
    } else {
      var last := w.failures[|w.failures| - 1];
      var k := Unused(w.saving.Keys);
      var wrong := w.account.password + "x";
      var e := Try(k, Login, wrong, last + cfg.duration - 1);
      assert Judge(w.account, wrong, last + cfg.duration - 1).Wrong?;
      var f := Do(cfg, w, e).failures;
      assert f == w.failures + [last + cfg.duration - 1];
      assert f[|w.failures| - 1] + cfg.duration > f[|w.failures|];
      assert !Spaced(cfg, f);
    }
  }

  lemma {:induction false} Unused(keys: set<nat>) returns (k: nat)
    ensures k !in keys && forall j :: j in keys ==> j < k
    decreases |keys|
  {
    if keys == {} {
      k := 0;
    } else {
      var any :| any in keys;
      var rest := Unused(keys - {any});
      k := if any < rest then rest else any + 1;
      assert forall j :: j in keys ==> j == any || j in keys - {any};
    }
  }

  lemma NextIsSpaced(cfg: Settings, w: World, e: Event)
    requires Configured(cfg) && Enabled(w, e) && Spaced(cfg, w.failures) && (e.Try? ==> LockReaches(cfg, w))
    ensures Spaced(cfg, Do(cfg, w, e).failures)
  {
    if e.Try? && Judge(w.account, e.password, e.now).Wrong? {
      assert (w.failures + [e.now])[..|w.failures|] == w.failures;
    }
  }

  /** Every try of a run found the stored lock reaching far enough. */
  ghost predicate AlwaysReaches(cfg: Settings, start: World, run: seq<Event>)
    requires Runs(cfg, start, run)
  {
    run == [] || (AlwaysReaches(cfg, start, run[..|run| - 1])
                  && (run[|run| - 1].Try? ==> LockReaches(cfg, After(cfg, start, run[..|run| - 1]))))
  }

  lemma {:induction false} SpacedAlways(cfg: Settings, start: World, run: seq<Event>)
    requires Configured(cfg) && Spaced(cfg, start.failures) && Runs(cfg, start, run) && AlwaysReaches(cfg, start, run)
    ensures Spaced(cfg, After(cfg, start, run).failures)
    decreases |run|
  {
    if run == [] {
    } else {
      SpacedAlways(cfg, start, run[..|run| - 1]);
      NextIsSpaced(cfg, After(cfg, start, run[..|run| - 1]), run[|run| - 1]);
    }
  }

  /**
    Whatever mix of logins, confirmations, status changes and refused attempts arrives, however they
    overlap and whatever the clock does: while each try finds a lock that reaches, the n-th wrong
    password judged since the last success or new password comes no earlier than the threshold-th
    plus one lock for each one after it.
  */
  lemma GuessBound(cfg: Settings, start: World, run: seq<Event>, n: nat)
    requires Configured(cfg) && NewAccount(start) && Runs(cfg, start, run) && AlwaysReaches(cfg, start, run)
    requires cfg.threshold <= n <= |After(cfg, start, run).failures|
    ensures var f := After(cfg, start, run).failures;
            f[n - 1] >= f[cfg.threshold - 1] + (n - cfg.threshold) * cfg.duration
  {
    SpacedAlways(cfg, start, run);
    SpacedOut(cfg, After(cfg, start, run).failures, n);
  }

  /** And each does when no try reads the account while another request is about to save it. */
  lemma GuessBoundAlone(cfg: Settings, start: World, run: seq<Event>, n: nat)
    requires Configured(cfg) && NewAccount(start) && Runs(cfg, start, run) && Alone(cfg, start, run)
    requires cfg.threshold <= n <= |After(cfg, start, run).failures|
    ensures var f := After(cfg, start, run).failures;
            f[n - 1] >= f[cfg.threshold - 1] + (n - cfg.threshold) * cfg.duration
  {
    TrackedAlways(cfg, start, run);
    GuessBound(cfg, start, run, n);
  }

  /**
    A lock never stretches: between requests the account is locked exactly from its threshold-th
    failure on, until one lock after the last wrong password that was judged. Attempts refused
    meanwhile move neither end.
  */
  lemma LockEndsOnTime(cfg: Settings, start: World, run: seq<Event>, now: int)
    requires Configured(cfg) && NewAccount(start) && Runs(cfg, start, run) && Alone(cfg, start, run)
    requires After(cfg, start, run).saving == map[]
    ensures var w := After(cfg, start, run);
            IsLocked(w.account, now)
            <==> |w.failures| >= cfg.threshold && now < w.failures[|w.failures| - 1] + cfg.duration
    ensures var w := After(cfg, start, run);
            IsLocked(w.account, now) ==> forall k, door, password :: k !in w.saving ==>
                Do(cfg, w, Try(k, door, password, now)) == w
  {
    TrackedAlways(cfg, start, run);
  }

  // ---------------------------------------------------------------- two at once

  lemma OneMore(cfg: Settings, start: World, run: seq<Event>, e: Event)
    requires Runs(cfg, start, run) && Enabled(After(cfg, start, run), e)
    ensures Runs(cfg, start, run + [e]) && After(cfg, start, run + [e]) == Do(cfg, After(cfg, start, run), e)
    ensures run == [] ==> run + [e] == [e]
  {
    assert (run + [e])[..|run|] == run;
  }

  /**
    Two wrong passwords read against one account before either is saved count as one, so a third is
    judged at the same instant although the threshold is two.
  */
  lemma TwoAtOnceCountOnce(start: World) returns (run: seq<Event>)
    requires NewAccount(start) && start.account.active && start.account.password == "correct horse"
    ensures var cfg := Settings(2, 900);
            && Runs(cfg, start, run)
            && var f := After(cfg, start, run).failures;
               f == [0, 0, 0] && f[3 - 1] < f[cfg.threshold - 1] + (3 - cfg.threshold) * cfg.duration
  {
    var cfg := Settings(2, 900);
    var t0, t1, t2 := Try(0, Login, "a", 0), Try(1, Confirm, "b", 0), Try(2, Login, "c", 0);
    OneMore(cfg, start, [], t0);
    OneMore(cfg, start, [t0], t1);
    OneMore(cfg, start, [t0] + [t1], Save(0));
    OneMore(cfg, start, [t0] + [t1] + [Save(0)], Save(1));
    OneMore(cfg, start, [t0] + [t1] + [Save(0)] + [Save(1)], t2);
    run := [t0] + [t1] + [Save(0)] + [Save(1)] + [t2];
  }

  // ---------------------------------------------------------------- when a new password stands

  ghost predicate NoNewPassword(run: seq<Event>) { forall i :: 0 <= i < |run| ==> !run[i].SetPassword? }

  /** From here on, until another is set, the password is this one. */
  ghost predicate Stands(cfg: Settings, w: World, password: string) {
    forall run :: Runs(cfg, w, run) && NoNewPassword(run) ==> After(cfg, w, run).account.password == password
  }

  predicate NoOlderSave(w: World) { forall k :: k in w.saving ==> w.saving[k].password == w.account.password }

  lemma {:induction false} PasswordKept(cfg: Settings, w: World, run: seq<Event>)
    requires NoOlderSave(w) && Runs(cfg, w, run) && NoNewPassword(run)
    ensures NoOlderSave(After(cfg, w, run)) && After(cfg, w, run).account.password == w.account.password
    decreases |run|
  {
    if run == [] {
    } else {
      var before, last := run[..|run| - 1], run[|run| - 1];
      assert forall i :: 0 <= i < |before| ==> before[i] == run[i];
      PasswordKept(cfg, w, before);
      assert !last.SetPassword?;
    }
  }

  /**
    A password stands until another is set exactly when no save is pending that was read before it:
    such a save writes the older one back.
  */
  lemma NewPasswordStandsIff(cfg: Settings, w: World)
    ensures Stands(cfg, w, w.account.password) <==> NoOlderSave(w)
  {
    if NoOlderSave(w) {
      forall run | Runs(cfg, w, run) && NoNewPassword(run)
        ensures After(cfg, w, run).account.password == w.account.password
      {
        PasswordKept(cfg, w, run);
      }
    } else {
      var k :| k in w.saving && w.saving[k].password != w.account.password;
      OneMore(cfg, w, [], Save(k));
      assert NoNewPassword([Save(k)]) && After(cfg, w, [Save(k)]).account.password == w.saving[k].password;
    }
  }
}
