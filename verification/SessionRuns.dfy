/**
  Sessions over whole runs, with logins, uses, sweeps, revocations and status changes interleaved.

  A login judges a password and later opens a session; setting a password stores it and later ends
  sessions; anything may happen in between. Resolving a session is a read of its row, a read of its account, and a write
  of what was read with
  later deadlines: three steps with anything in between. A clock reading taken for a statement may be
  older than the statement. Every process has one configuration.
*/
module SessionRuns {
  import opened FiniteSets
  import opened Integers
  import opened Options
  import opened Preferences
  import opened Sessions

  datatype Using = Looked(id: SessionId, s: Session) | Saving(id: SessionId, s: Session)

  /** A login that found the password right, and which of the account's passwords that was. */
  datatype Login = Login(account: AccountId, password: nat)

  datatype World = World(
    rows: Rows,
    opening: map<nat, Login>,
    passwords: map<AccountId, nat>,   // how many times each account's password has been replaced
    active: set<AccountId>,
    using: map<nat, Using>,
    clock: int,
    born: Rows,                       // every session there has been, as it was opened
    lastUse: map<SessionId, int>,     // when each was opened or its use last stored
    under: map<SessionId, nat>,       // the password each was opened with
    ended: set<SessionId>)            // signed out, ended with a password, or trimmed

  datatype Event =
    | Tick(to: int)
    | Judge(k: nat, account: AccountId)
    | Open(k: nat, id: SessionId, answer: Answer, reading: int)
    | Look(k: nat, id: SessionId, reading: int)
    | Use(k: nat, reading: int)
    | Store(k: nat)
    | SignOut(id: SessionId)
    | NewPassword(account: AccountId)
    | EndAll(account: AccountId, keep: Option<SessionId>)
    | Sweep(reading: int)
    | SetActive(account: AccountId, active: bool)

  function Password(w: World, account: AccountId): nat { if account in w.passwords then w.passwords[account] else 0 }

  predicate Enabled(w: World, e: Event) {
    match e
    case Tick(to) => w.clock <= to
    case Judge(k, _) => k !in w.opening
    case Open(k, id, _, reading) => k in w.opening && id !in w.born && reading <= w.clock
    case Look(k, _, reading) => k !in w.using && reading <= w.clock
    case Use(k, reading) => k in w.using && w.using[k].Looked? && w.clock <= reading
    case Store(k) => k in w.using && w.using[k].Saving?
    case SignOut(_) => true
    case NewPassword(_) => true
    case EndAll(_, _) => true
    case Sweep(reading) => reading <= w.clock
    case SetActive(_, _) => true
  }

  function Do(d: Preferences, w: World, e: Event): World
    requires Enabled(w, e) && Deployable(d)
  {
    match e
    case Tick(to) => w.(clock := to)
    case Judge(k, account) => w.(opening := w.opening[k := Login(account, Password(w, account))])
    case Open(k, id, answer, reading) =>
      var p, login := ForAccount(d, answer), w.opening[k];
      if p.None? then w.(opening := w.opening - {k})
      else
        var s := Sessions.Opened(login.account, p.value, reading);
        var rows := Trim(w.rows[id := s], login.account, p.value.maxSessions);
        w.(rows := rows, opening := w.opening - {k}, born := w.born[id := s], lastUse := w.lastUse[id := reading],
           under := w.under[id := login.password], ended := w.ended + ((w.rows.Keys + {id}) - rows.Keys))
    case Look(k, id, reading) =>
      var found := Find(w.rows, id, reading);
      if found.Some? then w.(using := w.using[k := Looked(id, found.value)]) else w
    case Use(k, reading) =>
      var u := w.using[k];
      w.(clock := reading,
         using := if u.s.account in w.active then w.using[k := Saving(u.id, Touched(u.s, reading, IdleOf(d, u.s)))]
             else w.using - {k})
    case Store(k) =>
      var u := w.using[k];
      w.(rows := Saved(w.rows, u.id, u.s), using := w.using - {k},
         lastUse := if u.id in w.rows then w.lastUse[u.id := u.s.lastUsedAt] else w.lastUse)
    case SignOut(id) => w.(rows := w.rows - {id}, ended := w.ended + {id} * w.born.Keys)
    case NewPassword(account) => w.(passwords := w.passwords[account := Password(w, account) + 1])
    case EndAll(account, keep) =>
      var rows := WithoutAccount(w.rows, account, keep);
      w.(rows := rows, ended := w.ended + set id | id in w.born && w.born[id].account == account && keep != Some(id))
    case Sweep(reading) => w.(rows := Swept(w.rows, reading))
    case SetActive(account, active) => w.(active := if active then w.active + {account} else w.active - {account})
  }

  ghost predicate Runs(d: Preferences, start: World, run: seq<Event>)
    requires Deployable(d)
    decreases |run|, 0
  {
    run == [] || (Runs(d, start, run[..|run| - 1]) && Enabled(After(d, start, run[..|run| - 1]), run[|run| - 1]))
  }

  ghost function After(d: Preferences, start: World, run: seq<Event>): World
    requires Deployable(d) && Runs(d, start, run)
    decreases |run|, 1
  {
    if run == [] then start else Do(d, After(d, start, run[..|run| - 1]), run[|run| - 1])
  }

  // ---------------------------------------------------------------- what a run keeps

  /** A row is the session that was opened, with deadlines that say what its last use left it. */
  ghost predicate Sound(s: Session, original: Session) {
    && s == original.(lastUsedAt := s.lastUsedAt, expiresAt := s.expiresAt)
    && s.expiresAt <= s.absoluteExpiresAt
    && (s.idle.Some? ==> s.expiresAt == Min(s.lastUsedAt + s.idle.value, s.absoluteExpiresAt))
  }

  ghost predicate RowsSound(w: World) {
    && w.ended <= w.born.Keys
    && forall id :: id in w.rows ==>
      id in w.born && id in w.lastUse && id !in w.ended && Sound(w.rows[id], w.born[id])
          && w.rows[id].lastUsedAt == w.lastUse[id]
  }

  ghost predicate UsingSound(w: World) {
    forall k :: k in w.using ==> w.using[k].id in w.born && Sound(w.using[k].s, w.born[w.using[k].id])
  }

  /** A stamped session that was swept and not ended had passed one of its deadlines. */
  ghost predicate SweptExpired(w: World) {
    forall id :: id in w.born && id !in w.rows && id !in w.ended && w.born[id].idle.Some? ==>
      id in w.lastUse && Min(w.lastUse[id] + w.born[id].idle.value, w.born[id].absoluteExpiresAt) <= w.clock
  }

  ghost predicate Capped(d: Preferences, w: World) {
    forall account :: |Of(w.rows, account)| <= d.maxSessions
  }

  ghost predicate WithinDeployment(d: Preferences, w: World) {
    forall id :: id in w.born ==>
      && (w.born[id].idle.Some? ==> w.born[id].idle.value <= d.sessionTtl * SECOND)
      && w.born[id].absoluteExpiresAt <= w.born[id].createdAt + d.sessionAbsoluteTtl * SECOND
  }

  ghost predicate Inv(d: Preferences, w: World) {
    && RowsSound(w) && UsingSound(w) && SweptExpired(w) && Capped(d, w) && WithinDeployment(d, w)
    && Dated(w)
  }

  /** Every session was opened by now, with a password its account has or had. */
  ghost predicate Dated(w: World) {
    && (forall id :: id in w.born ==>
          w.born[id].createdAt <= w.clock && id in w.under && w.under[id] <= Password(w, w.born[id].account))
    && (forall k :: k in w.opening ==> w.opening[k].password <= Password(w, w.opening[k].account))
  }

  /** A process that has just started over a table in order. */
  ghost predicate Started(d: Preferences, w: World) {
    && w.using == map[] && w.opening == map[] && w.ended == {} && w.born == w.rows && Dated(w)
    && RowsSound(w) && Capped(d, w) && WithinDeployment(d, w)
  }

  lemma OpenKeepsRows(d: Preferences, w: World, e: Event)
    requires Deployable(d) && Enabled(w, e) && e.Open? && RowsSound(w)
    ensures RowsSound(Do(d, w, e))
  {
    if ForAccount(d, e.answer).Some? {
      OpenedIsSound(d, e.answer, w.opening[e.k].account, e.reading);
      var w' := Do(d, w, e);
      forall id | id in w'.rows
        ensures id in w'.born && id in w'.lastUse && id !in w'.ended && Sound(w'.rows[id], w'.born[id])
        ensures w'.rows[id].lastUsedAt == w'.lastUse[id]
      {
        OpenRow(d, w, e, id);
      }
    }
  }

  /** A row left after an opening is the new session's, or stood before. */
  lemma OpenRow(d: Preferences, w: World, e: Event, id: SessionId)
    requires Deployable(d) && Enabled(w, e) && e.Open? && RowsSound(w) && ForAccount(d, e.answer).Some?
    requires id in Do(d, w, e).rows
    ensures var w', s := Do(d, w, e), Opened(w.opening[e.k].account, ForAccount(d, e.answer).value, e.reading);
            && id in w'.born && id in w'.lastUse && id !in w'.ended
            && if id == e.id then w'.rows[id] == w'.born[id] == s && w'.lastUse[id] == s.lastUsedAt
               else
                 && id in w.rows && w'.rows[id] == w.rows[id] && w'.born[id] == w.born[id]
                 && w'.lastUse[id] == w.lastUse[id]
  {
  }

  lemma OpenedIsSound(d: Preferences, answer: Answer, account: AccountId, reading: int)
    requires Deployable(d) && ForAccount(d, answer).Some?
    ensures var s := Opened(account, ForAccount(d, answer).value, reading); Sound(s, s)
  {
    NeverWidened(d, answer);
  }

  lemma StoreKeepsRows(d: Preferences, w: World, e: Event)
    requires Deployable(d) && Enabled(w, e) && e.Store? && RowsSound(w) && UsingSound(w)
    ensures RowsSound(Do(d, w, e))
  {
  }

  lemma StepKeepsRows(d: Preferences, w: World, e: Event)
    requires Deployable(d) && Enabled(w, e) && RowsSound(w) && UsingSound(w)
    ensures RowsSound(Do(d, w, e))
  {
    match e
    case Open(_, _, _, _) => OpenKeepsRows(d, w, e);
    case Store(_) => StoreKeepsRows(d, w, e);
    case _ => OthersKeepRows(d, w, e);
  }

  lemma OthersKeepRows(d: Preferences, w: World, e: Event)
    requires Deployable(d) && Enabled(w, e) && !e.Open? && !e.Store? && RowsSound(w)
    ensures RowsSound(Do(d, w, e))
  {
  }

  lemma StepKeepsUsing(d: Preferences, w: World, e: Event)
    requires Deployable(d) && Enabled(w, e) && RowsSound(w) && UsingSound(w)
    ensures UsingSound(Do(d, w, e))
  {
  }

  lemma OpenKeepsSwept(d: Preferences, w: World, e: Event)
    requires Deployable(d) && Enabled(w, e) && e.Open? && RowsSound(w) && SweptExpired(w)
    ensures SweptExpired(Do(d, w, e))
  {
  }

  lemma SweepKeepsSwept(d: Preferences, w: World, e: Event)
    requires Deployable(d) && Enabled(w, e) && e.Sweep? && RowsSound(w) && SweptExpired(w)
    ensures SweptExpired(Do(d, w, e))
  {
    var w' := Do(d, w, e);
    forall id | id in w'.born && id !in w'.rows && id !in w'.ended && w'.born[id].idle.Some?
      ensures id in w'.lastUse
      ensures Min(w'.lastUse[id] + w'.born[id].idle.value, w'.born[id].absoluteExpiresAt) <= w'.clock
    {
      if id in w.rows {
        assert Sound(w.rows[id], w.born[id]);
      }
    }
  }

  lemma OthersKeepSwept(d: Preferences, w: World, e: Event)
    requires Deployable(d) && Enabled(w, e) && !e.Open? && !e.Sweep? && RowsSound(w) && SweptExpired(w)
    ensures SweptExpired(Do(d, w, e))
  {
  }

  lemma StepKeepsSwept(d: Preferences, w: World, e: Event)
    requires Deployable(d) && Enabled(w, e) && RowsSound(w) && SweptExpired(w)
    ensures SweptExpired(Do(d, w, e))
  {
    match e
    case Open(_, _, _, _) => OpenKeepsSwept(d, w, e);
    case Sweep(_) => SweepKeepsSwept(d, w, e);
    case _ => OthersKeepSwept(d, w, e);
  }

  lemma FewerOf(fewer: Rows, all: Rows, account: AccountId)
    requires forall id :: id in fewer ==> id in all && fewer[id].account == all[id].account
    ensures |Of(fewer, account)| <= |Of(all, account)|
  {
    SubsetSize(Of(fewer, account), Of(all, account));
  }

  lemma OpenKeepsCap(d: Preferences, w: World, e: Event, account: AccountId)
    requires Deployable(d) && Enabled(w, e) && Capped(d, w) && e.Open? && ForAccount(d, e.answer).Some?
    ensures |Of(Do(d, w, e).rows, account)| <= d.maxSessions
  {
    NeverWidened(d, e.answer);
    var w', p, owner := Do(d, w, e), ForAccount(d, e.answer).value, w.opening[e.k].account;
    var all := w.rows[e.id := Sessions.Opened(owner, p, e.reading)];
    TrimKeepsTheGreatest(all, owner, p.maxSessions);
    if account != owner {
      assert Of(w'.rows, account) <= Of(w.rows, account);
      SubsetSize(Of(w'.rows, account), Of(w.rows, account));
    }
  }

  lemma StepKeepsCap(d: Preferences, w: World, e: Event)
    requires Deployable(d) && Enabled(w, e) && Capped(d, w)
    ensures Capped(d, Do(d, w, e))
  {
    var w' := Do(d, w, e);
    forall account ensures |Of(w'.rows, account)| <= d.maxSessions {
      if e.Open? && ForAccount(d, e.answer).Some? {
        OpenKeepsCap(d, w, e, account);
      } else {
        FewerOf(w'.rows, w.rows, account);
      }
    }
  }

  lemma StepKeepsWithin(d: Preferences, w: World, e: Event)
    requires Deployable(d) && Enabled(w, e) && WithinDeployment(d, w)
    ensures WithinDeployment(d, Do(d, w, e))
  {
    if e.Open? && ForAccount(d, e.answer).Some? {
      NeverWidened(d, e.answer);
    }
  }

  lemma PasswordsGrow(d: Preferences, w: World, e: Event, account: AccountId)
    requires Deployable(d) && Enabled(w, e)
    ensures Password(w, account) <= Password(Do(d, w, e), account) && w.clock <= Do(d, w, e).clock
  {
  }

  /** The sessions and logins there are after a step, and where they come from. */
  lemma BornFrom(d: Preferences, w: World, e: Event, id: SessionId)
    requires Deployable(d) && Enabled(w, e) && id in Do(d, w, e).born
    ensures var w' := Do(d, w, e);
            || (id in w.born && w'.born[id] == w.born[id]
                && (id in w.under ==> id in w'.under && w'.under[id] == w.under[id]))
            || (e.Open? && id == e.id && id in w'.under && w'.born[id].createdAt == e.reading
                && w'.born[id].account == w.opening[e.k].account && w'.under[id] == w.opening[e.k].password)
  {
  }

  lemma OpeningFrom(d: Preferences, w: World, e: Event, k: nat)
    requires Deployable(d) && Enabled(w, e) && k in Do(d, w, e).opening
    ensures var now := Do(d, w, e).opening[k];

            || (k in w.opening && now == w.opening[k])
            || (e.Judge? && k == e.k && now == Login(e.account, Password(w, e.account)))
  {
  }

  lemma StepKeepsDated(d: Preferences, w: World, e: Event)
    requires Deployable(d) && Enabled(w, e) && Dated(w)
    ensures Dated(Do(d, w, e))
  {
    var w' := Do(d, w, e);
    forall id | id in w'.born
      ensures w'.born[id].createdAt <= w'.clock && id in w'.under && w'.under[id] <= Password(w', w'.born[id].account)
    {
      BornFrom(d, w, e, id);
      PasswordsGrow(d, w, e, w'.born[id].account);
    }
    forall k | k in w'.opening ensures w'.opening[k].password <= Password(w', w'.opening[k].account) {
      OpeningFrom(d, w, e, k);
      PasswordsGrow(d, w, e, w'.opening[k].account);
    }
  }

  lemma StepKeepsInv(d: Preferences, w: World, e: Event)
    requires Deployable(d) && Enabled(w, e) && Inv(d, w)
    ensures Inv(d, Do(d, w, e))
  {
    StepKeepsRows(d, w, e);
    StepKeepsUsing(d, w, e);
    StepKeepsSwept(d, w, e);
    StepKeepsCap(d, w, e);
    StepKeepsWithin(d, w, e);
    StepKeepsDated(d, w, e);
  }

  lemma {:induction false} InvAlways(d: Preferences, start: World, run: seq<Event>)
    requires Deployable(d) && Started(d, start) && Runs(d, start, run)
    ensures Inv(d, After(d, start, run))
    decreases |run|
  {
    if run == [] {
    } else {
      InvAlways(d, start, run[..|run| - 1]);
      StepKeepsInv(d, After(d, start, run[..|run| - 1]), run[|run| - 1]);
    }
  }

  // ---------------------------------------------------------------- theorems

  /** What `resolve_session` accepts at `t`, its reads taken together. */
  predicate Resolves(w: World, id: SessionId, t: int) {
    Find(w.rows, id, t).Some? && w.rows[id].account in w.active
  }

  /**
    A session nobody ended, of an active account, resolves exactly while less than its stamped idle
    time has passed since its last use and its ceiling is ahead; and neither deadline is ever later
    than the deployment's own, whatever was chosen.
  */
  lemma SessionLife(d: Preferences, start: World, run: seq<Event>, id: SessionId, t: int)
    requires Deployable(d) && Started(d, start) && Runs(d, start, run)
    requires var w := After(d, start, run);
             w.clock <= t && id in w.born && id !in w.ended && w.born[id].idle.Some? && w.born[id].account in w.active
    ensures var w := After(d, start, run);
            && id in w.lastUse
            && (Resolves(w, id, t) <==> t < w.lastUse[id] + w.born[id].idle.value && t < w.born[id].absoluteExpiresAt)
            && (id in w.rows ==>
                  && w.rows[id].expiresAt <= w.rows[id].absoluteExpiresAt
                  && w.rows[id].expiresAt <= w.lastUse[id] + d.sessionTtl * SECOND
                  && w.rows[id].absoluteExpiresAt <= w.born[id].createdAt + d.sessionAbsoluteTtl * SECOND)
  {
    InvAlways(d, start, run);
    var w := After(d, start, run);
    if id in w.rows {
      assert Sound(w.rows[id], w.born[id]);
    }
  }

  /** No account ever holds more sessions than the deployment allows, however many logins arrive at once. */
  lemma SessionsCapped(d: Preferences, start: World, run: seq<Event>, account: AccountId)
    requires Deployable(d) && Started(d, start) && Runs(d, start, run)
    ensures |Of(After(d, start, run).rows, account)| <= d.maxSessions
  {
    InvAlways(d, start, run);
  }

  /** An ended session never resolves again, not even through a use that was under way when it ended. */
  lemma {:induction false} EndedForGood(d: Preferences, w: World, run: seq<Event>, id: SessionId)
    requires Deployable(d) && Inv(d, w) && Runs(d, w, run) && id in w.born && id in w.ended
    ensures var w' := After(d, w, run);
            Inv(d, w') && id in w'.born && id in w'.ended && forall t :: !Resolves(w', id, t)
    decreases |run|
  {
    if run == [] {
    } else {
      var before := After(d, w, run[..|run| - 1]);
      EndedForGood(d, w, run[..|run| - 1], id);
      StepKeepsInv(d, before, run[|run| - 1]);
      EndedStays(d, before, run[|run| - 1], id);
    }
  }

  lemma EndedStays(d: Preferences, w: World, e: Event, id: SessionId)
    requires Deployable(d) && Enabled(w, e) && id in w.born && id in w.ended
    ensures id in Do(d, w, e).born && id in Do(d, w, e).ended
  {
  }

  /**
    What a new password does to sessions: every session of the account opened before, but the one
    that is kept, is over for good; the kept one and other people's are as they were.
  */
  lemma NewPasswordEndsSessions(d: Preferences, start: World, before: seq<Event>,
                                account: AccountId, keep: Option<SessionId>,
                                later: seq<Event>, id: SessionId)
    requires Deployable(d) && Started(d, start) && Runs(d, start, before)
    requires var w := Do(d, After(d, start, before), EndAll(account, keep));
             Runs(d, w, later)
    requires id in After(d, start, before).born
    ensures var was, now := After(d, start, before), Do(d, After(d, start, before), EndAll(account, keep));
            if was.born[id].account == account && keep != Some(id)
            then forall t :: !Resolves(After(d, now, later), id, t)
            else forall t :: Find(now.rows, id, t) == Find(was.rows, id, t)
  {
    InvAlways(d, start, before);
    var was := After(d, start, before);
    var now := Do(d, was, EndAll(account, keep));
    StepKeepsInv(d, was, EndAll(account, keep));
    if was.born[id].account == account && keep != Some(id) {
      EndedForGood(d, now, later, id);
    } else if id in was.rows {
      assert Sound(was.rows[id], was.born[id]);
    }
  }

  // ---------------------------------------------------------------- sessions of an old password

  /** No run from here has a session, other than the kept one, that an older password opened and that resolves. */
  ghost predicate NoneSurvives(d: Preferences, w: World, account: AccountId, keep: Option<SessionId>)
    requires Deployable(d)
  {
    forall run, id, t :: Runs(d, w, run) && OldSession(After(d, w, run), account, keep, Password(w, account), id) ==>
      !Resolves(After(d, w, run), id, t)
  }

  predicate OldSession(w: World, account: AccountId, keep: Option<SessionId>, password: nat, id: SessionId) {
    id in w.born && id in w.under && w.born[id].account == account && w.under[id] < password && keep != Some(id)
  }

  /** No login that judged an older password is still to open its session. */
  predicate NoOldLogin(w: World, account: AccountId, password: nat) {
    forall k :: k in w.opening && w.opening[k].account == account ==> password <= w.opening[k].password
  }

  ghost predicate OldEnded(w: World, account: AccountId, keep: Option<SessionId>, password: nat) {
    && password <= Password(w, account) && NoOldLogin(w, account, password)
    && forall id :: OldSession(w, account, keep, password, id) ==> id in w.ended
  }

  lemma StepKeepsOldEnded(d: Preferences, w: World, e: Event, account: AccountId, keep: Option<SessionId>,
                          password: nat)
    requires Deployable(d) && Enabled(w, e) && Dated(w) && OldEnded(w, account, keep, password)
    ensures OldEnded(Do(d, w, e), account, keep, password)
  {
    var w' := Do(d, w, e);
    PasswordsGrow(d, w, e, account);
    forall k | k in w'.opening && w'.opening[k].account == account ensures password <= w'.opening[k].password {
      OpeningFrom(d, w, e, k);
    }
    forall id | OldSession(w', account, keep, password, id) ensures id in w'.ended {
      BornFrom(d, w, e, id);
      assert w.ended <= w'.ended;
    }
  }

  lemma {:induction false} OldStayEnded(d: Preferences, w: World, run: seq<Event>, account: AccountId,
                                        keep: Option<SessionId>, password: nat)
    requires Deployable(d) && Inv(d, w) && Runs(d, w, run) && OldEnded(w, account, keep, password)
    ensures Inv(d, After(d, w, run)) && OldEnded(After(d, w, run), account, keep, password)
    decreases |run|
  {
    if run == [] {
    } else {
      var before := run[..|run| - 1];
      OldStayEnded(d, w, before, account, keep, password);
      StepKeepsInv(d, After(d, w, before), run[|run| - 1]);
      StepKeepsOldEnded(d, After(d, w, before), run[|run| - 1], account, keep, password);
    }
  }

  /** A session id longer than every other. */
  lemma {:induction false} Unused(ids: set<SessionId>) returns (id: SessionId)
    ensures forall other :: other in ids ==> |other| < |id|
    decreases |ids|
  {
    if ids == {} {
      id := "s";
    } else {
      var any :| any in ids;
      var rest := Unused(ids - {any});
      id := if |any| < |rest| then rest else any + "s";
      assert forall other :: other in ids ==> other == any || other in ids - {any};
    }
  }

  lemma OneMore(d: Preferences, start: World, run: seq<Event>, e: Event)
    requires Deployable(d) && Runs(d, start, run) && Enabled(After(d, start, run), e)
    ensures Runs(d, start, run + [e]) && After(d, start, run + [e]) == Do(d, After(d, start, run), e)
    ensures run == [] ==> run + [e] == [e]
  {
    assert (run + [e])[..|run|] == run;
  }

  lemma ActiveLater(d: Preferences, w: World, account: AccountId, now: int) returns (run: seq<Event>)
    requires Deployable(d) && w.clock <= now
    ensures Runs(d, w, run) && After(d, w, run) == w.(active := w.active + {account}, clock := now)
  {
    OneMore(d, w, [], SetActive(account, true));
    OneMore(d, w, [SetActive(account, true)], Tick(now));
    run := [SetActive(account, true)] + [Tick(now)];
  }

  /** An old login left to itself: a moment later its session is open and resolves. */
  lemma OldLoginOpens(d: Preferences, w: World, k: nat, keep: Option<SessionId>)
    returns (run: seq<Event>, id: SessionId)
    requires Deployable(d) && Inv(d, w) && k in w.opening
    requires w.opening[k].password < Password(w, w.opening[k].account)
    ensures Runs(d, w, run)
    ensures var w' := After(d, w, run);
            && OldSession(w', w.opening[k].account, keep, Password(w, w.opening[k].account), id)
            && Resolves(w', id, w'.clock)
  {
    var login, now := w.opening[k], w.clock + 1;
    id := Unused(w.born.Keys + if keep.Some? then {keep.value} else {});
    var later := ActiveLater(d, w, login.account, now);
    OneMore(d, w, later, Open(k, id, NotUsed, now));
    run := later + [Open(k, id, NotUsed, now)];
    OpensNewest(d, After(d, w, later), k, id, w.clock);
  }

  /** A session opened now, when all others are older, is there and resolves. */
  lemma OpensNewest(d: Preferences, w: World, k: nat, id: SessionId, earlier: int)
    requires Deployable(d) && RowsSound(w) && k in w.opening && id !in w.born && earlier < w.clock
    requires w.opening[k].account in w.active && forall other :: other in w.born ==> w.born[other].createdAt <= earlier
    ensures var w' := Do(d, w, Open(k, id, NotUsed, w.clock));
            && Resolves(w', id, w.clock) && id in w'.born && id in w'.under
            && w'.born[id].account == w.opening[k].account && w'.under[id] == w.opening[k].password
  {
    var owner := w.opening[k].account;
    var all := w.rows[id := Sessions.Opened(owner, d, w.clock)];
    forall other | other in Of(all, owner) && other != id ensures all[other].createdAt < w.clock {
      assert Sound(w.rows[other], w.born[other]);
    }
    NewestSurvives(all, id, d.maxSessions);
  }

  /**
    Once a new password is stored and the sessions before it are ended, no session that an older
    password opened ever resolves again, but the kept one, exactly when no login that judged an
    older password is still in flight.
  */
  lemma OldPasswordOpensNothingIff(d: Preferences, before: World, account: AccountId, keep: Option<SessionId>)
    requires Deployable(d) && Inv(d, before)
    ensures var w := Do(d, before, EndAll(account, keep));
            NoneSurvives(d, w, account, keep) <==> NoOldLogin(w, account, Password(w, account))
  {
    var w := Do(d, before, EndAll(account, keep));
    StepKeepsInv(d, before, EndAll(account, keep));
    var password := Password(w, account);
    if NoOldLogin(w, account, password) {
      assert OldEnded(w, account, keep, password);
      forall run, id, t | Runs(d, w, run) && OldSession(After(d, w, run), account, keep, password, id)
        ensures !Resolves(After(d, w, run), id, t)
      {
        OldStayEnded(d, w, run, account, keep, password);
      }
    } else {
      var k :| k in w.opening && w.opening[k].account == account && !(password <= w.opening[k].password);
      var run, id := OldLoginOpens(d, w, k, keep);
      assert Resolves(After(d, w, run), id, After(d, w, run).clock);
    }
  }
}
