/**
  Login sessions: the two deadlines of one session, the table's trim to a cap, and the life of every
  session over any run of logins, uses, sweeps and revocations.

  Instants and lifetimes are whole microseconds. A token names one row, by its hash, so a session is
  presented here by its id.
*/
module Sessions {
  import opened FiniteSets
  import opened Integers
  import opened Options
  import opened Preferences
  import Stamps

  type SessionId = string
  type AccountId = string

  const SECOND := 1_000_000

  datatype Session = Session(
    account: AccountId, createdAt: int, lastUsedAt: int, expiresAt: int, absoluteExpiresAt: int,
    idle: Option<int>)               // the idle time stamped at creation; none on older rows

  // ---------------------------------------------------------------- one session

  predicate IsExpired(s: Session, now: int) { now >= s.expiresAt || now >= s.absoluteExpiresAt }

  function Touched(s: Session, now: int, idle: int): Session {
    s.(lastUsedAt := now, expiresAt := Min(now + idle, s.absoluteExpiresAt))
  }

  function Opened(account: AccountId, p: Preferences, now: int): Session {
    Session(account, now, now, now + p.sessionTtl * SECOND, now + p.sessionAbsoluteTtl * SECOND,
            Some(p.sessionTtl * SECOND))
  }

  function IdleOf(d: Preferences, s: Session): int {
    if s.idle.Some? then s.idle.value else d.sessionTtl * SECOND
  }

  // ---------------------------------------------------------------- the table

  type Rows = map<SessionId, Session>

  /** A row no query returns past either of its deadlines. */
  function Find(rows: Rows, id: SessionId, now: int): Option<Session> {
    if id in rows && rows[id].expiresAt > now && rows[id].absoluteExpiresAt > now then Some(rows[id]) else None
  }

  function Saved(rows: Rows, id: SessionId, s: Session): Rows {
    if id in rows
    then rows[id := rows[id].(lastUsedAt := s.lastUsedAt, expiresAt := s.expiresAt,
                              absoluteExpiresAt := s.absoluteExpiresAt)]
    else rows
  }

  function Of(rows: Rows, account: AccountId): set<SessionId> { set id | id in rows && rows[id].account == account }

  /** Newer, or as new with the later id. */
  predicate Higher(rows: Rows, a: SessionId, b: SessionId)
    requires a in rows && b in rows
  {
    rows[a].createdAt > rows[b].createdAt || (rows[a].createdAt == rows[b].createdAt && Stamps.TextLess(b, a))
  }

  function Above(rows: Rows, among: set<SessionId>, id: SessionId): set<SessionId>
    requires among <= rows.Keys && id in rows
  {
    set other | other in among && Higher(rows, other, id)
  }

  /** The account's rows but for those past the first `cap`, newest first; everybody else's as they are. */
  function Trim(rows: Rows, account: AccountId, cap: nat): Rows {
    map id | id in rows && (rows[id].account != account || |Above(rows, Of(rows, account), id)| < cap) :: rows[id]
  }

  function Swept(rows: Rows, now: int): Rows { map id | id in rows && !IsExpired(rows[id], now) :: rows[id] }

  /** An account's rows gone, but for the one session that is kept, if any. */
  function WithoutAccount(rows: Rows, account: AccountId, keep: Option<SessionId>): Rows {
    map id | id in rows && (rows[id].account != account || keep == Some(id)) :: rows[id]
  }

  class SessionStore {
    var rows: Rows

    constructor ()
      ensures rows == map[]
    {
      rows := map[];
    }

    /** Stored and trimmed in one transaction. */
    method AddWithinCap(id: SessionId, s: Session, cap: nat) returns (gone: nat)
      requires id !in rows
      modifies this
      ensures rows == Trim(old(rows)[id := s], s.account, cap)
      ensures gone == |old(rows)| + 1 - |rows|
      ensures forall x :: x in rows ==> (x == id && rows[x] == s) || (x in old(rows) && rows[x] == old(rows)[x])
      ensures forall x :: x in old(rows) && old(rows)[x].account != s.account ==> x in rows
      ensures |Of(rows, s.account)| == Min(cap, |Of(old(rows), s.account)| + 1)
    {
      AddedCount(rows, id, s, cap);
      rows := rows[id := s];
      var all := rows;
      rows := Trim(rows, s.account, cap);
      SubsetSize(rows.Keys, all.Keys);
      gone := |all| - |rows|;
    }

    method GetByTokenHash(id: SessionId, now: int) returns (found: Option<Session>)
      ensures found == Find(rows, id, now)
      ensures found.Some? <==> id in rows && now < rows[id].expiresAt && now < rows[id].absoluteExpiresAt
      ensures found.Some? ==> found.value == rows[id]
    {
      if id !in rows || rows[id].expiresAt <= now || rows[id].absoluteExpiresAt <= now {
        return None;
      }
      return Some(rows[id]);
    }

    method Save(id: SessionId, s: Session)
      modifies this
      ensures rows == Saved(old(rows), id, s)
      ensures rows.Keys == old(rows).Keys && forall x :: x in rows && x != id ==> rows[x] == old(rows)[x]
      ensures id in rows ==>
                rows[id] == Session(old(rows)[id].account, old(rows)[id].createdAt, s.lastUsedAt, s.expiresAt,
                                    s.absoluteExpiresAt, old(rows)[id].idle)
    {
      if id in rows {
        rows := rows[id := rows[id].(lastUsedAt := s.lastUsedAt, expiresAt := s.expiresAt,
                                     absoluteExpiresAt := s.absoluteExpiresAt)];
      }
    }

    method Revoke(id: SessionId) returns (was: bool)
      modifies this
      ensures was == (id in old(rows)) && rows == old(rows) - {id}
    {
      was := id in rows;
      rows := rows - {id};
    }

    /** The account is left with no session but the kept one; other people's are as they were. */
    method RevokeAll(account: AccountId, keep: Option<SessionId>) returns (gone: nat)
      modifies this
      ensures forall id :: id in rows <==> id in old(rows) && (old(rows)[id].account == account ==> keep == Some(id))
      ensures forall id :: id in rows ==> rows[id] == old(rows)[id]
      ensures rows == WithoutAccount(old(rows), account, keep)
      ensures gone == |old(rows)| - |rows|
    {
      var all := rows;
      rows := WithoutAccount(rows, account, keep);
      SubsetSize(rows.Keys, all.Keys);
      gone := |all| - |rows|;
    }

    /** Only sessions no query would find any more go, now or later. */
    method PurgeExpired(now: int) returns (gone: nat)
      modifies this
      ensures forall id, t :: now <= t ==> Find(rows, id, t) == Find(old(rows), id, t)
      ensures forall id :: id in rows ==> id in old(rows) && rows[id] == old(rows)[id]
      ensures forall id :: id in old(rows) ==>
                (id in rows <==> now < old(rows)[id].expiresAt && now < old(rows)[id].absoluteExpiresAt)
      ensures rows == Swept(old(rows), now)
      ensures gone == |old(rows)| - |rows|
    {
      var all := rows;
      rows := Swept(rows, now);
      SubsetSize(rows.Keys, all.Keys);
      gone := |all| - |rows|;
    }
  }

  // ---------------------------------------------------------------- the trim

  lemma HigherIsTotal(rows: Rows, a: SessionId, b: SessionId)
    requires a in rows && b in rows
    ensures a == b || Higher(rows, a, b) || Higher(rows, b, a)
    ensures !(Higher(rows, a, b) && Higher(rows, b, a))
  {
    Stamps.TextTotal(a, b);
  }

  lemma HigherIsTransitive(rows: Rows, a: SessionId, b: SessionId, c: SessionId)
    requires a in rows && b in rows && c in rows && Higher(rows, a, b) && Higher(rows, b, c)
    ensures Higher(rows, a, c)
  {
    if Stamps.TextLess(c, b) && Stamps.TextLess(b, a) {
      Stamps.TextTransitive(c, b, a);
    }
  }

  lemma {:induction false} Lowest(rows: Rows, among: set<SessionId>) returns (low: SessionId)
    requires among != {} && among <= rows.Keys
    ensures low in among && forall other :: other in among && other != low ==> Higher(rows, other, low)
    decreases |among|
  {
    var any :| any in among;
    if among == {any} {
      low := any;
    } else {
      var rest := Lowest(rows, among - {any});
      HigherIsTotal(rows, any, rest);
      low := if Higher(rows, any, rest) then rest else any;
      forall other | other in among && other != low ensures Higher(rows, other, low) {
        if low == any && other != rest {
          HigherIsTransitive(rows, other, rest, any);
        }
      }
    }
  }

  function First(rows: Rows, among: set<SessionId>, cap: nat): set<SessionId>
    requires among <= rows.Keys
  {
    set id | id in among && |Above(rows, among, id)| < cap
  }

  /** Exactly the first `cap` have fewer than `cap` above them. */
  lemma {:induction false} FirstCount(rows: Rows, among: set<SessionId>, cap: nat)
    requires among <= rows.Keys
    ensures |First(rows, among, cap)| == Min(cap, |among|)
    decreases |among|
  {
    if among == {} {
      assert First(rows, among, cap) == {};
    } else {
      var low := Lowest(rows, among);
      var rest := among - {low};
      FirstCount(rows, rest, cap);
      forall id | id in rest ensures Above(rows, rest, id) == Above(rows, among, id) {
        HigherIsTotal(rows, id, low);
      }
      HigherIsTotal(rows, low, low);
      assert Above(rows, among, low) == rest;
      assert First(rows, among, cap) == First(rows, rest, cap) + (if |rest| < cap then {low} else {});
    }
  }

  lemma AboveLess(rows: Rows, among: set<SessionId>, high: SessionId, low: SessionId)
    requires among <= rows.Keys && high in rows && low in rows && Higher(rows, high, low)
    ensures |Above(rows, among, high)| <= |Above(rows, among, low)|
  {
    forall id | id in Above(rows, among, high) ensures id in Above(rows, among, low) {
      HigherIsTransitive(rows, id, high, low);
    }
    SubsetSize(Above(rows, among, high), Above(rows, among, low));
  }

  lemma KeptOf(rows: Rows, account: AccountId, cap: nat)
    ensures Of(Trim(rows, account, cap), account) == First(rows, Of(rows, account), cap)
  {
  }

  lemma AddedCount(rows: Rows, id: SessionId, s: Session, cap: nat)
    requires id !in rows
    ensures |Of(Trim(rows[id := s], s.account, cap), s.account)| == Min(cap, |Of(rows, s.account)| + 1)
  {
    TrimCount(rows[id := s], s.account, cap);
    OneMoreOf(rows, id, s);
  }

  lemma TrimCount(rows: Rows, account: AccountId, cap: nat)
    ensures |Of(Trim(rows, account, cap), account)| == Min(cap, |Of(rows, account)|)
  {
    KeptOf(rows, account, cap);
    FirstCount(rows, Of(rows, account), cap);
  }

  lemma OneMoreOf(rows: Rows, id: SessionId, s: Session)
    requires id !in rows
    ensures |Of(rows[id := s], s.account)| == |Of(rows, s.account)| + 1
  {
    assert Of(rows[id := s], s.account) == Of(rows, s.account) + {id};
  }

  lemma KeptAreHigher(rows: Rows, among: set<SessionId>, cap: nat, a: SessionId, b: SessionId)
    requires among <= rows.Keys && a in First(rows, among, cap) && b in among - First(rows, among, cap)
    ensures Higher(rows, a, b)
  {
    HigherIsTotal(rows, a, b);
    if Higher(rows, b, a) {
      AboveLess(rows, among, b, a);
    }
  }

  /** The account keeps exactly its `cap` greatest rows by creation and id, and nobody else loses any. */
  lemma TrimKeepsTheGreatest(rows: Rows, account: AccountId, cap: nat)
    ensures var r := Trim(rows, account, cap);
            && (forall id :: id in r ==> id in rows && r[id] == rows[id])
            && (forall id :: id in rows && rows[id].account != account ==> id in r)
            && |Of(r, account)| == Min(cap, |Of(rows, account)|)
            && (forall a, b :: a in Of(r, account) && b in Of(rows, account) - Of(r, account) ==>
                  rows[a].createdAt > rows[b].createdAt
                    || (rows[a].createdAt == rows[b].createdAt && Stamps.TextLess(b, a)))
  {
    var r, mine := Trim(rows, account, cap), Of(rows, account);
    KeptOf(rows, account, cap);
    FirstCount(rows, mine, cap);
    forall a, b | a in Of(r, account) && b in mine - Of(r, account)
      ensures rows[a].createdAt > rows[b].createdAt || (rows[a].createdAt == rows[b].createdAt && Stamps.TextLess(b, a))
    {
      KeptAreHigher(rows, mine, cap, a, b);
    }
  }

  /** A session newer than every other of the account survives its own trim. */
  lemma NewestSurvives(rows: Rows, id: SessionId, cap: nat)
    requires id in rows && cap > 0
    requires forall other :: other in Of(rows, rows[id].account) && other != id ==>
             rows[other].createdAt < rows[id].createdAt
    ensures id in Trim(rows, rows[id].account, cap)
  {
    HigherIsTotal(rows, id, id);
    assert Above(rows, Of(rows, rows[id].account), id) == {};
  }

  // ---------------------------------------------------------------- one session used again and again

  /** A session's attempts one after another: each finds it live and extends it, or finds nothing. */
  function Attempt(rows: Rows, id: SessionId, now: int): Rows {
    var found := Find(rows, id, now);
    if found.Some? && found.value.idle.Some? then Saved(rows, id, Touched(found.value, now, found.value.idle.value))
        else rows
  }

  function Attempts(rows: Rows, id: SessionId, times: seq<int>): Rows {
    if times == [] then rows else Attempt(Attempts(rows, id, times[..|times| - 1]), id, times[|times| - 1])
  }

  function Earlier(created: int, times: seq<int>, i: nat): int
    requires i <= |times|
  {
    if i == 0 then created else times[i - 1]
  }

  predicate InOrder(created: int, times: seq<int>) {
    forall i :: 0 <= i < |times| ==> Earlier(created, times, i) <= times[i]
  }

  /** No gap since creation reaches the idle time, and the ceiling is still ahead. */
  predicate KeptUp(created: int, idle: int, ceiling: int, times: seq<int>) {
    forall i :: 0 <= i < |times| ==> times[i] - Earlier(created, times, i) < idle && times[i] < ceiling
  }

  lemma OneMore(created: int, idle: int, ceiling: int, times: seq<int>, next: int)
    ensures var all := times + [next];
            && (KeptUp(created, idle, ceiling, all)
                <==>
                && KeptUp(created, idle, ceiling, times)
                && next - Earlier(created, times, |times|) < idle && next < ceiling)
            && (InOrder(created, all) <==> InOrder(created, times) && Earlier(created, times, |times|) <= next)
  {
    var all := times + [next];
    assert forall i :: 0 <= i < |times| ==>
      all[i] == times[i] && Earlier(created, all, i) == Earlier(created, times, i);
    assert Earlier(created, all, |times|) == Earlier(created, times, |times|) && all[|times|] == next;
  }

  predicate Intact(rows: Rows, id: SessionId, s: Session) {
    && id in rows && s.idle.Some?
    && rows[id].absoluteExpiresAt == s.absoluteExpiresAt && rows[id].idle == s.idle
    && rows[id].expiresAt == Min(rows[id].lastUsedAt + s.idle.value, s.absoluteExpiresAt)
  }

  lemma AttemptMoves(rows: Rows, id: SessionId, s: Session, now: int)
    requires Intact(rows, id, s)
    ensures var live := now < rows[id].lastUsedAt + s.idle.value && now < s.absoluteExpiresAt;
            && Intact(Attempt(rows, id, now), id, s)
            && (Find(rows, id, now).Some? <==> live)
            && Attempt(rows, id, now)[id].lastUsedAt == if live then now else rows[id].lastUsedAt
  {
  }

  /**
    Over any sequence of attempts, the next one resolves exactly when no gap since the session was
    opened has reached its idle time and its ceiling has not passed; while that holds, the last
    attempt is the last use.
  */
  lemma {:induction false} ResolvesIffKeptUp(account: AccountId, p: Preferences, id: SessionId, created: int,
                                             times: seq<int>, next: int)
    requires 0 < p.sessionTtl <= p.sessionAbsoluteTtl && InOrder(created, times + [next])
    ensures var s := Opened(account, p, created);
            var rows := Attempts(map[id := s], id, times);
            && Intact(rows, id, s)
            && rows[id].lastUsedAt <= Earlier(created, times, |times|)
            && (KeptUp(created, s.idle.value, s.absoluteExpiresAt, times) ==>
               rows[id].lastUsedAt == Earlier(created, times, |times|))
            && (Find(rows, id, next).Some? <==> KeptUp(created, s.idle.value, s.absoluteExpiresAt, times + [next]))
    decreases |times|
  {
    var s := Opened(account, p, created);
    var idle, ceiling := s.idle.value, s.absoluteExpiresAt;
    OneMore(created, idle, ceiling, times, next);
    if times == [] {
    } else {
      var init, last := times[..|times| - 1], times[|times| - 1];
      assert init + [last] == times;
      OneMore(created, idle, ceiling, init, last);
      ResolvesIffKeptUp(account, p, id, created, init, last);
      AttemptMoves(Attempts(map[id := s], id, init), id, s, last);
    }
    AttemptMoves(Attempts(map[id := s], id, times), id, s, next);
  }
}
