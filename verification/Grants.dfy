/**
  Invites and password resets: one table of single-use tokens, and what interleaved requests can do
  with it. A token names one row, by its hash, so a token is presented here by its grant's id.
*/
module Grants {
  import opened Options

  type GrantId = string
  type AccountId = string

  datatype Purpose = Invite | PasswordReset

  datatype Grant = Grant(
    purpose: Purpose, createdAt: int, expiresAt: int, email: Option<string>, account: Option<AccountId>,
    redeemedAt: Option<int>, revoked: bool)

  type Table = map<GrantId, Grant>

  predicate IsRedeemable(g: Grant, now: int) { g.redeemedAt.None? && !g.revoked && now < g.expiresAt }

  /** The one conditional update: whoever it returns a row to has won. */
  function Redeemed(t: Table, id: GrantId, now: int): (Table, Option<Grant>) {
    if id in t && IsRedeemable(t[id], now)
    then var g := t[id].(redeemedAt := Some(now)); (t[id := g], Some(g))
    else (t, None)
  }

  function RevokedAll(t: Table, account: AccountId, purpose: Purpose): Table {
    map id | id in t :: if t[id].account == Some(account) && t[id].purpose == purpose then t[id].(revoked := true)
        else t[id]
  }

  function Purged(t: Table, now: int): Table { map id | id in t && t[id].expiresAt > now :: t[id] }

  function Minted(purpose: Purpose, email: Option<string>, account: Option<AccountId>, ttl: int, now: int): Grant {
    Grant(purpose, now, now + ttl, email, account, None, false)
  }

  class GrantStore {
    var table: Table

    constructor ()
      ensures table == map[]
    {
      table := map[];
    }

    method Add(id: GrantId, g: Grant)
      requires id !in table
      modifies this
      ensures table == old(table)[id := g]
    {
      table := table[id := g];
    }

    method Redeem(id: GrantId, now: int) returns (won: Option<Grant>)
      modifies this
      ensures (table, won) == Redeemed(old(table), id, now)
      ensures won.Some? <==>
                && id in old(table) && old(table)[id].redeemedAt.None? && !old(table)[id].revoked
                && now < old(table)[id].expiresAt
      ensures won.Some? ==> won.value == old(table)[id].(redeemedAt := Some(now))
      ensures table == if won.Some? then old(table)[id := won.value] else old(table)
    {
      if id !in table || table[id].redeemedAt.Some? || table[id].revoked || table[id].expiresAt <= now {
        return None;
      }
      won := Some(table[id].(redeemedAt := Some(now)));
      table := table[id := won.value];
    }

    /** No grant of that purpose and account can be redeemed any more; no other row is touched, and none goes. */
    method RevokeAllForAccount(account: AccountId, purpose: Purpose)
      modifies this
      ensures table.Keys == old(table).Keys
      ensures forall id :: id in table && table[id].account == Some(account) && table[id].purpose == purpose ==>
                (forall now :: Redeemed(table, id, now) == (table, None))
                    && table[id] == old(table)[id].(revoked := true)
      ensures forall id :: id in table && !(table[id].account == Some(account) && table[id].purpose == purpose) ==>
                table[id] == old(table)[id]
      ensures table == RevokedAll(old(table), account, purpose)
    {
      table := RevokedAll(table, account, purpose);
    }

    method PurgeExpired(now: int) returns (gone: nat)
      modifies this
      ensures table == Purged(old(table), now)
      ensures forall id :: id in table <==> id in old(table) && now < old(table)[id].expiresAt
      ensures forall id :: id in table ==> table[id] == old(table)[id]
      ensures gone == |old(table)| - |table|
    {
      var all := table;
      table := Purged(table, now);
      assert all.Keys == table.Keys + (all.Keys - table.Keys);
      gone := |all| - |table|;
    }
  }

  // ---------------------------------------------------------------- runs

  /** Issuing a reset is two statements: revoke the account's others, then add the new one. */
  datatype World = World(
    table: Table,
    minting: map<nat, AccountId>,
    clock: int,
    born: Table,
    redemptions: seq<GrantId>)

  datatype Event =
    | Tick(to: int)
    | AddInvite(id: GrantId, email: string, ttl: int, reading: int)
    | BeginReset(k: nat, account: AccountId)
    | AddReset(k: nat, id: GrantId, ttl: int, reading: int)
    | Redeem(id: GrantId, reading: int)
    | NewPassword(account: AccountId)
    | Sweep(reading: int)
    | DropAccount(account: AccountId)

  predicate Enabled(w: World, e: Event) {
    match e
    case Tick(to) => w.clock <= to
    case AddInvite(id, _, _, reading) => id !in w.born && reading <= w.clock
    case BeginReset(k, _) => k !in w.minting
    case AddReset(k, id, _, reading) => k in w.minting && id !in w.born && reading <= w.clock
    case Redeem(_, reading) => reading <= w.clock
    case NewPassword(_) => true
    case Sweep(reading) => reading <= w.clock
    case DropAccount(_) => true
  }

  function Added(w: World, id: GrantId, g: Grant): World { w.(table := w.table[id := g], born := w.born[id := g]) }

  function Do(w: World, e: Event): World
    requires Enabled(w, e)
  {
    match e
    case Tick(to) => w.(clock := to)
    case AddInvite(id, email, ttl, reading) => Added(w, id, Minted(Invite, Some(email), None, ttl, reading))
    case BeginReset(k, account) =>
      w.(table := RevokedAll(w.table, account, PasswordReset), minting := w.minting[k := account])
    case AddReset(k, id, ttl, reading) =>
      Added(w, id, Minted(PasswordReset, None, Some(w.minting[k]), ttl, reading)).(minting := w.minting - {k})
    case Redeem(id, reading) =>
      var (table, won) := Redeemed(w.table, id, reading);
      w.(table := table, redemptions := if won.Some? then w.redemptions + [id] else w.redemptions)
    case NewPassword(account) => w.(table := RevokedAll(w.table, account, PasswordReset))
    case Sweep(reading) => w.(table := Purged(w.table, reading))
    case DropAccount(account) => w.(table :=
      map id | id in w.table && w.table[id].account != Some(account) :: w.table[id])
  }

  ghost predicate Runs(start: World, run: seq<Event>)
    decreases |run|, 0
  {
    run == [] || (Runs(start, run[..|run| - 1]) && Enabled(After(start, run[..|run| - 1]), run[|run| - 1]))
  }

  ghost function After(start: World, run: seq<Event>): World
    requires Runs(start, run)
    decreases |run|, 1
  {
    if run == [] then start else Do(After(start, run[..|run| - 1]), run[|run| - 1])
  }

  ghost predicate Started(w: World) {
    w.table == map[] && w.minting == map[] && w.born == map[] && w.redemptions == []
  }

  // ---------------------------------------------------------------- redeemed once

  /** A row is its grant as minted, used or revoked since, and its redemption is on record. */
  ghost predicate Recorded(w: World) {
    && (forall id :: id in w.table ==>
          && id in w.born
          && w.table[id] == w.born[id].(redeemedAt := w.table[id].redeemedAt, revoked := w.table[id].revoked)
          && (w.table[id].redeemedAt.Some? <==> id in w.redemptions)
          && (w.table[id].redeemedAt.Some? ==> w.table[id].redeemedAt.value < w.table[id].expiresAt))
    && (forall i :: 0 <= i < |w.redemptions| ==> w.redemptions[i] in w.born)
    && (forall i, j :: 0 <= i < j < |w.redemptions| ==> w.redemptions[i] != w.redemptions[j])
  }

  lemma RedeemKeepsRecorded(w: World, e: Event)
    requires Enabled(w, e) && e.Redeem? && Recorded(w)
    ensures Recorded(Do(w, e)) && w.redemptions <= Do(w, e).redemptions
  {
    var w' := Do(w, e);
    if w'.redemptions != w.redemptions {
      assert w'.redemptions == w.redemptions + [e.id] && e.id !in w.redemptions;
      assert forall id :: id in w'.redemptions <==> id in w.redemptions || id == e.id;
    }
  }

  lemma OthersKeepRecorded(w: World, e: Event)
    requires Enabled(w, e) && !e.Redeem? && Recorded(w)
    ensures Recorded(Do(w, e)) && w.redemptions <= Do(w, e).redemptions
  {
    assert Do(w, e).redemptions == w.redemptions;
    if e.AddInvite? || e.AddReset? {
      assert e.id !in w.redemptions;
    }
  }

  lemma StepKeepsRecorded(w: World, e: Event)
    requires Enabled(w, e) && Recorded(w)
    ensures Recorded(Do(w, e))
    ensures w.redemptions <= Do(w, e).redemptions
  {
    if e.Redeem? {
      RedeemKeepsRecorded(w, e);
    } else {
      OthersKeepRecorded(w, e);
    }
  }

  /** Across any run, whatever is presented where and whenever, no grant is redeemed twice. */
  lemma {:induction false} RedeemedOnce(start: World, run: seq<Event>)
    requires Started(start) && Runs(start, run)
    ensures Recorded(After(start, run))
    decreases |run|
  {
    if run == [] {
    } else {
      RedeemedOnce(start, run[..|run| - 1]);
      StepKeepsRecorded(After(start, run[..|run| - 1]), run[|run| - 1]);
    }
  }

  /** The endpoint a token was presented at: a grant of the other purpose is refused, and spent all the same. */
  function Accepted(t: Table, id: GrantId, purpose: Purpose, now: int): (Table, Option<Grant>) {
    var (t', won) := Redeemed(t, id, now);
    (t', if won.Some? && won.value.purpose == purpose then won else None)
  }

  lemma WrongEndpointSpends(t: Table, id: GrantId, purpose: Purpose, now: int, later: int, again: Purpose)
    requires id in t && t[id].purpose != purpose
    ensures var (t', got) := Accepted(t, id, purpose, now);
            got.None? && (IsRedeemable(t[id], now) ==> Accepted(t', id, again, later) == (t', None))
  {
  }

  // ---------------------------------------------------------------- dead for good

  /** A reset that can never be used again: used, revoked, or its row is gone. */
  ghost predicate Dead(w: World, id: GrantId) {
    id in w.born && (id in w.table ==> w.table[id].redeemedAt.Some? || w.table[id].revoked)
  }

  lemma {:induction false} DeadForGood(w: World, run: seq<Event>, id: GrantId)
    requires Runs(w, run) && Recorded(w) && Dead(w, id)
    ensures var w' := After(w, run);
            && Recorded(w') && Dead(w', id) && (forall t :: Redeemed(w'.table, id, t).1.None?)
            && (id in w'.redemptions <==> id in w.redemptions)
    decreases |run|
  {
    if run == [] {
    } else {
      var init, e := run[..|run| - 1], run[|run| - 1];
      DeadForGood(w, init, id);
      StepKeepsRecorded(After(w, init), e);
    }
  }

  /**
    After a password is set, no reset of that account minted before is ever redeemed again, not even
    one whose link is presented at the same time. A reset that is only begun by then, and minted
    after, is not among them.
  */
  lemma NewPasswordEndsResets(start: World, before: seq<Event>, account: AccountId, later: seq<Event>, id: GrantId)
    requires Started(start) && Runs(start, before)
    requires Runs(Do(After(start, before), NewPassword(account)), later)
    requires var w := After(start, before);
             id in w.born && w.born[id].purpose == PasswordReset && w.born[id].account == Some(account)
    ensures var w' := After(Do(After(start, before), NewPassword(account)), later);
            && (forall t :: Redeemed(w'.table, id, t).1.None?)
            && (id in w'.redemptions <==> id in After(start, before).redemptions)
  {
    RedeemedOnce(start, before);
    var w := After(start, before);
    StepKeepsRecorded(w, NewPassword(account));
    assert Dead(Do(w, NewPassword(account)), id) by {
      if id in w.table {
        assert w.table[id].account == Some(account) && w.table[id].purpose == PasswordReset;
      }
    }
    DeadForGood(Do(w, NewPassword(account)), later, id);
  }

  // ---------------------------------------------------------------- one live reset

  predicate Open(w: World, account: AccountId, id: GrantId) {
    && id in w.table && w.table[id].account == Some(account) && w.table[id].purpose == PasswordReset
    && w.table[id].redeemedAt.None? && !w.table[id].revoked
  }

  /** No reset is begun for an account while another is between its two statements. */
  predicate Apart(w: World, e: Event) { e.BeginReset? ==> forall k :: k in w.minting ==> w.minting[k] != e.account }

  ghost predicate AllApart(start: World, run: seq<Event>)
    requires Runs(start, run)
  {
    run == [] || (AllApart(start, run[..|run| - 1]) && Apart(After(start, run[..|run| - 1]), run[|run| - 1]))
  }

  ghost predicate OneOpen(w: World) {
    && (forall account, a, b :: Open(w, account, a) && Open(w, account, b) ==> a == b)
    && (forall k, a :: k in w.minting && Open(w, w.minting[k], a) ==> false)
    && (forall j, k :: j in w.minting && k in w.minting && w.minting[j] == w.minting[k] ==> j == k)
  }

  lemma StepKeepsOneOpen(w: World, e: Event)
    requires Enabled(w, e) && OneOpen(w) && Apart(w, e)
    ensures OneOpen(Do(w, e))
  {
    var w' := Do(w, e);
    forall account, a | Open(w', account, a)
      ensures Open(w, account, a) || (e.AddReset? && a == e.id && account == w.minting[e.k])
    {
    }
    if e.BeginReset? {
      forall a ensures !Open(w', e.account, a) {
      }
    }
  }

  /** While requests for one account keep apart, at most one reset of it can be redeemed at any time. */
  lemma {:induction false} OneLiveReset(start: World, run: seq<Event>, account: AccountId, a: GrantId, b: GrantId)
    requires Started(start) && Runs(start, run) && AllApart(start, run)
    ensures OneOpen(After(start, run))
    ensures Open(After(start, run), account, a) && Open(After(start, run), account, b) ==> a == b
    decreases |run|
  {
    if run == [] {
    } else {
      OneLiveReset(start, run[..|run| - 1], account, a, b);
      StepKeepsOneOpen(After(start, run[..|run| - 1]), run[|run| - 1]);
    }
  }

  /** Between a request's two statements no older reset of the account opens again. */
  lemma {:induction false} OldStayShut(w: World, run: seq<Event>, account: AccountId, id: GrantId)
    requires Recorded(w) && Runs(w, run) && id in w.born && !Open(w, account, id)
    ensures Recorded(After(w, run)) && id in After(w, run).born && !Open(After(w, run), account, id)
    decreases |run|
  {
    if run == [] {
    } else {
      OldStayShut(w, run[..|run| - 1], account, id);
      StepKeepsRecorded(After(w, run[..|run| - 1]), run[|run| - 1]);
    }
  }

  /** The request's other resets, minted by somebody else since it began and neither used nor revoked. */
  predicate Overlapped(begun: World, w: World, account: AccountId) {
    exists a :: a in w.table && a !in begun.born && Open(w, account, a)
  }

  /**
    A request that begins, anything at all in between, and the request's second statement: the
    account is left with one live reset exactly when no other was added in between that has not been
    used or revoked since.
  */
  lemma OneLiveResetIff(w: World, k: nat, account: AccountId, run: seq<Event>, id: GrantId, ttl: int, reading: int)
    requires Recorded(w) && Enabled(w, BeginReset(k, account)) && Runs(Do(w, BeginReset(k, account)), run)
    requires var mid := After(Do(w, BeginReset(k, account)), run);
             k in mid.minting && mid.minting[k] == account && Enabled(mid, AddReset(k, id, ttl, reading))
    ensures var begun := Do(w, BeginReset(k, account));
            var mid := After(begun, run);
            var w' := Do(mid, AddReset(k, id, ttl, reading));
            && Open(w', account, id)
            && ((forall a :: Open(w', account, a) ==> a == id) <==> !Overlapped(begun, mid, account))
  {
    var begun := Do(w, BeginReset(k, account));
    StepKeepsRecorded(w, BeginReset(k, account));
    var mid := After(begun, run);
    RecordedAfter(begun, run);
    var w' := Do(mid, AddReset(k, id, ttl, reading));
    forall a | Open(mid, account, a) ensures a !in begun.born && a != id && Open(w', account, a) {
      if a in begun.born {
        OldStayShut(begun, run, account, a);
      }
    }
    forall a | Open(w', account, a) && a != id ensures Open(mid, account, a) {
    }
    if Overlapped(begun, mid, account) {
      var a :| a in mid.table && a !in begun.born && Open(mid, account, a);
      assert Open(w', account, a) && a != id;
    }
  }

  lemma {:induction false} RecordedAfter(w: World, run: seq<Event>)
    requires Recorded(w) && Runs(w, run)
    ensures Recorded(After(w, run))
    decreases |run|
  {
    if run == [] {
    } else {
      RecordedAfter(w, run[..|run| - 1]);
      StepKeepsRecorded(After(w, run[..|run| - 1]), run[|run| - 1]);
    }
  }

  /** Two requests that both revoke before either adds leave two live resets. */
  lemma TwoRequestsTwoResets() returns (start: World, run: seq<Event>)
    ensures Started(start) && Runs(start, run)
    ensures Open(After(start, run), "ada", "grant_1") && Open(After(start, run), "ada", "grant_2")
  {
    start := World(map[], map[], 0, map[], []);
    var e1, e2 := BeginReset(1, "ada"), BeginReset(2, "ada");
    var e3, e4 := AddReset(1, "grant_1", 3600, 0), AddReset(2, "grant_2", 3600, 0);
    OneMore(start, [], e1);
    OneMore(start, [e1], e2);
    assert After(start, [e1] + [e2]).minting == map[1 := "ada", 2 := "ada"];
    OneMore(start, [e1] + [e2], e3);
    assert "grant_1"[6] != "grant_2"[6];
    OneMore(start, [e1] + [e2] + [e3], e4);
    run := [e1] + [e2] + [e3] + [e4];
  }

  lemma OneMore(start: World, run: seq<Event>, e: Event)
    requires Runs(start, run) && Enabled(After(start, run), e)
    ensures Runs(start, run + [e]) && After(start, run + [e]) == Do(After(start, run), e)
    ensures run == [] ==> run + [e] == [e]
  {
    assert (run + [e])[..|run|] == run;
  }
}
