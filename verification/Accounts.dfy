/**
  The account service over its three stores, each operation run to its end. What operations do to
  each other when they interleave is stated beside the stores (`SessionRuns`, `Grants`, `Lockout`).

  An address lookup, the password policy's answer, the mail cap's answer and settings-api's answer
  are parameters. Mail, logs and timing are not part of this.
*/
module Accounts {
  import opened Options
  import opened Preferences
  import Grants
  import Lockout
  import Sessions

  type AccountId = string

  class AccountService {
    const lockout: Lockout.Settings
    const deployment: Preferences
    const resetTtl: int
    const sessions: Sessions.SessionStore
    const grants: Grants.GrantStore
    var accounts: map<AccountId, Lockout.Account>

    constructor (lockout: Lockout.Settings, deployment: Preferences, resetTtl: int,
                 sessions: Sessions.SessionStore, grants: Grants.GrantStore)
      ensures this.lockout == lockout && this.deployment == deployment && this.resetTtl == resetTtl
      ensures this.sessions == sessions && this.grants == grants && accounts == map[]
    {
      this.lockout, this.deployment, this.resetTtl := lockout, deployment, resetTtl;
      this.sessions, this.grants, accounts := sessions, grants, map[];
    }

    /** One failure more, and from the threshold on a lock from now. */
    function Failed(a: Lockout.Account, now: int): Lockout.Account {
      Lockout.Account(a.password, a.active, a.failedAttempts + 1,
                      if a.failedAttempts + 1 >= lockout.threshold then Some(now + lockout.duration) else a.lockedUntil)
    }

    /** The failure state is cleared before settings-api is asked, so a refused request still clears it. */
    method Login(found: Option<AccountId>, password: string, now: int, id: Sessions.SessionId, answer: Answer)
        returns (session: Option<Sessions.Session>)
      requires Deployable(deployment) && id !in sessions.rows
      modifies this, sessions
      ensures found.None? || found.value !in old(accounts) ==> session.None? && accounts == old(accounts)
      ensures found.Some? && found.value in old(accounts) ==>
                var a := old(accounts)[found.value];
                var open := a.active && (a.lockedUntil.None? || a.lockedUntil.value <= now);
                && (session.Some? <==> open && password == a.password && ForAccount(deployment, answer).Some?)
                && (open && password == a.password ==>
                      accounts == old(accounts)[found.value := a.(failedAttempts := 0, lockedUntil := None)])
                && (open && password != a.password ==>
                      accounts == old(accounts)[found.value := Failed(a, now)])
                && (!open ==> accounts == old(accounts))
      ensures session.Some? ==>
                var p := ForAccount(deployment, answer).value;
                session.value == Sessions.Session(found.value, now, now, now + p.sessionTtl * 1_000_000,
                                                  now + p.sessionAbsoluteTtl * 1_000_000,
                                                  Some(p.sessionTtl * 1_000_000))
      ensures sessions.rows ==
        if session.Some?
        then (NeverWidened(deployment, answer);
              Sessions.Trim(old(sessions.rows)[id := session.value], session.value.account,
                            ForAccount(deployment, answer).value.maxSessions))
        else old(sessions.rows)
      ensures session.Some? ==>
                && |Sessions.Of(sessions.rows, found.value)| <= ForAccount(deployment, answer).value.maxSessions
                && forall x :: x in old(sessions.rows) && old(sessions.rows)[x].account != found.value ==>
                     x in sessions.rows && sessions.rows[x] == old(sessions.rows)[x]
    {
      if found.None? || found.value !in accounts {
        return None;
      }
      var who, a := found.value, accounts[found.value];
      if Lockout.IsLocked(a, now) || !a.active {
        assert accounts == accounts[who := a];
        return None;
      }
      if a.password != password {
        accounts := accounts[who := Lockout.WithFailure(lockout, a, now)];
        return None;
      }
      accounts := accounts[who := Lockout.WithSuccess(a)];
      var p := ForAccount(deployment, answer);
      if p.None? {
        return None;
      }
      NeverWidened(deployment, answer);
      session := Some(Sessions.Opened(who, p.value, now));
      var gone := sessions.AddWithinCap(id, session.value, p.value.maxSessions);
    }

    method ConfirmPassword(who: AccountId, password: string, now: int) returns (confirmed: bool)
      modifies this
      ensures who !in old(accounts) ==> !confirmed && accounts == old(accounts)
      ensures who in old(accounts) ==>
                var a := old(accounts)[who];
                var open := a.active && (a.lockedUntil.None? || a.lockedUntil.value <= now);
                && (confirmed <==> open && password == a.password)
                && (confirmed && a.failedAttempts != 0 ==>
                      accounts == old(accounts)[who := a.(failedAttempts := 0, lockedUntil := None)])
                && (open && !confirmed ==> accounts == old(accounts)[who := Failed(a, now)])
                && (!open || (confirmed && a.failedAttempts == 0) ==> accounts == old(accounts))
    {
      if who !in accounts {
        return false;
      }
      var a := accounts[who];
      assert accounts == accounts[who := a];
      if Lockout.IsLocked(a, now) || !a.active {
        return false;
      }
      if a.password != password {
        accounts := accounts[who := Lockout.WithFailure(lockout, a, now)];
        return false;
      }
      if a.failedAttempts != 0 {
        accounts := accounts[who := Lockout.WithSuccess(a)];
      }
      return true;
    }

    /** A live session of an active account, its idle time extended and its ceiling left alone. */
    method ResolveSession(id: Sessions.SessionId, reading: int, now: int) returns (session: Option<Sessions.Session>)
      modifies sessions
      ensures var rows := old(sessions.rows);
              session.Some? <==>
                && id in rows && reading < rows[id].expiresAt && reading < rows[id].absoluteExpiresAt
                && rows[id].account in accounts && accounts[rows[id].account].active
      ensures session.Some? ==>
                var was, s := old(sessions.rows)[id], session.value;
                var idle := if was.idle.Some? then was.idle.value else deployment.sessionTtl * 1_000_000;
                && s == was.(lastUsedAt := now, expiresAt := s.expiresAt)
                && s.expiresAt <= was.absoluteExpiresAt && s.expiresAt <= now + idle
                && (s.expiresAt == was.absoluteExpiresAt || s.expiresAt == now + idle)
      ensures sessions.rows == if session.Some? then old(sessions.rows)[id := session.value] else old(sessions.rows)
    {
      var found := sessions.GetByTokenHash(id, reading);
      if found.None? || found.value.account !in accounts || !accounts[found.value.account].active {
        return None;
      }
      var s := found.value;
      var touched := Sessions.Touched(
        s, now, if s.idle.Some? then s.idle.value else deployment.sessionTtl * Sessions.SECOND);
      sessions.Save(id, touched);
      return Some(touched);
    }

    /** A new password, and the end of everything the old one authorised but the session that is kept. */
    method SetPassword(who: AccountId, password: string, keep: Option<Sessions.SessionId>)
      requires who in accounts
      modifies this, sessions, grants
      ensures accounts == old(accounts)[who := Lockout.Account(password, old(accounts)[who].active, 0, None)]
      ensures sessions.rows == Sessions.WithoutAccount(old(sessions.rows), who, keep)
      ensures grants.table == Grants.RevokedAll(old(grants.table), who, Grants.PasswordReset)
    {
      accounts := accounts[who := Lockout.WithPassword(accounts[who], password)];
      var gone := sessions.RevokeAll(who, keep);
      grants.RevokeAllForAccount(who, Grants.PasswordReset);
    }

    /** Neither checks nor counts toward the lock: the caller is inside a session and knows the password. */
    method ChangePassword(who: AccountId, current: string, password: string, acceptable: bool,
                          keep: Option<Sessions.SessionId>)
        returns (changed: bool)
      modifies this, sessions, grants
      ensures changed <==> who in old(accounts) && old(accounts)[who].password == current && acceptable
      ensures if changed
              then
                && accounts == old(accounts)[who := Lockout.Account(password, old(accounts)[who].active, 0, None)]
                && sessions.rows == Sessions.WithoutAccount(old(sessions.rows), who, keep)
                && grants.table == Grants.RevokedAll(old(grants.table), who, Grants.PasswordReset)
              else accounts == old(accounts) && sessions.rows == old(sessions.rows) && grants.table == old(grants.table)
    {
      if who !in accounts || accounts[who].password != current || !acceptable {
        return false;
      }
      SetPassword(who, password, keep);
      return true;
    }

    /** Any older reset of the account dies with the new one's making. */
    method IssueReset(found: Option<AccountId>, mayMail: bool, id: Grants.GrantId, now: int) returns (issued: bool)
      requires id !in grants.table
      modifies grants
      ensures issued <==> found.Some? && found.value in accounts && mayMail
      ensures grants.table ==
        if issued
        then Grants.RevokedAll(old(grants.table), found.value, Grants.PasswordReset)
               [id := Grants.Minted(Grants.PasswordReset, None, found, resetTtl, now)]
        else old(grants.table)
      ensures issued ==>
                && id in grants.table
                && grants.table[id] == Grants.Grant(Grants.PasswordReset, now, now + resetTtl, None, found, None, false)
                && grants.table.Keys == old(grants.table).Keys + {id}
      ensures issued ==>
        forall g ::
          && g in old(grants.table)
          && !(old(grants.table)[g].account == found && old(grants.table)[g].purpose == Grants.PasswordReset)
          ==> grants.table[g] == old(grants.table)[g]
      ensures issued ==>
        forall g ::
          && g in grants.table && g != id && grants.table[g].account == found
          && grants.table[g].purpose == Grants.PasswordReset
          ==> grants.table[g].revoked
    {
      if found.None? || found.value !in accounts || !mayMail {
        return false;
      }
      grants.RevokeAllForAccount(found.value, Grants.PasswordReset);
      grants.Add(id, Grants.Minted(Grants.PasswordReset, None, found, resetTtl, now));
      return true;
    }

    /** A rejected password leaves the token usable; everything after that point spends it. */
    method RedeemPasswordReset(token: Grants.GrantId, password: string, acceptable: bool, now: int)
      returns (who: Option<AccountId>)
      modifies this, sessions, grants
      ensures var table := old(grants.table);
              var spent := && acceptable && token in table && table[token].redeemedAt.None? && !table[token].revoked
                           && now < table[token].expiresAt;
              && (who.Some? <==>
                    && spent && table[token].purpose == Grants.PasswordReset
                    && table[token].account.Some? && table[token].account.value in old(accounts))
              && (who.Some? ==> who == table[token].account)
              && grants.table.Keys == table.Keys
              && forall g :: g in table ==>
                   grants.table[g] == table[g].(
                     redeemedAt := if spent && g == token then Some(now) else table[g].redeemedAt,
                     revoked := || table[g].revoked
                                || (who.Some? && table[g].account == who && table[g].purpose == Grants.PasswordReset))
      ensures if who.Some? && who.value in old(accounts)
              then
                && accounts == old(accounts)[
                     who.value := Lockout.Account(password, old(accounts)[who.value].active, 0, None)]
                && sessions.rows == Sessions.WithoutAccount(old(sessions.rows), who.value, None)
              else accounts == old(accounts) && sessions.rows == old(sessions.rows)
    {
      if !acceptable {
        return None;
      }
      var won := grants.Redeem(token, now);
      if won.None? || won.value.purpose != Grants.PasswordReset {
        return None;
      }
      if won.value.account.None? || won.value.account.value !in accounts {
        return None;
      }
      SetPassword(won.value.account.value, password, None);
      return won.value.account;
    }

    method SetStatus(who: AccountId, active: bool)
      modifies this
      ensures accounts == if who in old(accounts) then old(accounts)[who := old(accounts)[who].(active := active)]
              else old(accounts)
    {
      if who in accounts {
        accounts := accounts[who := accounts[who].(active := active)];
      }
    }
  }
}
