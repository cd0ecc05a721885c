/**
  Changing a stored credential, each operation run to its end: admitted against the owner's settings,
  then made. `Authorizations` says what holds when they interleave.

  Notices are not part of this. Settings-api's answer, the provider's answer and the fresh state are
  parameters.
*/
module Changes {
  import opened Options
  import opened Preferences
  import opened Authorizations
  import Accounts
  import Lockout
  import Vault

  class CredentialChanges {
    const deployment: Preferences
    const accounts: Accounts.AccountService
    const credentials: Vault.CredentialService
    const states: OAuthStateStore

    constructor (deployment: Preferences, accounts: Accounts.AccountService, credentials: Vault.CredentialService,
                 states: OAuthStateStore)
      ensures this.deployment == deployment && this.accounts == accounts
      ensures this.credentials == credentials && this.states == states
    {
      this.deployment, this.accounts, this.credentials, this.states := deployment, accounts, credentials, states;
    }

    /** Whether a password that was sent is the account's, by the same rules as a login. */
    predicate Knows(account: AccountId, r: Requester, now: int)
      reads accounts
    {
      r.password.Some? && account in accounts.accounts
          && Lockout.Judge(accounts.accounts[account], r.password.value, now).Right?
    }

    /** A wrong password counts toward the lock; nothing else here changes an account. */
    method Admit(account: AccountId, r: Requester, answer: Answer, now: int) returns (admitted: bool)
      modifies accounts
      ensures admitted == Admitted(deployment, answer, r, old(Knows(account, r, now))).Some?
      ensures admitted <==>
                && ForAccount(deployment, answer).Some?
                && (|| r.origin.Administrator?
                    || (r.password.None? && ForAccount(deployment, answer).value.requireReauth == Some(false))
                    || (&& r.password.Some? && account in old(accounts.accounts)
                        && var a := old(accounts.accounts)[account];
                           && a.active && (a.lockedUntil.None? || a.lockedUntil.value <= now)
                           && r.password.value == a.password))
      ensures accounts.accounts ==
        if ForAccount(deployment, answer).Some? && !r.origin.Administrator? && r.password.Some?
            && account in old(accounts.accounts)
        then old(accounts.accounts)[account :=
               Lockout.Tried(accounts.lockout, old(accounts.accounts)[account], Lockout.Confirm, r.password.value, now)]
        else old(accounts.accounts)
    {
      var p := ForAccount(deployment, answer);
      if p.None? {
        return false;
      }
      if r.origin.Administrator? {
        return true;
      }
      if r.password.Some? {
        admitted := accounts.ConfirmPassword(account, r.password.value, now);
        return;
      }
      return p.value.requireReauth == Some(false);
    }

    /** Refused, it changes no credential; let through, it is the direct store and nothing else. */
    method StoreDirect(key: Key, kind: Vault.Kind, secret: Vault.Secret, totp: bool, r: Requester, answer: Answer,
                       now: int)
        returns (stored: bool)
      requires credentials.Valid()
      modifies accounts, credentials
      ensures credentials.Valid()
      ensures credentials.View() ==
        if Admitted(deployment, answer, r, old(Knows(key.place.account, r, now))).Some?
        then Vault.Whole(credentials.cfg, old(credentials.View()), Vault.StoreDirect(key, kind, secret, totp, now))
        else old(credentials.View())
      ensures stored ==> key in credentials.connections && key in credentials.vault && credentials.vault[key] == secret
    {
      var admitted := Admit(key.place.account, r, answer, now);
      if !admitted {
        return false;
      }
      stored := credentials.PutDirectCredential(key, kind, secret, totp, now);
    }

    /**
      Checked here, because the callback is only a redirect that carries what this hands out. The
      state is issued before the placeholder is written, so a profile at its cap refuses afterwards,
      and the state of that request, which nobody was told, stays until it lapses.
    */
    method BeginAuthorization(key: Key, configured: bool, r: Requester, answer: Answer, state: State, ttl: int,
                              now: int)
        returns (begun: bool)
      requires credentials.Valid()
      requires state !in states.flows
      modifies accounts, credentials, states
      ensures credentials.Valid()
      ensures var issued :=
                && Admitted(deployment, answer, r, old(Knows(key.place.account, r, now))).Some?
                && key.place in old(credentials.profiles) && configured;
              && states.flows == (if issued then old(states.flows)[state := Flow(key, now + ttl)]
                 else old(states.flows))
              && credentials.View() ==
                   (if issued then Vault.Whole(credentials.cfg, old(credentials.View()), Vault.BeginConsent(key, now))
                    else old(credentials.View()))
              && (begun <==>
                    && issued
                    && (key !in old(credentials.connections) ==>
                          |Vault.At(old(credentials.View()), key.place)| < credentials.cfg.maxConnections))
      ensures credentials.vault == old(credentials.vault)
    {
      var admitted := Admit(key.place.account, r, answer, now);
      if !admitted || key.place !in credentials.profiles || !configured {
        return false;
      }
      states.Issue(state, key, ttl, now);
      begun := credentials.BeginAuthorization(key, now);
    }

    /** Whose flow it is comes from the state alone; the state is spent whatever follows. */
    method CompleteAuthorization(state: State, answer: Answer, secret: Option<Vault.Secret>, redeeming: int, now: int)
        returns (stored: bool)
      requires credentials.Valid()
      modifies credentials, states
      ensures credentials.Valid()
      ensures states.flows == old(states.flows) - {state}
      ensures var flow := Popped(old(states.flows), state, redeeming).1;
              credentials.View() ==
                if flow.Some? && ForAccount(deployment, answer).Some? && secret.Some?
                then Vault.Whole(credentials.cfg, old(credentials.View()),
                                 Vault.FinishConsent(flow.value.binding, secret.value, now))
                else old(credentials.View())
      ensures stored ==> state in old(states.flows) && redeeming < old(states.flows)[state].expiresAt
    {
      var flow := states.Redeem(state, redeeming);
      if flow.None? || ForAccount(deployment, answer).None? || secret.None? {
        return false;
      }
      stored := credentials.FinishAuthorization(flow.value.binding, secret.value, now);
    }

    method RemoveConnection(key: Key, r: Requester, answer: Answer, now: int) returns (removed: bool)
      requires credentials.Valid()
      modifies accounts, credentials
      ensures credentials.Valid()
      ensures credentials.View() ==
        if Admitted(deployment, answer, r, old(Knows(key.place.account, r, now))).Some?
        then Vault.Whole(credentials.cfg, old(credentials.View()), Vault.RevokeConnection(key))
        else old(credentials.View())
      ensures removed ==>
                key in old(credentials.connections) && key !in credentials.connections && key !in credentials.vault
    {
      var admitted := Admit(key.place.account, r, answer, now);
      if !admitted {
        return false;
      }
      removed := credentials.Revoke(key);
    }

    /** A profile that holds no connection is removed unchecked, because no credential goes with it. */
    method RemoveProfile(p: Place, r: Requester, answer: Answer, now: int) returns (removed: bool)
      requires credentials.Valid()
      modifies accounts, credentials
      ensures credentials.Valid()
      ensures credentials.View() ==
        if p in old(credentials.profiles)
           && (Vault.At(old(credentials.View()), p) == {}
              || Admitted(deployment, answer, r, old(Knows(p.account, r, now))).Some?)
        then Vault.Whole(credentials.cfg, old(credentials.View()), Vault.DeleteProfile(p))
        else old(credentials.View())
      ensures removed ==> p in old(credentials.profiles) && p !in credentials.profiles
      ensures Vault.At(old(credentials.View()), p) == {} ==> accounts.accounts == old(accounts.accounts)
    {
      if p !in credentials.profiles {
        return false;
      }
      if Vault.At(credentials.View(), p) != {} {
        var admitted := Admit(p.account, r, answer, now);
        if !admitted {
          return false;
        }
      }
      removed := credentials.RemoveProfile(p);
    }
  }
}
