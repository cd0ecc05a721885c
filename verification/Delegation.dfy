/**
  Offline grants and token exchange. Every exchanged token is minted for one audience, from a token
  or a grant, and this is what chains of such exchanges keep of the authority they started from.

  Instants are whole microseconds; a token's `exp` is whole seconds (section 4.1.4 of RFC 7519).
  An exchange is two pieces with an await between: it reads what it was given, then mints. Minting
  reads the clock twice, once to clip the lifetime and once to sign.
*/
module Delegation {
  import opened Integers
  import opened Options

  type AccountId = string
  type ProfileName = string
  type Service = string
  type GrantId = string

  const SECOND: int := 1_000_000

  datatype Settings = Settings(
    allowed: map<Service, set<Service>>,
    accessTtl: int,
    grantMaxTtl: int,
    grantCap: nat)

  datatype OfflineGrant = OfflineGrant(
    account: AccountId, profile: ProfileName, service: Service, audiences: set<Service>,
    createdAt: int, expiresAt: int, revokedAt: Option<int>)

  datatype Token = Token(subject: AccountId, audience: Service, iat: int, exp: int)

  /** Where a token's authority came from. */
  datatype Origin = Root | FromToken(parent: nat) | FromGrant(grant: GrantId)

  /** A minted token, its two clock readings, and the expiry the response reported for it. */
  datatype Issued = Issued(token: Token, origin: Origin, clipped: int, signed: int, reported: int)

  /** What an exchange is given: a token this service minted, or a grant. */
  datatype Given = UserToken(index: nat) | Grant(id: GrantId)

  /** An exchange that has read what it was given. */
  datatype Pending = Pending(account: AccountId, deadline: int, audience: Service, ttl: int, origin: Origin)

  datatype State = State(
    profiles: set<(AccountId, ProfileName)>,
    active: set<AccountId>,
    grants: map<GrantId, OfflineGrant>,
    issued: seq<Issued>)

  // ---------------------------------------------------------------- arithmetic

  /** Python's `int()` of a number of seconds: towards zero. */
  function WholeSeconds(micros: int): int {
    if micros >= 0 then micros / SECOND else -((-micros) / SECOND)
  }

  function Lifetime(cfg: Settings, requested: int, deadline: int, now: int): int {
    Min(Min(requested, cfg.accessTtl), WholeSeconds(deadline - now))
  }

  function Signed(account: AccountId, audience: Service, ttl: int, now: int): Token {
    Token(account, audience, now / SECOND, (now + ttl * SECOND) / SECOND)
  }

  // ---------------------------------------------------------------- offline grants

  predicate Live(g: OfflineGrant, now: int) { g.revokedAt.None? && g.expiresAt > now }

  function LiveIds(grants: map<GrantId, OfflineGrant>, who: (AccountId, ProfileName), now: int): set<GrantId> {
    set id | id in grants && (grants[id].account, grants[id].profile) == who && Live(grants[id], now)
  }

  predicate MayExchange(cfg: Settings, service: Service, audiences: set<Service>) {
    audiences != {} && audiences <= (if service in cfg.allowed then cfg.allowed[service] else {})
  }

  /** Whether `create` would record this grant, `now` being the reading it took before the write. */
  predicate Recordable(cfg: Settings, s: State, id: GrantId, g: OfflineGrant, now: int) {
    && (g.account, g.profile) in s.profiles
    && MayExchange(cfg, g.service, g.audiences)
    && id !in s.grants
    && |LiveIds(s.grants, (g.account, g.profile), now)| < cfg.grantCap
  }

  function NewGrant(cfg: Settings, account: AccountId, profile: ProfileName, service: Service,
                    audiences: set<Service>, ttl: int, now: int): OfflineGrant {
    OfflineGrant(account, profile, service, audiences, now, now + Min(ttl, cfg.grantMaxTtl) * SECOND, None)
  }

  function Revoked(g: OfflineGrant, now: int): OfflineGrant {
    if g.revokedAt.Some? then g else g.(revokedAt := Some(now))
  }

  predicate Owns(s: State, id: GrantId, who: (AccountId, ProfileName)) {
    who in s.profiles && id in s.grants && (s.grants[id].account, s.grants[id].profile) == who
  }

  // ---------------------------------------------------------------- exchange

  /** The first piece: the allowlist, then the token's claims or the grant's row. */
  function Presented(cfg: Settings, s: State, service: Service, audience: Service, ttl: int, given: Given,
                     now: int): Option<Pending> {
    if !MayExchange(cfg, service, {audience}) then None
    else match given
      case UserToken(i) =>
        if i < |s.issued| && s.issued[i].token.audience == service && now < s.issued[i].token.exp * SECOND
        then Some(Pending(s.issued[i].token.subject, s.issued[i].token.exp * SECOND, audience, ttl, FromToken(i)))
        else None
      case Grant(id) =>
        if id in s.grants && s.grants[id].service == service && s.grants[id].revokedAt.None?
            && audience in s.grants[id].audiences
        then Some(Pending(s.grants[id].account, s.grants[id].expiresAt, audience, ttl, FromGrant(id)))
        else None
  }

  /** The second piece: the account, the clipped lifetime, the signature. */
  function Minted(cfg: Settings, s: State, p: Pending, now: int, signing: int): Option<Issued> {
    var ttl := Lifetime(cfg, p.ttl, p.deadline, now);
    if p.account !in s.active || ttl <= 0 then None
    else Some(Issued(Signed(p.account, p.audience, ttl, signing), p.origin, now, signing, now / SECOND + ttl))
  }

  /** A whole number of seconds, at least one: the most that is asked for, allowed and left. */
  predicate Longest(seconds: int, asked: int, allowed: int, left: int) {
    && 1 <= seconds <= asked && seconds <= allowed && seconds * 1_000_000 <= left
    && (seconds == asked || seconds == allowed || left < (seconds + 1) * 1_000_000)
  }

  /** A token is minted exactly when the account is active and a whole second is asked for, allowed and left. */
  lemma MintedIff(cfg: Settings, s: State, p: Pending, now: int, signing: int)
    ensures var m := Minted(cfg, s, p, now, signing);
            && (m.Some? <==> p.account in s.active && 1 <= p.ttl && 1 <= cfg.accessTtl && 1_000_000 <= p.deadline - now)
            && (m.Some? ==>
                  var t := m.value.token;
                  && t.subject == p.account && t.audience == p.audience && t.iat == signing / 1_000_000
                  && Longest(t.exp - t.iat, p.ttl, cfg.accessTtl, p.deadline - now)
                  && m.value.origin == p.origin && m.value.clipped == now && m.value.signed == signing
                  && m.value.reported - now / 1_000_000 == t.exp - t.iat)
  {
    AddSeconds(signing, Lifetime(cfg, p.ttl, p.deadline, now));
  }

  /** What is accepted: a live token of the service's own audience, or its unrevoked grant for that audience. */
  lemma PresentedIff(cfg: Settings, s: State, service: Service, audience: Service, ttl: int, given: Given, now: int)
    ensures var p := Presented(cfg, s, service, audience, ttl, given, now);
            match given
            case UserToken(i) =>
              && (p.Some? <==>
                    && service in cfg.allowed && audience in cfg.allowed[service]
                    && i < |s.issued| && s.issued[i].token.audience == service
                    && now < s.issued[i].token.exp * 1_000_000)
              && (p.Some? ==> p.value == Pending(s.issued[i].token.subject, s.issued[i].token.exp * 1_000_000,
                                                 audience, ttl, FromToken(i)))
            case Grant(id) =>
              && (p.Some? <==>
                    && service in cfg.allowed && audience in cfg.allowed[service]
                    && id in s.grants && s.grants[id].service == service && s.grants[id].revokedAt.None?
                    && audience in s.grants[id].audiences)
              && (p.Some? ==> p.value == Pending(s.grants[id].account, s.grants[id].expiresAt, audience, ttl,
                                                 FromGrant(id)))
  {
  }

  lemma SameLive(grants: map<GrantId, OfflineGrant>, who: (AccountId, ProfileName), now: int)
    ensures LiveIds(grants, who, now)
         == set id | id in grants && (grants[id].account, grants[id].profile) == who
                     && grants[id].revokedAt.None? && now < grants[id].expiresAt
  {
  }

  class DelegationService {
    const cfg: Settings
    var profiles: set<(AccountId, ProfileName)>
    var active: set<AccountId>
    var grants: map<GrantId, OfflineGrant>
    var issued: seq<Issued>

    function View(): State
      reads this
    {
      State(profiles, active, grants, issued)
    }

    constructor (cfg: Settings)
      ensures this.cfg == cfg && View() == State({}, {}, map[], [])
    {
      this.cfg := cfg;
      profiles, active, grants, issued := {}, {}, map[], [];
    }

    method Create(id: GrantId, account: AccountId, profile: ProfileName, service: Service,
                  audiences: set<Service>, ttl: int, now: int) returns (recorded: bool)
      requires id !in grants
      modifies this`grants
      ensures var g := NewGrant(cfg, account, profile, service, audiences, ttl, now);
              && recorded == Recordable(cfg, old(View()), id, g, now)
              && grants == if recorded then old(grants)[id := g] else old(grants)
      ensures recorded <==>
                && (account, profile) in profiles
                && audiences != {} && service in cfg.allowed && audiences <= cfg.allowed[service]
                && |set x | x in old(grants) && (old(grants)[x].account, old(grants)[x].profile) == (account, profile)
                            && old(grants)[x].revokedAt.None? && now < old(grants)[x].expiresAt| < cfg.grantCap
      ensures recorded ==>
                && id in grants && grants == old(grants)[id := grants[id]]
                && var g := grants[id];
                   && g == OfflineGrant(account, profile, service, audiences, now, g.expiresAt, None)
                   && g.expiresAt <= now + ttl * 1_000_000 && g.expiresAt <= now + cfg.grantMaxTtl * 1_000_000
                   && (g.expiresAt == now + ttl * 1_000_000 || g.expiresAt == now + cfg.grantMaxTtl * 1_000_000)
      ensures !recorded ==> grants == old(grants)
    {
      SameLive(grants, (account, profile), now);
      if (account, profile) !in profiles || !MayExchange(cfg, service, audiences) {
        return false;
      }
      var live := CountLive((account, profile), now);
      if live >= cfg.grantCap {
        return false;
      }
      grants := grants[id := NewGrant(cfg, account, profile, service, audiences, ttl, now)];
      return true;
    }

    method CountLive(who: (AccountId, ProfileName), now: int) returns (count: nat)
      ensures count == |set id | id in grants && (grants[id].account, grants[id].profile) == who
                                 && grants[id].revokedAt.None? && now < grants[id].expiresAt|
    {
      SameLive(grants, who, now);
      count := 0;
      var left := grants.Keys;
      ghost var counted := {};
      while left != {}
        invariant left <= grants.Keys && count == |counted|
        invariant counted == set id | id in LiveIds(grants, who, now) && id !in left
        decreases left
      {
        var id :| id in left;
        if (grants[id].account, grants[id].profile) == who && Live(grants[id], now) {
          count := count + 1;
          counted := counted + {id};
        }
        left := left - {id};
      }
      assert counted == LiveIds(grants, who, now);
    }

    method Revoke(account: AccountId, profile: ProfileName, id: GrantId, now: int) returns (found: bool)
      modifies this`grants
      ensures found == Owns(old(View()), id, (account, profile))
      ensures grants == if found then old(grants)[id := Revoked(old(grants)[id], now)] else old(grants)
      ensures found <==>
                && (account, profile) in profiles && id in old(grants)
                && old(grants)[id].account == account && old(grants)[id].profile == profile
      ensures !found ==> grants == old(grants)
      ensures found ==>
                grants == old(grants)[id := old(grants)[id].(revokedAt :=
                  if old(grants)[id].revokedAt.Some? then old(grants)[id].revokedAt else Some(now))]
    {
      if (account, profile) !in profiles || id !in grants
          || (grants[id].account, grants[id].profile) != (account, profile) {
        return false;
      }
      if grants[id].revokedAt.None? {
        grants := grants[id := grants[id].(revokedAt := Some(now))];
      }
      assert grants == old(grants)[id := Revoked(old(grants)[id], now)];
      return true;
    }

    /** The same on a service's request: a grant somebody else holds is answered like a missing one. */
    method RevokeForService(account: AccountId, profile: ProfileName, id: GrantId, service: Service, now: int)
        returns (found: bool)
      modifies this`grants
      ensures found == (Owns(old(View()), id, (account, profile)) && old(grants)[id].service == service)
      ensures grants == if found then old(grants)[id := Revoked(old(grants)[id], now)] else old(grants)
    {
      if (account, profile) !in profiles || id !in grants
          || (grants[id].account, grants[id].profile) != (account, profile)
         || grants[id].service != service {
        return false;
      }
      found := Revoke(account, profile, id, now);
    }

    /** One exchange with nothing in between, from a token or from a grant and never both. */
    method Exchange(service: Service, audience: Service, ttl: int, token: Option<nat>, grant: Option<GrantId>,
                    checked: int, now: int, signing: int) returns (minted: Option<Issued>)
      modifies this`issued
      ensures minted ==
        if token.None? == grant.None? then None
        else
          var p := Presented(cfg, old(View()), service, audience, ttl,
                             if token.Some? then UserToken(token.value) else Grant(grant.value), checked);
          if p.None? then None else Minted(cfg, old(View()), p.value, now, signing)
      ensures issued == old(issued) + if minted.Some? then [minted.value] else []
      ensures token.Some? == grant.Some? ==> minted.None?
      ensures token.Some? && grant.None? ==>
                (minted.Some? <==>
                  && service in cfg.allowed && audience in cfg.allowed[service]
                  && token.value < |old(issued)|
                  && var t := old(issued)[token.value].token;
                     && t.audience == service && checked < t.exp * 1_000_000
                     && t.subject in active && 1 <= ttl && 1 <= cfg.accessTtl && 1_000_000 <= t.exp * 1_000_000 - now)
      ensures token.None? && grant.Some? ==>
                (minted.Some? <==>
                  && service in cfg.allowed && audience in cfg.allowed[service]
                  && grant.value in grants
                  && var g := grants[grant.value];
                     && g.service == service && g.revokedAt.None? && audience in g.audiences
                     && g.account in active && 1 <= ttl && 1 <= cfg.accessTtl && 1_000_000 <= g.expiresAt - now)
      ensures minted.Some? ==>
                var m := minted.value;
                var account := if token.Some? then old(issued)[token.value].token.subject
                               else grants[grant.value].account;
                var deadline := if token.Some? then old(issued)[token.value].token.exp * 1_000_000
                                else grants[grant.value].expiresAt;
                && account in active && m.token.subject == account && m.token.audience == audience
                && m.origin == (if token.Some? then FromToken(token.value) else FromGrant(grant.value))
                && m.clipped == now && m.signed == signing && m.token.iat == signing / 1_000_000
                && Longest(m.token.exp - m.token.iat, ttl, cfg.accessTtl, deadline - now)
                && m.reported - now / 1_000_000 == m.token.exp - m.token.iat
    {
      if token.Some? != grant.Some? {
        ghost var given := if token.Some? then UserToken(token.value) else Grant(grant.value);
        PresentedIff(cfg, View(), service, audience, ttl, given, checked);
        ghost var p := Presented(cfg, View(), service, audience, ttl, given, checked);
        if p.Some? {
          MintedIff(cfg, View(), p.value, now, signing);
        }
      }
      if token.None? == grant.None? || !MayExchange(cfg, service, {audience}) {
        return None;
      }
      var account, deadline, origin;
      if token.Some? {
        var i := token.value;
        if i >= |issued| || issued[i].token.audience != service || checked >= issued[i].token.exp * SECOND {
          return None;
        }
        account, deadline, origin := issued[i].token.subject, issued[i].token.exp * SECOND, FromToken(i);
      } else {
        var id := grant.value;
        if id !in grants || grants[id].service != service || grants[id].revokedAt.Some?
            || audience !in grants[id].audiences {
          return None;
        }
        account, deadline, origin := grants[id].account, grants[id].expiresAt, FromGrant(id);
      }
      if account !in active {
        return None;
      }
      var left := Min(Min(ttl, cfg.accessTtl), WholeSeconds(deadline - now));
      if left <= 0 {
        return None;
      }
      var minting := Issued(Signed(account, audience, left, signing), origin, now, signing, now / SECOND + left);
      issued := issued + [minting];
      return Some(minting);
    }
  }

  // ---------------------------------------------------------------- one exchange

  predicate SameSecond(a: int, b: int) { a / SECOND == b / SECOND }

  /** Adding whole seconds moves the second, not the fraction. */
  lemma AddSeconds(now: int, ttl: int)
    ensures (now + ttl * SECOND) / SECOND == now / SECOND + ttl
  {
  }

  /** The token carries the expiry the response reports exactly when both readings fall in one second. */
  lemma ReportedIsCarried(cfg: Settings, s: State, p: Pending, now: int, signing: int)
    requires Minted(cfg, s, p, now, signing).Some?
    ensures var i := Minted(cfg, s, p, now, signing).value;
            i.reported == i.token.exp <==> SameSecond(now, signing)
  {
    AddSeconds(signing, Lifetime(cfg, p.ttl, p.deadline, now));
  }

  /**
    A minted token lasts no longer than was asked and allowed, is live when signed and, signed within
    a second, outlives its deadline by less than one.
  */
  lemma MintedWithinDeadline(cfg: Settings, s: State, p: Pending, now: int, signing: int)
    requires Minted(cfg, s, p, now, signing).Some? && now <= signing
    ensures var m := Minted(cfg, s, p, now, signing).value.token;
            m.exp - m.iat <= p.ttl && m.exp - m.iat <= cfg.accessTtl && m.subject == p.account
                && m.audience == p.audience
    ensures var exp := Minted(cfg, s, p, now, signing).value.token.exp;
            && signing < exp * SECOND
            && (signing < now + SECOND ==> exp * SECOND < p.deadline + SECOND)
            && (signing < now + SECOND && p.deadline % SECOND == 0 ==> exp * SECOND <= p.deadline)
            && (SameSecond(now, signing) ==> exp * SECOND <= p.deadline)
  {
    var ttl := Lifetime(cfg, p.ttl, p.deadline, now);
    AddSeconds(signing, ttl);
    assert ttl * SECOND <= p.deadline - now;
  }

  /**
    Exactly when a minted token outlives its deadline: when the second turns, between the two
    readings, more often than the lifetime has whole seconds to spare, and one if the deadline's
    fraction of a second comes before the reading's.
  */
  lemma WithinDeadlineIff(cfg: Settings, s: State, p: Pending, now: int, signing: int)
    requires Minted(cfg, s, p, now, signing).Some? && now <= signing
    ensures var exp := Minted(cfg, s, p, now, signing).value.token.exp;
            var spare := WholeSeconds(p.deadline - now) - Lifetime(cfg, p.ttl, p.deadline, now);
            exp * SECOND <= p.deadline
            <==> signing / SECOND - now / SECOND <= spare + (if p.deadline % SECOND < now % SECOND then 1 else 0)
  {
    AddSeconds(signing, Lifetime(cfg, p.ttl, p.deadline, now));
    assert p.deadline - now == (p.deadline / SECOND - now / SECOND) * SECOND + (p.deadline % SECOND - now % SECOND);
  }

  /** One microsecond between the readings is enough when the second turns in it: the token outlives its grant. */
  lemma TurningSecondOutlives()
    ensures var cfg := Settings(map[], 600, 600, 1);
            var p := Pending("ada", 10_999_999, "mail", 600, FromGrant("dgt_1"));
            var m := Minted(cfg, State({}, {"ada"}, map[], []), p, 999_999, 1_000_000);
            m.Some? && m.value.token.exp * SECOND > p.deadline && m.value.reported < m.value.token.exp
  {
    AddSeconds(1_000_000, 10);
  }
}
