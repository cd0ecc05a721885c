/**
  Runs of exchanges: chains of minted tokens keep the authority of the root they started from, a
  profile never has more live offline grants than its cap, and a withdrawn grant stays withdrawn.

  Anything may happen between the two pieces of an exchange, and between the reading `create` and
  `revoke` take of the clock and the write they make with it. The clock never goes back and the
  allowlist is the one the process started with.
*/
module Exchanges {
  import opened Delegation
  import opened FiniteSets
  import opened Options

  /** `recorded` is every grant there has been, as it was created; ids are random and never repeat. */
  datatype World = World(core: State, clock: int, recorded: map<GrantId, OfflineGrant>, pending: map<nat, Pending>)

  datatype Event =
    | Tick(to: int)
    | SetActive(account: AccountId, active: bool)
    | AddProfile(who: (AccountId, ProfileName))
    | DeleteProfile(who: (AccountId, ProfileName))
    | Create(id: GrantId, account: AccountId, profile: ProfileName, service: Service, audiences: set<Service>,
             ttl: int, reading: int)
    | Withdraw(account: AccountId, profile: ProfileName, id: GrantId, holder: Option<Service>, reading: int)
    | SignIn(account: AccountId, audience: Service, ttl: int, reading: int)
    | Present(k: nat, service: Service, audience: Service, ttl: int, given: Given, reading: int)
    | Mint(k: nat, reading: int, signing: int)

  predicate Enabled(w: World, e: Event) {
    match e
    case Tick(to) => w.clock <= to
    case SetActive(_, _) => true
    case AddProfile(_) => true
    case DeleteProfile(_) => true
    case Create(id, _, _, _, _, _, reading) => id !in w.recorded && reading <= w.clock
    case Withdraw(_, _, _, _, reading) => reading <= w.clock
    case SignIn(_, _, _, reading) => w.clock <= reading
    case Present(k, _, _, _, _, reading) => k !in w.pending && w.clock <= reading
    case Mint(k, reading, signing) => k in w.pending && w.clock <= reading <= signing
  }

  function Do(cfg: Settings, w: World, e: Event): World
    requires Enabled(w, e)
  {
    var s := w.core;
    match e
    case Tick(to) => w.(clock := to)
    case SetActive(account, active) =>
      w.(core := s.(active := if active then s.active + {account} else s.active - {account}))
    case AddProfile(who) => w.(core := s.(profiles := s.profiles + {who}))
    case DeleteProfile(who) =>
      w.(core := s.(profiles := s.profiles - {who},
                    grants := map id
                      | id in s.grants && (s.grants[id].account, s.grants[id].profile) != who :: s.grants[id]))
    case Create(id, account, profile, service, audiences, ttl, reading) =>
      var g := NewGrant(cfg, account, profile, service, audiences, ttl, reading);
      if Recordable(cfg, s, id, g, reading)
      then w.(core := s.(grants := s.grants[id := g]), recorded := w.recorded[id := g]) else w
    case Withdraw(account, profile, id, holder, reading) =>
      if Owns(s, id, (account, profile)) && (holder.None? || s.grants[id].service == holder.value)
      then w.(core := s.(grants := s.grants[id := Revoked(s.grants[id], reading)])) else w
    case SignIn(account, audience, ttl, reading) =>
      var token := Signed(account, audience, ttl, reading);
      w.(clock := reading, core := s.(issued := s.issued + [Issued(token, Root, reading, reading, token.exp)]))
    case Present(k, service, audience, ttl, given, reading) =>
      var p := Presented(cfg, s, service, audience, ttl, given, reading);
      w.(clock := reading, pending := if p.Some? then w.pending[k := p.value] else w.pending)
    case Mint(k, reading, signing) =>
      var i := Minted(cfg, s, w.pending[k], reading, signing);
      w.(clock := signing, pending := w.pending - {k},
         core := if i.Some? then s.(issued := s.issued + [i.value]) else s)
  }

  ghost predicate Runs(cfg: Settings, start: World, run: seq<Event>)
    decreases |run|, 0
  {
    run == [] || (Runs(cfg, start, run[..|run| - 1]) && Enabled(After(cfg, start, run[..|run| - 1]), run[|run| - 1]))
  }

  ghost function After(cfg: Settings, start: World, run: seq<Event>): World
    requires Runs(cfg, start, run)
    decreases |run|, 1
  {
    if run == [] then start else Do(cfg, After(cfg, start, run[..|run| - 1]), run[|run| - 1])
  }

  /** A process that has just started: nothing signed, nothing in flight, every grant row on record. */
  ghost predicate Started(cfg: Settings, w: World) {
    && w.core.issued == [] && w.pending == map[]
    && Known(w)
    && CapHeld(cfg, w)
  }

  // ---------------------------------------------------------------- what a run keeps

  /** A grant row is the recorded grant, withdrawn or not. */
  ghost predicate Known(w: World) {
    forall id :: id in w.core.grants ==>
      id in w.recorded && w.core.grants[id].(revokedAt := w.recorded[id].revokedAt) == w.recorded[id]
  }

  ghost predicate CapHeld(cfg: Settings, w: World) {
    forall who, t :: t >= w.clock ==> |LiveIds(w.core.grants, who, t)| <= cfg.grantCap
  }

  /** One exchange: who, for whom, and until when, given what it was made from. */
  ghost predicate Derived(cfg: Settings, w: World, bound: nat, origin: Origin, subject: AccountId, audience: Service,
                          deadline: int)
    requires bound <= |w.core.issued|
  {
    match origin
    case Root => true
    case FromToken(p) =>
      && p < bound
      && subject == w.core.issued[p].token.subject
      && MayExchange(cfg, w.core.issued[p].token.audience, {audience})
      && deadline == w.core.issued[p].token.exp * SECOND
    case FromGrant(id) =>
      && id in w.recorded
      && subject == w.recorded[id].account
      && audience in w.recorded[id].audiences
      && MayExchange(cfg, w.recorded[id].service, {audience})
      && deadline == w.recorded[id].expiresAt
  }

  /** The deadline a token was clipped to: its own expiry for a token nobody exchanged. */
  ghost function Deadline(w: World, i: nat): int
    requires i < |w.core.issued|
    requires w.core.issued[i].origin.FromToken? ==> w.core.issued[i].origin.parent < |w.core.issued|
    requires w.core.issued[i].origin.FromGrant? ==> w.core.issued[i].origin.grant in w.recorded
  {
    match w.core.issued[i].origin
    case Root => w.core.issued[i].token.exp * SECOND
    case FromToken(p) => w.core.issued[p].token.exp * SECOND
    case FromGrant(id) => w.recorded[id].expiresAt
  }

  ghost predicate Descends(w: World) {
    forall i :: 0 <= i < |w.core.issued| ==>
      match w.core.issued[i].origin
      case Root => true
      case FromToken(p) => p < i
      case FromGrant(id) => id in w.recorded
  }

  /** An exchanged token is live when signed and outlives its deadline by no more than the clock moved in between. */
  ghost predicate Clipped(i: Issued, deadline: int) {
    i.clipped <= i.signed < i.token.exp * SECOND && i.token.exp * SECOND <= deadline + (i.signed - i.clipped)
    && (SameSecond(i.clipped, i.signed) ==> i.token.exp * SECOND <= deadline)
  }

  ghost predicate TokensDerived(cfg: Settings, w: World)
    requires Descends(w)
  {
    forall i :: 0 <= i < |w.core.issued| ==>
      var t := w.core.issued[i];
      !t.origin.Root? ==>
        && Derived(cfg, w, i, t.origin, t.token.subject, t.token.audience, Deadline(w, i))
        && Clipped(t, Deadline(w, i))
  }

  ghost predicate PendingDerived(cfg: Settings, w: World) {
    forall k :: k in w.pending ==>
      var p := w.pending[k];
      !p.origin.Root? && Derived(cfg, w, |w.core.issued|, p.origin, p.account, p.audience, p.deadline)
  }

  ghost predicate Inv(cfg: Settings, w: World) {
    Known(w) && CapHeld(cfg, w) && Descends(w) && TokensDerived(cfg, w) && PendingDerived(cfg, w)
  }

  // ---------------------------------------------------------------- one step

  lemma MintedIsClipped(cfg: Settings, s: State, p: Pending, now: int, signing: int)
    requires Minted(cfg, s, p, now, signing).Some? && now <= signing
    ensures Clipped(Minted(cfg, s, p, now, signing).value, p.deadline)
  {
    var ttl := Lifetime(cfg, p.ttl, p.deadline, now);
    AddSeconds(signing, ttl);
    MintedWithinDeadline(cfg, s, p, now, signing);
    assert ttl * SECOND <= p.deadline - now;
  }

  lemma StepKeepsKnown(cfg: Settings, w: World, e: Event)
    requires Enabled(w, e) && Known(w)
    ensures Known(Do(cfg, w, e))
    ensures forall id :: id in w.recorded ==>
            id in Do(cfg, w, e).recorded && Do(cfg, w, e).recorded[id] == w.recorded[id]
    ensures w.clock <= Do(cfg, w, e).clock
    ensures w.core.issued <= Do(cfg, w, e).core.issued
  {
  }

  lemma StepKeepsCap(cfg: Settings, w: World, e: Event)
    requires Enabled(w, e) && Known(w) && CapHeld(cfg, w)
    ensures CapHeld(cfg, Do(cfg, w, e))
  {
    var w' := Do(cfg, w, e);
    forall who, t | t >= w'.clock ensures |LiveIds(w'.core.grants, who, t)| <= cfg.grantCap {
      if e.Create? && w' != w && who == (e.account, e.profile) {
        var live := LiveIds(w.core.grants, who, e.reading);
        assert LiveIds(w'.core.grants, who, t) <= live + {e.id};
        SubsetSize(LiveIds(w'.core.grants, who, t), live + {e.id});
      } else {
        assert LiveIds(w'.core.grants, who, t) <= LiveIds(w.core.grants, who, t);
        SubsetSize(LiveIds(w'.core.grants, who, t), LiveIds(w.core.grants, who, t));
      }
    }
  }

  lemma StepKeepsPending(cfg: Settings, w: World, e: Event)
    requires Enabled(w, e) && Inv(cfg, w)
    ensures PendingDerived(cfg, Do(cfg, w, e))
  {
    StepKeepsKnown(cfg, w, e);
    var w' := Do(cfg, w, e);
    forall k | k in w'.pending
      ensures !w'.pending[k].origin.Root?
      ensures Derived(cfg, w', |w'.core.issued|, w'.pending[k].origin, w'.pending[k].account, w'.pending[k].audience,
                      w'.pending[k].deadline)
    {
      if k in w.pending {
        assert w'.pending[k] == w.pending[k];
      } else {
        assert e.Present? && e.k == k;
      }
    }
  }

  lemma StepKeepsTokens(cfg: Settings, w: World, e: Event)
    requires Enabled(w, e) && Inv(cfg, w)
    ensures Descends(Do(cfg, w, e)) && TokensDerived(cfg, Do(cfg, w, e))
  {
    StepKeepsKnown(cfg, w, e);
    var w', n := Do(cfg, w, e), |w.core.issued|;
    if e.Mint? && |w'.core.issued| > n {
      MintedIsClipped(cfg, w.core, w.pending[e.k], e.reading, e.signing);
      assert w'.core.issued[n].origin == w.pending[e.k].origin;
    }
    forall i | 0 <= i < n ensures w'.core.issued[i] == w.core.issued[i] {}
    assert Descends(w');
    forall i | 0 <= i < |w'.core.issued| && !w'.core.issued[i].origin.Root?
      ensures Derived(cfg, w', i, w'.core.issued[i].origin, w'.core.issued[i].token.subject,
                      w'.core.issued[i].token.audience, Deadline(w', i))
      ensures Clipped(w'.core.issued[i], Deadline(w', i))
    {
      if i < n {
        assert w'.core.issued[i] == w.core.issued[i];
        assert Deadline(w', i) == Deadline(w, i);
      } else {
        assert e.Mint? && Deadline(w', i) == w.pending[e.k].deadline;
      }
    }
  }

  lemma {:induction false} InvAlways(cfg: Settings, start: World, run: seq<Event>)
    requires Started(cfg, start) && Runs(cfg, start, run)
    ensures Inv(cfg, After(cfg, start, run))
    decreases |run|
  {
    if run == [] {
    } else {
      var w, e := After(cfg, start, run[..|run| - 1]), run[|run| - 1];
      InvAlways(cfg, start, run[..|run| - 1]);
      StepKeepsKnown(cfg, w, e);
      StepKeepsCap(cfg, w, e);
      StepKeepsPending(cfg, w, e);
      StepKeepsTokens(cfg, w, e);
    }
  }

  // ---------------------------------------------------------------- chains

  /** The token a chain of exchanges started from, or the first one minted from a grant. */
  ghost function RootOf(w: World, i: nat): (r: nat)
    requires Descends(w) && i < |w.core.issued|
    ensures r <= i && !w.core.issued[r].origin.FromToken?
    decreases i
  {
    if w.core.issued[i].origin.FromToken? then RootOf(w, w.core.issued[i].origin.parent) else i
  }

  /** The audiences a chain passed through, from the root token's (or the grant's service) to the last. */
  ghost function Path(w: World, i: nat): (p: seq<Service>)
    requires Descends(w) && i < |w.core.issued|
    ensures p != [] && p[|p| - 1] == w.core.issued[i].token.audience
    decreases i
  {
    match w.core.issued[i].origin
    case Root => [w.core.issued[i].token.audience]
    case FromGrant(id) => [w.recorded[id].service, w.core.issued[i].token.audience]
    case FromToken(p) => Path(w, p) + [w.core.issued[i].token.audience]
  }

  /** The whole seconds that fit between the two readings of each exchange after the root, added up. */
  ghost function Slip(w: World, i: nat): int
    requires Descends(w) && i < |w.core.issued|
    decreases i
  {
    match w.core.issued[i].origin
    case FromToken(p) => Slip(w, p) + (w.core.issued[i].signed - w.core.issued[i].clipped) / SECOND
    case _ => 0
  }

  /** Every exchange after the root took less than a second from reading to signing. */
  ghost predicate Prompt(w: World, i: nat)
    requires Descends(w) && i < |w.core.issued|
    decreases i
  {
    match w.core.issued[i].origin
    case FromToken(p) => w.core.issued[i].signed < w.core.issued[i].clipped + SECOND && Prompt(w, p)
    case _ => true
  }

  lemma {:induction false} PromptSlipsNothing(cfg: Settings, w: World, i: nat)
    requires Inv(cfg, w) && i < |w.core.issued| && Prompt(w, i)
    ensures Slip(w, i) == 0
    decreases i
  {
    var t := w.core.issued[i];
    if t.origin.FromToken? {
      PromptSlipsNothing(cfg, w, t.origin.parent);
      assert Clipped(t, Deadline(w, i));
    }
  }

  ghost predicate Walks(cfg: Settings, path: seq<Service>) {
    forall j :: 0 <= j < |path| - 1 ==> MayExchange(cfg, path[j], {path[j + 1]})
  }

  lemma WholeSecondsLate(exp: int, parent: int, moved: int)
    requires exp * SECOND <= parent * SECOND + moved && moved >= 0
    ensures exp <= parent + moved / SECOND
  {
  }

  lemma {:induction false} ChainFollowsRoot(cfg: Settings, w: World, i: nat)
    requires Inv(cfg, w) && i < |w.core.issued|
    ensures var root, t := w.core.issued[RootOf(w, i)].token, w.core.issued[i].token;
            && t.subject == root.subject
            && t.exp <= root.exp + Slip(w, i)
            && Walks(cfg, Path(w, i))
            && Path(w, i)[0] == (match w.core.issued[RootOf(w, i)].origin
                                 case FromGrant(id) => w.recorded[id].service
                                 case _ => root.audience)
    decreases i
  {
    var t := w.core.issued[i];
    if t.origin.FromToken? {
      var p := t.origin.parent;
      ChainFollowsRoot(cfg, w, p);
      assert Deadline(w, i) == w.core.issued[p].token.exp * SECOND;
      WholeSecondsLate(t.token.exp, w.core.issued[p].token.exp, t.signed - t.clipped);
    }
  }

  /**
    Chains of exchanges of any length, however they interleave. A token speaks for the account the
    root spoke for, was live when signed, and names an audience the allowlist leads to from the
    root's audience or from the service the grant was given to. It expires no later than the root
    token if no exchange took a whole second, and in any case by no more than the whole seconds the
    exchanges took; against a grant the first of them must also fall in one second.
  */
  lemma ChainsKeepAuthority(cfg: Settings, start: World, run: seq<Event>, i: nat)
    requires Started(cfg, start) && Runs(cfg, start, run) && i < |After(cfg, start, run).core.issued|
    ensures var w := After(cfg, start, run);
            && Inv(cfg, w)
            && var t, r := w.core.issued[i], w.core.issued[RootOf(w, i)];
               && t.token.subject == r.token.subject
               && (!t.origin.Root? ==> t.signed < t.token.exp * SECOND)
               && Walks(cfg, Path(w, i)) && Path(w, i)[|Path(w, i)| - 1] == t.token.audience
               && (r.origin.Root? ==>
                     && Path(w, i)[0] == r.token.audience
                     && t.token.exp <= r.token.exp + Slip(w, i)
                     && (Prompt(w, i) ==> t.token.exp <= r.token.exp))
               && (r.origin.FromGrant? ==>
                     && r.origin.grant in w.recorded
                     && var g := w.recorded[r.origin.grant];
                        && t.token.subject == g.account && Path(w, i)[0] == g.service && r.token.audience in g.audiences
                        && t.token.exp * SECOND <= g.expiresAt + (r.signed - r.clipped) + Slip(w, i) * SECOND
                        && (Prompt(w, i) && SameSecond(r.clipped, r.signed) ==> t.token.exp * SECOND <= g.expiresAt))
  {
    InvAlways(cfg, start, run);
    var w := After(cfg, start, run);
    ChainFollowsRoot(cfg, w, i);
    if Prompt(w, i) {
      PromptSlipsNothing(cfg, w, i);
    }
    var r := RootOf(w, i);
    if w.core.issued[r].origin.FromGrant? {
      assert Deadline(w, r) == w.recorded[w.core.issued[r].origin.grant].expiresAt;
    }
  }

  // ---------------------------------------------------------------- offline grants

  /** At the clock's own time and after, a profile has no more live grants than its cap. */
  lemma LiveGrantsCapped(cfg: Settings, start: World, run: seq<Event>, who: (AccountId, ProfileName), t: int)
    requires Started(cfg, start) && Runs(cfg, start, run) && After(cfg, start, run).clock <= t
    ensures |LiveIds(After(cfg, start, run).core.grants, who, t)| <= cfg.grantCap
  {
    InvAlways(cfg, start, run);
  }

  /** A grant that is withdrawn, or went with its profile. */
  predicate Gone(w: World, id: GrantId) {
    id in w.recorded && (id in w.core.grants ==> w.core.grants[id].revokedAt.Some?)
  }

  /** Exchanges that had read a grant and have not minted yet. */
  function Carrying(w: World, id: GrantId): set<nat> { set k | k in w.pending && w.pending[k].origin == FromGrant(id) }

  /** How many of the first `n` tokens were minted from a grant. */
  function MintedFrom(issued: seq<Issued>, n: nat, id: GrantId): nat
    requires n <= |issued|
  {
    if n == 0 then 0 else MintedFrom(issued, n - 1, id) + if issued[n - 1].origin == FromGrant(id) then 1 else 0
  }

  lemma {:induction false} MintedFromPrefix(a: seq<Issued>, b: seq<Issued>, n: nat, id: GrantId)
    requires n <= |a| && a <= b
    ensures MintedFrom(a, n, id) == MintedFrom(b, n, id)
  {
    if n == 0 {
    } else {
      MintedFromPrefix(a, b, n - 1, id);
    }
  }

  /** A token is one of these exchanges, carried out. */
  predicate CarriedOut(p: Pending, t: Issued) {
    t.origin == p.origin && t.token.subject == p.account && t.token.audience == p.audience
  }

  /** An exchange that a step finds pending on the grant was pending before it. */
  lemma GonePending(cfg: Settings, w: World, e: Event, id: GrantId)
    requires Enabled(w, e) && Gone(w, id)
    ensures var left := if e.Mint? then Carrying(w, id) - {e.k} else Carrying(w, id);
            Carrying(Do(cfg, w, e), id) == left && forall k :: k in left ==> Do(cfg, w, e).pending[k] == w.pending[k]
  {
    var w' := Do(cfg, w, e);
    forall k | k in w'.pending && w'.pending[k].origin == FromGrant(id) ensures k in Carrying(w, id) {
      if k !in w.pending {
        assert e.Present? && e.k == k;
      }
    }
  }

  lemma GoneRow(cfg: Settings, w: World, e: Event, id: GrantId)
    requires Enabled(w, e) && Known(w) && Gone(w, id)
    ensures var w' := Do(cfg, w, e);
            Gone(w', id) && (id in w'.core.grants ==> id in w.core.grants && w'.core.grants[id] == w.core.grants[id])
  {
  }

  /** What a step of a run from a withdrawn grant may do: finish or drop exchanges that had read it, never add one. */
  lemma GoneStep(cfg: Settings, w: World, e: Event, id: GrantId)
    requires Enabled(w, e) && Known(w) && Gone(w, id)
    ensures var w' := Do(cfg, w, e);
            && Gone(w', id)
            && (id in w'.core.grants ==> id in w.core.grants && w'.core.grants[id] == w.core.grants[id])
            && Carrying(w', id) <= Carrying(w, id)
            && (forall k :: k in Carrying(w', id) ==> w'.pending[k] == w.pending[k])
            && MintedFrom(w'.core.issued, |w'.core.issued|, id) + |Carrying(w', id)|
               <= MintedFrom(w.core.issued, |w.core.issued|, id) + |Carrying(w, id)|
  {
    GoneRow(cfg, w, e, id);
    GonePending(cfg, w, e, id);
    IssuedStep(cfg, w, e, id);
    if e.Mint? && e.k !in Carrying(w, id) {
      assert Carrying(w, id) - {e.k} == Carrying(w, id);
    }
  }

  lemma IssuedStep(cfg: Settings, w: World, e: Event, id: GrantId)
    requires Enabled(w, e)
    ensures var w' := Do(cfg, w, e);
            MintedFrom(w'.core.issued, |w'.core.issued|, id)
            <= MintedFrom(w.core.issued, |w.core.issued|, id) + if e.Mint? && e.k in Carrying(w, id) then 1 else 0
  {
    var w' := Do(cfg, w, e);
    assert w.core.issued <= w'.core.issued;
    MintedFromPrefix(w.core.issued, w'.core.issued, |w.core.issued|, id);
  }

  /**
    From any state in which a grant is withdrawn, over any run: its withdrawal never changes, nobody
    can present it, and the tokens still minted from it are exchanges that had read it before, each
    at most once.
  */
  lemma {:induction false} WithdrawnForGood(cfg: Settings, w: World, run: seq<Event>, id: GrantId)
    requires Known(w) && Runs(cfg, w, run) && Gone(w, id)
    ensures var w' := After(cfg, w, run);
            && Known(w') && Gone(w', id)
            && (id in w'.core.grants ==> id in w.core.grants && w'.core.grants[id] == w.core.grants[id])
            && (forall service, audience, ttl, now ::
               Presented(cfg, w'.core, service, audience, ttl, Grant(id), now).None?)
            && w.core.issued <= w'.core.issued && w.clock <= w'.clock
            && Carrying(w', id) <= Carrying(w, id)
            && (forall k :: k in Carrying(w', id) ==> w'.pending[k] == w.pending[k])
            && MintedFrom(w'.core.issued, |w'.core.issued|, id) + |Carrying(w', id)|
               <= MintedFrom(w.core.issued, |w.core.issued|, id) + |Carrying(w, id)|
            && (forall i :: |w.core.issued| <= i < |w'.core.issued| && w'.core.issued[i].origin == FromGrant(id) ==>
                  exists k :: k in Carrying(w, id) && CarriedOut(w.pending[k], w'.core.issued[i]))
    decreases |run|
  {
    if run == [] {
    } else {
      var mid, e := After(cfg, w, run[..|run| - 1]), run[|run| - 1];
      WithdrawnForGood(cfg, w, run[..|run| - 1], id);
      StepKeepsKnown(cfg, mid, e);
      GoneStep(cfg, mid, e, id);
      NewFromGrant(cfg, w, mid, e, id);
    }
  }

  lemma NewFromGrant(cfg: Settings, w: World, mid: World, e: Event, id: GrantId)
    requires Enabled(mid, e) && Carrying(mid, id) <= Carrying(w, id)
    requires forall k :: k in Carrying(mid, id) ==> mid.pending[k] == w.pending[k]
    requires w.core.issued <= mid.core.issued
    requires forall i :: |w.core.issued| <= i < |mid.core.issued| && mid.core.issued[i].origin == FromGrant(id) ==>
               exists k :: k in Carrying(w, id) && CarriedOut(w.pending[k], mid.core.issued[i])
    ensures var w' := Do(cfg, mid, e);
            forall i :: |w.core.issued| <= i < |w'.core.issued| && w'.core.issued[i].origin == FromGrant(id) ==>
              exists k :: k in Carrying(w, id) && CarriedOut(w.pending[k], w'.core.issued[i])
  {
    var w', n := Do(cfg, mid, e), |mid.core.issued|;
    forall i | |w.core.issued| <= i < |w'.core.issued| && w'.core.issued[i].origin == FromGrant(id)
      ensures exists k :: k in Carrying(w, id) && CarriedOut(w.pending[k], w'.core.issued[i])
    {
      if i < n {
        assert w'.core.issued[i] == mid.core.issued[i];
      } else {
        assert e.Mint? && e.k in Carrying(mid, id) && CarriedOut(w.pending[e.k], w'.core.issued[i]);
      }
    }
  }

  // ---------------------------------------------------------------- what a withdrawal does not stop

  /** No run from here mints another token from the grant. */
  ghost predicate NothingMore(cfg: Settings, w: World, id: GrantId) {
    forall run :: Runs(cfg, w, run) ==>
      MintedFrom(After(cfg, w, run).core.issued, |After(cfg, w, run).core.issued|, id)
      == MintedFrom(w.core.issued, |w.core.issued|, id)
  }

  lemma LifetimeShrinks(cfg: Settings, ttl: int, deadline: int, now: int, later: int)
    requires now <= later && Lifetime(cfg, ttl, deadline, now) <= 0
    ensures Lifetime(cfg, ttl, deadline, later) <= 0
  {
    if deadline - later >= 0 {
      assert WholeSeconds(deadline - later) <= WholeSeconds(deadline - now);
    }
  }

  lemma {:induction false} LapsedMintNothing(cfg: Settings, w: World, run: seq<Event>, id: GrantId)
    requires Known(w) && Gone(w, id) && Runs(cfg, w, run)
    requires forall k :: k in Carrying(w, id) ==> Lifetime(cfg, w.pending[k].ttl, w.pending[k].deadline, w.clock) <= 0
    ensures var w' := After(cfg, w, run);
            MintedFrom(w'.core.issued, |w'.core.issued|, id) == MintedFrom(w.core.issued, |w.core.issued|, id)
    decreases |run|
  {
    if run == [] {
    } else {
      var before, e := run[..|run| - 1], run[|run| - 1];
      LapsedMintNothing(cfg, w, before, id);
      WithdrawnForGood(cfg, w, before, id);
      var mid := After(cfg, w, before);
      var w' := Do(cfg, mid, e);
      StepKeepsKnown(cfg, mid, e);
      MintedFromPrefix(mid.core.issued, w'.core.issued, |mid.core.issued|, id);
      if e.Mint? && mid.pending[e.k].origin == FromGrant(id) {
        assert e.k in Carrying(mid, id);
        LifetimeShrinks(cfg, w.pending[e.k].ttl, w.pending[e.k].deadline, w.clock, e.reading);
        assert w'.core.issued == mid.core.issued;
      }
    }
  }

  lemma OneMore(cfg: Settings, start: World, run: seq<Event>, e: Event)
    requires Runs(cfg, start, run) && Enabled(After(cfg, start, run), e)
    ensures Runs(cfg, start, run + [e]) && After(cfg, start, run + [e]) == Do(cfg, After(cfg, start, run), e)
    ensures run == [] ==> run + [e] == [e]
  {
    assert (run + [e])[..|run|] == run;
  }

  /** The account made active if it is not, and the pending exchange carried out at once. */
  lemma PendingStillMints(cfg: Settings, w: World, id: GrantId, k: nat) returns (run: seq<Event>)
    requires k in Carrying(w, id) && Lifetime(cfg, w.pending[k].ttl, w.pending[k].deadline, w.clock) > 0
    ensures Runs(cfg, w, run)
    ensures var w' := After(cfg, w, run);
            MintedFrom(w'.core.issued, |w'.core.issued|, id) == MintedFrom(w.core.issued, |w.core.issued|, id) + 1
  {
    var e1, e2 := SetActive(w.pending[k].account, true), Mint(k, w.clock, w.clock);
    OneMore(cfg, w, [], e1);
    OneMore(cfg, w, [e1], e2);
    run := [e1] + [e2];
    var w2 := After(cfg, w, run);
    MintedFromPrefix(w.core.issued, w2.core.issued, |w.core.issued|, id);
  }

  /**
    After a withdrawal no exchange with that grant succeeds exactly when none that had read it
    before has any lifetime left to mint.
  */
  lemma WithdrawalIsFinalIff(cfg: Settings, w: World, id: GrantId)
    requires Known(w) && Gone(w, id)
    ensures NothingMore(cfg, w, id)
       <==> (forall k :: k in Carrying(w, id) ==> Lifetime(cfg, w.pending[k].ttl, w.pending[k].deadline, w.clock) <= 0)
  {
    if forall k :: k in Carrying(w, id) ==> Lifetime(cfg, w.pending[k].ttl, w.pending[k].deadline, w.clock) <= 0 {
      forall run | Runs(cfg, w, run)
        ensures MintedFrom(After(cfg, w, run).core.issued, |After(cfg, w, run).core.issued|, id)
             == MintedFrom(w.core.issued, |w.core.issued|, id)
      {
        LapsedMintNothing(cfg, w, run, id);
      }
    } else {
      var k :| k in Carrying(w, id) && Lifetime(cfg, w.pending[k].ttl, w.pending[k].deadline, w.clock) > 0;
      var run := PendingStillMints(cfg, w, id, k);
      assert Runs(cfg, w, run);
    }
  }

  /** Revoking answers for the grant's owner alone, and leaves it withdrawn at that reading unless it already was. */
  lemma RevokingWithdraws(cfg: Settings, w: World, e: Event)
    requires Enabled(w, e) && Known(w) && e.Withdraw? && Owns(w.core, e.id, (e.account, e.profile))
    requires e.holder.None? || w.core.grants[e.id].service == e.holder.value
    ensures var w' := Do(cfg, w, e);
            && Gone(w', e.id)
            && e.id in w'.core.grants
            && w'.core.grants[e.id].revokedAt == Some(
                  if w.core.grants[e.id].revokedAt.Some? then w.core.grants[e.id].revokedAt.value else e.reading)
            && w'.core.grants - {e.id} == w.core.grants - {e.id}
  {
    var w' := Do(cfg, w, e);
    assert w.core.grants[e.id].(revokedAt := w.recorded[e.id].revokedAt) == w.recorded[e.id];
    assert w'.core.grants - {e.id} == w.core.grants - {e.id};
  }

  // ---------------------------------------------------------------- no grant for longer than allowed

  /** Over every run, a grant created in it ends no later than the longest that is allowed after its creation. */
  lemma {:induction false} GrantsEndInTime(cfg: Settings, start: World, run: seq<Event>, id: GrantId)
    requires Runs(cfg, start, run) && id in After(cfg, start, run).recorded && id !in start.recorded
    ensures var g := After(cfg, start, run).recorded[id];
            g.expiresAt <= g.createdAt + cfg.grantMaxTtl * 1_000_000
    ensures Started(cfg, start) && id in After(cfg, start, run).core.grants ==>
              var g := After(cfg, start, run).core.grants[id];
              g.expiresAt <= g.createdAt + cfg.grantMaxTtl * 1_000_000
    decreases |run|
  {
    var before := After(cfg, start, run[..|run| - 1]);
    if id in before.recorded {
      GrantsEndInTime(cfg, start, run[..|run| - 1], id);
      assert After(cfg, start, run).recorded[id] == before.recorded[id];
    }
    if Started(cfg, start) {
      InvAlways(cfg, start, run);
    }
  }
}
