/**
  Who may change a stored credential, and where every stored credential came from. A change is
  admitted against its owner's settings; an OAuth consent is admitted when it begins, and its
  single-use state is the only authority the callback has.

  A step is what runs between two awaits, so any number of requests and callbacks interleave. States
  are random, hence fresh. A service can begin a consent and remove a connection; only the owner and
  administrators can remove a profile.
*/
module Authorizations {
  import opened Options
  import opened Preferences
  import Vault

  type AccountId = string
  type Place = Vault.Place
  type Key = Vault.Key
  type State = string

  datatype Origin = Person | ServiceOrigin | Administrator

  datatype Requester = Requester(origin: Origin, password: Option<string>)

  /** Only a person can send a password. */
  predicate Genuine(r: Requester) { r.origin.Person? || r.password.None? }

  /** The owner's settings when the change may go ahead; `right` is whether a password sent is the account's. */
  function Admitted(d: Preferences, answer: Answer, r: Requester, right: bool): Option<Preferences> {
    var p := ForAccount(d, answer);
    if p.None? || r.origin.Administrator? then p
    else if r.password.Some? then (if right then p else None)
    else if p.value.requireReauth == Some(false) then p else None
  }

  // ---------------------------------------------------------------- the state store

  datatype Flow = Flow(binding: Key, expiresAt: int)

  predicate IsLive(f: Flow, now: int) { now < f.expiresAt }

  /** The state leaves the map in any case; it answers for its flow only before the flow's deadline. */
  function Popped(flows: map<State, Flow>, state: State, now: int): (map<State, Flow>, Option<Flow>) {
    (flows - {state}, if state in flows && IsLive(flows[state], now) then Some(flows[state]) else None)
  }

  function LiveFlows(flows: map<State, Flow>, now: int): map<State, Flow> {
    map state | state in flows && IsLive(flows[state], now) :: flows[state]
  }

  lemma Apart(all: set<State>, left: set<State>, gone: set<State>)
    requires (forall s :: s in left <==> s in all && s !in gone) && gone <= all
    ensures |gone| == |all| - |left|
  {
    assert all == left + gone && left !! gone;
  }

  class OAuthStateStore {
    var flows: map<State, Flow>

    constructor ()
      ensures flows == map[]
    {
      flows := map[];
    }

    method Issue(state: State, binding: Key, ttl: int, now: int)
      requires state !in flows
      modifies this
      ensures flows == old(flows)[state := Flow(binding, now + ttl)]
    {
      flows := flows[state := Flow(binding, now + ttl)];
    }

    method Redeem(state: State, now: int) returns (flow: Option<Flow>)
      modifies this
      ensures (flows, flow) == Popped(old(flows), state, now)
      ensures flows == old(flows) - {state}
      ensures flow.Some? <==> state in old(flows) && now < old(flows)[state].expiresAt
      ensures flow.Some? ==> flow.value == old(flows)[state]
    {
      flow := if state in flows then Some(flows[state]) else None;
      flows := flows - {state};
      if flow.Some? && !IsLive(flow.value, now) {
        flow := None;
      }
    }

    method PurgeExpired(now: int) returns (gone: nat)
      modifies this
      ensures flows == LiveFlows(old(flows), now)
      ensures forall s :: s in flows <==> s in old(flows) && now < old(flows)[s].expiresAt
      ensures forall s :: s in flows ==> flows[s] == old(flows)[s]
      ensures gone == |old(flows)| - |flows|
    {
      ghost var all := flows;
      var doomed := set state | state in flows && !IsLive(flows[state], now);
      gone := |doomed|;
      var left := doomed;
      while left != {}
        invariant left <= doomed
        invariant forall s :: s in flows <==> s in all && (s in doomed ==> s in left)
        invariant forall s :: s in flows ==> flows[s] == all[s]
        decreases left
      {
        var state :| state in left;
        flows := flows - {state};
        left := left - {state};
      }
      Apart(all.Keys, flows.Keys, doomed);
    }
  }

  // ---------------------------------------------------------------- runs

  datatype Act = Store(key: Key) | Begin(key: Key) | Remove(key: Key) | RemoveProfile(place: Place)

  /** How a request came to be allowed. An empty profile's removal is not a credential change and is not checked. */
  datatype Proof = Checked(origin: Origin, confirmed: bool, required: Option<bool>) | Unchecked(origin: Origin)

  datatype Request =
    | Asking(who: Requester, act: Act)
    | Confirming(who: Requester, act: Act, required: Option<bool>)
    | Allowed(proof: Proof, act: Act)
    | Called(state: State, binding: Key)       // a callback that redeemed its state, and what it was bound to
    | Exchanging(state: State, binding: Key)   // ... and knows the owner's settings

  datatype Change =
    | Stored(key: Key, proof: Proof)
    | Consented(state: State, key: Key)
    | Removed(key: Key, proof: Proof)
    | ProfileRemoved(place: Place, gone: set<Key>, proof: Proof)   // only when it held a credential

  /** A consent as it began. */
  datatype Admission = Admission(binding: Key, deadline: int, proof: Proof)

  datatype World = World(
    held: set<Key>,                      // keys with a credential
    connected: set<Key>,                 // keys with a connection: those, and placeholders of consents begun
    flows: map<State, Flow>,
    requests: map<nat, Request>,
    clock: int,
    admissions: map<State, Admission>,   // every state ever issued
    redeemed: map<State, int>,           // when each was redeemed in time
    changes: seq<Change>)

  datatype Event =
    | Tick(to: int)
    | Arrive(k: nat, who: Requester, act: Act)
    | Settings(k: nat, answer: Answer)
    | Confirm(k: nat, right: bool)
    | Perform(k: nat)
    | Issue(k: nat, state: State, ttl: int, reading: int, waiting: bool)   // with a placeholder, or none was due
    | Callback(k: nat, state: State, reading: int)
    | Exchanged(k: nat, ok: bool)
    | Sweep(reading: int)
    | Drop(k: nat)                       // a request fails or is cancelled

  /** What the API lets each kind of requester ask for. */
  predicate Offered(o: Origin, act: Act) {
    match o
    case Person => true
    case ServiceOrigin => act.Begin? || act.Remove?
    case Administrator => act.RemoveProfile?
  }

  function AccountOf(a: Act): AccountId { if a.RemoveProfile? then a.place.account else a.key.place.account }

  predicate Enabled(w: World, e: Event) {
    match e
    case Tick(to) => w.clock <= to
    case Arrive(k, who, act) => k !in w.requests && Genuine(who) && Offered(who.origin, act)
    case Settings(k, _) => k in w.requests && (w.requests[k].Asking? || w.requests[k].Called?)
    case Confirm(k, _) => k in w.requests && w.requests[k].Confirming?
    case Perform(k) => k in w.requests && w.requests[k].Allowed? && !w.requests[k].act.Begin?
    case Issue(k, state, _, reading, _) =>
      k in w.requests && w.requests[k].Allowed? && w.requests[k].act.Begin? && state !in w.admissions
          && reading <= w.clock
    case Callback(k, _, reading) => k !in w.requests && reading <= w.clock
    case Exchanged(k, _) => k in w.requests && w.requests[k].Exchanging?
    case Sweep(reading) => reading <= w.clock
    case Drop(k) => k in w.requests
  }

  /** A profile with no connections holds no credential. */
  predicate Empty(w: World, p: Place) { forall key :: key in w.connected ==> key.place != p }

  /** What becomes of the request an event is about: nothing, when it is over. */
  function Next(d: Preferences, w: World, e: Event): Option<Request>
    requires Enabled(w, e) && !e.Tick? && !e.Sweep?
  {
    match e
    case Arrive(k, who, act) =>
      if act.RemoveProfile? && Empty(w, act.place) then Some(Allowed(Unchecked(who.origin), act))
          else Some(Asking(who, act))
    case Settings(k, answer) =>
      var p, r := ForAccount(d, answer), w.requests[k];
      if p.None? then None
      else if r.Called? then Some(Exchanging(r.state, r.binding))
      else if r.who.origin.Administrator? then
        Some(Allowed(Checked(Administrator, false, p.value.requireReauth), r.act))
      else if r.who.password.Some? then Some(Confirming(r.who, r.act, p.value.requireReauth))
      else if p.value.requireReauth == Some(false) then Some(Allowed(Checked(r.who.origin, false, Some(false)), r.act))
      else None
    case Confirm(k, right) =>
      var r := w.requests[k];
      if right then Some(Allowed(Checked(r.who.origin, true, r.required), r.act)) else None
    case Callback(k, state, reading) =>
      var flow := Popped(w.flows, state, reading).1;
      if flow.Some? then Some(Called(state, flow.value.binding)) else None
    case _ => None
  }

  /** Every connection and credential of a profile goes with it. */
  function WithoutProfile(w: World, p: Place, proof: Proof): World {
    var gone := set key | key in w.held && key.place == p;
    w.(held := w.held - gone, connected := (set key | key in w.connected && key.place != p),
       changes := if gone == {} then w.changes else w.changes + [ProfileRemoved(p, gone, proof)])
  }

  /** What an event does to the tables. */
  function Written(w: World, e: Event): World
    requires Enabled(w, e)
  {
    match e
    case Tick(to) => w.(clock := to)
    case Perform(k) =>
      var r := w.requests[k];
      (match r.act
       case Store(key) => w.(held := w.held + {key}, connected := w.connected + {key},
                             changes := w.changes + [Stored(key, r.proof)])
       case Remove(key) =>
         if key !in w.connected then w
         else w.(held := w.held - {key}, connected := w.connected - {key},
                 changes := w.changes + [Removed(key, r.proof)])
       case RemoveProfile(p) => WithoutProfile(w, p, r.proof)
       case Begin(_) => w)
    case Issue(k, state, ttl, reading, waiting) =>
      var r := w.requests[k];
      w.(connected := if waiting then w.connected + {r.act.key} else w.connected,
         flows := w.flows[state := Flow(r.act.key, reading + ttl)],
         admissions := w.admissions[state := Admission(r.act.key, reading + ttl, r.proof)])
    case Callback(k, state, reading) =>
      var (flows, flow) := Popped(w.flows, state, reading);
      w.(flows := flows, redeemed := if flow.Some? then w.redeemed[state := reading] else w.redeemed)
    case Exchanged(k, ok) =>
      var r := w.requests[k];
      if ok
      then w.(held := w.held + {r.binding}, connected := w.connected + {r.binding},
              changes := w.changes + [Consented(r.state, r.binding)])
      else w
    case Sweep(reading) => w.(flows := LiveFlows(w.flows, reading))
    case _ => w
  }

  function Do(d: Preferences, w: World, e: Event): World
    requires Enabled(w, e)
  {
    if e.Tick? || e.Sweep? then Written(w, e)
    else
      var next := Next(d, w, e);
      Written(w, e).(requests := if next.Some? then w.requests[e.k := next.value] else w.requests - {e.k})
  }

  ghost predicate Runs(d: Preferences, start: World, run: seq<Event>)
    decreases |run|, 0
  {
    run == [] || (Runs(d, start, run[..|run| - 1]) && Enabled(After(d, start, run[..|run| - 1]), run[|run| - 1]))
  }

  ghost function After(d: Preferences, start: World, run: seq<Event>): World
    requires Runs(d, start, run)
    decreases |run|, 1
  {
    if run == [] then start else Do(d, After(d, start, run[..|run| - 1]), run[|run| - 1])
  }

  /** A process that has just started: flows live in its memory. */
  ghost predicate Started(w: World) {
    && w.flows == map[] && w.requests == map[] && w.admissions == map[] && w.redeemed == map[] && w.changes == []
    && w.held <= w.connected
  }

  /**
    A request asked for in this account's name is let go on exactly when it is admitted: after the
    settings' answer, and where a password was sent, after it was judged.
  */
  lemma GoesOnIffAdmitted(d: Preferences, w: World, k: nat, answer: Answer, right: bool)
    requires k in w.requests && w.requests[k].Asking? && Genuine(w.requests[k].who)
    ensures var asked := w.requests[k];
            var w1 := Do(d, w, Settings(k, answer));
            var w2 := if k in w1.requests && w1.requests[k].Confirming? then Do(d, w1, Confirm(k, right)) else w1;
            && (k in w2.requests <==> Admitted(d, answer, asked.who, right).Some?)
            && (k in w2.requests ==>
                  && w2.requests[k].Allowed? && w2.requests[k].act == asked.act
                  && w2.requests[k].proof.Checked? && w2.requests[k].proof.origin == asked.who.origin)
            && w2 == w.(requests := w2.requests)
  {
  }

  // ---------------------------------------------------------------- where consented credentials come from

  /** Checked against the owner's settings and let through: an administrator, a right password, or nothing asked for. */
  predicate LetThrough(p: Proof) {
    p.Checked? && (p.origin.Administrator? || p.confirmed || p.required == Some(false))
  }

  ghost predicate FlowsKnown(w: World) {
    && (forall s :: s in w.flows ==>
          && s in w.admissions && s !in w.redeemed
          && w.flows[s] == Flow(w.admissions[s].binding, w.admissions[s].deadline))
    && (forall s :: s in w.redeemed ==> s in w.admissions && w.redeemed[s] < w.admissions[s].deadline)
    && (forall s :: s in w.admissions ==> LetThrough(w.admissions[s].proof))
  }

  predicate AtCallback(r: Request) { r.Called? || r.Exchanging? }

  /** What a callback carries is what its consent was bound to when it began. */
  predicate RequestKnown(redeemed: map<State, int>, admissions: map<State, Admission>, r: Request) {
    match r
    case Asking(who, act) => Genuine(who)
    case Confirming(who, act, _) => who.origin.Person?
    case Allowed(proof, act) => if proof.Checked? then LetThrough(proof)
        else act.RemoveProfile? && !proof.origin.ServiceOrigin?
    case Called(state, binding) => state in redeemed && state in admissions && admissions[state].binding == binding
    case Exchanging(state, binding) => state in redeemed && state in admissions && admissions[state].binding == binding
  }

  ghost predicate RequestsKnown(w: World) {
    forall k :: k in w.requests ==> RequestKnown(w.redeemed, w.admissions, w.requests[k])
  }

  predicate Carries(r: Request, state: State) { AtCallback(r) && r.state == state }

  /** A redeemed state is in at most one callback, and in none once it has been stored. */
  ghost predicate CallbacksApart(w: World) {
    forall j, k, state ::
      (j in w.requests && k in w.requests && Carries(w.requests[j], state) && Carries(w.requests[k], state)) ==> j == k
  }

  ghost predicate ChangeKnown(w: World, c: Change) {
    c.Consented? ==>
      && c.state in w.redeemed && c.state in w.admissions && w.admissions[c.state].binding == c.key
      && forall k :: k in w.requests ==> !Carries(w.requests[k], c.state)
  }

  ghost predicate ChangesKnown(w: World) {
    && (forall i :: 0 <= i < |w.changes| ==> ChangeKnown(w, w.changes[i]))
    && (forall i, j :: 0 <= i < j < |w.changes| && w.changes[i].Consented? && w.changes[j].Consented? ==>
          w.changes[i].state != w.changes[j].state)
  }

  ghost predicate Inv(w: World) {
    FlowsKnown(w) && RequestsKnown(w) && CallbacksApart(w) && ChangesKnown(w) && w.held <= w.connected
  }

  // ---------------------------------------------------------------- one step

  predicate About(e: Event, k: nat) { !e.Tick? && !e.Sweep? && e.k == k }

  lemma OtherRequests(d: Preferences, w: World, e: Event, k: nat)
    requires Enabled(w, e) && !About(e, k)
    ensures k in Do(d, w, e).requests <==> k in w.requests
    ensures k in w.requests ==> Do(d, w, e).requests[k] == w.requests[k]
  {
  }

  lemma FlowsMove(d: Preferences, w: World, e: Event)
    requires Enabled(w, e)
    ensures var w' := Do(d, w, e);
            && (!e.Issue? && !e.Callback? && !e.Sweep? ==> w'.flows == w.flows)
            && (!e.Issue? ==> w'.admissions == w.admissions)
            && (!e.Callback? ==> w'.redeemed == w.redeemed)
  {
  }

  lemma StepKeepsFlows(d: Preferences, w: World, e: Event)
    requires Enabled(w, e) && FlowsKnown(w) && RequestsKnown(w)
    ensures FlowsKnown(Do(d, w, e))
    ensures forall s :: s in w.redeemed ==> s in Do(d, w, e).redeemed
    ensures forall s :: s in w.admissions ==>
            s in Do(d, w, e).admissions && Do(d, w, e).admissions[s] == w.admissions[s]
  {
    FlowsMove(d, w, e);
    if e.Issue? {
      assert RequestKnown(w.redeemed, w.admissions, w.requests[e.k]);
    }
  }

  lemma OwnRequestKnown(d: Preferences, w: World, e: Event, k: nat)
    requires Enabled(w, e) && FlowsKnown(w) && RequestsKnown(w) && About(e, k) && k in Do(d, w, e).requests
    ensures RequestKnown(Do(d, w, e).redeemed, Do(d, w, e).admissions, Do(d, w, e).requests[k])
  {
    if k in w.requests {
      assert RequestKnown(w.redeemed, w.admissions, w.requests[k]);
    }
    match e
    case Arrive(_, who, act) =>
    case Settings(_, answer) =>
    case Callback(_, state, reading) =>
    case _ =>
  }

  lemma OwnRequestCarries(d: Preferences, w: World, e: Event, k: nat, state: State)
    requires Enabled(w, e) && About(e, k) && k in Do(d, w, e).requests && Carries(Do(d, w, e).requests[k], state)
    ensures (k in w.requests && Carries(w.requests[k], state)) || (e.Callback? && e.state == state && state in w.flows)
  {
    match e
    case Arrive(_, who, act) =>
    case Settings(_, answer) =>
    case Callback(_, state, reading) =>
    case _ =>
  }

  lemma CarriedBefore(d: Preferences, w: World, e: Event, k: nat, state: State)
    requires Enabled(w, e) && k in Do(d, w, e).requests && Carries(Do(d, w, e).requests[k], state)
    ensures (k in w.requests && Carries(w.requests[k], state))
            || (e.Callback? && e.k == k && e.state == state && state in w.flows)
  {
    if About(e, k) {
      OwnRequestCarries(d, w, e, k, state);
    } else {
      OtherRequests(d, w, e, k);
    }
  }

  lemma StepKeepsRequests(d: Preferences, w: World, e: Event)
    requires Enabled(w, e) && FlowsKnown(w) && RequestsKnown(w) && CallbacksApart(w)
    ensures RequestsKnown(Do(d, w, e)) && CallbacksApart(Do(d, w, e))
  {
    var w' := Do(d, w, e);
    StepKeepsFlows(d, w, e);
    forall k | k in w'.requests ensures RequestKnown(w'.redeemed, w'.admissions, w'.requests[k]) {
      if About(e, k) {
        OwnRequestKnown(d, w, e, k);
      } else {
        OtherRequests(d, w, e, k);
        assert RequestKnown(w.redeemed, w.admissions, w.requests[k]);
      }
    }
    forall j, k, state | j in w'.requests && k in w'.requests && Carries(w'.requests[j], state)
        && Carries(w'.requests[k], state)
      ensures j == k
    {
      CarriedBefore(d, w, e, j, state);
      CarriedBefore(d, w, e, k, state);
      if j in w.requests && Carries(w.requests[j], state) {
        assert RequestKnown(w.redeemed, w.admissions, w.requests[j]);
      }
      if k in w.requests && Carries(w.requests[k], state) {
        assert RequestKnown(w.redeemed, w.admissions, w.requests[k]);
      }
    }
  }

  lemma ChangesMove(d: Preferences, w: World, e: Event)
    requires Enabled(w, e)
    ensures var w' := Do(d, w, e);
            || w'.changes == w.changes
            || (e.Exchanged? && w'.changes == w.changes + [Consented(w.requests[e.k].state, w.requests[e.k].binding)]
                && w'.requests == w.requests - {e.k})
            || (e.Perform? && |w'.changes| == |w.changes| + 1 && w.changes <= w'.changes
                && !w'.changes[|w.changes|].Consented?)
  {
  }

  lemma ChangeStaysKnown(d: Preferences, w: World, e: Event, c: Change)
    requires Enabled(w, e) && FlowsKnown(w) && RequestsKnown(w) && ChangeKnown(w, c)
    ensures ChangeKnown(Do(d, w, e), c)
  {
    StepKeepsFlows(d, w, e);
    var w' := Do(d, w, e);
    if c.Consented? {
      forall k | k in w'.requests ensures !Carries(w'.requests[k], c.state) {
        if Carries(w'.requests[k], c.state) {
          CarriedBefore(d, w, e, k, c.state);
        }
      }
    }
  }

  lemma StepKeepsChanges(d: Preferences, w: World, e: Event)
    requires Enabled(w, e) && Inv(w)
    ensures ChangesKnown(Do(d, w, e))
  {
    var w', n := Do(d, w, e), |w.changes|;
    ChangesMove(d, w, e);
    forall i | 0 <= i < n ensures ChangeKnown(w', w.changes[i]) {
      ChangeStaysKnown(d, w, e, w.changes[i]);
    }
    if e.Exchanged? && |w'.changes| > n {
      ExchangeIsKnown(d, w, e);
    }
  }

  /** A consent that comes through names the state its own request carried, which no earlier change names. */
  lemma ExchangeIsKnown(d: Preferences, w: World, e: Event)
    requires Enabled(w, e) && Inv(w) && e.Exchanged? && |Do(d, w, e).changes| > |w.changes|
    ensures var w', n := Do(d, w, e), |w.changes|;
            && ChangeKnown(w', w'.changes[n]) && w'.changes[n].Consented?
            && forall i :: 0 <= i < n && w.changes[i].Consented? ==> w.changes[i].state != w'.changes[n].state
  {
    var w', r := Do(d, w, e), w.requests[e.k];
    assert RequestKnown(w.redeemed, w.admissions, r) && Carries(r, r.state);
    FlowsMove(d, w, e);
    forall k | k in w'.requests ensures !Carries(w'.requests[k], r.state) {
      assert w'.requests[k] == w.requests[k];
    }
    forall i | 0 <= i < |w.changes| && w.changes[i].Consented? ensures w.changes[i].state != r.state {
      assert ChangeKnown(w, w.changes[i]);
    }
  }

  lemma StepKeepsConnected(d: Preferences, w: World, e: Event)
    requires Enabled(w, e) && w.held <= w.connected
    ensures Do(d, w, e).held <= Do(d, w, e).connected
  {
  }

  lemma {:induction false} InvAlways(d: Preferences, start: World, run: seq<Event>)
    requires Started(start) && Runs(d, start, run)
    ensures Inv(After(d, start, run))
    decreases |run|
  {
    if run == [] {
    } else {
      var w, e := After(d, start, run[..|run| - 1]), run[|run| - 1];
      InvAlways(d, start, run[..|run| - 1]);
      StepKeepsFlows(d, w, e);
      StepKeepsRequests(d, w, e);
      StepKeepsChanges(d, w, e);
      StepKeepsConnected(d, w, e);
    }
  }

  /**
    Every credential a callback stored came from one consent that was let through when it began, for
    that very account, profile and service, and whose state was redeemed in time; and no two came
    from the same one.
  */
  lemma ConsentsAreAccountedFor(d: Preferences, start: World, run: seq<Event>, i: nat, j: nat)
    requires Started(start) && Runs(d, start, run)
    requires i < |After(d, start, run).changes| && After(d, start, run).changes[i].Consented?
    ensures var w := After(d, start, run);
            var c := w.changes[i];
            && c.state in w.admissions && c.state in w.redeemed
            && w.admissions[c.state].binding == c.key
            && LetThrough(w.admissions[c.state].proof)
            && w.redeemed[c.state] < w.admissions[c.state].deadline
            && (j < |w.changes| && w.changes[j].Consented? && w.changes[j].state == c.state ==> i == j)
  {
    InvAlways(d, start, run);
    var w := After(d, start, run);
    assert ChangeKnown(w, w.changes[i]);
  }

  // ---------------------------------------------------------------- re-authentication

  /** The owner's setting is never read as off: it is on, or nobody could say. */
  predicate NeverOff(d: Preferences, a: AccountId, w: World, e: Event)
    requires Enabled(w, e)
  {
    e.Settings? && w.requests[e.k].Asking? && AccountOf(w.requests[e.k].act) == a ==>
      var p := ForAccount(d, e.answer); p.Some? ==> p.value.requireReauth != Some(false)
  }

  ghost predicate AlwaysOn(d: Preferences, a: AccountId, start: World, run: seq<Event>)
    requires Runs(d, start, run)
  {
    run == [] || (AlwaysOn(d, a, start, run[..|run| - 1])
                  && NeverOff(d, a, After(d, start, run[..|run| - 1]), run[|run| - 1]))
  }

  /** The person's own password stands behind it. */
  predicate ByPassword(p: Proof) { p.Checked? && p.origin.Person? && p.confirmed }

  predicate Justified(p: Proof, act: Act) {
    ByPassword(p) || (act.RemoveProfile? && !p.origin.ServiceOrigin? && (p.Unchecked? || p.origin.Administrator?))
  }

  predicate RequestJustified(a: AccountId, r: Request) {
    match r
    case Asking(who, act) => Genuine(who) && Offered(who.origin, act)
    case Confirming(who, act, _) => who.origin.Person?
    case Allowed(proof, act) => AccountOf(act) == a ==> Justified(proof, act)
    case _ => true
  }

  ghost predicate ChangeJustified(a: AccountId, w: World, c: Change) {
    match c
    case Stored(key, proof) => key.place.account == a ==> ByPassword(proof)
    case Consented(state, key) => state in w.admissions && w.admissions[state].binding == key
    case Removed(key, proof) => key.place.account == a ==> ByPassword(proof)
    case ProfileRemoved(p, _, proof) => p.account == a ==> Justified(proof, RemoveProfile(p))
  }

  ghost predicate AllJustified(a: AccountId, w: World) {
    && (forall k :: k in w.requests ==> RequestJustified(a, w.requests[k]))
    && (forall s :: s in w.admissions && w.admissions[s].binding.place.account == a ==>
       ByPassword(w.admissions[s].proof))
    && (forall i :: 0 <= i < |w.changes| ==> ChangeJustified(a, w, w.changes[i]))
  }

  lemma OwnRequestJustified(d: Preferences, a: AccountId, w: World, e: Event, k: nat)
    requires Enabled(w, e) && AllJustified(a, w) && NeverOff(d, a, w, e) && About(e, k) && k in Do(d, w, e).requests
    ensures RequestJustified(a, Do(d, w, e).requests[k])
  {
    if k in w.requests {
      assert RequestJustified(a, w.requests[k]);
    }
    match e
    case Arrive(_, who, act) =>
    case Settings(_, answer) =>
    case Callback(_, state, reading) =>
    case _ =>
  }

  lemma PerformJustified(a: AccountId, w: World, k: nat)
    requires Enabled(w, Perform(k)) && RequestJustified(a, w.requests[k])
    requires |Written(w, Perform(k)).changes| > |w.changes|
    ensures ChangeJustified(a, w, Written(w, Perform(k)).changes[|w.changes|])
  {
  }

  lemma NewChangeJustified(d: Preferences, a: AccountId, w: World, e: Event)
    requires Enabled(w, e) && AllJustified(a, w) && RequestsKnown(w) && |Do(d, w, e).changes| > |w.changes|
    ensures ChangeJustified(a, w, Do(d, w, e).changes[|w.changes|])
  {
    assert Do(d, w, e).changes == Written(w, e).changes;
    if e.Perform? {
      PerformJustified(a, w, e.k);
    } else {
      assert RequestKnown(w.redeemed, w.admissions, w.requests[e.k]);
    }
  }

  lemma StepKeepsJustified(d: Preferences, a: AccountId, w: World, e: Event)
    requires Enabled(w, e) && AllJustified(a, w) && RequestsKnown(w) && NeverOff(d, a, w, e)
    ensures AllJustified(a, Do(d, w, e))
  {
    var w', n := Do(d, w, e), |w.changes|;
    ChangesMove(d, w, e);
    FlowsMove(d, w, e);
    forall k | k in w'.requests ensures RequestJustified(a, w'.requests[k]) {
      if About(e, k) {
        OwnRequestJustified(d, a, w, e, k);
      } else {
        OtherRequests(d, w, e, k);
      }
    }
    if e.Issue? {
      assert RequestJustified(a, w.requests[e.k]);
    }
    forall i | 0 <= i < |w'.changes| ensures ChangeJustified(a, w', w'.changes[i]) {
      if i < n {
        assert ChangeJustified(a, w, w.changes[i]);
        assert w'.changes[i] == w.changes[i];
      } else {
        NewChangeJustified(d, a, w, e);
      }
    }
  }

  lemma {:induction false} JustifiedAlways(d: Preferences, a: AccountId, start: World, run: seq<Event>)
    requires Started(start) && Runs(d, start, run) && AlwaysOn(d, a, start, run)
    ensures AllJustified(a, After(d, start, run))
    decreases |run|
  {
    if run == [] {
    } else {
      JustifiedAlways(d, a, start, run[..|run| - 1]);
      InvAlways(d, start, run[..|run| - 1]);
      StepKeepsJustified(d, a, After(d, start, run[..|run| - 1]), run[|run| - 1]);
    }
  }

  function OwnerOf(c: Change): AccountId { if c.ProfileRemoved? then c.place.account else c.key.place.account }

  /** Who stands behind a change: for a consented credential, whoever began the consent. */
  ghost function BehindIt(w: World, c: Change): Proof
    requires c.Consented? ==> c.state in w.admissions
  {
    if c.Consented? then w.admissions[c.state].proof else c.proof
  }

  /**
    While an account's re-authentication is on or unknown, every credential added or replaced for it,
    typed in or consented to, and every connection removed, traces to its own confirmed password, and
    nothing a service asked for changed anything. A profile goes on the password, on an
    administrator's word, or unchecked if it was found empty.
  */
  lemma PasswordStandsBehindChanges(d: Preferences, a: AccountId, start: World, run: seq<Event>, i: nat)
    requires Started(start) && Runs(d, start, run) && AlwaysOn(d, a, start, run)
    requires i < |After(d, start, run).changes| && OwnerOf(After(d, start, run).changes[i]) == a
    ensures var w := After(d, start, run);
            var c := w.changes[i];
            && (c.Consented? ==> c.state in w.admissions)
            && var p := BehindIt(w, c);
               && !p.origin.ServiceOrigin?
               && (c.ProfileRemoved? || ByPassword(p))
               && (c.ProfileRemoved? ==> ByPassword(p) || p.Unchecked? || p.origin.Administrator?)
  {
    JustifiedAlways(d, a, start, run);
    var w := After(d, start, run);
    assert ChangeJustified(a, w, w.changes[i]);
  }

  // ---------------------------------------------------------------- a profile that was empty

  predicate Puts(c: Change, key: Key) { (c.Stored? || c.Consented?) && c.key == key }

  predicate Takes(c: Change, key: Key) { (c.Removed? && c.key == key) || (c.ProfileRemoved? && key in c.gone) }

  /** Since the first `n` changes the key was stored, and not taken again. */
  ghost predicate StoredSince(w: World, n: nat, key: Key) {
    exists i :: n <= i < |w.changes| && Puts(w.changes[i], key)
             && forall j :: i < j < |w.changes| ==> !Takes(w.changes[j], key)
  }

  /** What one step does to one key, and what it records of it. */
  predicate Traced(w: World, w': World, key: Key) {
    if |w'.changes| == |w.changes| then w'.changes == w.changes && (key in w'.held <==> key in w.held)
    else
      && |w'.changes| == |w.changes| + 1 && w.changes <= w'.changes
      && var c := w'.changes[|w.changes|];
         && !(Puts(c, key) && Takes(c, key))
         && (key in w'.held <==> Puts(c, key) || (key in w.held && !Takes(c, key)))
  }

  lemma PerformTraced(d: Preferences, w: World, k: nat, key: Key)
    requires Enabled(w, Perform(k)) && w.held <= w.connected
    ensures Traced(w, Written(w, Perform(k)), key)
  {
  }

  lemma OthersTraced(d: Preferences, w: World, e: Event, key: Key)
    requires Enabled(w, e) && !e.Perform?
    ensures Traced(w, Written(w, e), key)
  {
  }

  lemma HeldMoves(d: Preferences, w: World, e: Event, key: Key)
    requires Enabled(w, e) && w.held <= w.connected
    ensures Traced(w, Do(d, w, e), key)
  {
    if e.Perform? {
      PerformTraced(d, w, e.k, key);
    } else {
      OthersTraced(d, w, e, key);
    }
    assert Do(d, w, e).changes == Written(w, e).changes && Do(d, w, e).held == Written(w, e).held;
  }

  /** A key that was not held is held later exactly when it was stored since, and not taken again. */
  lemma {:induction false} HeldIffStoredSince(d: Preferences, w: World, run: seq<Event>, key: Key)
    requires Runs(d, w, run) && key !in w.held && w.held <= w.connected
    ensures w.changes <= After(d, w, run).changes && After(d, w, run).held <= After(d, w, run).connected
    ensures key in After(d, w, run).held <==> StoredSince(After(d, w, run), |w.changes|, key)
    decreases |run|
  {
    if run == [] {
    } else {
      var mid, e := After(d, w, run[..|run| - 1]), run[|run| - 1];
      HeldIffStoredSince(d, w, run[..|run| - 1], key);
      HeldMoves(d, mid, e, key);
      StepKeepsConnected(d, mid, e);
      SinceMoves(mid, Do(d, mid, e), |w.changes|, key);
    }
  }

  lemma SinceMoves(w: World, w': World, n: nat, key: Key)
    requires n <= |w.changes| && w.changes <= w'.changes && |w'.changes| <= |w.changes| + 1
    ensures StoredSince(w', n, key) <==>
      if |w'.changes| == |w.changes| then StoredSince(w, n, key)
      else Puts(w'.changes[|w.changes|], key) || (StoredSince(w, n, key) && !Takes(w'.changes[|w.changes|], key))
  {
    var m := |w.changes|;
    assert forall i :: 0 <= i < m ==> w'.changes[i] == w.changes[i];
    if StoredSince(w, n, key) && |w'.changes| > m && !Takes(w'.changes[m], key) {
      var i :| n <= i < m && Puts(w.changes[i], key) && forall j :: i < j < m ==> !Takes(w.changes[j], key);
      assert Puts(w'.changes[i], key);
      assert forall j :: i < j < |w'.changes| ==> !Takes(w'.changes[j], key);
    }
    if StoredSince(w', n, key) {
      var i :| n <= i < |w'.changes| && Puts(w'.changes[i], key)
        && forall j :: i < j < |w'.changes| ==> !Takes(w'.changes[j], key);
      if i < m {
        assert Puts(w.changes[i], key);
        assert forall j :: i < j < m ==> !Takes(w.changes[j], key) by {
          assert forall j :: i < j < m ==> !Takes(w'.changes[j], key);
        }
      }
    }
    if |w'.changes| == m {
      assert w'.changes == w.changes;
    }
  }

  lemma RemovalTakes(d: Preferences, w: World, k: nat, p: Place, proof: Proof)
    requires k in w.requests && w.requests[k] == Allowed(proof, RemoveProfile(p))
    ensures var w' := Do(d, w, Perform(k));
            && (w'.changes == w.changes && w'.held == w.held <==> forall key: Key :: key.place == p ==> key !in w.held)
            && (w'.changes != w.changes ==>
                  |w'.changes| == |w.changes| + 1 && w'.changes[|w.changes|].ProfileRemoved?
                  && w'.changes[|w.changes|].proof == proof)
  {
    var gone := set key | key in w.held && key.place == p;
    assert gone == {} <==> forall key: Key :: key.place == p ==> key !in w.held by {
      forall key: Key | key.place == p && key in w.held ensures key in gone {
      }
    }
  }

  /**
    A profile found empty is removed without a check. Over any run in between, its removal takes a
    credential exactly when one was stored in that profile after it was found empty, and is still
    there; and then the record of it names no password.
  */
  lemma UncheckedRemovesIff(d: Preferences, w: World, k: nat, p: Place, who: Requester, run: seq<Event>)
    requires Inv(w) && Enabled(w, Arrive(k, who, RemoveProfile(p))) && Empty(w, p)
    requires Runs(d, Do(d, w, Arrive(k, who, RemoveProfile(p))), run)
    requires var mid := After(d, Do(d, w, Arrive(k, who, RemoveProfile(p))), run);
             k in mid.requests && mid.requests[k] == Allowed(Unchecked(who.origin), RemoveProfile(p))
    ensures var mid := After(d, Do(d, w, Arrive(k, who, RemoveProfile(p))), run);
            var w' := Do(d, mid, Perform(k));
            && (w'.changes == mid.changes && w'.held == mid.held
                <==> forall key: Key :: key.place == p ==> !StoredSince(mid, |w.changes|, key))
            && (w'.changes != mid.changes ==>
                  |w'.changes| == |mid.changes| + 1 && w'.changes[|mid.changes|].ProfileRemoved?
                  && w'.changes[|mid.changes|].proof == Unchecked(who.origin))
  {
    var found := Do(d, w, Arrive(k, who, RemoveProfile(p)));
    var mid := After(d, found, run);
    forall key: Key | key.place == p ensures key in mid.held <==> StoredSince(mid, |w.changes|, key) {
      HeldIffStoredSince(d, found, run, key);
    }
    RemovalTakes(d, mid, k, p, Unchecked(who.origin));
  }

  lemma OneMore(d: Preferences, start: World, run: seq<Event>, e: Event)
    requires Runs(d, start, run) && Enabled(After(d, start, run), e)
    ensures Runs(d, start, run + [e]) && After(d, start, run + [e]) == Do(d, After(d, start, run), e)
    ensures run == [] ==> run + [e] == [e]
  {
    assert (run + [e])[..|run|] == run;
  }

  /** A credential stored, on a password, after the profile was read and before it is deleted goes without one. */
  /** Up to where a person's store, over an empty profile somebody is about to remove, is let through. */
  lemma StoreLetThrough(d: Preferences, start: World, key: Key, on: Answer) returns (run: seq<Event>)
    requires Started(start) && start.connected == {}
    requires ForAccount(d, on).Some? && ForAccount(d, on).value.requireReauth == Some(true)
    ensures Runs(d, start, run)
    ensures var w := After(d, start, run);
            && w.changes == [] && w.held == {}
            && w.requests == map[0 := Allowed(Unchecked(Person), RemoveProfile(key.place)),
                                 1 := Allowed(Checked(Person, true, Some(true)), Store(key))]
  {
    var e0 := Arrive(0, Requester(Person, None), RemoveProfile(key.place));
    var e1 := Arrive(1, Requester(Person, Some("correct horse")), Store(key));
    OneMore(d, start, [], e0);
    OneMore(d, start, [e0], e1);
    OneMore(d, start, [e0] + [e1], Settings(1, on));
    OneMore(d, start, [e0] + [e1] + [Settings(1, on)], Confirm(1, true));
    run := [e0] + [e1] + [Settings(1, on)] + [Confirm(1, true)];
  }

  lemma LateCredentialGoesUnchecked(d: Preferences, start: World, key: Key, on: Answer) returns (run: seq<Event>)
    requires Started(start) && start.connected == {}
    requires ForAccount(d, on).Some? && ForAccount(d, on).value.requireReauth == Some(true)
    ensures Runs(d, start, run)
    ensures var c := After(d, start, run).changes;
            |c| == 2 && c[0].Stored? && ByPassword(c[0].proof)
                && c[1] == ProfileRemoved(key.place, {key}, Unchecked(Person))
  {
    var through := StoreLetThrough(d, start, key, on);
    OneMore(d, start, through, Perform(1));
    var w := After(d, start, through + [Perform(1)]);
    assert w.held == {key} && 0 in w.requests;
    OneMore(d, start, through + [Perform(1)], Perform(0));
    run := through + [Perform(1)] + [Perform(0)];
    assert (set y | y in w.held && y.place == key.place) == {key};
  }
}
