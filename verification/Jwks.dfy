/**
  The client's cache of keyring's public keys: four mutable fields behind one lock, a freshness
  window, an outage grace and two floors between fetches.

  `key_for` suspends in two places, on the lock and on the request. It is therefore two atomic
  pieces, `Ask` (from taking the lock to sending the request, or to an answer) and `Settle` (from
  the response to releasing the lock), and a lock-free look at the cache, `Peek`, that may run
  between them. Every clock reading the code takes is a separate argument: readings inside one
  piece are ordered but need not be equal.
*/
module Jwks {
  import opened Options

  type Kid = string
  type Key = string
  type KeySet = map<Kid, Key>

  datatype Settings = Settings(cache: real, minRefetch: real, grace: real)

  /** A request that has gone out: for whom, when, and the window it claimed if an unknown id provoked it. */
  datatype Pending = Pending(kid: Kid, at: real, claimed: Option<real>)

  datatype State = State(
    keys: Option<KeySet>,
    fetchedAt: real,
    failedAt: Option<real>,
    provokedAt: Option<real>,
    inFlight: Option<Pending>)

  const COLD := State(None, 0.0, None, None, None)

  datatype Reply = Found(key: Key) | NotAccepted | Unreachable

  /** How a request ends. A cancelled caller leaves no stamp behind. */
  datatype Outcome = Served(document: KeySet) | Broken | Cancelled

  // ---------------------------------------------------------------- reading the cache

  function Lookup(keys: Option<KeySet>, kid: Kid): Option<Key> {
    if keys.Some? && kid in keys.value then Some(keys.value[kid]) else None
  }

  function Fresh(cfg: Settings, s: State, now: real): Option<KeySet> {
    if s.keys.None? || now - s.fetchedAt >= cfg.cache then None else s.keys
  }

  function UsableStale(cfg: Settings, s: State, now: real): Option<KeySet> {
    if s.keys.None? || now - s.fetchedAt >= cfg.cache + cfg.grace then None else s.keys
  }

  function StaleReply(cfg: Settings, s: State, kid: Kid, now: real): Reply {
    var key := Lookup(UsableStale(cfg, s, now), kid);
    if key.Some? then Found(key.value) else Unreachable
  }

  predicate Within(stamp: Option<real>, now: real, floor: real) {
    stamp.Some? && now - stamp.value < floor
  }

  // ---------------------------------------------------------------- the two pieces under the lock

  /** The readings one `Ask` may take, in the order the code takes them. */
  datatype Readings = Readings(cached: real, held: real, claim: real, floor: real, request: real, stale: real)

  predicate Ordered(r: Readings) {
    r.cached <= r.held <= r.claim <= r.floor <= r.request && r.floor <= r.stale
  }

  function Asked(cfg: Settings, s: State, kid: Kid, r: Readings): (State, Option<Reply>) {
    var cached := Lookup(Fresh(cfg, s, r.cached), kid);
    if cached.Some? then (s, Some(Found(cached.value)))
    else
      var provoked := Fresh(cfg, s, r.held).Some?;
      if provoked && Within(s.provokedAt, r.claim, cfg.minRefetch) then (s, Some(NotAccepted))
      else
        var claimed := if provoked then s.(provokedAt := Some(r.claim)) else s;
        if Within(s.failedAt, r.floor, cfg.minRefetch) then
          (claimed, Some(StaleReply(cfg, claimed, kid, r.stale)))
        else
          (claimed.(inFlight := Some(Pending(kid, r.request, if provoked then Some(r.claim) else None))), None)
  }

  function Settled(cfg: Settings, s: State, outcome: Outcome, failed: real, stale: real): (State, Option<Reply>)
    requires s.inFlight.Some?
  {
    var p := s.inFlight.value;
    match outcome
    case Served(document) =>
      var key := Lookup(Some(document), p.kid);
      (s.(keys := Some(document), fetchedAt := p.at, failedAt := None, inFlight := None),
       Some(if key.Some? then Found(key.value) else NotAccepted))
    case Broken =>
      var down := s.(failedAt := Some(failed), inFlight := None);
      (down, Some(StaleReply(cfg, down, p.kid, stale)))
    case Cancelled => (s.(inFlight := None), None)
  }

  class JwksClient {
    const cfg: Settings
    var keys: Option<KeySet>
    var fetchedAt: real
    var failedAt: Option<real>
    var provokedAt: Option<real>
    var inFlight: Option<Pending>

    function View(): State
      reads this
    {
      State(keys, fetchedAt, failedAt, provokedAt, inFlight)
    }

    constructor (cfg: Settings)
      ensures this.cfg == cfg && View() == COLD
    {
      this.cfg := cfg;
      keys, fetchedAt, failedAt, provokedAt, inFlight := None, 0.0, None, None, None;
    }

    method Peek(kid: Kid, now: real) returns (key: Option<Key>)
      ensures key == Lookup(Fresh(cfg, View(), now), kid)
      ensures key.Some? <==> keys.Some? && kid in keys.value && now - fetchedAt < cfg.cache
      ensures key.Some? ==> key.value == keys.value[kid]
    {
      if keys.None? || now - fetchedAt >= cfg.cache {
        return None;
      }
      return Lookup(keys, kid);
    }

    /** Unknown ids share one claim per floor: makes it, or says it was made already. */
    method ClaimRefetchWindow(now: real) returns (refused: bool)
      modifies this`provokedAt
      ensures refused <==> old(provokedAt).Some? && now - old(provokedAt).value < cfg.minRefetch
      ensures provokedAt == if refused then old(provokedAt) else Some(now)
    {
      if provokedAt.Some? && now - provokedAt.value < cfg.minRefetch {
        return true;
      }
      provokedAt := Some(now);
      return false;
    }

    method Ask(kid: Kid, r: Readings) returns (reply: Option<Reply>)
      requires inFlight.None?
      modifies this
      ensures (View(), reply) == Asked(cfg, old(View()), kid, r)
    {
      var cached := Peek(kid, r.cached);
      if cached.Some? {
        return Some(Found(cached.value));
      }
      var claimed := None;
      if keys.Some? && r.held - fetchedAt < cfg.cache {
        var refused := ClaimRefetchWindow(r.claim);
        if refused {
          return Some(NotAccepted);
        }
        claimed := Some(r.claim);
      }
      if failedAt.Some? && r.floor - failedAt.value < cfg.minRefetch {
        var stale := StaleKey(kid, r.stale);
        return Some(if stale.Some? then Found(stale.value) else Unreachable);
      }
      inFlight := Some(Pending(kid, r.request, claimed));
      return None;
    }

    method Settle(outcome: Outcome, failed: real, stale: real) returns (reply: Option<Reply>)
      requires inFlight.Some?
      modifies this
      ensures (View(), reply) == Settled(cfg, old(View()), outcome, failed, stale)
      ensures inFlight.None? && provokedAt == old(provokedAt)
      ensures var p := old(inFlight).value;
              match outcome
              case Served(document) =>
                && keys == Some(document) && fetchedAt == p.at && failedAt.None?
                && reply == Some(if p.kid in document then Found(document[p.kid]) else NotAccepted)
              case Broken =>
                && keys == old(keys) && fetchedAt == old(fetchedAt) && failedAt == Some(failed)
                && reply == Some(
                     if old(keys).Some? && p.kid in old(keys).value && stale - old(fetchedAt) < cfg.cache + cfg.grace
                     then Found(old(keys).value[p.kid]) else Unreachable)
              case Cancelled =>
                keys == old(keys) && fetchedAt == old(fetchedAt) && failedAt == old(failedAt) && reply.None?
    {
      var p := inFlight.value;
      inFlight := None;
      match outcome {
        case Served(document) =>
          keys, fetchedAt, failedAt := Some(document), p.at, None;
          return Some(if p.kid in document then Found(document[p.kid]) else NotAccepted);
        case Broken =>
          failedAt := Some(failed);
          var key := StaleKey(p.kid, stale);
          return Some(if key.Some? then Found(key.value) else Unreachable);
        case Cancelled =>
          return None;
      }
    }

    method StaleKey(kid: Kid, now: real) returns (key: Option<Key>)
      ensures key == Lookup(UsableStale(cfg, View(), now), kid)
      ensures key.Some? <==> keys.Some? && kid in keys.value && now - fetchedAt < cfg.cache + cfg.grace
      ensures key.Some? ==> key.value == keys.value[kid]
    {
      if keys.None? || now - fetchedAt >= cfg.cache + cfg.grace {
        return None;
      }
      return Lookup(keys, kid);
    }
  }

  // ---------------------------------------------------------------- runs

  datatype Event =
    | Peeked(kid: Kid, now: real)
    | Ask(kid: Kid, readings: Readings)
    | Settle(outcome: Outcome, failed: real, stale: real)

  /** One request that went out and how it ended. */
  datatype Fetch = Fetch(at: real, claimed: Option<real>, outcome: Outcome, ended: real)

  /** The cache, every request that has ended, oldest first, and the latest clock reading. */
  datatype World = World(state: State, fetches: seq<Fetch>, clock: real)

  /** The lock is respected and the clock never goes back. */
  predicate Legal(w: World, e: Event) {
    match e
    case Peeked(_, now) => w.clock <= now
    case Ask(_, r) => w.state.inFlight.None? && w.clock <= r.cached && Ordered(r)
    case Settle(_, failed, stale) => w.state.inFlight.Some? && w.clock <= failed <= stale
  }

  function Do(cfg: Settings, w: World, e: Event): (World, Option<Reply>)
    requires Legal(w, e)
  {
    match e
    case Peeked(kid, now) =>
      var key := Lookup(Fresh(cfg, w.state, now), kid);
      (w.(clock := now), if key.Some? then Some(Found(key.value)) else None)
    case Ask(kid, r) =>
      var (s, reply) := Asked(cfg, w.state, kid, r);
      (World(s, w.fetches, if reply.None? then r.request else r.stale), reply)
    case Settle(outcome, failed, stale) =>
      var p := w.state.inFlight.value;
      var (s, reply) := Settled(cfg, w.state, outcome, failed, stale);
      (World(s, w.fetches + [Fetch(p.at, p.claimed, outcome, failed)], stale), reply)
  }

  /** A run from a client nobody has asked anything yet. */
  ghost predicate LegalRun(cfg: Settings, start: real, run: seq<Event>)
    decreases |run|, 0
  {
    run == [] || (LegalRun(cfg, start, run[..|run| - 1])
                  && Legal(After(cfg, start, run[..|run| - 1]), run[|run| - 1]))
  }

  ghost function After(cfg: Settings, start: real, run: seq<Event>): World
    requires LegalRun(cfg, start, run)
    decreases |run|, 1
  {
    if run == [] then World(COLD, [], start)
    else Do(cfg, After(cfg, start, run[..|run| - 1]), run[|run| - 1]).0
  }

  // ---------------------------------------------------------------- what every run keeps

  function Min(a: real, b: real): real { if a <= b then a else b }

  /** A request in flight, reckoned as one that runs to an end. */
  function Outgoing(p: Pending): Fetch { Fetch(p.at, p.claimed, Broken, p.at) }

  /** Ended requests and the one in flight, oldest first. */
  function Requests(w: World): seq<Fetch> {
    w.fetches + match w.state.inFlight
                case None => []
                case Some(p) => [Outgoing(p)]
  }

  /**
    Requests an unknown id provoked claim windows a full floor apart; any other request goes out
    at least `min(cache, floor)` after every earlier request that ran to an end.
  */
  ghost predicate Spaced(cfg: Settings, fetches: seq<Fetch>) {
    && (forall i, j :: 0 <= i < j < |fetches| && fetches[i].claimed.Some? && fetches[j].claimed.Some? ==>
          fetches[j].claimed.value - fetches[i].claimed.value >= cfg.minRefetch)
    && (forall i, j :: 0 <= i < j < |fetches| && fetches[j].claimed.None? && !fetches[i].outcome.Cancelled? ==>
          fetches[j].at - fetches[i].at >= Min(cfg.cache, cfg.minRefetch))
  }

  /** The stamps the cache holds are those of requests in the log. */
  ghost predicate Stamped(s: State, fetches: seq<Fetch>) {
    && (forall i :: 0 <= i < |fetches| && !fetches[i].outcome.Cancelled? ==>
          (s.keys.Some? && fetches[i].at <= s.fetchedAt) || (s.failedAt.Some? && fetches[i].at <= s.failedAt.value))
    && (s.keys.Some? ==>
          exists i :: 0 <= i < |fetches| && fetches[i].outcome == Served(s.keys.value) && fetches[i].at == s.fetchedAt)
    && (s.failedAt.Some? ==>
          exists i :: 0 <= i < |fetches| && fetches[i].outcome.Broken? && fetches[i].ended == s.failedAt.value)
  }

  ghost predicate Claims(s: State, fetches: seq<Fetch>) {
    forall i :: 0 <= i < |fetches| && fetches[i].claimed.Some? ==>
      s.provokedAt.Some? && fetches[i].claimed.value <= s.provokedAt.value
  }

  /** Requests follow one another, each after the window it claimed. */
  ghost predicate Ages(fetches: seq<Fetch>, clock: real) {
    && (forall i :: 0 <= i < |fetches| ==> fetches[i].at <= fetches[i].ended <= clock)
    && (forall i :: 0 <= i < |fetches| && fetches[i].claimed.Some? ==> fetches[i].claimed.value <= fetches[i].at)
    && (forall i, j :: 0 <= i < j < |fetches| ==> fetches[i].ended <= fetches[j].at)
  }

  /** ... and no window is claimed before the previous request went out. */
  ghost predicate InTurn(fetches: seq<Fetch>) {
    forall i, j :: 0 <= i < j < |fetches| && fetches[j].claimed.Some? ==> fetches[i].ended <= fetches[j].claimed.value
  }

  ghost predicate Inv(cfg: Settings, w: World) {
    && Spaced(cfg, Requests(w)) && Claims(w.state, Requests(w))
    && Stamped(w.state, w.fetches)
    && Ages(Requests(w), w.clock) && InTurn(Requests(w))
  }

  // What adding one request to the log keeps, part by part.

  /** A request may be added when the floors its own branch checked have passed. */
  lemma AppendSpaced(cfg: Settings, s: State, fetches: seq<Fetch>, f: Fetch)
    requires Spaced(cfg, fetches) && Claims(s, fetches) && Stamped(s, fetches)
    requires f.claimed.Some? && s.provokedAt.Some? ==> f.claimed.value - s.provokedAt.value >= cfg.minRefetch
    requires f.claimed.None? && s.keys.Some? ==> f.at - s.fetchedAt >= cfg.cache
    requires s.failedAt.Some? ==> f.at - s.failedAt.value >= cfg.minRefetch
    ensures Spaced(cfg, fetches + [f])
  {
  }

  lemma AppendAges(fetches: seq<Fetch>, f: Fetch, clock: real, later: real)
    requires Ages(fetches, clock) && InTurn(fetches)
    requires clock <= f.at <= f.ended <= later
    requires f.claimed.Some? ==> clock <= f.claimed.value <= f.at
    ensures Ages(fetches + [f], later) && InTurn(fetches + [f])
  {
  }

  /** Ending the open request changes neither when it went out nor what it claimed. */
  lemma CloseLast(cfg: Settings, s: State, fetches: seq<Fetch>, open: Fetch, last: Fetch, clock: real, later: real)
    requires open.at == last.at && open.claimed == last.claimed && clock <= last.ended <= later
    requires Spaced(cfg, fetches + [open]) && Claims(s, fetches + [open])
    requires Ages(fetches + [open], clock) && InTurn(fetches + [open])
    ensures Spaced(cfg, fetches + [last]) && Claims(s, fetches + [last])
    ensures Ages(fetches + [last], later) && InTurn(fetches + [last])
  {
    var a, b := fetches + [open], fetches + [last];
    assert forall i :: 0 <= i < |fetches| ==> a[i] == b[i];
    assert a[|fetches|] == open && b[|fetches|] == last;
  }

  /** What an `Ask` has checked by the time it sends a request, and what it leaves if it sends none. */
  lemma AskGuards(cfg: Settings, s: State, kid: Kid, r: Readings)
    requires s.inFlight.None? && Ordered(r) && cfg.minRefetch >= 0.0
    ensures var (s', reply) := Asked(cfg, s, kid, r);
            && s'.keys == s.keys && s'.fetchedAt == s.fetchedAt && s'.failedAt == s.failedAt
            && (s'.provokedAt == s.provokedAt
                || (s'.provokedAt == Some(r.claim) && !Within(s.provokedAt, r.claim, cfg.minRefetch)))
            && (reply.Some? <==> s'.inFlight.None?)
            && (s'.inFlight.Some? ==>
                  var p := s'.inFlight.value;
                  && p.kid == kid && p.at == r.request && !Within(s.failedAt, r.floor, cfg.minRefetch)
                  && (if p.claimed.Some? then p.claimed == s'.provokedAt == Some(r.claim)
                     && !Within(s.provokedAt, r.claim, cfg.minRefetch)
                      else s'.provokedAt == s.provokedAt && (s.keys.Some? ==> r.held - s.fetchedAt >= cfg.cache)))
  {
  }

  lemma ClaimLater(fetches: seq<Fetch>, s: State, s': State, claim: real)
    requires Claims(s, fetches)
    requires s'.provokedAt == s.provokedAt
          || (s'.provokedAt == Some(claim) && (s.provokedAt.Some? ==> s.provokedAt.value <= claim))
    ensures Claims(s', fetches)
  {
  }

  lemma AskKeepsInv(cfg: Settings, w: World, e: Event)
    requires Inv(cfg, w) && Legal(w, e) && e.Ask? && cfg.minRefetch >= 0.0
    ensures Inv(cfg, Do(cfg, w, e).0)
  {
    var w' := Do(cfg, w, e).0;
    var r := e.readings;
    AskGuards(cfg, w.state, e.kid, r);
    assert Requests(w) == w.fetches;
    if Asked(cfg, w.state, e.kid, r).1.None? {
      AskSends(cfg, w.state, w'.state, w.fetches, w.clock, e.kid, r);
      var p := w'.state.inFlight.value;
      assert Requests(w') == w.fetches + [Outgoing(p)];
    } else {
      assert Requests(w') == w.fetches;
      ClaimLater(w.fetches, w.state, w'.state, r.claim);
    }
  }

  lemma AskSends(cfg: Settings, s: State, s': State, fetches: seq<Fetch>, clock: real, kid: Kid, r: Readings)
    requires s.inFlight.None? && Ordered(r) && cfg.minRefetch >= 0.0 && clock <= r.cached
    requires s' == Asked(cfg, s, kid, r).0 && s'.inFlight.Some?
    requires Spaced(cfg, fetches) && Claims(s, fetches) && Stamped(s, fetches) && Ages(fetches, clock)
    requires InTurn(fetches)
    ensures var p := s'.inFlight.value;
            var all := fetches + [Outgoing(p)];
            Spaced(cfg, all) && Claims(s', all) && Ages(all, r.request) && InTurn(all)
  {
    AskGuards(cfg, s, kid, r);
    var p := s'.inFlight.value;
    var f := Outgoing(p);
    AppendSpaced(cfg, s, fetches, f);
    AppendAges(fetches, f, clock, r.request);
    ClaimLater(fetches, s, s', r.claim);
    assert forall i :: 0 <= i < |fetches| ==> (fetches + [f])[i] == fetches[i];
  }

  lemma LastIsLatest(fetches: seq<Fetch>, last: Fetch, clock: real)
    requires Ages(fetches + [last], clock)
    ensures last.at <= clock && forall i :: 0 <= i < |fetches| ==> fetches[i].at <= last.at && fetches[i].ended <= clock
  {
    var all := fetches + [last];
    assert all[|fetches|] == last;
    forall i | 0 <= i < |fetches| ensures fetches[i].at <= last.at && fetches[i].ended <= clock {
      assert all[i] == fetches[i];
    }
  }

  /** The request that ends was the last in the log, and stays there with what came of it. */
  lemma SettleLogs(cfg: Settings, w: World, e: Event)
    requires Legal(w, e) && e.Settle?
    ensures var w', p := Do(cfg, w, e).0, w.state.inFlight.value;
            && Requests(w) == w.fetches + [Outgoing(p)]
            && Requests(w') == w'.fetches == w.fetches + [Fetch(p.at, p.claimed, e.outcome, e.failed)]
            && w'.state.provokedAt == w.state.provokedAt && w.clock <= e.failed <= w'.clock
  {
  }

  lemma SettleKeepsStamped(cfg: Settings, w: World, e: Event)
    requires Inv(cfg, w) && Legal(w, e) && e.Settle?
    ensures Stamped(Do(cfg, w, e).0.state, Do(cfg, w, e).0.fetches)
  {
    var p := w.state.inFlight.value;
    SettleLogs(cfg, w, e);
    LastIsLatest(w.fetches, Outgoing(p), w.clock);
    SettleStamps(cfg, w.state, w.fetches, w.clock, e, Do(cfg, w, e).0.state,
                 Fetch(p.at, p.claimed, e.outcome, e.failed));
  }

  lemma SettleKeepsInv(cfg: Settings, w: World, e: Event)
    requires Inv(cfg, w) && Legal(w, e) && e.Settle?
    ensures Inv(cfg, Do(cfg, w, e).0)
  {
    var w', p := Do(cfg, w, e).0, w.state.inFlight.value;
    SettleLogs(cfg, w, e);
    SettleKeepsStamped(cfg, w, e);
    CloseLast(cfg, w.state, w.fetches, Outgoing(p), Fetch(p.at, p.claimed, e.outcome, e.failed), w.clock, w'.clock);
  }

  lemma SettleStamps(cfg: Settings, s: State, fetches: seq<Fetch>, clock: real, e: Event, s': State, last: Fetch)
    requires s.inFlight.Some? && e.Settle? && clock <= e.failed
    requires s' == Settled(cfg, s, e.outcome, e.failed, e.stale).0
    requires last == Fetch(s.inFlight.value.at, s.inFlight.value.claimed, e.outcome, e.failed)
    requires Stamped(s, fetches) && s.inFlight.value.at <= clock
    requires forall i :: 0 <= i < |fetches| ==> fetches[i].at <= s.inFlight.value.at && fetches[i].ended <= clock
    ensures Stamped(s', fetches + [last])
  {
    var all, n := fetches + [last], |fetches|;
    assert all[n] == last;
    if s.keys.Some? {
      var i :| 0 <= i < n && fetches[i].outcome == Served(s.keys.value) && fetches[i].at == s.fetchedAt;
      assert all[i] == fetches[i];
    }
    if s.failedAt.Some? {
      var i :| 0 <= i < n && fetches[i].outcome.Broken? && fetches[i].ended == s.failedAt.value;
      assert all[i] == fetches[i];
    }
  }

  /** What holds in every world a run can reach. */
  lemma {:induction false} InvAlways(cfg: Settings, start: real, run: seq<Event>)
    requires LegalRun(cfg, start, run) && cfg.minRefetch >= 0.0
    ensures Inv(cfg, After(cfg, start, run))
  {
    if run == [] {
    } else {
      InvAlways(cfg, start, run[..|run| - 1]);
      var before, e := After(cfg, start, run[..|run| - 1]), run[|run| - 1];
      match e {
        case Peeked(_, _) => assert Requests(Do(cfg, before, e).0) == Requests(before);
        case Ask(_, _) => AskKeepsInv(cfg, before, e);
        case Settle(_, _, _) => SettleKeepsInv(cfg, before, e);
      }
    }
  }

  // ---------------------------------------------------------------- how often keyring is asked

  function Stamp(f: Fetch): real { if f.claimed.Some? then f.claimed.value else f.at }

  /** How many requests went out in [from, to]. */
  function Sent(fetches: seq<Fetch>, from: real, to: real): nat {
    if fetches == [] then 0 else
      Sent(fetches[..|fetches| - 1], from, to) + if from <= fetches[|fetches| - 1].at <= to then 1 else 0
  }

  /** How many of them were given up by their callers. */
  function GivenUp(fetches: seq<Fetch>, from: real, to: real): nat {
    if fetches == [] then 0 else
      var f := fetches[|fetches| - 1];
      GivenUp(fetches[..|fetches| - 1], from, to) + if f.outcome.Cancelled? && from <= f.at <= to then 1 else 0
  }

  /** A request of the one sort or the other that went out in [from, to] and was not given up. */
  predicate Counts(f: Fetch, provoked: bool, from: real, to: real) {
    f.claimed.Some? == provoked && from <= f.at <= to && !f.outcome.Cancelled?
  }

  /** The stamps of those an unknown id provoked, or of the others. */
  function Stamps(fetches: seq<Fetch>, provoked: bool, from: real, to: real): seq<real> {
    if fetches == [] then [] else
      var f := fetches[|fetches| - 1];
      Stamps(fetches[..|fetches| - 1], provoked, from, to)
      + if Counts(f, provoked, from, to) then [Stamp(f)] else []
  }

  lemma {:induction false} SentSplits(fetches: seq<Fetch>, from: real, to: real)
    ensures Sent(fetches, from, to)
         == |Stamps(fetches, true, from, to)| + |Stamps(fetches, false, from, to)| + GivenUp(fetches, from, to)
  {
    if fetches == [] {
    } else {
      SentSplits(fetches[..|fetches| - 1], from, to);
    }
  }

  ghost predicate Gapped(fetches: seq<Fetch>, provoked: bool, gap: real) {
    forall i, j ::
      && 0 <= i < j < |fetches| && !fetches[i].outcome.Cancelled?
      && fetches[i].claimed.Some? == provoked && fetches[j].claimed.Some? == provoked
      ==> Stamp(fetches[j]) - Stamp(fetches[i]) >= gap
  }

  ghost predicate Spread(ts: seq<real>, gap: real) {
    forall k :: 0 < k < |ts| ==> ts[k] - ts[k - 1] >= gap
  }

  /** Stamps a gap apart: the last is that many gaps after each earlier one. */
  lemma {:induction false} SpreadOut(ts: seq<real>, gap: real, k: nat, n: nat)
    requires Spread(ts, gap) && k <= n < |ts|
    ensures ts[n] - ts[k] >= (n - k) as real * gap
  {
    if k < n {
      SpreadOut(ts, gap, k, n - 1);
      assert (n - k) as real * gap == (n - 1 - k) as real * gap + gap;
    }
  }

  /** The last stamp counted, and the request it is of. */
  lemma {:induction false} LastStamp(fetches: seq<Fetch>, provoked: bool, from: real, to: real) returns (last: nat)
    ensures var ts := Stamps(fetches, provoked, from, to);
            ts != [] ==>
              last < |fetches| && Counts(fetches[last], provoked, from, to) && Stamp(fetches[last]) == ts[|ts| - 1]
  {
    last := 0;
    if fetches == [] {
    } else {
      var n := |fetches| - 1;
      last := LastStamp(fetches[..n], provoked, from, to);
      if Counts(fetches[n], provoked, from, to) {
        last := n;
      }
    }
  }

  lemma {:induction false} StampsSpread(fetches: seq<Fetch>, provoked: bool, gap: real, from: real, to: real)
    requires Gapped(fetches, provoked, gap)
    ensures Spread(Stamps(fetches, provoked, from, to), gap)
  {
    if fetches == [] {
    } else {
      var n := |fetches| - 1;
      var before, f := fetches[..n], fetches[n];
      StampsSpread(before, provoked, gap, from, to);
      if Counts(f, provoked, from, to) {
        var ts := Stamps(before, provoked, from, to);
        var last := LastStamp(before, provoked, from, to);
        if ts != [] {
          assert fetches[last] == before[last] && Stamp(f) - Stamp(fetches[last]) >= gap;
        }
        SpreadFurther(ts, Stamp(f), gap);
      }
    }
  }

  lemma SpreadFurther(ts: seq<real>, t: real, gap: real)
    requires Spread(ts, gap) && (ts != [] ==> t - ts[|ts| - 1] >= gap)
    ensures Spread(ts + [t], gap) && (ts + [t])[|ts|] == t
  {
  }

  /** Some request in the window stands behind any stamp counted. */
  lemma {:induction false} StampsHaveRequests(fetches: seq<Fetch>, provoked: bool, from: real, to: real)
    returns (i: nat)
    ensures Stamps(fetches, provoked, from, to) != [] ==> i < |fetches| && from <= fetches[i].at
  {
    i := 0;
    if fetches == [] {
    } else {
      var n := |fetches| - 1;
      i := StampsHaveRequests(fetches[..n], provoked, from, to);
      if Stamps(fetches[..n], provoked, from, to) == [] {
        i := n;
      }
    }
  }

  predicate Inside(ts: seq<real>, first: nat, from: real, to: real) {
    forall k :: 0 <= k < |ts| ==> ts[k] <= to && (k >= first ==> from <= ts[k])
  }

  /** What bounds every request counted bounds every stamp. */
  lemma {:induction false} StampsWithin(fetches: seq<Fetch>, provoked: bool, from: real, to: real, low: real)
    requires forall i :: 0 <= i < |fetches| && Counts(fetches[i], provoked, from, to) ==> low <= Stamp(fetches[i]) <= to
    ensures Inside(Stamps(fetches, provoked, from, to), 0, low, to)
  {
    if fetches == [] {
    } else {
      var n := |fetches| - 1;
      assert forall i :: 0 <= i < n ==> fetches[..n][i] == fetches[i];
      StampsWithin(fetches[..n], provoked, from, to, low);
      if Counts(fetches[n], provoked, from, to) {
        InsideFurther(Stamps(fetches[..n], provoked, from, to), Stamp(fetches[n]), 0, low, to);
      }
    }
  }

  /** Every claim counted was made in the window, save perhaps the first. */
  lemma {:induction false} ClaimsInside(fetches: seq<Fetch>, clock: real, from: real, to: real)
    requires Ages(fetches, clock) && InTurn(fetches)
    ensures Inside(Stamps(fetches, true, from, to), 1, from, to)
  {
    if fetches == [] {
    } else {
      var n := |fetches| - 1;
      var before, f := fetches[..n], fetches[n];
      ClaimsInside(before, clock, from, to);
      if Counts(f, true, from, to) {
        var ts := Stamps(before, true, from, to);
        if ts != [] {
          var i := StampsHaveRequests(before, true, from, to);
          assert fetches[i] == before[i];
          LastInside(fetches, from, i);
        }
        InsideFurther(ts, Stamp(f), 1, from, to);
      }
    }
  }

  lemma InsideFurther(ts: seq<real>, t: real, first: nat, from: real, to: real)
    requires Inside(ts, first, from, to) && t <= to && (|ts| >= first ==> from <= t)
    ensures Inside(ts + [t], first, from, to)
  {
  }

  /** A claim made after a request in the window was itself made in the window. */
  lemma LastInside(fetches: seq<Fetch>, from: real, i: nat)
    requires (forall j :: 0 <= j < |fetches| ==> fetches[j].at <= fetches[j].ended) && InTurn(fetches)
    requires i < |fetches| - 1 && from <= fetches[i].at
    ensures fetches[|fetches| - 1].claimed.Some? ==> from <= fetches[|fetches| - 1].claimed.value
  {
  }

  lemma Fits(n: real, gap: real, span: real)
    requires gap > 0.0 && n * gap <= span
    ensures n <= span / gap
  {
  }

  /** Stamps a gap apart inside a span, after dropping the first `skip - 1`. */
  lemma Quotient(n: nat, skip: nat, ts: seq<real>, gap: real, from: real, span: real)
    requires gap > 0.0 && span >= 0.0 && n == |ts| && skip > 0
    requires Spread(ts, gap)
    requires Inside(ts, skip - 1, from, from + span)
    ensures n as real <= span / gap + skip as real
  {
    if n >= skip {
      SpreadOut(ts, gap, skip - 1, n - 1);
      assert ts[n - 1] - ts[skip - 1] <= span;
      assert (n - skip) as real * gap <= span;
      Fits((n - skip) as real, gap, span);
    } else {
      Fits(0.0, gap, span);
    }
  }

  lemma SpacedIsGapped(cfg: Settings, all: seq<Fetch>)
    requires Spaced(cfg, all)
    ensures Gapped(all, true, cfg.minRefetch) && Gapped(all, false, Min(cfg.cache, cfg.minRefetch))
  {
  }

  /**
    A request in the window whose claim was made before it is the first one there, and everything
    unprovoked in the window comes a whole gap after it.
  */
  lemma OthersFollow(cfg: Settings, all: seq<Fetch>, clock: real, p: nat, i: nat, from: real)
    requires Spaced(cfg, all) && Ages(all, clock) && InTurn(all)
    requires p < |all| && all[p].claimed.Some? && all[p].claimed.value < from <= all[p].at && !all[p].outcome.Cancelled?
    requires i < |all| && all[i].claimed.None? && from <= all[i].at
    ensures from + Min(cfg.cache, cfg.minRefetch) <= all[i].at
  {
  }

  lemma Unprovoked(ts: seq<real>, gap: real, low: real, from: real, span: real)
    requires gap > 0.0 && span >= 0.0 && Spread(ts, gap) && Inside(ts, 0, low, from + span) && low == from + gap
    ensures |ts| as real <= span / gap
  {
    if ts == [] {
      Fits(0.0, gap, span);
    } else {
      SpreadOut(ts, gap, 0, |ts| - 1);
      assert |ts| as real * gap == (|ts| - 1) as real * gap + gap;
      Fits(|ts| as real, gap, span);
    }
  }

  /** Both sorts in a span: a claim made before the span takes the place of one other request in it. */
  lemma BothSorts(cfg: Settings, all: seq<Fetch>, clock: real, from: real, span: real)
    requires Spaced(cfg, all) && Ages(all, clock) && InTurn(all) && cfg.cache > 0.0 && cfg.minRefetch > 0.0
    requires span >= 0.0
    ensures |Stamps(all, true, from, from + span)| as real + |Stamps(all, false, from, from + span)| as real
         <= span / cfg.minRefetch + span / Min(cfg.cache, cfg.minRefetch) + 2.0
  {
    var gap, to := Min(cfg.cache, cfg.minRefetch), from + span;
    var provoked, others := Stamps(all, true, from, to), Stamps(all, false, from, to);
    SpacedIsGapped(cfg, all);
    StampsSpread(all, true, cfg.minRefetch, from, to);
    StampsSpread(all, false, gap, from, to);
    if p :| 0 <= p < |all| && Counts(all[p], true, from, to) && Stamp(all[p]) < from {
      ClaimsInside(all, clock, from, to);
      Quotient(|provoked|, 2, provoked, cfg.minRefetch, from, span);
      forall i | 0 <= i < |all| && Counts(all[i], false, from, to) ensures from + gap <= Stamp(all[i]) {
        OthersFollow(cfg, all, clock, p, i, from);
      }
      StampsWithin(all, false, from, to, from + gap);
      Unprovoked(others, gap, from + gap, from, span);
    } else {
      StampsWithin(all, true, from, to, from);
      StampsWithin(all, false, from, to, from);
      Quotient(|provoked|, 1, provoked, cfg.minRefetch, from, span);
      Quotient(|others|, 1, others, gap, from, span);
    }
  }

  /**
    The bound on requests that traffic cannot move: any span sees at most one per floor that an
    unknown id provoked and one per `min(cache, floor)` otherwise, plus two, not counting requests
    their callers gave up.
  */
  lemma FetchBound(cfg: Settings, start: real, run: seq<Event>, from: real, span: real)
    requires LegalRun(cfg, start, run) && cfg.cache > 0.0 && cfg.minRefetch > 0.0 && span >= 0.0
    ensures var all := Requests(After(cfg, start, run));
            Sent(all, from, from + span) as real
            <= span / cfg.minRefetch + span / Min(cfg.cache, cfg.minRefetch) + 2.0
                + GivenUp(all, from, from + span) as real
    ensures Spaced(cfg, Requests(After(cfg, start, run)))
  {
    InvAlways(cfg, start, run);
    var w := After(cfg, start, run);
    SentSplits(Requests(w), from, from + span);
    BothSorts(cfg, Requests(w), w.clock, from, span);
  }

  /** A caller that gives up mid-request leaves no stamp, so the allowance for those is needed. */
  lemma {:induction false} CancelledRequestsAreUnbounded(cfg: Settings, n: nat) returns (run: seq<Event>)
    ensures LegalRun(cfg, 0.0, run)
    ensures var w := After(cfg, 0.0, run);
            w.state == COLD && w.clock == 0.0 && Sent(w.fetches, 0.0, 0.0) == n
  {
    run := [];
    if n == 0 {
    } else {
      var before := CancelledRequestsAreUnbounded(cfg, n - 1);
      var ask := Ask("kid", Readings(0.0, 0.0, 0.0, 0.0, 0.0, 0.0));
      var quit := Settle(Cancelled, 0.0, 0.0);
      var asked := before + [ask];
      assert asked[..|before|] == before;
      run := asked + [quit];
      assert run[..|asked|] == asked;
      var w := After(cfg, 0.0, before);
      assert After(cfg, 0.0, asked) == Do(cfg, w, ask).0;
      var last := Fetch(0.0, None, Cancelled, 0.0);
      assert After(cfg, 0.0, run).fetches == w.fetches + [last];
      assert (w.fetches + [last])[..|w.fetches|] == w.fetches;
    }
  }

  // ---------------------------------------------------------------- what a reply stands on

  /** A document requested less than `age` before `now` maps `kid` to `key`. */
  ghost predicate Vouched(fetches: seq<Fetch>, kid: Kid, key: Key, now: real, age: real) {
    exists i :: 0 <= i < |fetches| && Holds(fetches[i], kid, key) && now - fetches[i].at < age
  }

  predicate Holds(f: Fetch, kid: Kid, key: Key) {
    f.outcome.Served? && kid in f.outcome.document && f.outcome.document[kid] == key
  }

  ghost predicate FailedWithin(fetches: seq<Fetch>, now: real, floor: real) {
    exists i :: 0 <= i < |fetches| && fetches[i].outcome.Broken? && now - fetches[i].ended < floor
  }

  /** Some document requested less than `age` before `now` lacks `kid`. */
  ghost predicate Lacked(fetches: seq<Fetch>, kid: Kid, now: real, age: real) {
    exists i :: 0 <= i < |fetches| && fetches[i].outcome.Served?
             && kid !in fetches[i].outcome.document && now - fetches[i].at < age
  }

  /** What must be true of the past for a reply to be given. */
  ghost predicate Justified(cfg: Settings, w: World, e: Event, reply: Reply) {
    var past := w.fetches;
    match e
    case Peeked(kid, now) =>
      reply.Found? && Vouched(past, kid, reply.key, now, cfg.cache)
    case Ask(kid, r) => (
      match reply
      case Found(key) =>
        || Vouched(past, kid, key, r.cached, cfg.cache)
        || (FailedWithin(past, r.floor, cfg.minRefetch) && Vouched(past, kid, key, r.stale, cfg.cache + cfg.grace))
      case NotAccepted =>
        Lacked(past, kid, r.held, cfg.cache) && Within(w.state.provokedAt, r.claim, cfg.minRefetch)
      case Unreachable => FailedWithin(past, r.floor, cfg.minRefetch))
    case Settle(outcome, failed, stale) =>
      w.state.inFlight.Some? && (
        var kid := w.state.inFlight.value.kid;
        match reply
        case Found(key) =>
          || (outcome.Served? && kid in outcome.document && outcome.document[kid] == key)
          || (outcome.Broken? && Vouched(past, kid, key, stale, cfg.cache + cfg.grace))
        case NotAccepted => outcome.Served? && kid !in outcome.document
        case Unreachable => outcome.Broken?)
  }

  lemma KeysAreVouched(w: World, kid: Kid, now: real, age: real)
    requires Stamped(w.state, w.fetches) && w.state.keys.Some? && now - w.state.fetchedAt < age
    ensures kid in w.state.keys.value ==> Vouched(w.fetches, kid, w.state.keys.value[kid], now, age)
    ensures kid !in w.state.keys.value ==> Lacked(w.fetches, kid, now, age)
  {
    var i :| 0 <= i < |w.fetches| && w.fetches[i].outcome == Served(w.state.keys.value)
        && w.fetches[i].at == w.state.fetchedAt;
    assert kid in w.state.keys.value ==> Holds(w.fetches[i], kid, w.state.keys.value[kid]);
  }

  /**
    Every key handed out, and every refusal, is justified by requests that really happened: a
    stale key only while a request has failed, "unreachable" only after a failure in this call or
    inside the floor, "not accepted" only when keyring was just asked or asked too recently.
  */
  lemma RepliesAreJustified(cfg: Settings, start: real, run: seq<Event>, e: Event)
    requires LegalRun(cfg, start, run) && Legal(After(cfg, start, run), e) && cfg.minRefetch >= 0.0
    ensures var w := After(cfg, start, run);
            var reply := Do(cfg, w, e).1;
            reply.Some? ==> Justified(cfg, w, e, reply.value)
  {
    InvAlways(cfg, start, run);
    var w := After(cfg, start, run);
    match e {
      case Peeked(kid, now) =>
        if Fresh(cfg, w.state, now).Some? { KeysAreVouched(w, kid, now, cfg.cache); }
      case Ask(kid, r) => AskJustified(cfg, w, kid, r);
      case Settle(outcome, failed, stale) => SettleJustified(cfg, w, e);
    }
  }

  lemma AskJustified(cfg: Settings, w: World, kid: Kid, r: Readings)
    requires Stamped(w.state, w.fetches) && w.state.inFlight.None? && Ordered(r)
    ensures var reply := Asked(cfg, w.state, kid, r).1;
            reply.Some? ==> Justified(cfg, w, Ask(kid, r), reply.value)
  {
    var s := w.state;
    if Fresh(cfg, s, r.cached).Some? { KeysAreVouched(w, kid, r.cached, cfg.cache); }
    if Fresh(cfg, s, r.held).Some? { KeysAreVouched(w, kid, r.held, cfg.cache); }
    if UsableStale(cfg, s, r.stale).Some? { KeysAreVouched(w, kid, r.stale, cfg.cache + cfg.grace); }
    if Within(s.failedAt, r.floor, cfg.minRefetch) {
      var i :| 0 <= i < |w.fetches| && w.fetches[i].outcome.Broken? && w.fetches[i].ended == s.failedAt.value;
      assert FailedWithin(w.fetches, r.floor, cfg.minRefetch);
    }
  }

  lemma SettleJustified(cfg: Settings, w: World, e: Event)
    requires Stamped(w.state, w.fetches) && w.state.inFlight.Some? && e.Settle?
    ensures var reply := Settled(cfg, w.state, e.outcome, e.failed, e.stale).1;
            reply.Some? ==> Justified(cfg, w, e, reply.value)
  {
    if UsableStale(cfg, w.state, e.stale).Some? {
      KeysAreVouched(w, w.state.inFlight.value.kid, e.stale, cfg.cache + cfg.grace);
    }
  }

  function KidOf(w: World, e: Event): Kid
    requires Legal(w, e)
  {
    match e case Peeked(kid, _) => kid case Ask(kid, _) => kid case Settle(_, _, _) => w.state.inFlight.value.kid
  }

  /** The reading that let a key be handed out: when it was looked up fresh, or when a stale one was judged. */
  function DecidingReading(cfg: Settings, w: World, e: Event): real
    requires Legal(w, e)
  {
    match e
    case Peeked(_, now) => now
    case Ask(kid, r) => if Lookup(Fresh(cfg, w.state, r.cached), kid).Some? then r.cached else r.stale
    case Settle(_, _, stale) => stale
  }

  /**
    A key keyring withdrew at `since` is handed out no later than cache and grace after it, unless
    the request that just brought it back had already gone out; if no request failed, no later than
    the cache window after it.
  */
  lemma WithdrawnKeysDie(cfg: Settings, start: real, run: seq<Event>, e: Event, key: Key, since: real)
    requires LegalRun(cfg, start, run) && Legal(After(cfg, start, run), e) && cfg.minRefetch >= 0.0 && cfg.grace >= 0.0
    requires var (w, reply) := Do(cfg, After(cfg, start, run), e);
             && reply == Some(Found(key))
             && forall i :: 0 <= i < |w.fetches| && w.fetches[i].at >= since ==>
                  !Holds(w.fetches[i], KidOf(After(cfg, start, run), e), key)
    ensures var w := After(cfg, start, run);
            || DecidingReading(cfg, w, e) < since + cfg.cache + cfg.grace
            || (e.Settle? && e.outcome.Served? && w.state.inFlight.value.at < since)
    ensures var w := After(cfg, start, run);
            (forall f :: f in Do(cfg, w, e).0.fetches ==> !f.outcome.Broken?) ==>
              || DecidingReading(cfg, w, e) < since + cfg.cache
              || (e.Settle? && e.outcome.Served? && w.state.inFlight.value.at < since)
  {
    InvAlways(cfg, start, run);
    RepliesAreJustified(cfg, start, run, e);
    var before := After(cfg, start, run);
    var (w, _) := Do(cfg, before, e);
    var kid := KidOf(before, e);
    assert forall i :: 0 <= i < |before.fetches| ==> w.fetches[i] == before.fetches[i];
    match e {
      case Peeked(_, now) =>
      case Ask(_, r) => FoundWhileFresh(cfg, before, kid, r, key);
      case Settle(outcome, _, _) =>
        assert w.fetches[|before.fetches|].outcome == outcome;
        if outcome.Served? {
          assert Holds(w.fetches[|before.fetches|], kid, key);
        }
    }
  }

  /** A key answered at once was fresh when it was looked up, or a request had failed and it was stale. */
  lemma FoundWhileFresh(cfg: Settings, w: World, kid: Kid, r: Readings, key: Key)
    requires Stamped(w.state, w.fetches) && w.state.inFlight.None? && Ordered(r)
    requires Asked(cfg, w.state, kid, r).1 == Some(Found(key))
    ensures if Lookup(Fresh(cfg, w.state, r.cached), kid).Some? then Vouched(w.fetches, kid, key, r.cached, cfg.cache)
            else
              && Vouched(w.fetches, kid, key, r.stale, cfg.cache + cfg.grace)
              && FailedWithin(w.fetches, r.floor, cfg.minRefetch)
  {
    AskJustified(cfg, w, kid, r);
    if Lookup(Fresh(cfg, w.state, r.cached), kid).Some? {
      KeysAreVouched(w, kid, r.cached, cfg.cache);
    } else {
      assert Lookup(UsableStale(cfg, w.state, r.stale), kid) == Some(key);
      KeysAreVouched(w, kid, r.stale, cfg.cache + cfg.grace);
      var i :| 0 <= i < |w.fetches| && w.fetches[i].outcome.Broken? && w.fetches[i].ended == w.state.failedAt.value;
      assert FailedWithin(w.fetches, r.floor, cfg.minRefetch);
    }
  }

  // ---------------------------------------------------------------- what the log decides

  /** The last request that brought a document. */
  function LastServed(fetches: seq<Fetch>): (last: Option<Fetch>)
    ensures last.Some? ==> last.value.outcome.Served?
  {
    if fetches == [] then None
    else if fetches[|fetches| - 1].outcome.Served? then Some(fetches[|fetches| - 1])
    else LastServed(fetches[..|fetches| - 1])
  }

  lemma {:induction false} NoneServedAfter(fetches: seq<Fetch>)
    ensures match LastServed(fetches)
            case None => forall i :: 0 <= i < |fetches| ==> !fetches[i].outcome.Served?
            case Some(last) =>
              exists i :: 0 <= i < |fetches| && fetches[i] == last
                          && forall j :: i < j < |fetches| ==> !fetches[j].outcome.Served?
  {
    if fetches == [] {
    } else {
      NoneServedAfter(fetches[..|fetches| - 1]);
    }
  }

  /** The last request that its caller did not give up. */
  function LastEnded(fetches: seq<Fetch>): Option<Fetch> {
    if fetches == [] then None
    else if !fetches[|fetches| - 1].outcome.Cancelled? then Some(fetches[|fetches| - 1])
    else LastEnded(fetches[..|fetches| - 1])
  }

  lemma {:induction false} OnlyCancelledAfter(fetches: seq<Fetch>)
    ensures match LastEnded(fetches)
            case None => forall i :: 0 <= i < |fetches| ==> fetches[i].outcome.Cancelled?
            case Some(last) =>
              exists i :: 0 <= i < |fetches| && fetches[i] == last && !last.outcome.Cancelled?
                          && forall j :: i < j < |fetches| ==> fetches[j].outcome.Cancelled?
  {
    if fetches == [] {
    } else {
      OnlyCancelledAfter(fetches[..|fetches| - 1]);
    }
  }

  /** The last document, requested less than `age` before `now`, maps `kid`. */
  predicate Knows(fetches: seq<Fetch>, kid: Kid, now: real, age: real) {
    var last := LastServed(fetches);
    last.Some? && kid in last.value.outcome.document && now - last.value.at < age
  }

  function Known(fetches: seq<Fetch>, kid: Kid): Key
    requires LastServed(fetches).Some? && kid in LastServed(fetches).value.outcome.document
  {
    LastServed(fetches).value.outcome.document[kid]
  }

  /** The last request that ran to an end failed, less than `floor` before `now`. */
  predicate JustFailed(fetches: seq<Fetch>, now: real, floor: real) {
    var last := LastEnded(fetches);
    last.Some? && last.value.outcome.Broken? && now - last.value.ended < floor
  }

  ghost predicate Remembers(s: State, fetches: seq<Fetch>) {
    var served, ended := LastServed(fetches), LastEnded(fetches);
    && (served.None? <==> s.keys.None?)
    && (served.Some? ==> s.keys == Some(served.value.outcome.document) && s.fetchedAt == served.value.at)
    && s.failedAt == if ended.Some? && ended.value.outcome.Broken? then Some(ended.value.ended) else None
  }

  lemma OneLater(fetches: seq<Fetch>, f: Fetch)
    ensures LastServed(fetches + [f]) == if f.outcome.Served? then Some(f) else LastServed(fetches)
    ensures LastEnded(fetches + [f]) == if f.outcome.Cancelled? then LastEnded(fetches) else Some(f)
  {
    assert (fetches + [f])[..|fetches|] == fetches;
  }

  lemma SettleRemembers(s: State, fetches: seq<Fetch>, cfg: Settings, outcome: Outcome, failed: real, stale: real)
    requires s.inFlight.Some? && Remembers(s, fetches)
    ensures var p := s.inFlight.value;
            Remembers(Settled(cfg, s, outcome, failed, stale).0, fetches + [Fetch(p.at, p.claimed, outcome, failed)])
  {
    OneLater(fetches, Fetch(s.inFlight.value.at, s.inFlight.value.claimed, outcome, failed));
  }

  lemma {:induction false} RemembersAlways(cfg: Settings, start: real, run: seq<Event>)
    requires LegalRun(cfg, start, run)
    ensures Remembers(After(cfg, start, run).state, After(cfg, start, run).fetches)
  {
    if run == [] {
    } else {
      RemembersAlways(cfg, start, run[..|run| - 1]);
      var w := After(cfg, start, run[..|run| - 1]);
      match run[|run| - 1] {
        case Settle(outcome, failed, stale) => SettleRemembers(w.state, w.fetches, cfg, outcome, failed, stale);
        case _ =>
      }
    }
  }

  /**
    What `Ask` does over every run, told from the requests there have been. A key of the last
    document is found at once while that is younger than the cache window. Otherwise a current
    document without it refuses inside the floor of the last claim. Otherwise a failure inside its
    floor is answered with the last document's key until cache and grace are over, and with
    "unreachable" only when there is none; and in every other case a request goes out.
  */
  lemma AskByTheLog(cfg: Settings, start: real, run: seq<Event>, kid: Kid, r: Readings)
    requires LegalRun(cfg, start, run) && Legal(After(cfg, start, run), Ask(kid, r))
    ensures var w := After(cfg, start, run);
            var (w', reply) := Do(cfg, w, Ask(kid, r));
            var served, claim := LastServed(w.fetches), w.state.provokedAt;
            var current := served.Some? && r.held - served.value.at < cfg.cache;
            if Knows(w.fetches, kid, r.cached, cfg.cache)
            then reply == Some(Found(Known(w.fetches, kid))) && w'.state == w.state
            else if current && claim.Some? && r.claim - claim.value < cfg.minRefetch
            then reply == Some(NotAccepted) && w'.state == w.state
            else
              && w'.state.provokedAt == (if current then Some(r.claim) else claim)
              && if !JustFailed(w.fetches, r.floor, cfg.minRefetch)
                 then
                   && reply.None?
                   && w'.state.inFlight == Some(Pending(kid, r.request, if current then Some(r.claim) else None))
                 else
                   && w'.state.inFlight.None?
                   && reply == Some(if Knows(w.fetches, kid, r.stale, cfg.cache + cfg.grace)
                                    then Found(Known(w.fetches, kid)) else Unreachable)
  {
    RemembersAlways(cfg, start, run);
  }

  /**
    "Unreachable" over every run: only when the last document, if there is one, lacks the key or was
    asked for cache and grace ago or longer; and a caller whose own request fails is told so exactly
    then, and is handed the key otherwise.
  */
  lemma UnreachableIff(cfg: Settings, start: real, run: seq<Event>, e: Event)
    requires LegalRun(cfg, start, run) && Legal(After(cfg, start, run), e) && !e.Peeked?
    ensures var w := After(cfg, start, run);
            var reply, kid := Do(cfg, w, e).1, KidOf(w, e);
            var usable := Knows(w.fetches, kid, if e.Ask? then e.readings.stale else e.stale, cfg.cache + cfg.grace);
            && (reply == Some(Unreachable) ==> !usable)
            && (e.Settle? ==>
                  && (e.outcome.Broken? && !usable <==> reply == Some(Unreachable))
                  && (e.outcome.Broken? && usable ==> reply == Some(Found(Known(w.fetches, kid)))))
  {
    RemembersAlways(cfg, start, run);
    if e.Ask? {
      AskByTheLog(cfg, start, run, e.kid, e.readings);
    }
  }
}
