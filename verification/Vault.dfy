/**
  Connections in one table, the credentials behind them in another, and the operations that write
  both. No transaction spans the two, so every operation is a list of writes in a chosen order.

  Encryption is abstract: a vault row is its secret. The state store, the provider's answers and name
  normalisation are parameters.
*/
module Vault {
  import opened Options

  type AccountId = string
  type ProfileName = string
  type Service = string

  datatype Place = Place(account: AccountId, profile: ProfileName)
  datatype Key = Key(place: Place, service: Service)

  datatype Kind = ApiKey | Password | OAuth
  datatype Status = Active | Pending | Expired | Revoked

  datatype Connection = Connection(
    kind: Kind, status: Status, createdAt: int, updatedAt: int, expiresAt: Option<int>,
    storesTotpSeed: bool, lastError: Option<string>)

  datatype Secret = Secret(access: string, refresh: Option<string>, lifetime: Option<int>)

  datatype Tables = Tables(
    accounts: set<AccountId>,
    profiles: set<Place>,
    connections: map<Key, Connection>,
    vault: map<Key, Secret>)

  datatype Settings = Settings(isSealed: bool, maxConnections: nat)

  // ---------------------------------------------------------------- one connection

  predicate CanRefresh(k: Kind) { k.OAuth? }

  predicate IsUsable(c: Connection, now: int) {
    c.status.Active? && (c.expiresAt.None? || CanRefresh(c.kind) || now < c.expiresAt.value)
  }

  function WithError(c: Connection, reason: string, now: int): Connection {
    c.(status := Expired, lastError := Some(reason), updatedAt := now)
  }

  function Typed(kind: Kind, totp: bool, now: int): Connection { Connection(kind, Active, now, now, None, totp, None) }

  function Waiting(now: int): Connection { Connection(OAuth, Pending, now, now, None, false, None) }

  function Consented(s: Secret, now: int): Connection {
    Connection(OAuth, Active, now, now, if s.lifetime.Some? then Some(now + s.lifetime.value) else None, false, None)
  }

  // ---------------------------------------------------------------- one write

  function At(t: Tables, p: Place): set<Key> { set key | key in t.connections && key.place == p }

  /** One transaction: the profile must be there, and a new connection must fit; a replaced one keeps its age. */
  function PutConnection(cfg: Settings, t: Tables, key: Key, c: Connection): Option<Tables> {
    if key.place !in t.profiles || (key !in t.connections && |At(t, key.place)| >= cfg.maxConnections) then None
    else Some(t.(connections := t.connections[
      key := if key in t.connections then c.(createdAt := t.connections[key].createdAt) else c]))
  }

  /** The row names its account, and only its account. */
  function PutSecret(t: Tables, key: Key, s: Secret): Tables {
    if key.place.account in t.accounts then t.(vault := t.vault[key := s]) else t
  }

  function DeleteProfileRow(t: Tables, p: Place): Tables {
    t.(profiles := t.profiles - {p},
         connections := map key | key in t.connections && key.place != p :: t.connections[key])
  }

  function DeleteSecrets(t: Tables, p: Place): Tables {
    t.(vault := map key | key in t.vault && key.place != p :: t.vault[key])
  }

  function DropAccount(t: Tables, a: AccountId): Tables {
    Tables(t.accounts - {a},
           set p | p in t.profiles && p.account != a,
           map key | key in t.connections && key.place.account != a :: t.connections[key],
           map key | key in t.vault && key.place.account != a :: t.vault[key])
  }

  // ---------------------------------------------------------------- one operation

  datatype Request =
    | StoreDirect(key: Key, kind: Kind, secret: Secret, totp: bool, now: int)
    | BeginConsent(key: Key, now: int)
    | FinishConsent(key: Key, secret: Secret, now: int)
    | Renew(key: Key, answer: Option<Secret>, reason: string, now: int)
    | RevokeConnection(key: Key)
    | DeleteProfile(place: Place)

  /** Where an operation is, between its reads and its last write. */
  datatype Op =
    | Storing(key: Key, connection: Connection, secret: Secret)
    | Landing(key: Key, secret: Secret)            // connection written, secret not
    | Marking(key: Key, connection: Connection)
    | Revoking(key: Key)
    | Unlinking(key: Key)                          // secret gone, connection not
    | Dropping(place: Place)
    | Clearing(place: Place)                       // profile gone, its secrets not

  datatype Loading =
    | NoProfile | NoConnection | NeverCompleted | VaultSealed | MissingFromVault
    | Loaded(connection: Connection, secret: Secret)

  function Load(cfg: Settings, t: Tables, key: Key): Loading {
    if key.place !in t.profiles then NoProfile
    else if key !in t.connections then NoConnection
    else if t.connections[key].status.Pending? then NeverCompleted
    else if cfg.isSealed then VaultSealed
    else if key !in t.vault then MissingFromVault
    else Loaded(t.connections[key], t.vault[key])
  }

  /** What an operation sets out to write, given what it read; nothing when it refuses before any write. */
  function Begun(cfg: Settings, t: Tables, r: Request): Option<Op> {
    match r
    case StoreDirect(key, kind, secret, totp, now) =>
      if key.place !in t.profiles || cfg.isSealed then None else Some(Storing(key, Typed(kind, totp, now), secret))
    case BeginConsent(key, now) =>
      if key.place !in t.profiles || (key in t.connections && IsUsable(t.connections[key], now)) then None
      else Some(Marking(key, Waiting(now)))
    case FinishConsent(key, secret, now) =>
      if key.place !in t.profiles || cfg.isSealed then None else Some(Storing(key, Consented(secret, now), secret))
    case Renew(key, answer, reason, now) =>
      var l := Load(cfg, t, key);
      if !l.Loaded? || !l.connection.kind.OAuth? then None
      else if l.secret.refresh.None? || answer.None? then Some(Marking(key, WithError(l.connection, reason, now)))
      else Some(Storing(key, Consented(answer.value, now), answer.value))
    case RevokeConnection(key) =>
      if key.place !in t.profiles || key !in t.connections then None else Some(Revoking(key))
    case DeleteProfile(p) => Some(Dropping(p))
  }

  /** One write, and what is left to do; a refused write ends the operation. */
  function Write(cfg: Settings, t: Tables, op: Op): (Tables, Option<Op>) {
    match op
    case Storing(key, c, s) =>
      var put := PutConnection(cfg, t, key, c);
      if put.None? then (t, None) else (put.value, Some(Landing(key, s)))
    case Landing(key, s) => (PutSecret(t, key, s), None)
    case Marking(key, c) =>
      var put := PutConnection(cfg, t, key, c);
      (if put.None? then t else put.value, None)
    case Revoking(key) => (t.(vault := t.vault - {key}), Some(Unlinking(key)))
    case Unlinking(key) => (t.(connections := t.connections - {key}), None)
    case Dropping(p) => if p in t.profiles then (DeleteProfileRow(t, p), Some(Clearing(p))) else (t, None)
    case Clearing(p) => (DeleteSecrets(t, p), None)
  }

  /** An operation with nothing in between. */
  function Whole(cfg: Settings, t: Tables, r: Request): Tables {
    var op := Begun(cfg, t, r);
    if op.None? then t
    else
      var (t', rest) := Write(cfg, t, op.value);
      if rest.None? then t' else Write(cfg, t', rest.value).0
  }

  class CredentialService {
    const cfg: Settings
    var accounts: set<AccountId>
    var profiles: set<Place>
    var connections: map<Key, Connection>
    var vault: map<Key, Secret>

    function View(): Tables
      reads this
    {
      Tables(accounts, profiles, connections, vault)
    }

    /** The schema's foreign keys: a profile's account, a connection's profile, a secret's account. */
    ghost predicate Valid()
      reads this
    {
      && (forall p :: p in profiles ==> p.account in accounts)
      && (forall x :: x in connections ==> x.place in profiles)
      && (forall x :: x in vault ==> x.place.account in accounts)
    }

    constructor (cfg: Settings)
      ensures this.cfg == cfg && View() == Tables({}, {}, map[], map[]) && Valid()
    {
      this.cfg := cfg;
      accounts, profiles, connections, vault := {}, {}, map[], map[];
    }

    /** A connection that replaces another is as old as that one. */
    static function Since(before: map<Key, Connection>, key: Key, now: int): int {
      if key in before then before[key].createdAt else now
    }

    method PutRow(key: Key, c: Connection) returns (written: bool)
      requires Valid()
      modifies this`connections
      ensures Valid()
      ensures var put := PutConnection(cfg, old(View()), key, c);
              written == put.Some? && View() == if put.Some? then put.value else old(View())
      ensures written <==>
        && key.place in profiles
        && (key in old(connections) || |set x | x in old(connections) && x.place == key.place| < cfg.maxConnections)
      ensures connections ==
        if written then old(connections)[key := c.(createdAt := Since(old(connections), key, c.createdAt))]
        else old(connections)
    {
      if key.place !in profiles {
        return false;
      }
      if key !in connections && |At(View(), key.place)| >= cfg.maxConnections {
        return false;
      }
      connections := connections[key := if key in connections then c.(createdAt := connections[key].createdAt) else c];
      return true;
    }

    method StoreBoth(key: Key, c: Connection, s: Secret) returns (stored: bool)
      requires Valid()
      modifies this`connections, this`vault
      ensures Valid()
      ensures stored == PutConnection(cfg, old(View()), key, c).Some?
      ensures stored ==> key in connections && key in vault && vault[key] == s
      ensures View() == if stored then PutSecret(PutConnection(cfg, old(View()), key, c).value, key, s) else old(View())
    {
      stored := PutRow(key, c);
      if stored && key.place.account in accounts {
        vault := vault[key := s];
      }
    }

    /**
      Nothing is written when the vault is sealed, the profile missing or the profile full;
      otherwise both rows are.
    */
    method PutDirectCredential(key: Key, kind: Kind, secret: Secret, totp: bool, now: int) returns (stored: bool)
      requires Valid()
      modifies this`connections, this`vault
      ensures Valid()
      ensures View() == Whole(cfg, old(View()), StoreDirect(key, kind, secret, totp, now))
      ensures stored <==>
        && !cfg.isSealed && key.place in profiles
        && (key in old(connections) || |set x | x in old(connections) && x.place == key.place| < cfg.maxConnections)
      ensures !stored ==> View() == old(View())
      ensures stored ==>
                && connections == old(connections)[
                     key := Connection(kind, Active, Since(old(connections), key, now), now, None, totp, None)]
                && vault == old(vault)[key := secret]
    {
      if key.place !in profiles || cfg.isSealed {
        return false;
      }
      stored := StoreBoth(key, Typed(kind, totp, now), secret);
    }

    /** Marks the key as waiting unless it has a working credential, which is left to work. */
    method BeginAuthorization(key: Key, now: int) returns (waiting: bool)
      requires Valid()
      modifies this`connections
      ensures Valid()
      ensures View() == Whole(cfg, old(View()), BeginConsent(key, now))
      ensures waiting <==>
        && key.place in profiles
        && (key in old(connections) || |set x | x in old(connections) && x.place == key.place| < cfg.maxConnections)
      ensures var works := && key in old(connections) && var c := old(connections)[key];
                              c.status.Active? && (c.expiresAt.None? || c.kind.OAuth? || now < c.expiresAt.value);
              connections ==
                if waiting && !works
                then old(connections)[
                       key := Connection(OAuth, Pending, Since(old(connections), key, now), now, None, false, None)]
                else old(connections)
    {
      if key.place !in profiles {
        return false;
      }
      if key in connections && IsUsable(connections[key], now) {
        return true;
      }
      waiting := PutRow(key, Waiting(now));
    }

    method FinishAuthorization(key: Key, secret: Secret, now: int) returns (stored: bool)
      requires Valid()
      modifies this`connections, this`vault
      ensures Valid()
      ensures View() == Whole(cfg, old(View()), FinishConsent(key, secret, now))
      ensures stored <==>
        && !cfg.isSealed && key.place in profiles
        && (key in old(connections) || |set x | x in old(connections) && x.place == key.place| < cfg.maxConnections)
      ensures stored ==>
                && connections == old(connections)[
                     key := Connection(OAuth, Active, Since(old(connections), key, now), now,
                                       if secret.lifetime.Some? then Some(now + secret.lifetime.value) else None,
                                       false, None)]
                && vault == old(vault)[key := secret]
      ensures !stored ==> View() == old(View())
    {
      if key.place !in profiles || cfg.isSealed {
        return false;
      }
      stored := StoreBoth(key, Consented(secret, now), secret);
    }

    /** A provider that refuses marks the connection and leaves its credential. */
    method RenewAccess(key: Key, answer: Option<Secret>, reason: string, now: int) returns (renewed: bool)
      requires Valid()
      modifies this`connections, this`vault
      ensures Valid()
      ensures View() == Whole(cfg, old(View()), Renew(key, answer, reason, now))
      ensures var loaded :=
                && key in old(connections) && key in old(vault) && !cfg.isSealed
                && old(connections)[key].kind.OAuth? && !old(connections)[key].status.Pending?;
              && (renewed <==> loaded && old(vault)[key].refresh.Some? && answer.Some?)
              && (!loaded ==> connections == old(connections) && vault == old(vault))
              && (loaded && !renewed ==>
                    && vault == old(vault)
                    && connections == old(connections)[
                         key := old(connections)[key].(status := Expired, lastError := Some(reason), updatedAt := now)])
              && (renewed ==>
                    && vault == old(vault)[key := answer.value]
                    && connections == old(connections)[
                         key := Connection(OAuth, Active, old(connections)[key].createdAt, now,
                                           if answer.value.lifetime.Some? then Some(now + answer.value.lifetime.value)
                                           else None, false, None)])
    {
      if key.place !in profiles || key !in connections || connections[key].status.Pending? || cfg.isSealed
          || key !in vault
         || !connections[key].kind.OAuth? {
        return false;
      }
      if vault[key].refresh.None? || answer.None? {
        var written := PutRow(key, WithError(connections[key], reason, now));
        return false;
      }
      renewed := StoreBoth(key, Consented(answer.value, now), answer.value);
    }

    /** The secret goes first. */
    method Revoke(key: Key) returns (removed: bool)
      requires Valid()
      modifies this`connections, this`vault
      ensures Valid()
      ensures View() == Whole(cfg, old(View()), RevokeConnection(key))
      ensures removed <==> key.place in profiles && key in old(connections)
      ensures connections == if removed then old(connections) - {key} else old(connections)
      ensures vault == if removed then old(vault) - {key} else old(vault)
    {
      if key.place !in profiles || key !in connections {
        return false;
      }
      vault := vault - {key};
      connections := connections - {key};
      return true;
    }

    /** The profile and its connections go first, and its secrets after. */
    method RemoveProfile(p: Place) returns (removed: bool)
      requires Valid()
      modifies this`profiles, this`connections, this`vault
      ensures Valid()
      ensures View() == Whole(cfg, old(View()), DeleteProfile(p))
      ensures removed <==> p in old(profiles)
      ensures profiles == old(profiles) - {p}
      ensures forall x :: x in connections <==> x in old(connections) && x.place != p
      ensures forall x :: x in connections ==> connections[x] == old(connections)[x]
      ensures forall x :: x in vault <==> x in old(vault) && (removed ==> x.place != p)
      ensures forall x :: x in vault ==> vault[x] == old(vault)[x]
    {
      if p !in profiles {
        return false;
      }
      profiles := profiles - {p};
      connections := map key | key in connections && key.place != p :: connections[key];
      vault := map key | key in vault && key.place != p :: vault[key];
      return true;
    }
  }

  // ---------------------------------------------------------------- operations among each other

  datatype World = World(t: Tables, ops: map<nat, Op>, used: set<AccountId>)

  datatype Event =
    | Begin(k: nat, request: Request)
    | Step(k: nat)
    | CreateAccount(account: AccountId)
    | CreateProfile(place: Place)
    | RemoveAccount(account: AccountId)

  predicate Enabled(w: World, e: Event) {
    match e
    case Begin(k, _) => k !in w.ops
    case Step(k) => k in w.ops
    case CreateAccount(a) => a !in w.used
    case CreateProfile(p) => p.account in w.t.accounts
    case RemoveAccount(_) => true
  }

  function Do(cfg: Settings, w: World, e: Event): World
    requires Enabled(w, e)
  {
    match e
    case Begin(k, r) =>
      var op := Begun(cfg, w.t, r);
      if op.None? then w else w.(ops := w.ops[k := op.value])
    case Step(k) =>
      var (t, rest) := Write(cfg, w.t, w.ops[k]);
      w.(t := t, ops := if rest.None? then w.ops - {k} else w.ops[k := rest.value])
    case CreateAccount(a) => w.(t := w.t.(accounts := w.t.accounts + {a}), used := w.used + {a})
    case CreateProfile(p) => w.(t := w.t.(profiles := w.t.profiles + {p}))
    case RemoveAccount(a) => w.(t := DropAccount(w.t, a))
  }

  ghost predicate Runs(cfg: Settings, start: World, run: seq<Event>)
    decreases |run|, 0
  {
    run == [] || (Runs(cfg, start, run[..|run| - 1]) && Enabled(After(cfg, start, run[..|run| - 1]), run[|run| - 1]))
  }

  ghost function After(cfg: Settings, start: World, run: seq<Event>): World
    requires Runs(cfg, start, run)
    decreases |run|, 1
  {
    if run == [] then start else Do(cfg, After(cfg, start, run[..|run| - 1]), run[|run| - 1])
  }

  predicate Covers(op: Op, x: Key) { if op.Dropping? || op.Clearing? then op.place == x.place else op.key == x }

  predicate Meets(r: Request, op: Op) {
    if r.DeleteProfile? then (if op.Dropping? || op.Clearing? then op.place == r.place else op.key.place == r.place)
    else Covers(op, r.key)
  }

  /** Nothing begins on a key, or on a whole profile, that another operation is in the middle of. */
  predicate Apart(w: World, e: Event) { e.Begin? ==> forall k :: k in w.ops ==> !Meets(e.request, w.ops[k]) }

  ghost predicate AllApart(cfg: Settings, start: World, run: seq<Event>)
    requires Runs(cfg, start, run)
  {
    run == [] || (AllApart(cfg, start, run[..|run| - 1]) && Apart(After(cfg, start, run[..|run| - 1]), run[|run| - 1]))
  }

  ghost predicate Started(w: World) { w.t == Tables({}, {}, map[], map[]) && w.ops == map[] && w.used == {} }

  // ---------------------------------------------------------------- agreement

  /** A vault row has its connection, and a connection that was completed has its vault row. */
  predicate Agrees(t: Tables, x: Key) {
    && (x in t.vault ==> x in t.connections)
    && (x in t.connections && !t.connections[x].status.Pending? ==> x in t.vault)
  }

  ghost predicate Rooted(w: World) {
    && w.t.accounts <= w.used
    && (forall p :: p in w.t.profiles ==> p.account in w.t.accounts)
    && (forall x :: x in w.t.connections ==> x.place in w.t.profiles)
    && (forall x :: x in w.t.vault ==> x.place.account in w.t.accounts)
    && (forall k :: k in w.ops ==> w.ops[k].Dropping? || OpPlace(w.ops[k]).account in w.used)
  }

  function OpPlace(op: Op): Place { if op.Dropping? || op.Clearing? then op.place else op.key.place }

  ghost predicate OpSound(t: Tables, op: Op) {
    match op
    case Storing(key, c, _) => Agrees(t, key)
    case Landing(key, _) => key.place.account in t.accounts ==> key in t.connections
    case Marking(key, c) => Agrees(t, key) && (key in t.connections && !c.status.Pending? ==> key in t.vault)
                            && (!c.status.Pending? && key.place.account in t.accounts ==> key in t.connections)
    case Revoking(key) => Agrees(t, key)
    case Unlinking(key) => key !in t.vault
    case Dropping(p) => forall x: Key :: x.place == p ==> Agrees(t, x)
    case Clearing(p) => forall x: Key :: x.place == p ==> x !in t.connections
  }

  ghost predicate Separate(w: World) {
    forall j, k, x :: j in w.ops && k in w.ops && Covers(w.ops[j], x) && Covers(w.ops[k], x) ==> j == k
  }

  ghost predicate Idle(w: World, x: Key) { forall k :: k in w.ops ==> !Covers(w.ops[k], x) }

  ghost predicate Inv(w: World) {
    && Rooted(w) && Separate(w)
    && (forall k :: k in w.ops ==> OpSound(w.t, w.ops[k]))
    && (forall x :: Idle(w, x) ==> Agrees(w.t, x))
  }

  // ---------------------------------------------------------------- one step

  lemma WriteKeepsRooted(cfg: Settings, w: World, k: nat)
    requires Enabled(w, Step(k)) && Rooted(w)
    ensures Rooted(Do(cfg, w, Step(k)))
  {
  }

  lemma BeginKeepsRooted(cfg: Settings, w: World, k: nat, r: Request)
    requires Enabled(w, Begin(k, r)) && Rooted(w)
    ensures Rooted(Do(cfg, w, Begin(k, r)))
  {
  }

  lemma TablesKeepRooted(cfg: Settings, w: World, e: Event)
    requires Enabled(w, e) && Rooted(w) && !e.Step? && !e.Begin?
    ensures Rooted(Do(cfg, w, e))
  {
  }

  lemma StepKeepsRooted(cfg: Settings, w: World, e: Event)
    requires Enabled(w, e) && Rooted(w)
    ensures Rooted(Do(cfg, w, e))
  {
    match e
    case Step(k) => WriteKeepsRooted(cfg, w, k);
    case Begin(k, r) => BeginKeepsRooted(cfg, w, k, r);
    case _ => TablesKeepRooted(cfg, w, e);
  }

  /** What a write leaves alone: everything outside what its operation covers. */
  lemma WriteTouches(cfg: Settings, t: Tables, op: Op, x: Key)
    requires !Covers(op, x)
    ensures var t' := Write(cfg, t, op).0;
            && (x in t'.connections <==> x in t.connections) && (x in t'.vault <==> x in t.vault)
            && (x in t.connections ==> t'.connections[x] == t.connections[x])
            && t'.accounts == t.accounts
  {
  }

  lemma WriteKeepsSound(cfg: Settings, w: World, k: nat)
    requires Inv(w) && k in w.ops
    ensures var (t', rest) := Write(cfg, w.t, w.ops[k]);
            && (rest.Some? ==> OpSound(t', rest.value) && (forall x :: Covers(rest.value, x) <==> Covers(w.ops[k], x)))
            && (rest.None? ==> forall x :: Covers(w.ops[k], x) ==> Agrees(t', x))
  {
    var op := w.ops[k];
    assert OpSound(w.t, op);
  }

  lemma StepKeepsOthers(cfg: Settings, w: World, k: nat, j: nat)
    requires Inv(w) && k in w.ops && j in w.ops && j != k
    ensures OpSound(Write(cfg, w.t, w.ops[k]).0, w.ops[j])
  {
    var op, other := w.ops[k], w.ops[j];
    assert OpSound(w.t, other);
    forall x | Covers(other, x) ensures !Covers(op, x) {
    }
    if other.Dropping? || other.Clearing? {
      forall x: Key | x.place == other.place ensures !Covers(op, x) {
        assert Covers(other, x);
      }
      forall x: Key | x.place == other.place {
        WriteTouches(cfg, w.t, op, x);
      }
    } else {
      assert Covers(other, other.key);
      WriteTouches(cfg, w.t, op, other.key);
    }
  }

  lemma BeginIsSound(cfg: Settings, w: World, r: Request)
    requires Inv(w) && Begun(cfg, w.t, r).Some?
    requires forall k :: k in w.ops ==> !Meets(r, w.ops[k])
    ensures OpSound(w.t, Begun(cfg, w.t, r).value)
    ensures forall k, x :: k in w.ops && Covers(w.ops[k], x) ==> !Covers(Begun(cfg, w.t, r).value, x)
  {
    var op := Begun(cfg, w.t, r).value;
    forall x | Covers(op, x) ensures Idle(w, x) && Agrees(w.t, x) {
    }
    if !r.DeleteProfile? {
      assert Covers(op, r.key);
    }
  }

  lemma StepKeepsInv(cfg: Settings, w: World, e: Event)
    requires Enabled(w, e) && Inv(w) && Apart(w, e)
    ensures Inv(Do(cfg, w, e))
  {
    StepKeepsRooted(cfg, w, e);
    match e
    case Begin(k, r) => BeginKeepsInv(cfg, w, k, r);
    case Step(k) => WriteKeepsInv(cfg, w, k);
    case CreateAccount(a) => TablesKeepInv(cfg, w, e);
    case CreateProfile(p) => TablesKeepInv(cfg, w, e);
    case RemoveAccount(a) => TablesKeepInv(cfg, w, e);
  }

  lemma BeginKeepsInv(cfg: Settings, w: World, k: nat, r: Request)
    requires Enabled(w, Begin(k, r)) && Inv(w) && Apart(w, Begin(k, r)) && Rooted(Do(cfg, w, Begin(k, r)))
    ensures Inv(Do(cfg, w, Begin(k, r)))
  {
    var w' := Do(cfg, w, Begin(k, r));
    if Begun(cfg, w.t, r).Some? {
      BeginIsSound(cfg, w, r);
      forall x | Idle(w', x) ensures Agrees(w'.t, x) {
        forall j | j in w.ops ensures !Covers(w.ops[j], x) {
          assert w'.ops[j] == w.ops[j];
        }
      }
    }
  }

  lemma WriteKeepsInv(cfg: Settings, w: World, k: nat)
    requires Inv(w) && k in w.ops && Rooted(Do(cfg, w, Step(k)))
    ensures Inv(Do(cfg, w, Step(k)))
  {
    var w' := Do(cfg, w, Step(k));
    WriteKeepsSound(cfg, w, k);
    forall j | j in w'.ops ensures OpSound(w'.t, w'.ops[j]) {
      if j != k {
        StepKeepsOthers(cfg, w, k, j);
      }
    }
    forall j, x | j in w'.ops && Covers(w'.ops[j], x) ensures Covers(w.ops[j], x) {
    }
    forall x | Idle(w', x) ensures Agrees(w'.t, x) {
      if !Covers(w.ops[k], x) {
        WriteTouches(cfg, w.t, w.ops[k], x);
        forall j | j in w.ops ensures !Covers(w.ops[j], x) {
          if j != k {
            assert w'.ops[j] == w.ops[j];
          }
        }
        assert Idle(w, x);
      }
    }
  }

  lemma TablesKeepInv(cfg: Settings, w: World, e: Event)
    requires Enabled(w, e) && Inv(w) && Rooted(Do(cfg, w, e)) && !e.Begin? && !e.Step?
    ensures Inv(Do(cfg, w, e))
  {
    var w' := Do(cfg, w, e);
    forall k | k in w'.ops ensures OpSound(w'.t, w'.ops[k]) {
      assert OpSound(w.t, w.ops[k]);
    }
    forall x | Idle(w', x) ensures Agrees(w'.t, x) {
      assert Idle(w, x);
    }
  }

  lemma {:induction false} InvAlways(cfg: Settings, start: World, run: seq<Event>)
    requires Started(start) && Runs(cfg, start, run) && AllApart(cfg, start, run)
    ensures Inv(After(cfg, start, run))
    decreases |run|
  {
    if run == [] {
    } else {
      InvAlways(cfg, start, run[..|run| - 1]);
      StepKeepsInv(cfg, After(cfg, start, run[..|run| - 1]), run[|run| - 1]);
    }
  }

  // ---------------------------------------------------------------- theorems

  /**
    At every await point of every run in which operations keep off each other's keys, and so after a
    crash at any of them, no vault row lacks its connection unless its profile's deletion is under
    way; and a key nothing is in the middle of writing has its vault row exactly when it should.
  */
  lemma VaultAndConnectionsAgree(cfg: Settings, start: World, run: seq<Event>, x: Key)
    requires Started(start) && Runs(cfg, start, run) && AllApart(cfg, start, run)
    ensures var w := After(cfg, start, run);
            && (x in w.t.vault ==>
                  x in w.t.connections || exists k :: k in w.ops && w.ops[k] == Clearing(x.place))
            && (Idle(w, x) ==> Agrees(w.t, x) && !Load(cfg, w.t, x).MissingFromVault?)
  {
    InvAlways(cfg, start, run);
    var w := After(cfg, start, run);
    if x in w.t.vault && x !in w.t.connections {
      assert !Agrees(w.t, x) && !Idle(w, x);
      var k :| k in w.ops && Covers(w.ops[k], x);
      assert OpSound(w.t, w.ops[k]);
      assert x.place.account in w.t.accounts;
      assert w.ops[k] == Clearing(x.place);
    }
  }

  /** Operations one after another: every one leaves every key in agreement. */
  lemma WholeKeepsAgreement(cfg: Settings, t: Tables, r: Request, x: Key)
    requires forall p :: p in t.profiles ==> p.account in t.accounts
    requires forall y :: y in t.connections ==> y.place in t.profiles
    requires forall y :: Agrees(t, y)
    ensures Agrees(Whole(cfg, t, r), x) && !Load(cfg, Whole(cfg, t, r), x).MissingFromVault?
  {
    assert Agrees(t, x);
    if !r.DeleteProfile? {
      assert Agrees(t, r.key);
      assert r.key.place in t.profiles ==> r.key.place.account in t.accounts;
    }
  }

  // ---------------------------------------------------------------- deleting a profile

  /** Deleting a profile passes through a state in which its secrets have no connections. */
  lemma DeletingLeavesSecrets(cfg: Settings, w: World, k: nat, x: Key)
    requires Inv(w) && k in w.ops && w.ops[k] == Dropping(x.place) && x.place in w.t.profiles && x in w.t.vault
    ensures var w' := Do(cfg, w, Step(k)); x in w'.t.vault && x !in w'.t.connections && w'.ops[k] == Clearing(x.place)
    ensures var w' := Do(cfg, w, Step(k)); x !in Do(cfg, w', Step(k)).t.vault
  {
  }
}
