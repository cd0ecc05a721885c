/**
  Renewing one OAuth grant while others resolve, wait, renew and consent at the same time.

  A step is what runs between two awaits. The lock is per grant, so one grant is one machine: a
  connection row, a vault row, the lock, the tasks holding a resolved credential, and the
  callbacks that write without the lock. Section 4.14 of RFC 9700 is why it matters: presenting
  one refresh token twice is replay, and revokes the whole chain.
*/
module Renewal {
  import opened Options

  type Id = nat
  type Token = string

  datatype Secret = Secret(access: Token, refresh: Option<Token>)
  datatype Status = Active | PendingConsent | Expired

  /** Where a task is in `_load`, `_refresh` and `_renew`; every suspension point is a phase. */
  datatype Phase =
    | Connected                   // the connection was read, the vault not yet
    | Held(secret: Secret)        // a credential in a caller's hands
    | Locked(secret: Secret)      // took the lock, has not read the vault again
    | Calling(secret: Secret)     // the provider has been asked
    | Answered(secret: Secret, renewed: Secret)
    | Storing(secret: Secret, renewed: Secret)   // found its connection, has not written it
    | Landing(secret: Secret, renewed: Secret)   // wrote the connection, has not written the vault
    | Failing(secret: Secret)     // about to mark the connection

  /** A callback that has exchanged its code, before and after it writes the connection. */
  datatype Callback = Exchanged(secret: Secret) | Consented(secret: Secret)

  datatype Grant = Grant(
    connection: Option<Status>,
    vault: Option<Secret>,
    lock: Option<Id>,
    tasks: map<Id, Phase>,
    callbacks: map<Id, Callback>)

  /** The machine with its past: what the vault held, which tokens were renewed, what was returned. */
  datatype World = World(
    g: Grant,
    puts: seq<Token>,
    renewals: seq<(Token, Token)>,
    returned: seq<(Id, Secret)>)

  datatype Event =
    | ReadConnection(id: Id)
    | ReadVault(id: Id)
    | TakeLock(id: Id)
    | Compare(id: Id)
    | ProviderRefuses(id: Id)
    | ProviderAnswers(id: Id, renewed: Secret)
    | Recheck(id: Id)
    | WriteConnection(id: Id)
    | WriteVault(id: Id)
    | RecordFailure(id: Id)
    | Exchange(id: Id, secret: Secret)
    | ConsentConnection(id: Id)
    | ConsentVault(id: Id)
    | BeginConsent(usable: bool)
    | Cancel(id: Id)
    | DeleteConnection
    | DeleteVault

  predicate Critical(p: Phase) { !p.Connected? && !p.Held? }

  /** The provider has been asked and what it said is not in the vault yet. */
  predicate MidRenewal(p: Phase) { p.Calling? || p.Answered? || p.Storing? || p.Landing? }

  function Tokens(w: World): set<Token> {
    (set t | t in w.puts)
    + (set id | id in w.g.callbacks :: w.g.callbacks[id].secret.access)
    + (set id | id in w.g.tasks && !w.g.tasks[id].Connected? :: w.g.tasks[id].secret.access)
    + (set id | id in w.g.tasks && (w.g.tasks[id].Answered? || w.g.tasks[id].Storing? || w.g.tasks[id].Landing?)
         :: w.g.tasks[id].renewed.access)
    + (set i | 0 <= i < |w.renewals| :: w.renewals[i].1)
  }

  /** When a step can happen. A provider never repeats an access token. */
  predicate Enabled(w: World, e: Event) {
    var g := w.g;
    match e
    case ReadConnection(id) => id !in g.tasks
    case ReadVault(id) => id in g.tasks && g.tasks[id].Connected?
    case TakeLock(id) => id in g.tasks && g.tasks[id].Held? && g.lock.None?
    case Compare(id) => id in g.tasks && g.tasks[id].Locked?
    case ProviderRefuses(id) => id in g.tasks && g.tasks[id].Calling?
    case ProviderAnswers(id, renewed) => id in g.tasks && g.tasks[id].Calling? && renewed.access !in Tokens(w)
    case Recheck(id) => id in g.tasks && g.tasks[id].Answered?
    case WriteConnection(id) => id in g.tasks && g.tasks[id].Storing?
    case WriteVault(id) => id in g.tasks && g.tasks[id].Landing?
    case RecordFailure(id) => id in g.tasks && g.tasks[id].Failing?
    case Exchange(id, secret) => id !in g.callbacks && secret.access !in Tokens(w)
    case ConsentConnection(id) => id in g.callbacks && g.callbacks[id].Exchanged?
    case ConsentVault(id) => id in g.callbacks && g.callbacks[id].Consented?
    case BeginConsent(usable) => usable ==> g.connection == Some(Active)
    case Cancel(id) => id in g.tasks
    case DeleteConnection => true
    case DeleteVault => true
  }

  function Move(g: Grant, id: Id, p: Phase): Grant {
    g.(tasks := g.tasks[id := p])
  }

  /** Ends a use of the credential: the lock goes, the caller keeps the credential it resolved. */
  function Release(g: Grant, id: Id, secret: Secret): Grant {
    g.(lock := None, tasks := g.tasks[id := Held(secret)])
  }

  function Drop(g: Grant, id: Id): Grant {
    g.(tasks := g.tasks - {id}, lock := if g.lock == Some(id) then None else g.lock)
  }

  function Do(w: World, e: Event): World
    requires Enabled(w, e)
  {
    var g := w.g;
    match e
    case ReadConnection(id) =>
      if g.connection.None? || g.connection.value.PendingConsent? then w
      else w.(g := Move(g, id, Connected))
    case ReadVault(id) =>
      if g.vault.None? then w.(g := Drop(g, id)) else w.(g := Move(g, id, Held(g.vault.value)))
    case TakeLock(id) =>
      w.(g := Move(g, id, Locked(g.tasks[id].secret)).(lock := Some(id)))
    case Compare(id) =>
      var secret := g.tasks[id].secret;
      if g.vault.Some? && g.vault.value.access != secret.access then
        w.(g := Release(g, id, secret), returned := w.returned + [(id, g.vault.value)])
      else if secret.refresh.None? then w.(g := Move(g, id, Failing(secret)))
      else w.(g := Move(g, id, Calling(secret)))
    case ProviderRefuses(id) => w.(g := Move(g, id, Failing(g.tasks[id].secret)))
    case ProviderAnswers(id, renewed) =>
      var secret := g.tasks[id].secret;
      w.(g := Move(g, id, Answered(secret, renewed)), renewals := w.renewals + [(secret.access, renewed.access)])
    case Recheck(id) =>
      var Answered(secret, renewed) := g.tasks[id];
      w.(g := if g.connection.None? then Release(g, id, secret) else Move(g, id, Storing(secret, renewed)))
    case WriteConnection(id) =>
      var Storing(secret, renewed) := g.tasks[id];
      w.(g := Move(g, id, Landing(secret, renewed)).(connection := Some(Active)))
    case WriteVault(id) =>
      var Landing(secret, renewed) := g.tasks[id];
      w.(g := Release(g, id, secret).(vault := Some(renewed)),
         puts := w.puts + [renewed.access], returned := w.returned + [(id, renewed)])
    case RecordFailure(id) => w.(g := Release(g, id, g.tasks[id].secret).(connection := Some(Expired)))
    case Exchange(id, secret) => w.(g := g.(callbacks := g.callbacks[id := Exchanged(secret)]))
    case ConsentConnection(id) =>
      w.(g := g.(connection := Some(Active), callbacks := g.callbacks[id := Consented(g.callbacks[id].secret)]))
    case ConsentVault(id) =>
      var secret := g.callbacks[id].secret;
      w.(g := g.(vault := Some(secret), callbacks := g.callbacks - {id}), puts := w.puts + [secret.access])
    case BeginConsent(usable) => if usable then w else w.(g := g.(connection := Some(PendingConsent)))
    case Cancel(id) => w.(g := Drop(g, id))
    case DeleteConnection => w.(g := g.(connection := None))
    case DeleteVault => w.(g := g.(vault := None))
  }

  /** A grant at rest: nobody is using it, and a vault row has its connection. */
  ghost predicate AtRest(w: World) {
    && w.g.lock.None? && w.g.tasks == map[] && w.g.callbacks == map[]
    && w.renewals == [] && w.returned == []
    && (if w.g.vault.Some? then w.puts == [w.g.vault.value.access] && w.g.connection.Some? else w.puts == [])
  }

  /** Neither row is deleted, and nobody is cancelled between asking the provider and the vault. */
  predicate Undisturbed(w: World, e: Event) {
    match e
    case DeleteConnection => false
    case DeleteVault => false
    case Cancel(id) => id in w.g.tasks ==> !MidRenewal(w.g.tasks[id])
    case _ => true
  }

  ghost predicate Runs(start: World, run: seq<Event>)
    decreases |run|, 0
  {
    run == [] || (Runs(start, run[..|run| - 1]) && Enabled(After(start, run[..|run| - 1]), run[|run| - 1]))
  }

  ghost function After(start: World, run: seq<Event>): World
    requires Runs(start, run)
    decreases |run|, 1
  {
    if run == [] then start else Do(After(start, run[..|run| - 1]), run[|run| - 1])
  }

  ghost predicate AllUndisturbed(start: World, run: seq<Event>)
    requires Runs(start, run)
  {
    run == [] || (AllUndisturbed(start, run[..|run| - 1])
                  && Undisturbed(After(start, run[..|run| - 1]), run[|run| - 1]))
  }

  // ---------------------------------------------------------------- what every run keeps

  /** Holding the lock is being past it: one task at a time, whatever is cancelled or deleted. */
  ghost predicate Exclusive(g: Grant) {
    && (forall id :: id in g.tasks && Critical(g.tasks[id]) ==> g.lock == Some(id))
    && (g.lock.Some? ==> g.lock.value in g.tasks && Critical(g.tasks[g.lock.value]))
  }

  lemma ExclusiveStep(w: World, e: Event)
    requires Enabled(w, e) && Exclusive(w.g)
    ensures Exclusive(Do(w, e).g)
  {
  }

  /** In every interleaving, at most one task is past the lock, so at most one refresh is in flight. */
  lemma {:induction false} OneRefreshInFlight(start: World, run: seq<Event>)
    requires Runs(start, run) && AtRest(start)
    ensures Exclusive(After(start, run).g)
    ensures var tasks := After(start, run).g.tasks;
            forall a, b :: a in tasks && b in tasks && tasks[a].Calling? && tasks[b].Calling? ==> a == b
  {
    if run == [] {
    } else {
      OneRefreshInFlight(start, run[..|run| - 1]);
      ExclusiveStep(After(start, run[..|run| - 1]), run[|run| - 1]);
    }
  }

  predicate Unstored(p: Phase) { p.Answered? || p.Storing? || p.Landing? }

  /** The vault holds the last token put there, every token is put once, and its connection stands. */
  ghost predicate VaultIsLastPut(w: World) {
    && (forall i, j :: 0 <= i < j < |w.puts| ==> w.puts[i] != w.puts[j])
    && (w.puts == [] ==> w.g.vault.None?)
    && (w.puts != [] ==> w.g.vault.Some? && w.g.vault.value.access == w.puts[|w.puts| - 1] && w.g.connection.Some?)
  }

  /** Tokens callbacks are bringing have never been in the vault, and no two bring the same one. */
  ghost predicate ConsentsAreNew(w: World) {
    && (forall id :: id in w.g.callbacks ==> w.g.callbacks[id].secret.access !in w.puts)
    && (forall a, b :: a in w.g.callbacks && b in w.g.callbacks && a != b ==>
          w.g.callbacks[a].secret.access != w.g.callbacks[b].secret.access)
    && (forall id :: id in w.g.callbacks && w.g.callbacks[id].Consented? ==> w.g.connection.Some?)
  }

  /** Neither has a token a renewal is bringing, and no callback brings it too. */
  ghost predicate RenewalsAreNew(w: World) {
    && (forall id :: id in w.g.tasks && Unstored(w.g.tasks[id]) ==> w.g.tasks[id].renewed.access !in w.puts)
    && (forall id, c :: id in w.g.tasks && Unstored(w.g.tasks[id]) && c in w.g.callbacks ==>
          w.g.tasks[id].renewed.access != w.g.callbacks[c].secret.access)
  }

  ghost predicate ComingTokensAreNew(w: World) {
    ConsentsAreNew(w) && RenewalsAreNew(w)
  }

  /** A credential in anybody's hands came out of the vault. */
  ghost predicate HeldWereStored(w: World) {
    forall id :: id in w.g.tasks && !w.g.tasks[id].Connected? ==> w.g.tasks[id].secret.access in w.puts
  }

  /** A renewed token has left the vault, unless the task that renewed it is about to replace it. */
  ghost predicate RenewedAreRetired(w: World) {
    && (forall k :: 0 <= k < |w.renewals| ==> w.renewals[k].0 in w.puts)
    && (forall k :: 0 <= k < |w.renewals| && w.g.vault.Some? && w.g.vault.value.access == w.renewals[k].0 ==>
          w.g.lock.Some? && w.g.lock.value in w.g.tasks && Unstored(w.g.tasks[w.g.lock.value])
          && w.g.tasks[w.g.lock.value].secret.access == w.renewals[k].0)
  }

  /** No token is renewed twice, and none in flight has been renewed before. */
  ghost predicate RenewedOnce(w: World) {
    && (forall i, j :: 0 <= i < j < |w.renewals| ==> w.renewals[i].0 != w.renewals[j].0)
    && (forall id, k :: id in w.g.tasks && w.g.tasks[id].Calling? && 0 <= k < |w.renewals| ==>
          w.g.tasks[id].secret.access != w.renewals[k].0)
  }

  ghost predicate Inv(w: World) {
    && Exclusive(w.g) && VaultIsLastPut(w) && ComingTokensAreNew(w)
    && HeldWereStored(w) && RenewedAreRetired(w) && RenewedOnce(w)
  }

  lemma VaultStep(w: World, e: Event)
    requires Enabled(w, e) && Undisturbed(w, e) && VaultIsLastPut(w) && ComingTokensAreNew(w) && HeldWereStored(w)
    ensures VaultIsLastPut(Do(w, e))
  {
  }

  lemma HeldStep(w: World, e: Event)
    requires Enabled(w, e) && Undisturbed(w, e) && VaultIsLastPut(w) && HeldWereStored(w)
    ensures HeldWereStored(Do(w, e))
  {
  }

  lemma ConsentsStep(w: World, e: Event)
    requires Enabled(w, e) && Undisturbed(w, e) && ComingTokensAreNew(w)
    ensures ConsentsAreNew(Do(w, e))
  {
    if e.Exchange? {
      NewConsent(w, e);
    } else {
      OldConsents(w, e);
    }
  }

  lemma NewConsent(w: World, e: Event)
    requires Enabled(w, e) && e.Exchange? && ConsentsAreNew(w)
    ensures ConsentsAreNew(Do(w, e))
  {
    assert forall c :: c in w.g.callbacks ==> w.g.callbacks[c].secret.access in Tokens(w);
  }

  lemma CallbacksStay(w: World, e: Event)
    requires Enabled(w, e) && !e.Exchange?
    ensures forall c :: c in Do(w, e).g.callbacks ==>
              c in w.g.callbacks && Do(w, e).g.callbacks[c].secret == w.g.callbacks[c].secret
  {
  }

  lemma OldConsents(w: World, e: Event)
    requires Enabled(w, e) && Undisturbed(w, e) && ComingTokensAreNew(w) && !e.Exchange?
    ensures ConsentsAreNew(Do(w, e))
  {
    CallbacksStay(w, e);
  }

  lemma RenewalsStep(w: World, e: Event)
    requires Enabled(w, e) && Undisturbed(w, e) && ComingTokensAreNew(w) && Exclusive(w.g)
    ensures RenewalsAreNew(Do(w, e))
  {
    if e.ProviderAnswers? {
      AnswerIsNew(w, e);
    } else if e.Exchange? {
      ExchangeIsNew(w, e);
    } else {
      UnstoredStay(w, e);
      CallbacksStay(w, e);
    }
  }

  lemma AnswerIsNew(w: World, e: Event)
    requires Enabled(w, e) && e.ProviderAnswers? && Exclusive(w.g)
    ensures RenewalsAreNew(Do(w, e))
  {
    var w' := Do(w, e);
    assert forall t :: t in w'.g.tasks && Unstored(w'.g.tasks[t]) ==> t == e.id;
    assert forall c :: c in w.g.callbacks ==> w.g.callbacks[c].secret.access in Tokens(w);
  }

  lemma ExchangeIsNew(w: World, e: Event)
    requires Enabled(w, e) && e.Exchange? && RenewalsAreNew(w)
    ensures RenewalsAreNew(Do(w, e))
  {
    assert forall t :: t in w.g.tasks && Unstored(w.g.tasks[t]) ==> w.g.tasks[t].renewed.access in Tokens(w);
  }

  lemma UnstoredStay(w: World, e: Event)
    requires Enabled(w, e) && Exclusive(w.g) && !e.ProviderAnswers?
    ensures var w' := Do(w, e);
            forall t :: t in w'.g.tasks && Unstored(w'.g.tasks[t]) ==>
              t in w.g.tasks && Unstored(w.g.tasks[t]) && w.g.tasks[t].renewed == w'.g.tasks[t].renewed
                  && !e.WriteVault?
  {
  }

  lemma RetiredByAnswer(w: World, e: Event)
    requires Enabled(w, e) && e.ProviderAnswers? && Inv(w)
    ensures RenewedAreRetired(Do(w, e))
  {
  }

  lemma RetiredByPut(w: World, e: Event)
    requires Enabled(w, e) && (e.WriteVault? || e.ConsentVault?) && Inv(w)
    ensures RenewedAreRetired(Do(w, e))
  {
  }

  /** A step that neither renews nor stores leaves the renewer where it is, or moves it on to storing. */
  lemma RenewerStays(w: World, e: Event, id: Id)
    requires Enabled(w, e) && Undisturbed(w, e) && Exclusive(w.g) && !e.WriteVault?
    requires w.g.lock == Some(id) && id in w.g.tasks && Unstored(w.g.tasks[id]) && w.g.connection.Some?
    ensures var g := Do(w, e).g;
            g.lock == Some(id) && id in g.tasks && Unstored(g.tasks[id]) && g.tasks[id].secret == w.g.tasks[id].secret
  {
  }

  lemma RetiredOtherwise(w: World, e: Event)
    requires Enabled(w, e) && Undisturbed(w, e) && !e.ProviderAnswers? && !e.WriteVault? && !e.ConsentVault? && Inv(w)
    ensures RenewedAreRetired(Do(w, e))
  {
    var w' := Do(w, e);
    assert w'.renewals == w.renewals && w'.puts == w.puts && w'.g.vault == w.g.vault;
    if w.g.lock.Some? && w.g.lock.value in w.g.tasks && Unstored(w.g.tasks[w.g.lock.value]) && w.g.connection.Some? {
      RenewerStays(w, e, w.g.lock.value);
    }
  }

  lemma RetiredStep(w: World, e: Event)
    requires Enabled(w, e) && Undisturbed(w, e) && Inv(w)
    ensures RenewedAreRetired(Do(w, e))
  {
    match e
    case ProviderAnswers(_, _) => RetiredByAnswer(w, e);
    case WriteVault(_) => RetiredByPut(w, e);
    case ConsentVault(_) => RetiredByPut(w, e);
    case _ => RetiredOtherwise(w, e);
  }

  lemma OnceStep(w: World, e: Event)
    requires Enabled(w, e) && Undisturbed(w, e) && Inv(w)
    ensures RenewedOnce(Do(w, e))
  {
  }

  lemma {:induction false} InvAlways(start: World, run: seq<Event>)
    requires Runs(start, run) && AtRest(start) && AllUndisturbed(start, run)
    ensures Inv(After(start, run))
  {
    if run == [] {
    } else {
      InvAlways(start, run[..|run| - 1]);
      var w, e := After(start, run[..|run| - 1]), run[|run| - 1];
      ExclusiveStep(w, e);
      VaultStep(w, e);
      HeldStep(w, e);
      ConsentsStep(w, e);
      RenewalsStep(w, e);
      RetiredStep(w, e);
      OnceStep(w, e);
    }
  }

  /**
    Every access token the vault ever held is successfully renewed at most once, under every
    interleaving of resolvers, waiters, renewals and callbacks that deletes no row and cancels
    nobody mid-renewal; and a call in flight presents a token nobody has renewed.
  */
  lemma EachTokenRenewedOnce(start: World, run: seq<Event>)
    requires Runs(start, run) && AtRest(start) && AllUndisturbed(start, run)
    ensures var w := After(start, run);
            && (forall i, j :: 0 <= i < j < |w.renewals| ==> w.renewals[i].0 != w.renewals[j].0)
            && (forall id, k :: id in w.g.tasks && w.g.tasks[id].Calling? && 0 <= k < |w.renewals| ==>
                  w.g.tasks[id].secret.access != w.renewals[k].0)
            && (forall i, j :: 0 <= i < j < |w.puts| ==> w.puts[i] != w.puts[j])
  {
    InvAlways(start, run);
  }

  /**
    Whoever gets an answer, by waiting or by renewing, gets exactly what the vault holds then, and
    its token is one that nobody has renewed.
  */
  lemma ReturnedIsStored(start: World, run: seq<Event>, e: Event)
    requires Runs(start, run) && AtRest(start) && AllUndisturbed(start, run)
    requires Enabled(After(start, run), e) && Undisturbed(After(start, run), e)
    ensures var w := After(start, run);
            var w' := Do(w, e);
            w'.returned == w.returned ||
            (exists id, secret :: w'.returned == w.returned + [(id, secret)] && Current(w', secret))
  {
    InvAlways(start, run);
    var w := After(start, run);
    var w' := Do(w, e);
    VaultStep(w, e);
    if e.Compare? && w'.returned != w.returned {
      assert w'.returned == w.returned + [(e.id, w.g.vault.value)];
      assert Current(w', w.g.vault.value);
    } else if e.WriteVault? {
      assert w'.returned == w.returned + [(e.id, w.g.tasks[e.id].renewed)];
      assert Current(w', w.g.tasks[e.id].renewed);
    }
  }

  /** What the vault holds, stored last, and not renewed. */
  ghost predicate Current(w: World, secret: Secret) {
    && w.g.vault == Some(secret) && w.puts != [] && w.puts[|w.puts| - 1] == secret.access
    && forall k :: 0 <= k < |w.renewals| ==> w.renewals[k].0 != secret.access
  }

  // ---------------------------------------------------------------- why the premises are there

  const OLD := Secret("old", Some("refresh"))
  const FIRST := Secret("first", Some("refresh"))
  const SECOND := Secret("second", Some("refresh"))
  const RESTING := World(Grant(Some(Active), Some(OLD), None, map[], map[]), ["old"], [], [])

  /** A run told forwards: each step in turn from a given world. */
  ghost predicate Leads(w: World, steps: seq<Event>, to: World)
    decreases |steps|
  {
    if steps == [] then w == to else Enabled(w, steps[0]) && Leads(Do(w, steps[0]), steps[1..], to)
  }

  lemma {:induction false} LeadsIsRun(start: World, run: seq<Event>, steps: seq<Event>, to: World)
    requires Runs(start, run) && Leads(After(start, run), steps, to)
    ensures Runs(start, run + steps) && After(start, run + steps) == to
    decreases |steps|
  {
    if steps == [] {
      assert run + steps == run;
    } else {
      var longer := run + [steps[0]];
      assert longer[..|run|] == run;
      assert run + steps == longer + steps[1..];
      LeadsIsRun(start, longer, steps[1..], to);
    }
  }

  const ANSWERING := Grant(Some(Active), Some(OLD), Some(1), map[1 := Answered(OLD, FIRST), 2 := Held(OLD)], map[])

  /** Two tasks resolve the same credential, and the first is answered by the provider. */
  const RESOLVE_TWICE: seq<Event> := [ReadConnection(1), ReadVault(1), ReadConnection(2), ReadVault(2)]
  const RENEW_FIRST: seq<Event> := [TakeLock(1), Compare(1), ProviderAnswers(1, FIRST)]

  /** What then happens to it: its row goes after it was stored, its connection goes, or it is cancelled. */
  function Disturbed(disturbance: Event): seq<Event> {
    match disturbance
    case DeleteVault => [Recheck(1), WriteConnection(1), WriteVault(1), DeleteVault]
    case DeleteConnection => [DeleteConnection, Recheck(1)]
    case _ => [Cancel(1)]
  }

  const RENEW_AGAIN: seq<Event> := [TakeLock(2), Compare(2), ProviderAnswers(2, SECOND)]

  lemma ResolvedTwice() returns (w: World)
    ensures Leads(RESTING, RESOLVE_TWICE, w)
    ensures w == RESTING.(g := RESTING.g.(tasks := map[1 := Held(OLD), 2 := Held(OLD)]))
  {
    var w1 := Do(RESTING, ReadConnection(1));
    var w2 := Do(w1, ReadVault(1));
    var w3 := Do(w2, ReadConnection(2));
    w := Do(w3, ReadVault(2));
    assert Leads(w3, [ReadVault(2)], w);
    assert Leads(w2, [ReadConnection(2), ReadVault(2)], w);
    assert Leads(w1, [ReadVault(1), ReadConnection(2), ReadVault(2)], w);
    assert w.g.tasks == map[1 := Held(OLD), 2 := Held(OLD)];
  }

  lemma FirstAnswered(w: World) returns (w': World)
    requires w == RESTING.(g := RESTING.g.(tasks := map[1 := Held(OLD), 2 := Held(OLD)]))
    ensures Leads(w, RENEW_FIRST, w') && w' == RESTING.(g := ANSWERING, renewals := [("old", "first")])
  {
    var w1 := Do(w, TakeLock(1));
    var w2 := Do(w1, Compare(1));
    assert w2.g.tasks[1] == Calling(OLD) && w2.g.tasks[2] == Held(OLD);
    w' := Do(w2, ProviderAnswers(1, FIRST));
    assert Leads(w2, [ProviderAnswers(1, FIRST)], w');
    assert w'.g.tasks == ANSWERING.tasks;
  }

  lemma LandedThenDeleted(w: World) returns (w': World)
    requires w.g == ANSWERING.(tasks := map[1 := Landing(OLD, FIRST), 2 := Held(OLD)])
    ensures Leads(w, [WriteVault(1), DeleteVault], w')
    ensures w'.g == RESTING.g.(vault := None, tasks := map[1 := Held(OLD), 2 := Held(OLD)])
    ensures w'.puts == w.puts + ["first"] && w'.renewals == w.renewals
  {
    var w1 := Do(w, WriteVault(1));
    assert w1.g == RESTING.g.(vault := Some(FIRST), tasks := map[1 := Held(OLD), 2 := Held(OLD)]);
    w' := Do(w1, DeleteVault);
    assert Leads(w1, [DeleteVault], w');
  }

  lemma StoredThenDeleted(w: World) returns (w': World)
    requires w == RESTING.(g := ANSWERING, renewals := [("old", "first")])
    ensures Leads(w, Disturbed(DeleteVault), w')
    ensures w'.g == RESTING.g.(vault := None, tasks := map[1 := Held(OLD), 2 := Held(OLD)])
    ensures w'.puts == ["old", "first"] && w'.renewals == [("old", "first")]
  {
    var w1 := Do(w, Recheck(1));
    var w2 := Do(w1, WriteConnection(1));
    assert w2.g == ANSWERING.(tasks := map[1 := Landing(OLD, FIRST), 2 := Held(OLD)]);
    w' := LandedThenDeleted(w2);
    assert Leads(w1, [WriteConnection(1), WriteVault(1), DeleteVault], w');
  }

  lemma LostBeforeStored(w: World, disturbance: Event) returns (w': World)
    requires w == RESTING.(g := ANSWERING, renewals := [("old", "first")])
    requires disturbance in [DeleteConnection, Cancel(1)]
    ensures Leads(w, Disturbed(disturbance), w')
    ensures w'.g.lock.None? && w'.g.vault == Some(OLD) && w'.g.callbacks == map[]
    ensures w'.g.tasks == if disturbance.Cancel? then map[2 := Held(OLD)] else map[1 := Held(OLD), 2 := Held(OLD)]
    ensures w'.puts == ["old"] && w'.renewals == [("old", "first")]
  {
    if disturbance.DeleteConnection? {
      var w1 := Do(w, DeleteConnection);
      w' := Do(w1, Recheck(1));
      assert Leads(w1, [Recheck(1)], w');
    } else {
      w' := Do(w, Cancel(1));
    }
  }

  /** The second task, once it has the lock and finds no newer token, renews the same one. */
  lemma SecondRenewsToo(w: World) returns (w': World)
    requires w.g.lock.None? && 2 in w.g.tasks && w.g.tasks[2] == Held(OLD) && w.renewals == [("old", "first")]
    requires (w.g.vault.None? || w.g.vault.value.access == "old") && "second" !in Tokens(w)
    ensures Leads(w, RENEW_AGAIN, w') && w'.renewals == [("old", "first"), ("old", "second")]
  {
    var w1 := Do(w, TakeLock(2));
    var w2 := Do(w1, Compare(2));
    assert w2.g.tasks == w.g.tasks[2 := Calling(OLD)];
    assert Tokens(w2) <= Tokens(w);
    w' := Do(w2, ProviderAnswers(2, SECOND));
    assert Leads(w2, [ProviderAnswers(2, SECOND)], w');
  }

  lemma {:induction false} LeadsThen(w: World, first: seq<Event>, mid: World, second: seq<Event>, to: World)
    requires Leads(w, first, mid) && Leads(mid, second, to)
    ensures Leads(w, first + second, to)
    decreases |first|
  {
    if first == [] {
      assert first + second == second;
    } else {
      assert (first + second)[1..] == first[1..] + second;
      LeadsThen(Do(w, first[0]), first[1..], mid, second, to);
    }
  }

  /** A single deletion of either row, or one cancellation mid-renewal, is enough for a second renewal. */
  lemma OneDisturbanceRenewsTwice(disturbance: Event) returns (run: seq<Event>)
    requires disturbance in [DeleteVault, DeleteConnection, Cancel(1)]
    ensures AtRest(RESTING) && Runs(RESTING, run)
    ensures run == (RESOLVE_TWICE + RENEW_FIRST) + (Disturbed(disturbance) + RENEW_AGAIN)
    ensures After(RESTING, run).renewals == [("old", "first"), ("old", "second")]
  {
    var w1 := ResolvedTwice();
    var w2 := FirstAnswered(w1);
    LeadsThen(RESTING, RESOLVE_TWICE, w1, RENEW_FIRST, w2);
    var w := RenewedAgain(w2, disturbance);
    LeadsThen(RESTING, RESOLVE_TWICE + RENEW_FIRST, w2, Disturbed(disturbance) + RENEW_AGAIN, w);
    run := (RESOLVE_TWICE + RENEW_FIRST) + (Disturbed(disturbance) + RENEW_AGAIN);
    LeadsIsRun(RESTING, [], run, w);
    assert [] + run == run;
  }

  lemma SecondIsNew(w: World)
    requires w.g.callbacks == map[] && w.puts <= ["old", "first"] && w.renewals == [("old", "first")]
    requires forall id :: id in w.g.tasks ==> w.g.tasks[id] == Held(OLD)
    ensures "second" !in Tokens(w)
  {
    assert forall t :: t in w.puts ==> t in ["old", "first"];
  }

  lemma RenewedAgain(w: World, disturbance: Event) returns (w': World)
    requires w == RESTING.(g := ANSWERING, renewals := [("old", "first")])
    requires disturbance in [DeleteVault, DeleteConnection, Cancel(1)]
    ensures Leads(w, Disturbed(disturbance) + RENEW_AGAIN, w') && w'.renewals == [("old", "first"), ("old", "second")]
  {
    var mid;
    if disturbance.DeleteVault? {
      mid := StoredThenDeleted(w);
    } else {
      mid := LostBeforeStored(w, disturbance);
    }
    SecondIsNew(mid);
    w' := SecondRenewsToo(mid);
    LeadsThen(w, Disturbed(disturbance), mid, RENEW_AGAIN, w');
  }

  // ---------------------------------------------------------------- one use by itself

  /** A caller with a credential, and nobody holding the lock. */
  predicate Ready(w: World, id: Id) {
    id in w.g.tasks && w.g.tasks[id].Held? && w.g.lock.None? && w.g.connection.Some? && w.g.vault.Some?
  }

  lemma Asked(w: World, id: Id) returns (w': World)
    requires Ready(w, id) && w.g.vault == Some(w.g.tasks[id].secret) && w.g.tasks[id].secret.refresh.Some?
    ensures Leads(w, [TakeLock(id), Compare(id)], w') && Tokens(w') <= Tokens(w)
    ensures w' == w.(g := w.g.(lock := Some(id), tasks := w.g.tasks[id := Calling(w.g.tasks[id].secret)]))
  {
    var w1 := Do(w, TakeLock(id));
    w' := Do(w1, Compare(id));
    assert Leads(w1, [Compare(id)], w');
    assert w'.g.tasks == w.g.tasks[id := Calling(w.g.tasks[id].secret)];
    NoNewTokens(w, w', id);
  }

  lemma NoNewTokens(w: World, w': World, id: Id)
    requires Ready(w, id)
    requires w' == w.(g := w.g.(lock := Some(id), tasks := w.g.tasks[id := Calling(w.g.tasks[id].secret)]))
    ensures Tokens(w') <= Tokens(w)
  {
    assert forall t :: t in w'.g.tasks && t != id ==> t in w.g.tasks && w'.g.tasks[t] == w.g.tasks[t];
    assert w'.g.tasks[id].secret == w.g.tasks[id].secret;
  }

  /** Left alone, a renewal ends with its answer in the vault and in the caller's hands, and the lock free. */
  lemma AnsweredAlone(w: World, id: Id, renewed: Secret) returns (run: seq<Event>)
    requires Ready(w, id) && w.g.vault == Some(w.g.tasks[id].secret) && w.g.tasks[id].secret.refresh.Some?
    requires renewed.access !in Tokens(w)
    ensures Runs(w, run)
    ensures After(w, run).g == w.g.(vault := Some(renewed), connection := Some(Active))
    ensures After(w, run).returned == w.returned + [(id, renewed)]
  {
    var secret := w.g.tasks[id].secret;
    var w1 := Asked(w, id);
    var w2 := Do(w1, ProviderAnswers(id, renewed));
    var w3 := Do(w2, Recheck(id));
    assert w3.g.tasks[id] == Storing(secret, renewed);
    var w' := Landed(w3, id);
    assert w'.g.tasks == w.g.tasks;
    assert Leads(w2, [Recheck(id)] + [WriteConnection(id), WriteVault(id)], w');
    assert Leads(w1, [ProviderAnswers(id, renewed)] + ([Recheck(id)] + [WriteConnection(id), WriteVault(id)]), w');
    run := [TakeLock(id), Compare(id)]
        + ([ProviderAnswers(id, renewed)] + ([Recheck(id)] + [WriteConnection(id), WriteVault(id)]));
    LeadsThen(w, [TakeLock(id), Compare(id)], w1,
              [ProviderAnswers(id, renewed)] + ([Recheck(id)] + [WriteConnection(id), WriteVault(id)]), w');
    LeadsIsRun(w, [], run, w');
    assert [] + run == run;
  }

  lemma Landed(w: World, id: Id) returns (w': World)
    requires id in w.g.tasks && w.g.tasks[id].Storing? && w.g.lock == Some(id)
    ensures Leads(w, [WriteConnection(id), WriteVault(id)], w')
    ensures w'.g == w.g.(vault := Some(w.g.tasks[id].renewed), connection := Some(Active), lock := None,
                         tasks := w.g.tasks[id := Held(w.g.tasks[id].secret)])
    ensures w'.returned == w.returned + [(id, w.g.tasks[id].renewed)]
  {
    var w1 := Do(w, WriteConnection(id));
    w' := Do(w1, WriteVault(id));
    assert Leads(w1, [WriteVault(id)], w');
    assert w'.g.tasks == w.g.tasks[id := Held(w.g.tasks[id].secret)];
  }

  /** Refused, it marks the connection expired, keeps the credential and answers nobody. */
  lemma RefusedAlone(w: World, id: Id) returns (run: seq<Event>)
    requires Ready(w, id) && w.g.vault == Some(w.g.tasks[id].secret) && w.g.tasks[id].secret.refresh.Some?
    ensures Runs(w, run)
    ensures After(w, run) == w.(g := w.g.(connection := Some(Expired)))
  {
    var w1 := Asked(w, id);
    var w2 := Do(w1, ProviderRefuses(id));
    var w' := Do(w2, RecordFailure(id));
    assert w'.g.tasks == w.g.tasks;
    assert Leads(w2, [RecordFailure(id)], w');
    assert Leads(w1, [ProviderRefuses(id), RecordFailure(id)], w');
    run := [TakeLock(id), Compare(id)] + [ProviderRefuses(id), RecordFailure(id)];
    LeadsThen(w, [TakeLock(id), Compare(id)], w1, [ProviderRefuses(id), RecordFailure(id)], w');
    LeadsIsRun(w, [], run, w');
    assert [] + run == run;
  }

  /** A caller that waited while its credential was renewed gets the new one, and no provider is asked. */
  lemma WaitedFor(w: World, id: Id) returns (run: seq<Event>)
    requires Ready(w, id) && w.g.vault.value.access != w.g.tasks[id].secret.access
    ensures Runs(w, run)
    ensures After(w, run) == w.(returned := w.returned + [(id, w.g.vault.value)])
  {
    var w1 := Do(w, TakeLock(id));
    var w' := Do(w1, Compare(id));
    assert w'.g.tasks == w.g.tasks;
    assert Leads(w1, [Compare(id)], w');
    run := [TakeLock(id), Compare(id)];
    LeadsIsRun(w, [], run, w');
    assert [] + run == run;
  }
}
