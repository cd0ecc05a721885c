/**
  The deployment always keeps an owner, over every interleaved run whose account saves write back
  the roles the account still has; and with saves that close to their reads, non-escalation needs
  no premise about the run at all.
*/
module LastOwner {
  import opened Rbac
  import opened AdminTables
  import opened Admin
  import NonEscalation

  /** A save that writes back the roles its account holds at that moment, or finds no account. */
  predicate FreshSave(w: World, e: Event) {
    e.Save? && e.k in w.touches ==>
      w.touches[e.k].id in w.t.held ==> w.t.held[w.touches[e.k].id] == w.touches[e.k].names
  }

  ghost predicate AllFresh(start: World, run: seq<Event>)
    requires Runs(start, run)
  {
    run == [] || (AllFresh(start, run[..|run| - 1]) && FreshSave(After(start, run[..|run| - 1]), run[|run| - 1]))
  }

  /** An owner exists from the moment an account does; until then every redemption knows it is the first. */
  ghost predicate Owned(w: World) {
    && (w.t.held != map[] ==> HasOwner(w.t.held))
    && (w.t.held == map[] ==> forall j :: j in w.joining ==> w.joining[j])
  }

  lemma GuardedKeepsOwned(w: World, e: Event)
    requires Enabled(w, e) && Owned(w) && (e.CommitAssign? || e.CommitAct?)
    ensures Owned(Do(w, e)) && (w.t.held != map[] ==> HasOwner(Do(w, e).t.held))
  {
    if HasOwner(w.t.held) {
      OwnerSurvives(w.t, w.requests[e.k].target, if e.CommitAssign? then w.requests[e.k].wanted else []);
    }
    OwnerIsSomebody(Do(w, e).t);
  }

  lemma OwnerIsSomebody(t: Tables)
    ensures HasOwner(t.held) ==> t.held != map[]
  {
  }

  lemma OthersKeepHeld(w: World, e: Event)
    requires Enabled(w, e) && FreshSave(w, e) && !e.CommitAssign? && !e.CommitAct? && !e.Join?
    ensures Do(w, e).t.held == w.t.held
    ensures w.t.held != map[] || !e.Redeem? ==> forall j :: j in Do(w, e).joining && w.t.held == map[] ==>
            j in w.joining && Do(w, e).joining[j] == w.joining[j]
    ensures e.Redeem? && w.t.held == map[] ==> Do(w, e).joining == w.joining[e.j := true]
  {
  }

  lemma OwnedStep(w: World, e: Event)
    requires Enabled(w, e) && Owned(w) && FreshSave(w, e)
    ensures Owned(Do(w, e))
    ensures w.t.held != map[] ==> Do(w, e).t.held != map[]
  {
    OwnerIsSomebody(Do(w, e).t);
    match e {
      case CommitAssign(_) => GuardedKeepsOwned(w, e);
      case CommitAct(_) => GuardedKeepsOwned(w, e);
      case Join(j, id) => JoinOwned(w, j, id);
      case _ => OthersKeepHeld(w, e);
    }
  }

  lemma JoinOwned(w: World, j: nat, id: Id)
    requires Enabled(w, Join(j, id)) && Owned(w)
    ensures Owned(Do(w, Join(j, id)))
    ensures w.t.held != map[] ==> HasOwner(Do(w, Join(j, id)).t.held)
  {
    var w' := Do(w, Join(j, id));
    if w'.t != w.t {
      assert id in w'.t.held;
      if w.t.held == map[] {
        assert OWNER in w'.t.held[id];
      } else {
        var owner :| owner in w.t.held && OWNER in w.t.held[owner];
        assert owner in w'.t.held && OWNER in w'.t.held[owner];
      }
    }
  }

  /**
    From a deployment with an owner, or with nobody but invitations out: as soon as there is an
    account there is an owner, and from then on every run leaves at least one.
  */
  lemma {:induction false} LastOwnerSurvives(start: World, run: seq<Event>)
    requires Runs(start, run) && AllFresh(start, run) && Quiet(start)
    requires start.t.held == map[] || HasOwner(start.t.held)
    ensures Owned(After(start, run))
    ensures After(start, run).t.held != map[] ==> HasOwner(After(start, run).t.held)
    ensures forall n :: 0 <= n <= |run| && Runs(start, run[..n]) && After(start, run[..n]).t.held != map[] ==>
              HasOwner(After(start, run).t.held)
  {
    if run == [] {
      assert run[..0] == [];
    } else {
      var before := run[..|run| - 1];
      LastOwnerSurvives(start, before);
      OwnedStep(After(start, before), run[|run| - 1]);
      forall n | 0 <= n <= |run| && Runs(start, run[..n]) && After(start, run[..n]).t.held != map[]
        ensures HasOwner(After(start, run).t.held)
      {
        if n == |run| {
          assert run[..n] == run;
        } else {
          assert before[..n] == run[..n];
          assert HasOwner(After(start, before).t.held);
        }
      }
    }
  }

  /**
    Two invitations redeemed before any account exists, the second while the first is under way:
    both find nobody, both become owners, and the first result applies from there on.
  */
  lemma RacingFirstsBothOwn(start: World, j: nat, k: nat, first: Id, second: Id)
    requires Quiet(start) && start.t.held == map[] && OWNER in start.t.roles && start.invites >= 2
    requires j != k && first != second && first !in start.used && second !in start.used
    ensures var run := [Redeem(j)] + [Redeem(k)] + [Join(j, first)] + [Join(k, second)];
            && Runs(start, run) && AllFresh(start, run)
            && After(start, run).t.held == map[first := [OWNER], second := [OWNER]]
  {
    OneMoreFresh(start, [], Redeem(j));
    OneMoreFresh(start, [Redeem(j)], Redeem(k));
    assert After(start, [Redeem(j)] + [Redeem(k)]).joining == map[j := true, k := true];
    OneMoreFresh(start, [Redeem(j)] + [Redeem(k)], Join(j, first));
    var w := After(start, [Redeem(j)] + [Redeem(k)] + [Join(j, first)]);
    assert w.t.held == map[first := [OWNER]];
    OneMoreFresh(start, [Redeem(j)] + [Redeem(k)] + [Join(j, first)], Join(k, second));
  }

  lemma OneMoreFresh(start: World, run: seq<Event>, e: Event)
    requires Runs(start, run) && AllFresh(start, run) && Enabled(After(start, run), e) && !e.Save?
    ensures Runs(start, run + [e]) && AllFresh(start, run + [e])
    ensures After(start, run + [e]) == Do(After(start, run), e)
    ensures run == [] ==> run + [e] == [e]
  {
    assert (run + [e])[..|run|] == run;
  }

  // ---------------------------------------------------------------- saves that close to their reads

  /** Nothing happens between an account's read and its save. */
  ghost predicate AtomicSaves(start: World, run: seq<Event>)
    requires Runs(start, run)
  {
    run == [] || (AtomicSaves(start, run[..|run| - 1])
                  && (After(start, run[..|run| - 1]).touches != map[] ==> run[|run| - 1].Save?))
  }

  ghost predicate NothingStale(w: World) {
    && (forall a, b :: a in w.touches && b in w.touches ==> a == b)
    && (forall k :: k in w.touches ==> w.touches[k].id in w.t.held && w.t.held[w.touches[k].id] == w.touches[k].names)
  }

  lemma AtomicStep(w: World, e: Event)
    requires Enabled(w, e) && NothingStale(w) && (w.touches != map[] ==> e.Save?)
    ensures NothingStale(Do(w, e)) && FreshSave(w, e)
    ensures !e.Save? ==> w.touches == map[]
  {
    var w' := Do(w, e);
    if e.Save? {
      assert w'.touches == map[] by {
        assert forall k :: k in w.touches ==> k == e.k;
      }
    } else {
      assert w.touches == map[];
    }
  }

  lemma {:induction false} AtomicSavesAreFresh(start: World, run: seq<Event>)
    requires Runs(start, run) && AtomicSaves(start, run) && Quiet(start)
    ensures AllFresh(start, run) && NothingStale(After(start, run))
  {
    if run == [] {
    } else {
      AtomicSavesAreFresh(start, run[..|run| - 1]);
      AtomicStep(After(start, run[..|run| - 1]), run[|run| - 1]);
    }
  }

  /** With saves closed to their reads, no premise is left: the first account on, there is an owner. */
  lemma LastOwnerSurvivesAtomically(start: World, run: seq<Event>)
    requires Runs(start, run) && AtomicSaves(start, run) && Quiet(start)
    requires start.t.held == map[] || HasOwner(start.t.held)
    ensures After(start, run).t.held != map[] ==> HasOwner(After(start, run).t.held)
  {
    AtomicSavesAreFresh(start, run);
    LastOwnerSurvives(start, run);
  }

  lemma {:induction false} AtomicSavesAreGuarded(start: World, run: seq<Event>)
    requires Runs(start, run) && AtomicSaves(start, run) && Quiet(start) && HasOwner(start.t.held)
    ensures AllFresh(start, run) && NonEscalation.AllGuarded(start, run) && HasOwner(After(start, run).t.held)
  {
    AtomicSavesAreFresh(start, run);
    LastOwnerSurvives(start, run);
    if run == [] {
    } else {
      var before, e := run[..|run| - 1], run[|run| - 1];
      AtomicSavesAreGuarded(start, before);
      AtomicSavesAreFresh(start, before);
      AtomicStep(After(start, before), e);
    }
  }

  /**
    With each save closed to its read, from any deployment that has an owner: no premise about the
    run remains, and nobody escalates.
  */
  lemma NobodyEscalatesAtomically(start: World, run: seq<Event>, u: set<Permission>)
    requires Runs(start, run) && AtomicSaves(start, run) && Quiet(start) && HasOwner(start.t.held)
    requires NonEscalation.Bound(start, u)
    ensures var w := After(start, run);
            && HasOwner(w.t.held)
            && (forall id :: id in w.t.held ==>
                  Resolve(w.t.roles, w.t.held[id])
                  <= u + (if id in start.t.held then Resolve(start.t.roles, start.t.held[id]) else {}))
            && (forall id :: id in w.coalition && id in w.t.held ==> Resolve(w.t.roles, w.t.held[id]) <= u)
  {
    AtomicSavesAreGuarded(start, run);
    NonEscalation.NobodyEscalates(start, run, u);
  }
}
