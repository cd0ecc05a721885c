/**
  What each permission is for: what a coalition that lacks one cannot bring about, whatever it does
  and however its requests interleave; and what nobody can.
*/
module Powers {
  import opened Rbac
  import opened AdminTables
  import opened Admin
  import opened NonEscalation

  /** Nobody defines or edits a role, and no role has changed. */
  ghost predicate RolesStand(start: World, w: World) {
    w.t.roles == start.t.roles && forall k :: k in w.requests ==> !w.requests[k].Defining? && !w.requests[k].Editing?
  }

  /** Nobody assigns roles, and an account of the start holds, and would be saved with, what it held. */
  ghost predicate HoldingsStand(start: World, w: World) {
    && (forall k :: k in w.requests ==> !w.requests[k].Assigning? && !w.requests[k].Assigned?)
    && (forall id :: id in start.t.held && id in w.t.held ==> w.t.held[id] == start.t.held[id])
    && (forall k :: k in w.touches && w.touches[k].id in start.t.held ==>
          w.touches[k].names == start.t.held[w.touches[k].id])
    && start.t.held.Keys <= w.used
  }

  /** Nobody is being acted on for this. */
  ghost predicate NobodyTargeted(w: World, act: Act) {
    forall k :: k in w.requests ==>
      (w.requests[k].Targeting? || w.requests[k].Allowed?) ==> w.requests[k].act != act
  }

  ghost predicate CoalitionStands(start: World, w: World) {
    NobodyTargeted(w, Reset) && start.used <= w.used && w.coalition <= start.coalition + (w.used - start.used)
  }

  /** What an administrator needs to act on an account so. */
  function Needed(act: Act): Permission { if act.Reset? then AccountsResetPassword else AccountsDelete }

  /** What a request has become: something its actor may do, or a later part of the same. */
  predicate MovedOn(w: World, r: Request, r': Request) {
    match r'
    case Reading(_, _) => false
    case Acting(_, _) => r.Reading?
    case Assigning(_, _, _, _, _) => r.Assigning? || (r.Acting? && RolesAssign in r.may)
    case Assigned(_, _) => r.Assigning?
    case Defining(_, _) => r.Acting? && RolesWrite in r.may
    case Editing(name, _) => r.Acting? && RolesWrite in r.may && name in w.t.roles && !w.t.roles[name].builtin
    case Targeting(_, _, _, act) => r.Acting? && Needed(act) in r.may
    case Allowed(_, act) => (r.Acting? && Needed(act) in r.may) || (r.Targeting? && r.act == act)
  }

  lemma RequestsFrom(w: World, e: Event)
    requires Enabled(w, e)
    ensures forall k :: k in Do(w, e).requests ==>
              || (k in w.requests && Do(w, e).requests[k] == w.requests[k])
              || (e.Arrive? && Do(w, e).requests[k].Reading?)
              || (k in w.requests && MovedOn(w, w.requests[k], Do(w, e).requests[k]))
  {
  }

  /** What a step does to the role table, and by whom. */
  lemma RolesFrom(w: World, e: Event)
    requires Enabled(w, e)
    ensures var roles := Do(w, e).t.roles;
            || roles == w.t.roles
            || (e.CommitDefine? && w.requests[e.k].name !in w.t.roles
                && roles == w.t.roles[w.requests[e.k].name := Role(w.requests[e.k].permissions, false)])
            || (e.CommitEdit? && w.requests[e.k].name in w.t.roles
                && roles == w.t.roles[w.requests[e.k].name :=
                                        w.t.roles[w.requests[e.k].name].(permissions := w.requests[e.k].permissions)])
            || (e.DropRole? && RolesWrite in w.requests[e.k].may && e.name in w.t.roles && !w.t.roles[e.name].builtin
                && roles == w.t.roles - {e.name})
  {
  }

  lemma RolesStandStep(start: World, w: World, e: Event, u: set<Permission>)
    requires Enabled(w, e) && RequestsBounded(w, u) && RolesWrite !in u && RolesStand(start, w)
    ensures RolesStand(start, Do(w, e))
  {
    RequestsFrom(w, e);
    RolesFrom(w, e);
    assert forall k :: k in w.requests ==> RequestBounded(w, u, w.requests[k]);
  }

  lemma HoldingsStandStep(start: World, w: World, e: Event, u: set<Permission>)
    requires Enabled(w, e) && RequestsBounded(w, u) && RolesAssign !in u && HoldingsStand(start, w)
    ensures HoldingsStand(start, Do(w, e))
  {
    NoAssignments(w, e, u);
    HeldFrom(w, e);
    TouchesFrom(w, e);
    UsedGrows(w, e);
  }

  lemma UsedGrows(w: World, e: Event)
    requires Enabled(w, e)
    ensures w.used <= Do(w, e).used && (e.Join? ==> e.id !in w.used)
  {
  }

  lemma NoAssignments(w: World, e: Event, u: set<Permission>)
    requires Enabled(w, e) && RequestsBounded(w, u) && RolesAssign !in u
    requires forall k :: k in w.requests ==> !w.requests[k].Assigning? && !w.requests[k].Assigned?
    ensures forall k :: k in Do(w, e).requests ==> !Do(w, e).requests[k].Assigning? && !Do(w, e).requests[k].Assigned?
  {
    RequestsFrom(w, e);
    assert forall k :: k in w.requests ==> RequestBounded(w, u, w.requests[k]);
  }

  lemma TargetsStandStep(w: World, e: Event, u: set<Permission>, act: Act)
    requires Enabled(w, e) && RequestsBounded(w, u) && Needed(act) !in u && NobodyTargeted(w, act)
    ensures NobodyTargeted(Do(w, e), act)
  {
    RequestsFrom(w, e);
    assert forall k :: k in w.requests ==> RequestBounded(w, u, w.requests[k]);
  }

  lemma AccountsStandStep(start: World, w: World, e: Event, u: set<Permission>)
    requires Enabled(w, e) && RequestsBounded(w, u) && AccountsDelete !in u
    requires NobodyTargeted(w, Remove) && start.t.held.Keys <= w.t.held.Keys
    ensures NobodyTargeted(Do(w, e), Remove) && start.t.held.Keys <= Do(w, e).t.held.Keys
  {
    TargetsStandStep(w, e, u, Remove);
    assert e.CommitAct? ==> w.requests[e.k].act == Reset;
    assert w.t.held.Keys <= Do(w, e).t.held.Keys;
  }

  lemma InvitesStandStep(w: World, e: Event, u: set<Permission>)
    requires Enabled(w, e) && RequestsBounded(w, u) && AccountsInvite !in u
    ensures Do(w, e).invites <= w.invites
  {
    if e.Invite? {
      assert RequestBounded(w, u, w.requests[e.k]);
    }
  }

  lemma CoalitionFrom(w: World, e: Event)
    requires Enabled(w, e)
    ensures var w' := Do(w, e);
            && w.used <= w'.used
            && (w'.coalition == w.coalition
                || (e.Join? && w'.coalition == w.coalition + {e.id} && e.id !in w.used && e.id in w'.used)
                || (e.CommitAct? && w.requests[e.k].act.Reset?))
  {
  }

  lemma CoalitionStandsStep(start: World, w: World, e: Event, u: set<Permission>)
    requires Enabled(w, e) && RequestsBounded(w, u) && AccountsResetPassword !in u && CoalitionStands(start, w)
    ensures CoalitionStands(start, Do(w, e))
  {
    TargetsStandStep(w, e, u, Reset);
    CoalitionFrom(w, e);
  }

  /**
    Over every run, what the coalition's union lacks it cannot do: without `roles:write` no role
    changes, without `roles:assign` no account's roles do, without `accounts:delete` none goes,
    without `accounts:invite` no invitation is made, and without `accounts:reset_password` it takes in
    nobody but those who redeem one.
  */
  lemma {:induction false} WithoutThePermission(start: World, run: seq<Event>, u: set<Permission>)
    requires Runs(start, run) && AllGuarded(start, run) && Quiet(start) && Bound(start, u)
    ensures var w := After(start, run);
            && (RolesWrite !in u ==> RolesStand(start, w))
            && (RolesAssign !in u ==> HoldingsStand(start, w))
            && (AccountsDelete !in u ==> NobodyTargeted(w, Remove) && start.t.held.Keys <= w.t.held.Keys)
            && (AccountsInvite !in u ==> w.invites <= start.invites)
            && (AccountsResetPassword !in u ==> CoalitionStands(start, w))
    decreases |run|
  {
    if run == [] {
    } else {
      var before, e := run[..|run| - 1], run[|run| - 1];
      WithoutThePermission(start, before, u);
      InvAtStart(start, u);
      InvKept(start, start, before, u);
      WithoutStep(start, After(start, before), e, u);
    }
  }

  lemma WithoutStep(start: World, w: World, e: Event, u: set<Permission>)
    requires Enabled(w, e) && RequestsBounded(w, u)
    ensures RolesWrite !in u && RolesStand(start, w) ==> RolesStand(start, Do(w, e))
    ensures RolesAssign !in u && HoldingsStand(start, w) ==> HoldingsStand(start, Do(w, e))
    ensures AccountsDelete !in u && NobodyTargeted(w, Remove) && start.t.held.Keys <= w.t.held.Keys ==>
              NobodyTargeted(Do(w, e), Remove) && start.t.held.Keys <= Do(w, e).t.held.Keys
    ensures AccountsInvite !in u ==> Do(w, e).invites <= w.invites
    ensures AccountsResetPassword !in u && CoalitionStands(start, w) ==> CoalitionStands(start, Do(w, e))
  {
    if RolesWrite !in u && RolesStand(start, w) { RolesStandStep(start, w, e, u); }
    if RolesAssign !in u && HoldingsStand(start, w) { HoldingsStandStep(start, w, e, u); }
    if AccountsDelete !in u && NobodyTargeted(w, Remove) && start.t.held.Keys <= w.t.held.Keys {
      AccountsStandStep(start, w, e, u);
    }
    if AccountsInvite !in u { InvitesStandStep(w, e, u); }
    if AccountsResetPassword !in u && CoalitionStands(start, w) { CoalitionStandsStep(start, w, e, u); }
  }

  /** A built-in role of the start is there as it was, and nobody is about to edit it. */
  ghost predicate BuiltinStand(start: World, w: World) {
    forall n :: n in start.t.roles && start.t.roles[n].builtin ==>
      && n in w.t.roles && w.t.roles[n] == start.t.roles[n]
      && forall k :: k in w.requests && w.requests[k].Editing? ==> w.requests[k].name != n
  }

  /** Whatever anybody does, and however it interleaves, no built-in role ever changes or goes. */
  lemma {:induction false} BuiltinRolesStand(start: World, run: seq<Event>)
    requires Runs(start, run) && Quiet(start)
    ensures BuiltinStand(start, After(start, run))
    decreases |run|
  {
    if run == [] {
    } else {
      BuiltinRolesStand(start, run[..|run| - 1]);
      BuiltinStep(start, After(start, run[..|run| - 1]), run[|run| - 1]);
    }
  }

  lemma BuiltinStep(start: World, w: World, e: Event)
    requires Enabled(w, e) && BuiltinStand(start, w)
    ensures BuiltinStand(start, Do(w, e))
  {
    forall n | n in start.t.roles && start.t.roles[n].builtin
      ensures n in Do(w, e).t.roles && Do(w, e).t.roles[n] == start.t.roles[n]
    {
      BuiltinKept(start, w, e, n);
    }
    forall k, n | n in start.t.roles && start.t.roles[n].builtin && k in Do(w, e).requests
      ensures Do(w, e).requests[k].Editing? ==> Do(w, e).requests[k].name != n
    {
      NoEditOf(start, w, e, n, k);
    }
  }

  lemma BuiltinKept(start: World, w: World, e: Event, n: RoleName)
    requires Enabled(w, e) && BuiltinStand(start, w) && n in start.t.roles && start.t.roles[n].builtin
    ensures n in Do(w, e).t.roles && Do(w, e).t.roles[n] == start.t.roles[n]
  {
    RolesFrom(w, e);
  }

  lemma NoEditOf(start: World, w: World, e: Event, n: RoleName, k: nat)
    requires Enabled(w, e) && BuiltinStand(start, w) && n in start.t.roles && start.t.roles[n].builtin
    requires k in Do(w, e).requests
    ensures Do(w, e).requests[k].Editing? ==> Do(w, e).requests[k].name != n
  {
    RequestsFrom(w, e);
  }

  // ---------------------------------------------------------------- one assignment by itself

  lemma {:induction false} Prepend(w: World, e: Event, run: seq<Event>)
    requires Enabled(w, e) && Runs(Do(w, e), run)
    ensures Runs(w, [e] + run) && After(w, [e] + run) == After(Do(w, e), run)
    decreases |run|
  {
    if run == [] {
      assert ([e] + run)[..0] == [] && ([e] + run)[0] == e;
    } else {
      Prepend(w, e, run[..|run| - 1]);
      assert ([e] + run)[..|[e] + run| - 1] == [e] + run[..|run| - 1];
    }
  }

  /** The request over, and these tables. */
  function Settled(w: World, k: nat, t: Tables): World { Over(w.(t := t), k) }

  /**
    A request to assign roles that nothing else happens to ends as the one transaction it stands for:
    the tables are as that leaves them, the request is over, and nothing else has changed.
  */
  lemma AssignsAlone(w: World, k: nat, target: Id, names: seq<RoleName>) returns (run: seq<Event>)
    requires k in w.requests && w.requests[k].Acting?
    ensures Runs(w, run)
    ensures After(w, run) == Settled(w, k, Assign(w.t, w.requests[k].may, target, names).0)
  {
    var w1 := Do(w, BeginAssign(k, target, names));
    if k in w1.requests {
      var rest := ReadsOn(w1, k);
      Prepend(w, BeginAssign(k, target, names), rest);
      run := [BeginAssign(k, target, names)] + rest;
    } else {
      Prepend(w, BeginAssign(k, target, names), []);
      run := [BeginAssign(k, target, names)] + [];
    }
  }

  /** From the next role to read to the end. */
  lemma {:induction false} ReadsOn(w: World, k: nat) returns (run: seq<Event>)
    requires k in w.requests && w.requests[k].Assigning? && w.requests[k].next <= |w.requests[k].wanted|
    requires var r := w.requests[k];
             && r.granted == Resolve(w.t.roles, r.wanted[..r.next])
             && forall j :: 0 <= j < r.next ==> r.wanted[j] in w.t.roles
    ensures Runs(w, run)
    ensures var r := w.requests[k];
            After(w, run) == Settled(w, k,
              if AllExist(w.t.roles, r.wanted) && Resolve(w.t.roles, r.wanted) <= r.may
              then SetRoles(w.t, r.target, r.wanted).0 else w.t)
    decreases |w.requests[k].wanted| - w.requests[k].next
  {
    var r := w.requests[k];
    if r.next == |r.wanted| {
      assert r.wanted[..r.next] == r.wanted;
      run := Commits(w, k);
    } else {
      var w1 := Do(w, ReadWanted(k));
      assert r.wanted[..r.next + 1][..r.next] == r.wanted[..r.next];
      if k in w1.requests {
        var rest := ReadsOn(w1, k);
        Prepend(w, ReadWanted(k), rest);
        run := [ReadWanted(k)] + rest;
      } else {
        Prepend(w, ReadWanted(k), []);
        run := [ReadWanted(k)] + [];
      }
    }
  }

  lemma Commits(w: World, k: nat) returns (run: seq<Event>)
    requires k in w.requests && w.requests[k].Assigning? && w.requests[k].next == |w.requests[k].wanted|
    ensures Runs(w, run)
    ensures var r := w.requests[k];
            After(w, run) == Settled(w, k, if r.granted <= r.may then SetRoles(w.t, r.target, r.wanted).0 else w.t)
  {
    var w1 := Do(w, CheckAssign(k));
    if k in w1.requests {
      Prepend(w1, CommitAssign(k), []);
      Prepend(w, CheckAssign(k), [CommitAssign(k)] + []);
      run := [CheckAssign(k)] + ([CommitAssign(k)] + []);
    } else {
      Prepend(w, CheckAssign(k), []);
      run := [CheckAssign(k)] + [];
    }
  }
}
