/**
  What a stale account save can undo. A save rewrites roles from the value it was given; one read
  before a demotion and written after it gives the roles back. This is the one gap in
  non-escalation, stated exactly, with the run that goes through it.
*/
module StaleSaves {
  import opened Rbac
  import opened AdminTables
  import opened Admin
  import opened NonEscalation

  ghost predicate CoalitionWithin(w: World, u: set<Permission>) {
    forall id :: id in w.coalition && id in w.t.held ==> Resolve(w.t.roles, w.t.held[id]) <= u
  }

  ghost predicate AlwaysWithin(w: World, u: set<Permission>) {
    forall run :: Runs(w, run) && AllGuarded(w, run) ==> CoalitionWithin(After(w, run), u)
  }

  /** The world once the coalition can set `target`'s password. */
  function Taken(w: World, target: Id): World { w.(coalition := w.coalition + {target}) }

  /**
    Taking an account whose own roles are within the bound keeps the coalition within it for ever
    exactly when no save pending on that account carries a permission outside the bound.
  */
  lemma TakingIsSafeIff(start: World, w: World, u: set<Permission>, target: Id)
    requires Inv(start, w, u) && Bound(start, u)
    requires target in w.t.held && Resolve(w.t.roles, w.t.held[target]) <= u
    requires forall k :: k in w.touches && w.touches[k].id == target ==> AllExist(w.t.roles, w.touches[k].names)
    ensures AlwaysWithin(Taken(w, target), u)
       <==> (forall k :: k in w.touches && w.touches[k].id == target ==> Resolve(w.t.roles, w.touches[k].names) <= u)
  {
    var taken := Taken(w, target);
    if forall k :: k in w.touches && w.touches[k].id == target ==> Resolve(w.t.roles, w.touches[k].names) <= u {
      TakenKeepsInv(start, w, u, target);
      forall run | Runs(taken, run) && AllGuarded(taken, run) ensures CoalitionWithin(After(taken, run), u) {
        InvKept(start, taken, run, u);
        InvKeepsWithin(start, After(taken, run), u);
      }
    } else {
      var k :| k in w.touches && w.touches[k].id == target && !(Resolve(w.t.roles, w.touches[k].names) <= u);
      var run := [Save(k)];
      assert run[..0] == [] && Runs(taken, []) && After(taken, []) == taken;
      var saved := Do(taken, Save(k));
      assert Runs(taken, run) && After(taken, run) == saved;
      assert AllGuarded(taken, []) && Guarded(taken, Save(k)) && AllGuarded(taken, run);
      assert target in saved.coalition && saved.t.held[target] == w.touches[k].names;
      assert !CoalitionWithin(After(taken, run), u);
      assert !AlwaysWithin(taken, u);
    }
  }

  lemma InvKeepsWithin(start: World, w: World, u: set<Permission>)
    requires Inv(start, w, u)
    ensures CoalitionWithin(w, u)
  {
    forall id | id in w.coalition && id in w.t.held ensures Resolve(w.t.roles, w.t.held[id]) <= u {
      ResolveWithin(w.t.roles, w.t.held[id], u);
    }
  }

  lemma TakenKeepsInv(start: World, w: World, u: set<Permission>, target: Id)
    requires Inv(start, w, u) && target in w.t.held && Resolve(w.t.roles, w.t.held[target]) <= u
    requires forall k :: k in w.touches && w.touches[k].id == target ==> Resolve(w.t.roles, w.touches[k].names) <= u
    ensures Inv(start, Taken(w, target), u)
  {
    var taken := Taken(w, target);
    ResolveWithin(w.t.roles, w.t.held[target], u);
    forall k | k in w.touches && w.touches[k].id == target ensures AllTame(w.t, u, w.touches[k].names) {
      ResolveWithin(w.t.roles, w.touches[k].names, u);
    }
    forall k | k in taken.requests ensures RequestBounded(taken, u, taken.requests[k]) {
      assert RequestBounded(w, u, w.requests[k]);
    }
  }

  // ---------------------------------------------------------------- the run through the gap

  ghost predicate Leads(w: World, steps: seq<Event>, to: World)
    decreases |steps|
  {
    if steps == [] then w == to else Enabled(w, steps[0]) && Leads(Do(w, steps[0]), steps[1..], to)
  }

  lemma {:induction false} LeadsThen(w: World, first: seq<Event>, mid: World, second: seq<Event>, to: World)
    requires Leads(w, first, mid) && Leads(mid, second, to)
    ensures Leads(w, first + second, to)
    decreases |first|
  {
    if first == [] {
      assert first + second == second;
    } else {
      assert (first + second)[1..] == first[1..] + second;
      LeadsThen(Do(w, first[0]), first[1..], mid, second, to);
    }
  }

  /** Steps told forwards are a run. */
  lemma {:induction false} LeadsIsRun(start: World, run: seq<Event>, steps: seq<Event>, to: World)
    requires Runs(start, run) && Leads(After(start, run), steps, to)
    ensures Runs(start, run + steps) && After(start, run + steps) == to
    decreases |steps|
  {
    if steps == [] {
      assert run + steps == run;
    } else {
      var longer := run + [steps[0]];
      assert longer[..|run|] == run;
      assert run + steps == longer + steps[1..];
      LeadsIsRun(start, longer, steps[1..], to);
    }
  }

  function AssignSteps(actor: Id, target: Id, name: RoleName): seq<Event> {
    [Arrive(0, actor), Identify(0), BeginAssign(0, target, [name])] + [ReadWanted(0), CheckAssign(0), CommitAssign(0)]
  }

  function ResetSteps(actor: Id, target: Id): seq<Event> {
    [Arrive(0, actor), Identify(0), Target(0, target, Reset), CheckTarget(0), CommitAct(0)]
  }

  lemma Identified(w: World, actor: Id, role: RoleName) returns (w': World)
    requires w.requests == map[] && actor in w.coalition && actor in w.t.held && w.t.held[actor] == [role]
    ensures Leads(w, [Arrive(0, actor), Identify(0)], w')
    ensures w' == w.(requests := map[0 := Acting(actor, Granted(w.t.roles, role))])
  {
    var w1 := Do(w, Arrive(0, actor));
    w' := Do(w1, Identify(0));
    assert Leads(w1, [Identify(0)], w');
    assert [role][..0] == [];
    assert Resolve(w.t.roles, [role]) == Granted(w.t.roles, role);
    assert w'.requests == map[0 := Acting(actor, Granted(w.t.roles, role))];
  }

  lemma Began(w: World, actor: Id, role: RoleName, target: Id, name: RoleName) returns (w': World)
    requires w.requests == map[] && actor in w.coalition && actor in w.t.held && w.t.held[actor] == [role]
    requires RolesAssign in Granted(w.t.roles, role) && target in w.t.held
    ensures Leads(w, [Arrive(0, actor), Identify(0), BeginAssign(0, target, [name])], w')
    ensures w' == w.(requests := map[0 := Assigning(Granted(w.t.roles, role), target, [name], 0, {})])
  {
    var w1 := Identified(w, actor, role);
    w' := BeginsAssigning(w1, actor, Granted(w.t.roles, role), target, name);
    LeadsThen(w, [Arrive(0, actor), Identify(0)], w1, [BeginAssign(0, target, [name])], w');
    assert [Arrive(0, actor), Identify(0)] + [BeginAssign(0, target, [name])]
        == [Arrive(0, actor), Identify(0), BeginAssign(0, target, [name])];
  }

  lemma BeginsAssigning(w: World, actor: Id, may: set<Permission>, target: Id, name: RoleName) returns (w': World)
    requires w.requests == map[0 := Acting(actor, may)] && RolesAssign in may && target in w.t.held
    ensures Leads(w, [BeginAssign(0, target, [name])], w')
    ensures w' == w.(requests := map[0 := Assigning(may, target, [name], 0, {})])
  {
    assert [name][..0] == [] && Dedup([name]) == [name];
    w' := Do(w, BeginAssign(0, target, [name]));
    assert w'.requests == map[0 := Assigning(may, target, [name], 0, {})];
  }

  lemma Granting(w: World, may: set<Permission>, target: Id, name: RoleName) returns (w': World)
    requires w.requests == map[0 := Assigning(may, target, [name], 0, {})] && target in w.t.held
    requires name in w.t.roles && w.t.roles[name].permissions <= may
    requires OWNER in w.t.held[target] ==> name == OWNER || AnotherOwner(w.t.held, target)
    ensures Leads(w, [ReadWanted(0), CheckAssign(0), CommitAssign(0)], w')
    ensures w' == w.(requests := map[], t := w.t.(held := w.t.held[target := [name]]))
  {
    assert [name][..0] == [] && Dedup([name]) == [name];
    var w1 := Do(w, ReadWanted(0));
    assert w1.requests == map[0 := Assigning(may, target, [name], 1, {} + w.t.roles[name].permissions)];
    var w2 := Do(w1, CheckAssign(0));
    assert w2.requests == map[0 := Assigned(target, [name])];
    w' := Do(w2, CommitAssign(0));
    assert w'.requests == map[];
    assert Leads(w2, [CommitAssign(0)], w');
    assert Leads(w1, [CheckAssign(0), CommitAssign(0)], w');
  }

  /** One administrator's whole assignment, undisturbed. */
  lemma AssignWorks(w: World, actor: Id, role: RoleName, target: Id, name: RoleName) returns (w': World)
    requires w.requests == map[] && actor in w.coalition && actor in w.t.held && w.t.held[actor] == [role]
    requires RolesAssign in Granted(w.t.roles, role) && target in w.t.held
    requires name in w.t.roles && w.t.roles[name].permissions <= Granted(w.t.roles, role)
    requires OWNER in w.t.held[target] ==> name == OWNER || AnotherOwner(w.t.held, target)
    ensures Leads(w, AssignSteps(actor, target, name), w')
    ensures w' == w.(t := w.t.(held := w.t.held[target := [name]]))
  {
    var w1 := Began(w, actor, role, target, name);
    w' := Granting(w1, Granted(w.t.roles, role), target, name);
    LeadsThen(w, [Arrive(0, actor), Identify(0), BeginAssign(0, target, [name])], w1,
              [ReadWanted(0), CheckAssign(0), CommitAssign(0)], w');
  }

  lemma Resetting(w: World, actor: Id, may: set<Permission>, target: Id, held: RoleName) returns (w': World)
    requires w.requests == map[0 := Acting(actor, may)] && AccountsResetPassword in may && target != actor
    requires target in w.t.held && w.t.held[target] == [held] && Granted(w.t.roles, held) <= may
    ensures Leads(w, [Target(0, target, Reset), CheckTarget(0), CommitAct(0)], w')
    ensures w' == Taken(w.(requests := map[]), target)
  {
    assert [held][..0] == [];
    assert Resolve(w.t.roles, [held]) == Granted(w.t.roles, held);
    var w1 := Do(w, Target(0, target, Reset));
    assert w1.requests == map[0 := Targeting(may, target, [held], Reset)];
    var w2 := Do(w1, CheckTarget(0));
    assert w2.requests == map[0 := Allowed(target, Reset)];
    w' := Do(w2, CommitAct(0));
    assert w'.requests == map[];
    assert Leads(w2, [CommitAct(0)], w');
    assert Leads(w1, [CheckTarget(0), CommitAct(0)], w');
  }

  lemma ResetWorks(w: World, actor: Id, role: RoleName, target: Id, held: RoleName) returns (w': World)
    requires w.requests == map[] && actor in w.coalition && actor in w.t.held && w.t.held[actor] == [role]
    requires AccountsResetPassword in Granted(w.t.roles, role) && target != actor
    requires target in w.t.held && w.t.held[target] == [held] && Granted(w.t.roles, held) <= Granted(w.t.roles, role)
    ensures Leads(w, ResetSteps(actor, target), w') && w' == Taken(w, target)
  {
    var w1 := Identified(w, actor, role);
    w' := Resetting(w1, actor, Granted(w.t.roles, role), target, held);
    LeadsThen(w, [Arrive(0, actor), Identify(0)], w1, [Target(0, target, Reset), CheckTarget(0), CommitAct(0)], w');
    assert [Arrive(0, actor), Identify(0)] + [Target(0, target, Reset), CheckTarget(0), CommitAct(0)]
        == ResetSteps(actor, target);
  }

  /** Two owners, one administrator, one member; the administrator is the coalition. */
  const FAMILY := World(
    Tables(BUILTIN_ROLES, map["ann" := [OWNER], "ben" := [OWNER], "cat" := [ADMIN], "dan" := [MEMBER]]),
    map[], map[], map[], 0, {"cat"}, {"ann", "ben", "cat", "dan"})

  const THROUGH_THE_GAP: seq<Event> :=
    ([ReadAccount(0, "ann")] + AssignSteps("cat", "ann", MEMBER))
    + ((ResetSteps("cat", "ann") + [Save(0)]) + AssignSteps("ann", "dan", OWNER))

  lemma FamilyBound()
    ensures Quiet(FAMILY) && Bound(FAMILY, ADMIN_PERMISSIONS) && HasOwner(FAMILY.t.held)
    ensures Resolve(FAMILY.t.roles, FAMILY.t.held["dan"]) == {}
  {
    assert [ADMIN][..0] == [] && [MEMBER][..0] == [];
    assert Resolve(BUILTIN_ROLES, [ADMIN]) == ADMIN_PERMISSIONS;
    assert Resolve(BUILTIN_ROLES, [MEMBER]) == {};
    assert "ann" in FAMILY.t.held;
  }

  lemma DemotedBehindARead() returns (w: World)
    ensures Leads(FAMILY, [ReadAccount(0, "ann")] + AssignSteps("cat", "ann", MEMBER), w)
    ensures w == FAMILY.(touches := map[0 := Touch("ann", [OWNER])],
                         t := FAMILY.t.(held := FAMILY.t.held["ann" := [MEMBER]]))
  {
    var w1 := Do(FAMILY, ReadAccount(0, "ann"));
    assert Leads(FAMILY, [ReadAccount(0, "ann")], w1);
    assert "ben" in w1.t.held && OWNER in w1.t.held["ben"];
    w := AssignWorks(w1, "cat", ADMIN, "ann", MEMBER);
    LeadsThen(FAMILY, [ReadAccount(0, "ann")], w1, AssignSteps("cat", "ann", MEMBER), w);
  }

  lemma TakenAndGivenBack(w: World) returns (w': World)
    requires w == FAMILY.(touches := map[0 := Touch("ann", [OWNER])],
                          t := FAMILY.t.(held := FAMILY.t.held["ann" := [MEMBER]]))
    ensures Leads(w, ResetSteps("cat", "ann") + [Save(0)], w')
    ensures w' == Taken(FAMILY, "ann")
  {
    var w1 := ResetWorks(w, "cat", ADMIN, "ann", MEMBER);
    w' := Do(w1, Save(0));
    assert Leads(w1, [Save(0)], w');
    assert w'.touches == map[];
    assert w'.t.held == FAMILY.t.held;
    LeadsThen(w, ResetSteps("cat", "ann"), w1, [Save(0)], w');
  }

  /**
    A failed login reads an owner; the administrator demotes that owner, resets the password of what
    is now a member, and the failed login saves the owner role back. The administrator, acting as
    that account, then makes a member an owner: more than it held plus all the coalition began with.
  */
  lemma StaleSaveEscalates()
    ensures Quiet(FAMILY) && Bound(FAMILY, ADMIN_PERMISSIONS) && Runs(FAMILY, THROUGH_THE_GAP)
    ensures var w := After(FAMILY, THROUGH_THE_GAP);
            && "dan" in w.t.held
            && !(Resolve(w.t.roles, w.t.held["dan"]) <= ADMIN_PERMISSIONS
               + Resolve(FAMILY.t.roles, FAMILY.t.held["dan"]))
  {
    FamilyBound();
    var w1 := DemotedBehindARead();
    var w2 := TakenAndGivenBack(w1);
    var w := AssignWorks(w2, "ann", OWNER, "dan", OWNER);
    LeadsThen(w1, ResetSteps("cat", "ann") + [Save(0)], w2, AssignSteps("ann", "dan", OWNER), w);
    LeadsThen(FAMILY, [ReadAccount(0, "ann")] + AssignSteps("cat", "ann", MEMBER), w1,
              (ResetSteps("cat", "ann") + [Save(0)]) + AssignSteps("ann", "dan", OWNER), w);
    LeadsIsRun(FAMILY, [], THROUGH_THE_GAP, w);
    assert [] + THROUGH_THE_GAP == THROUGH_THE_GAP;
    OwnerExceedsAdmin();
  }

  lemma OwnerExceedsAdmin()
    ensures !(Resolve(BUILTIN_ROLES, [OWNER]) <= ADMIN_PERMISSIONS + {})
  {
    assert [OWNER][..0] == [];
    assert Resolve(BUILTIN_ROLES, [OWNER]) == ALL_PERMISSIONS;
    assert RolesWrite in ALL_PERMISSIONS && RolesWrite !in ADMIN_PERMISSIONS;
  }

  // ---------------------------------------------------------------- the last owner

  /** One owner and one member; the owner administers. */
  const COUPLE := World(
    Tables(BUILTIN_ROLES, map["ann" := [OWNER], "bob" := [MEMBER]]),
    map[], map[], map[], 0, {"ann"}, {"ann", "bob"})

  const OWNER_LOST: seq<Event> :=
    ([ReadAccount(0, "bob")] + AssignSteps("ann", "bob", OWNER)) + (AssignSteps("ann", "ann", MEMBER) + [Save(0)])

  /**
    A failed login reads a member; the owner makes that member an owner and steps down, which is
    allowed because there is another; and the failed login saves the member role back. Nobody is left.
  */
  lemma StaleSaveLosesOwner()
    ensures Quiet(COUPLE) && HasOwner(COUPLE.t.held) && Runs(COUPLE, OWNER_LOST)
    ensures After(COUPLE, OWNER_LOST).t.held == map["ann" := [MEMBER], "bob" := [MEMBER]]
    ensures !HasOwner(After(COUPLE, OWNER_LOST).t.held)
  {
    assert "ann" in COUPLE.t.held && OWNER in COUPLE.t.held["ann"];
    var w1 := Do(COUPLE, ReadAccount(0, "bob"));
    assert Leads(COUPLE, [ReadAccount(0, "bob")], w1);
    var w2 := AssignWorks(w1, "ann", OWNER, "bob", OWNER);
    LeadsThen(COUPLE, [ReadAccount(0, "bob")], w1, AssignSteps("ann", "bob", OWNER), w2);
    assert "bob" in w2.t.held && OWNER in w2.t.held["bob"];
    var w3 := AssignWorks(w2, "ann", OWNER, "ann", MEMBER);
    var w4 := Do(w3, Save(0));
    assert Leads(w3, [Save(0)], w4);
    LeadsThen(w2, AssignSteps("ann", "ann", MEMBER), w3, [Save(0)], w4);
    LeadsThen(COUPLE, [ReadAccount(0, "bob")] + AssignSteps("ann", "bob", OWNER), w2,
              AssignSteps("ann", "ann", MEMBER) + [Save(0)], w4);
    LeadsIsRun(COUPLE, [], OWNER_LOST, w4);
    assert [] + OWNER_LOST == OWNER_LOST;
    assert w4.t.held == map["ann" := [MEMBER], "bob" := [MEMBER]];
  }
}
