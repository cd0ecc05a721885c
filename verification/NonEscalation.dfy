/**
  Nobody gains a permission the coalition did not start with, whatever it does and however its
  requests interleave; and exactly which interleaving with an account save the argument needs.
*/
module NonEscalation {
  import opened Rbac
  import opened AdminTables
  import opened Admin

  /** Everything the coalition can do at the start. */
  ghost predicate Bound(start: World, u: set<Permission>) {
    && (forall id :: id in start.coalition && id in start.t.held ==> Resolve(start.t.roles, start.t.held[id]) <= u)
    && (MEMBER in start.t.roles ==> start.t.roles[MEMBER].permissions == {})
  }

  /** A name whose permissions stay within the bound for ever: only the coalition can change it. */
  ghost predicate Tame(t: Tables, u: set<Permission>, name: RoleName) {
    Granted(t.roles, name) <= u
  }

  ghost predicate AllTame(t: Tables, u: set<Permission>, names: seq<RoleName>) {
    forall n :: n in names ==> Tame(t, u, n)
  }

  ghost predicate RolesBounded(start: World, w: World, u: set<Permission>) {
    forall n :: n in w.t.roles ==>
      w.t.roles[n].permissions <= u || (n in start.t.roles && w.t.roles[n].permissions == start.t.roles[n].permissions)
  }

  /** A name on an account is tame or was on it at the start. */
  ghost predicate Explained(start: World, w: World, u: set<Permission>, id: Id, name: RoleName) {
    Tame(w.t, u, name) || Holds(start.t.held, id, name)
  }

  ghost predicate AccountsExplained(start: World, w: World, u: set<Permission>) {
    && (forall id, n :: id in w.t.held && n in w.t.held[id] ==> Explained(start, w, u, id, n))
    && (forall k, n :: k in w.touches && n in w.touches[k].names ==> Explained(start, w, u, w.touches[k].id, n))
  }

  /** What the coalition's accounts hold, and what a pending save would give back to them, is tame. */
  ghost predicate CoalitionTame(w: World, u: set<Permission>) {
    && (forall id :: id in w.coalition && id in w.t.held ==> AllTame(w.t, u, w.t.held[id]))
    && (forall k :: k in w.touches && w.touches[k].id in w.coalition ==> AllTame(w.t, u, w.touches[k].names))
  }

  /** Everything the target holds, or a pending save would give back to it, is tame or among `names`. */
  ghost predicate Covered(w: World, u: set<Permission>, target: Id, names: seq<RoleName>) {
    && target in w.used
    && (target in w.t.held ==> forall n :: n in w.t.held[target] ==> n in names || Tame(w.t, u, n))
    && (forall k, n :: k in w.touches && w.touches[k].id == target && n in w.touches[k].names ==>
       n in names || Tame(w.t, u, n))
  }

  ghost predicate RequestBounded(w: World, u: set<Permission>, r: Request) {
    match r
    case Reading(actor, names) => actor in w.coalition && AllTame(w.t, u, names)
    case Acting(actor, may) => actor in w.coalition && may <= u
    case Assigning(may, _, wanted, next, granted) =>
      may <= u && next <= |wanted| && (granted <= u ==> AllTame(w.t, u, wanted[..next]))
    case Assigned(_, wanted) => AllTame(w.t, u, wanted)
    case Defining(_, permissions) => permissions <= u
    case Editing(_, permissions) => permissions <= u
    case Targeting(may, target, names, act) => may <= u && (act.Reset? ==> Covered(w, u, target, names))
    case Allowed(target, act) => act.Reset? ==> Covered(w, u, target, [])
  }

  ghost predicate RequestsBounded(w: World, u: set<Permission>) {
    forall k :: k in w.requests ==> RequestBounded(w, u, w.requests[k])
  }

  ghost predicate Ids(w: World) {
    && w.t.held.Keys <= w.used
    && (forall k :: k in w.touches ==> w.touches[k].id in w.used)
    && (forall j :: j in w.joining ==> !w.joining[j])
  }

  ghost predicate Inv(start: World, w: World, u: set<Permission>) {
    && RolesBounded(start, w, u) && AccountsExplained(start, w, u) && CoalitionTame(w, u)
    && RequestsBounded(w, u) && Ids(w)
  }

  /** No save is pending on `id` that carries a role the account does not hold now. */
  predicate NoStaleSave(w: World, id: Id) {
    forall k :: k in w.touches && w.touches[k].id == id ==>
      forall n :: n in w.touches[k].names ==> Holds(w.t.held, id, n)
  }

  /**
    The two guards a step is held to: a reset reads its target while no stale save of that account
    is pending, and an invitation is redeemed while some account exists.
  */
  predicate Guarded(w: World, e: Event) {
    && (e.Target? && e.act.Reset? ==> NoStaleSave(w, e.target))
    && (e.Redeem? ==> w.t.held != map[])
  }

  ghost predicate AllGuarded(start: World, run: seq<Event>)
    requires Runs(start, run)
  {
    run == [] || (AllGuarded(start, run[..|run| - 1]) && Guarded(After(start, run[..|run| - 1]), run[|run| - 1]))
  }

  // ---------------------------------------------------------------- one step

  /** Steps that write the role table, with the permissions they write already bounded. */
  lemma TameStays(start: World, w: World, e: Event, u: set<Permission>)
    requires Enabled(w, e) && RequestsBounded(w, u) && RolesBounded(start, w, u)
    ensures RolesBounded(start, Do(w, e), u)
    ensures forall n :: Tame(w.t, u, n) ==> Tame(Do(w, e).t, u, n)
  {
    var w' := Do(w, e);
    if e.CommitDefine? || e.CommitEdit? {
      assert RequestBounded(w, u, w.requests[e.k]);
    } else {
      assert w'.t.roles.Keys <= w.t.roles.Keys;
      assert forall n :: n in w'.t.roles ==> w'.t.roles[n] == w.t.roles[n];
    }
  }

  /** Where the names on an account after a step come from. */
  lemma HeldFrom(w: World, e: Event)
    requires Enabled(w, e)
    ensures forall id :: id in Do(w, e).t.held ==>
      || (id in w.t.held && Do(w, e).t.held[id] == w.t.held[id])
      || (e.CommitAssign? && id == w.requests[e.k].target
          && forall n :: n in Do(w, e).t.held[id] ==> n in w.requests[e.k].wanted)
      || (e.Save? && id in w.t.held && id == w.touches[e.k].id && Do(w, e).t.held[id] == w.touches[e.k].names)
      || (e.Join? && id == e.id && Do(w, e).t.held[id] == if w.joining[e.j] then [OWNER] else [MEMBER])
  {
  }

  lemma TouchesFrom(w: World, e: Event)
    requires Enabled(w, e)
    ensures forall k :: k in Do(w, e).touches ==>
      || (k in w.touches && Do(w, e).touches[k] == w.touches[k])
      || (e.ReadAccount? && k == e.k && Do(w, e).touches[k] == Touch(e.id, w.t.held[e.id]))
  {
  }

  lemma MemberTame(start: World, w: World, u: set<Permission>)
    requires Bound(start, u) && RolesBounded(start, w, u)
    ensures Tame(w.t, u, MEMBER)
  {
  }

  lemma AccountsStep(start: World, w: World, e: Event, u: set<Permission>)
    requires Enabled(w, e) && Guarded(w, e) && Inv(start, w, u) && Bound(start, u)
    ensures AccountsExplained(start, Do(w, e), u)
  {
    var w' := Do(w, e);
    TameStays(start, w, e, u);
    HeldFrom(w, e);
    TouchesFrom(w, e);
    MemberTame(start, w, u);
    if e.CommitAssign? { assert RequestBounded(w, u, w.requests[e.k]); }
  }

  /** Members are kept, and one joins by having its reset issued or by redeeming an invitation. */
  lemma CoalitionFrom(w: World, e: Event, id: Id)
    requires Enabled(w, e) && id in Do(w, e).coalition
    ensures || id in w.coalition
            || (e.CommitAct? && w.requests[e.k].act.Reset? && id == w.requests[e.k].target)
            || (e.Join? && id == e.id)
  {
  }

  lemma MemberHeldTame(start: World, w: World, e: Event, u: set<Permission>, id: Id)
    requires Enabled(w, e) && Inv(start, w, u) && Bound(start, u)
    requires id in Do(w, e).coalition && id in Do(w, e).t.held
    ensures AllTame(Do(w, e).t, u, Do(w, e).t.held[id])
  {
    TameStays(start, w, e, u);
    HeldFrom(w, e);
    MemberTame(start, w, u);
    CoalitionFrom(w, e, id);
    if e.CommitAssign? || e.CommitAct? { assert RequestBounded(w, u, w.requests[e.k]); }
  }

  lemma MemberTouchTame(start: World, w: World, e: Event, u: set<Permission>, k: nat)
    requires Enabled(w, e) && Inv(start, w, u) && Bound(start, u)
    requires k in Do(w, e).touches && Do(w, e).touches[k].id in Do(w, e).coalition
    ensures AllTame(Do(w, e).t, u, Do(w, e).touches[k].names)
  {
    TameStays(start, w, e, u);
    TouchesFrom(w, e);
    CoalitionFrom(w, e, Do(w, e).touches[k].id);
    if e.CommitAct? { assert RequestBounded(w, u, w.requests[e.k]); }
  }

  lemma CoalitionStep(start: World, w: World, e: Event, u: set<Permission>)
    requires Enabled(w, e) && Inv(start, w, u) && Bound(start, u)
    ensures CoalitionTame(Do(w, e), u)
  {
    var w' := Do(w, e);
    forall id | id in w'.coalition && id in w'.t.held ensures AllTame(w'.t, u, w'.t.held[id]) {
      MemberHeldTame(start, w, e, u, id);
    }
    forall k | k in w'.touches && w'.touches[k].id in w'.coalition ensures AllTame(w'.t, u, w'.touches[k].names) {
      MemberTouchTame(start, w, e, u, k);
    }
  }

  lemma CoveredStays(start: World, w: World, e: Event, u: set<Permission>, target: Id, names: seq<RoleName>)
    requires Enabled(w, e) && Inv(start, w, u) && Bound(start, u) && Covered(w, u, target, names)
    ensures Covered(Do(w, e), u, target, names)
  {
    TameStays(start, w, e, u);
    HeldFrom(w, e);
    TouchesFrom(w, e);
    if e.CommitAssign? { assert RequestBounded(w, u, w.requests[e.k]); }
  }

  lemma RequestStays(start: World, w: World, e: Event, u: set<Permission>, r: Request)
    requires Enabled(w, e) && Inv(start, w, u) && Bound(start, u) && RequestBounded(w, u, r)
    ensures RequestBounded(Do(w, e), u, r)
  {
    TameStays(start, w, e, u);
    match r {
      case Targeting(_, target, names, act) => if act.Reset? { CoveredStays(start, w, e, u, target, names); }
      case Allowed(target, act) => if act.Reset? { CoveredStays(start, w, e, u, target, []); }
      case _ =>
    }
  }

  predicate OnlyReads(e: Event) {
    e.Arrive? || e.Identify? || e.BeginAssign? || e.ReadWanted? || e.CheckAssign?
    || e.CheckDefine? || e.CheckEdit? || e.Target? || e.CheckTarget?
  }

  lemma OnlyOwnRequest(w: World, e: Event)
    requires Enabled(w, e) && OnlyReads(e)
    ensures var w' := Do(w, e);
            && w' == w.(requests := w'.requests)
            && (forall k :: k in w'.requests && k != e.k ==> k in w.requests && w'.requests[k] == w.requests[k])
  {
  }

  /** The request a step that only reads or checks leaves behind. */
  lemma ReadingMoves(start: World, w: World, e: Event, u: set<Permission>)
    requires Enabled(w, e) && Guarded(w, e) && Inv(start, w, u) && OnlyReads(e) && e.k in Do(w, e).requests
    requires !e.Arrive? && w.requests[e.k].Reading?
    ensures RequestBounded(w, u, Do(w, e).requests[e.k])
  {
    assert RequestBounded(w, u, w.requests[e.k]);
    ResolveWithin(w.t.roles, w.requests[e.k].names, u);
  }

  lemma AssigningMoves(start: World, w: World, e: Event, u: set<Permission>)
    requires Enabled(w, e) && Guarded(w, e) && Inv(start, w, u) && OnlyReads(e) && e.k in Do(w, e).requests
    requires !e.Arrive? && w.requests[e.k].Assigning?
    ensures RequestBounded(w, u, Do(w, e).requests[e.k])
  {
    assert RequestBounded(w, u, w.requests[e.k]);
    var wanted, next := w.requests[e.k].wanted, w.requests[e.k].next;
    if next < |wanted| {
      WantedRead(w, u, w.requests[e.k]);
    } else {
      assert wanted[..next] == wanted;
    }
  }

  lemma TargetingMoves(start: World, w: World, e: Event, u: set<Permission>)
    requires Enabled(w, e) && Guarded(w, e) && Inv(start, w, u) && OnlyReads(e) && e.k in Do(w, e).requests
    requires !e.Arrive? && w.requests[e.k].Targeting?
    ensures RequestBounded(w, u, Do(w, e).requests[e.k])
  {
    assert RequestBounded(w, u, w.requests[e.k]);
    TargetChecked(w, u, w.requests[e.k]);
  }

  lemma ActingMoves(start: World, w: World, e: Event, u: set<Permission>)
    requires Enabled(w, e) && Guarded(w, e) && Inv(start, w, u) && OnlyReads(e) && e.k in Do(w, e).requests
    requires !e.Arrive? && w.requests[e.k].Acting?
    ensures RequestBounded(w, u, Do(w, e).requests[e.k])
  {
    assert RequestBounded(w, u, w.requests[e.k]);
  }

  lemma RequestMoves(start: World, w: World, e: Event, u: set<Permission>)
    requires Enabled(w, e) && Guarded(w, e) && Inv(start, w, u) && OnlyReads(e) && e.k in Do(w, e).requests
    ensures RequestBounded(w, u, Do(w, e).requests[e.k])
  {
    if !e.Arrive? {
      match w.requests[e.k] {
        case Reading(_, _) => ReadingMoves(start, w, e, u);
        case Assigning(_, _, _, _, _) => AssigningMoves(start, w, e, u);
        case Targeting(_, _, _, _) => TargetingMoves(start, w, e, u);
        case Acting(_, _) => ActingMoves(start, w, e, u);
        case _ =>
      }
    }
  }

  lemma WantedRead(w: World, u: set<Permission>, r: Request)
    requires r.Assigning? && r.next < |r.wanted| && r.wanted[r.next] in w.t.roles && RequestBounded(w, u, r)
    ensures RequestBounded(w, u, r.(next := r.next + 1, granted := r.granted + w.t.roles[r.wanted[r.next]].permissions))
  {
    assert r.wanted[..r.next + 1] == r.wanted[..r.next] + [r.wanted[r.next]];
  }

  lemma TargetChecked(w: World, u: set<Permission>, r: Request)
    requires r.Targeting? && RequestBounded(w, u, r) && Resolve(w.t.roles, r.names) <= r.may
    ensures RequestBounded(w, u, Allowed(r.target, r.act))
  {
    ResolveWithin(w.t.roles, r.names, u);
  }

  lemma RequestsStep(start: World, w: World, e: Event, u: set<Permission>)
    requires Enabled(w, e) && Guarded(w, e) && Inv(start, w, u) && Bound(start, u)
    ensures RequestsBounded(Do(w, e), u)
  {
    var w' := Do(w, e);
    if OnlyReads(e) {
      OnlyOwnRequest(w, e);
      if e.k in w'.requests { RequestMoves(start, w, e, u); }
      forall k | k in w'.requests ensures RequestBounded(w', u, w'.requests[k]) {
        assert RequestBounded(w, u, w'.requests[k]);
        RequestStays(start, w, e, u, w'.requests[k]);
      }
    } else {
      assert forall k :: k in w'.requests ==> k in w.requests && w'.requests[k] == w.requests[k];
      forall k | k in w'.requests ensures RequestBounded(w', u, w'.requests[k]) {
        RequestStays(start, w, e, u, w.requests[k]);
      }
    }
  }

  lemma IdsStep(w: World, e: Event)
    requires Enabled(w, e) && Guarded(w, e) && Ids(w)
    ensures Ids(Do(w, e))
  {
    var w' := Do(w, e);
    HeldFrom(w, e);
    TouchesFrom(w, e);
    assert w.used <= w'.used;
    assert forall j :: j in w'.joining ==> !w'.joining[j] by {
      if !e.Redeem? { assert forall j :: j in w'.joining ==> j in w.joining && w'.joining[j] == w.joining[j]; }
    }
  }

  /** What every guarded run keeps, from any world that has it. */
  lemma {:induction false} InvKept(start: World, from: World, run: seq<Event>, u: set<Permission>)
    requires Runs(from, run) && AllGuarded(from, run) && Inv(start, from, u) && Bound(start, u)
    ensures Inv(start, After(from, run), u)
  {
    if run == [] {
    } else {
      InvKept(start, from, run[..|run| - 1], u);
      var w, e := After(from, run[..|run| - 1]), run[|run| - 1];
      TameStays(start, w, e, u);
      AccountsStep(start, w, e, u);
      CoalitionStep(start, w, e, u);
      RequestsStep(start, w, e, u);
      IdsStep(w, e);
    }
  }

  lemma InvAtStart(start: World, u: set<Permission>)
    requires Quiet(start) && Bound(start, u)
    ensures Inv(start, start, u)
  {
    forall id | id in start.coalition && id in start.t.held ensures AllTame(start.t, u, start.t.held[id]) {
      ResolveWithin(start.t.roles, start.t.held[id], u);
    }
  }

  // ---------------------------------------------------------------- the main result

  /**
    Over every run, with everything interleaved, no account's permissions leave its own starting
    ones and the union the coalition started with; and the coalition's never leave that union, even
    as it takes in every account it resets and every account it invites.
  */
  lemma NobodyEscalates(start: World, run: seq<Event>, u: set<Permission>)
    requires Runs(start, run) && AllGuarded(start, run) && Quiet(start) && Bound(start, u)
    ensures var w := After(start, run);
            && (forall id :: id in w.t.held ==>
                  Resolve(w.t.roles, w.t.held[id])
                  <= u + (if id in start.t.held then Resolve(start.t.roles, start.t.held[id]) else {}))
            && (forall id :: id in w.coalition && id in w.t.held ==> Resolve(w.t.roles, w.t.held[id]) <= u)
  {
    InvAtStart(start, u);
    InvKept(start, start, run, u);
    var w := After(start, run);
    forall id | id in w.t.held
      ensures Resolve(w.t.roles, w.t.held[id])
           <= u + (if id in start.t.held then Resolve(start.t.roles, start.t.held[id]) else {})
    {
      AccountStaysWithin(start, w, u, id);
    }
    forall id | id in w.coalition && id in w.t.held ensures Resolve(w.t.roles, w.t.held[id]) <= u {
      ResolveWithin(w.t.roles, w.t.held[id], u);
    }
  }

  lemma AccountStaysWithin(start: World, w: World, u: set<Permission>, id: Id)
    requires Inv(start, w, u) && id in w.t.held
    ensures Resolve(w.t.roles, w.t.held[id])
         <= u + (if id in start.t.held then Resolve(start.t.roles, start.t.held[id]) else {})
  {
    var bound := u + (if id in start.t.held then Resolve(start.t.roles, start.t.held[id]) else {});
    forall n | n in w.t.held[id] ensures Granted(w.t.roles, n) <= bound {
      assert Explained(start, w, u, id, n);
      if Holds(start.t.held, id, n) {
        ResolveCovers(start.t.roles, start.t.held[id], n);
      }
    }
    ResolveWithin(w.t.roles, w.t.held[id], bound);
  }
}
