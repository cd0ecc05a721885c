/**
  Administrative requests running against each other, against logins, and against invitations.

  A request is its own reads, its checks and its one write, with anything in between. Only members
  of a coalition make administrative requests; anybody may touch any account (a login, a wrong
  password, a status or password change reads the account and later saves it back), and whoever is
  reset or invited by the coalition joins it. Break-glass is not among the actors.
*/
module Admin {
  import opened Rbac
  import opened AdminTables

  /** What an account may be acted on for. Signing out and disabling change no role and no membership. */
  datatype Act = Reset | Remove

  datatype Request =
    | Reading(actor: Id, names: seq<RoleName>)            // read the actor's account, not its roles' permissions
    | Acting(actor: Id, may: set<Permission>)             // the actor as the request will use it to its end
    | Assigning(may: set<Permission>, target: Id, wanted: seq<RoleName>, next: nat, granted: set<Permission>)
    | Assigned(target: Id, wanted: seq<RoleName>)         // checked, not written
    | Defining(name: RoleName, permissions: set<Permission>)
    | Editing(name: RoleName, permissions: set<Permission>)
    | Targeting(may: set<Permission>, target: Id, names: seq<RoleName>, act: Act)
    | Allowed(target: Id, act: Act)

  /** An account value somebody read and will save back. */
  datatype Touch = Touch(id: Id, names: seq<RoleName>)

  datatype World = World(
    t: Tables,
    requests: map<nat, Request>,
    touches: map<nat, Touch>,
    joining: map<nat, bool>,        // invitations being redeemed: whether the account count was zero
    invites: nat,
    coalition: set<Id>,
    used: set<Id>)                  // every account id there has been

  datatype Event =
    | Arrive(k: nat, actor: Id)
    | Identify(k: nat)
    | BeginAssign(k: nat, target: Id, names: seq<RoleName>)
    | ReadWanted(k: nat)
    | CheckAssign(k: nat)
    | CommitAssign(k: nat)
    | CheckDefine(k: nat, name: RoleName, permissions: set<Permission>)
    | CommitDefine(k: nat)
    | CheckEdit(k: nat, name: RoleName, permissions: set<Permission>)
    | CommitEdit(k: nat)
    | DropRole(k: nat, name: RoleName)
    | Target(k: nat, target: Id, act: Act)
    | CheckTarget(k: nat)
    | CommitAct(k: nat)
    | Invite(k: nat)
    | Redeem(j: nat)
    | Join(j: nat, id: Id)
    | ReadAccount(k: nat, id: Id)
    | Save(k: nat)

  predicate Enabled(w: World, e: Event) {
    match e
    case Arrive(k, actor) => k !in w.requests && actor in w.coalition && actor in w.t.held
    case Identify(k) => k in w.requests && w.requests[k].Reading?
    case BeginAssign(k, _, _) => k in w.requests && w.requests[k].Acting?
    case ReadWanted(k) => k in w.requests && w.requests[k].Assigning? && w.requests[k].next < |w.requests[k].wanted|
    case CheckAssign(k) => k in w.requests && w.requests[k].Assigning? && w.requests[k].next == |w.requests[k].wanted|
    case CommitAssign(k) => k in w.requests && w.requests[k].Assigned?
    case CheckDefine(k, _, _) => k in w.requests && w.requests[k].Acting?
    case CommitDefine(k) => k in w.requests && w.requests[k].Defining?
    case CheckEdit(k, _, _) => k in w.requests && w.requests[k].Acting?
    case CommitEdit(k) => k in w.requests && w.requests[k].Editing?
    case DropRole(k, _) => k in w.requests && w.requests[k].Acting?
    case Target(k, _, _) => k in w.requests && w.requests[k].Acting?
    case CheckTarget(k) => k in w.requests && w.requests[k].Targeting?
    case CommitAct(k) => k in w.requests && w.requests[k].Allowed?
    case Invite(k) => k in w.requests && w.requests[k].Acting?
    case Redeem(j) => j !in w.joining && w.invites > 0
    case Join(j, id) => j in w.joining && id !in w.used && id !in w.t.held
    case ReadAccount(k, id) => k !in w.touches && id in w.t.held
    case Save(k) => k in w.touches
  }

  function Put(w: World, k: nat, r: Request): World { w.(requests := w.requests[k := r]) }

  function Over(w: World, k: nat): World { w.(requests := w.requests - {k}) }

  function Do(w: World, e: Event): World
    requires Enabled(w, e)
  {
    match e
    case Arrive(k, actor) => Put(w, k, Reading(actor, w.t.held[actor]))
    case Identify(k) => Put(w, k, Acting(w.requests[k].actor, Resolve(w.t.roles, w.requests[k].names)))
    case BeginAssign(k, target, names) =>
      var may := w.requests[k].may;
      if RolesAssign !in may || target !in w.t.held || |Dedup(names)| > MAX_ROLES_PER_ACCOUNT then Over(w, k)
      else Put(w, k, Assigning(may, target, Dedup(names), 0, {}))
    case ReadWanted(k) =>
      var r := w.requests[k];
      if r.wanted[r.next] !in w.t.roles then Over(w, k)
      else Put(w, k, r.(next := r.next + 1, granted := r.granted + w.t.roles[r.wanted[r.next]].permissions))
    case CheckAssign(k) =>
      var r := w.requests[k];
      if CanGrant(r.may, r.granted) then Put(w, k, Assigned(r.target, r.wanted)) else Over(w, k)
    case CommitAssign(k) =>
      Over(w.(t := SetRoles(w.t, w.requests[k].target, w.requests[k].wanted).0), k)
    case CheckDefine(k, name, permissions) =>
      var may := w.requests[k].may;
      if RolesWrite in may && CanGrant(may, permissions) then Put(w, k, Defining(name, permissions)) else Over(w, k)
    case CommitDefine(k) =>
      Over(w.(t := AddRole(w.t, w.requests[k].name, w.requests[k].permissions).0), k)
    case CheckEdit(k, name, permissions) =>
      var may := w.requests[k].may;
      if RolesWrite in may && name in w.t.roles && !w.t.roles[name].builtin && CanGrant(may, permissions)
      then Put(w, k, Editing(name, permissions)) else Over(w, k)
    case CommitEdit(k) =>
      Over(w.(t := SaveRole(w.t, w.requests[k].name, w.requests[k].permissions)), k)
    case DropRole(k, name) =>
      if RolesWrite in w.requests[k].may then Over(w.(t := DeleteRole(w.t, name).0), k) else Over(w, k)
    case Target(k, target, act) =>
      var r := w.requests[k];
      if (if act.Reset? then AccountsResetPassword else AccountsDelete) !in r.may || target !in w.t.held then Over(w, k)
      else if target == r.actor then Put(w, k, Allowed(target, act))
      else Put(w, k, Targeting(r.may, target, w.t.held[target], act))
    case CheckTarget(k) =>
      var r := w.requests[k];
      if Resolve(w.t.roles, r.names) <= r.may then Put(w, k, Allowed(r.target, r.act)) else Over(w, k)
    case CommitAct(k) =>
      var r := w.requests[k];
      if r.act.Reset? then Over(w.(coalition := w.coalition + {r.target}), k)
      else Over(w.(t := DeleteAccount(w.t, r.target).0), k)
    case Invite(k) =>
      if AccountsInvite in w.requests[k].may then Over(w.(invites := w.invites + 1), k) else Over(w, k)
    case Redeem(j) => w.(invites := w.invites - 1, joining := w.joining[j := w.t.held == map[]])
    case Join(j, id) =>
      w.(t := AddAccount(w.t, id, if w.joining[j] then [OWNER] else [MEMBER]).0,
         joining := w.joining - {j}, coalition := w.coalition + {id}, used := w.used + {id})
    case ReadAccount(k, id) => w.(touches := w.touches[k := Touch(id, w.t.held[id])])
    case Save(k) => w.(t := SaveAccount(w.t, w.touches[k].id, w.touches[k].names).0, touches := w.touches - {k})
  }

  ghost predicate Runs(start: World, run: seq<Event>)
    decreases |run|, 0
  {
    run == [] || (Runs(start, run[..|run| - 1]) && Enabled(After(start, run[..|run| - 1]), run[|run| - 1]))
  }

  ghost function After(start: World, run: seq<Event>): World
    requires Runs(start, run)
    decreases |run|, 1
  {
    if run == [] then start else Do(After(start, run[..|run| - 1]), run[|run| - 1])
  }

  /** A deployment between requests; any number of invitations may be out, the operator's first ones included. */
  ghost predicate Quiet(w: World) {
    w.requests == map[] && w.touches == map[] && w.joining == map[] && w.t.held.Keys <= w.used
  }
}
