/**
  The role and account tables, one transaction at a time, and administrative role assignment over
  them. Each transaction is a function from tables to tables and a verdict; the class is the store
  whose methods perform it in place.
*/
module AdminTables {
  import opened Options
  import opened Rbac

  type Id = string

  datatype Tables = Tables(roles: Roles, held: map<Id, seq<RoleName>>)

  datatype Verdict =
    | Done
    | Forbidden | AccountNotFound | TooManyRoles | RoleNotFound | RoleExists | RoleBuiltin | RoleInUse | LastOwner

  predicate Holds(held: map<Id, seq<RoleName>>, id: Id, name: RoleName) {
    id in held && name in held[id]
  }

  predicate AllExist(roles: Roles, names: seq<RoleName>) {
    forall i :: 0 <= i < |names| ==> names[i] in roles
  }

  /** Somebody other than `id` holds `owner`. */
  predicate AnotherOwner(held: map<Id, seq<RoleName>>, id: Id) {
    exists other :: other in held && other != id && OWNER in held[other]
  }

  predicate HasOwner(held: map<Id, seq<RoleName>>) {
    exists id :: id in held && OWNER in held[id]
  }

  // ---------------------------------------------------------------- transactions

  function AddRole(t: Tables, name: RoleName, permissions: set<Permission>): (r: (Tables, Verdict))
    ensures r.1.Done? || r.0 == t
  {
    if name in t.roles then (t, RoleExists)
    else (t.(roles := t.roles[name := Role(permissions, false)]), Done)
  }

  function SaveRole(t: Tables, name: RoleName, permissions: set<Permission>): Tables {
    if name !in t.roles then t else t.(roles := t.roles[name := Role(permissions, t.roles[name].builtin)])
  }

  function DeleteRole(t: Tables, name: RoleName): (r: (Tables, Verdict))
    ensures r.1.Done? || r.0 == t
  {
    if name !in t.roles then (t, RoleNotFound)
    else if t.roles[name].builtin then (t, RoleBuiltin)
    else if exists id :: id in t.held && name in t.held[id] then (t, RoleInUse)
    else (t.(roles := t.roles - {name}), Done)
  }

  function SetRoles(t: Tables, id: Id, names: seq<RoleName>): (r: (Tables, Verdict))
    ensures r.1.Done? || r.0 == t
  {
    if id !in t.held then (t, AccountNotFound)
    else if OWNER in t.held[id] && OWNER !in names && !AnotherOwner(t.held, id) then (t, LastOwner)
    else if !AllExist(t.roles, names) then (t, RoleNotFound)
    else (t.(held := t.held[id := Dedup(names)]), Done)
  }

  /** Saving an account rewrites its roles from the account value it is given, however old that is. */
  function SaveAccount(t: Tables, id: Id, names: seq<RoleName>): (r: (Tables, Verdict))
    ensures r.1.Done? || r.0 == t
  {
    if !AllExist(t.roles, names) || (id !in t.held && names != []) then (t, RoleNotFound)
    else if id !in t.held then (t, Done)
    else (t.(held := t.held[id := names]), Done)
  }

  function DeleteAccount(t: Tables, id: Id): (r: (Tables, Verdict))
    ensures r.1.Done? || r.0 == t
  {
    if id !in t.held then (t, AccountNotFound)
    else if OWNER in t.held[id] && !AnotherOwner(t.held, id) then (t, LastOwner)
    else (t.(held := t.held - {id}), Done)
  }

  function AddAccount(t: Tables, id: Id, names: seq<RoleName>): (r: (Tables, Verdict))
    requires id !in t.held
    ensures r.1.Done? || r.0 == t
  {
    if !AllExist(t.roles, names) then (t, RoleNotFound) else (t.(held := t.held[id := names]), Done)
  }

  /** `set_account_roles` from its first guard to its write, with nobody else in between. */
  function Assign(t: Tables, may: set<Permission>, target: Id, names: seq<RoleName>): (Tables, Verdict) {
    var wanted := Dedup(names);
    if RolesAssign !in may then (t, Forbidden)
    else if target !in t.held then (t, AccountNotFound)
    else if |wanted| > MAX_ROLES_PER_ACCOUNT then (t, TooManyRoles)
    else if !AllExist(t.roles, wanted) then (t, RoleNotFound)
    else if !CanGrant(may, Resolve(t.roles, wanted)) then (t, Forbidden)
    else SetRoles(t, target, wanted)
  }

  /** When an assignment is made, and why it is refused otherwise. */
  lemma AssignedIff(t: Tables, may: set<Permission>, target: Id, names: seq<RoleName>)
    ensures var verdict := Assign(t, may, target, names).1;
            && (verdict.Done? <==>
                  && RolesAssign in may
                  && target in t.held
                  && |set n | n in names| <= 16
                  && (forall n :: n in names ==> n in t.roles && t.roles[n].permissions <= may)
                  && ("owner" in t.held[target] && "owner" !in names ==>
                        exists other :: other in t.held && other != target && "owner" in t.held[other]))
            && verdict ==
                 (if RolesAssign !in may then Forbidden
                  else if target !in t.held then AccountNotFound
                  else if |set n | n in names| > 16 then TooManyRoles
                  else if exists n :: n in names && n !in t.roles then RoleNotFound
                  else if exists n :: n in names && !(t.roles[n].permissions <= may) then Forbidden
                  else if verdict.Done? then Done else LastOwner)
  {
    DedupIsOnceEach(names);
    ExistOnceEach(t.roles, names);
    DedupWithin(t.roles, names, may);
  }

  lemma ExistOnceEach(roles: Roles, names: seq<RoleName>)
    ensures AllExist(roles, Dedup(names)) <==> forall n :: n in names ==> n in roles
  {
  }

  /** The target then holds those names, nobody else is touched, and no role is. */
  lemma AssignLeaves(t: Tables, may: set<Permission>, target: Id, names: seq<RoleName>)
    ensures var (t', verdict) := Assign(t, may, target, names);
            && t'.roles == t.roles && t'.held.Keys == t.held.Keys
            && (forall id :: id in t.held && (id != target || !verdict.Done?) ==> t'.held[id] == t.held[id])
            && (verdict.Done? ==> target in t.held && t'.held[target] == Dedup(names))
  {
    var wanted := Dedup(names);
    if Assign(t, may, target, names) == SetRoles(t, target, wanted) {
      SetLeaves(t, target, wanted);
      DedupAgain(names);
    }
  }

  lemma SetLeaves(t: Tables, id: Id, names: seq<RoleName>)
    ensures var (t', verdict) := SetRoles(t, id, names);
            && t'.roles == t.roles && t'.held.Keys == t.held.Keys
            && (forall other :: other in t.held && (other != id || !verdict.Done?) ==> t'.held[other] == t.held[other])
            && (verdict.Done? ==> id in t.held && t'.held[id] == Dedup(names))
  {
  }

  lemma AssignsOnceEach(t: Tables, may: set<Permission>, target: Id, names: seq<RoleName>)
    ensures Assign(t, may, target, names).1.Done? ==>
              target in t.held && OnceEach(Assign(t, may, target, names).0.held[target], names)
  {
    AssignLeaves(t, may, target, names);
    DedupIsOnceEach(names);
  }

  class AdminStore {
    var roles: Roles
    var held: map<Id, seq<RoleName>>

    function View(): Tables
      reads this
    {
      Tables(roles, held)
    }

    constructor ()
      ensures View() == Tables(BUILTIN_ROLES, map[])
    {
      roles, held := BUILTIN_ROLES, map[];
    }

    method RemoveRole(name: RoleName) returns (verdict: Verdict)
      modifies this`roles
      ensures (View(), verdict) == DeleteRole(old(View()), name)
      ensures verdict ==
        if name !in old(roles) then RoleNotFound
        else if old(roles)[name].builtin then RoleBuiltin
        else if exists id :: id in held && name in held[id] then RoleInUse
        else Done
      ensures roles == if verdict.Done? then old(roles) - {name} else old(roles)
    {
      if name !in roles { return RoleNotFound; }
      if roles[name].builtin { return RoleBuiltin; }
      var left := held.Keys;
      while left != {}
        invariant left <= held.Keys
        invariant forall id :: id in held && name in held[id] ==> id in left
        decreases left
      {
        var id :| id in left;
        if name in held[id] { return RoleInUse; }
        left := left - {id};
      }
      roles := roles - {name};
      return Done;
    }

    method InsertRole(name: RoleName, permissions: set<Permission>) returns (verdict: Verdict)
      modifies this`roles
      ensures (View(), verdict) == AddRole(old(View()), name, permissions)
      ensures verdict == if name in old(roles) then RoleExists else Done
      ensures roles == if verdict.Done? then old(roles)[name := Role(permissions, false)] else old(roles)
    {
      if name in roles { return RoleExists; }
      roles := roles[name := Role(permissions, false)];
      return Done;
    }

    /** One statement: a missing role stays missing, and whether a role is built in never changes. */
    method UpdateRole(name: RoleName, permissions: set<Permission>)
      modifies this`roles
      ensures View() == SaveRole(old(View()), name, permissions)
      ensures roles.Keys == old(roles).Keys
      ensures forall n :: n in roles ==>
                && roles[n].builtin == old(roles)[n].builtin
                && roles[n].permissions == if n == name then permissions else old(roles)[n].permissions
    {
      if name in roles {
        roles := roles[name := roles[name].(permissions := permissions)];
      }
    }

    /** The role rows of one account, as its save rewrites them; the foreign keys refuse the rest. */
    method SaveRow(id: Id, names: seq<RoleName>) returns (verdict: Verdict)
      modifies this`held
      ensures (View(), verdict) == SaveAccount(old(View()), id, names)
      ensures verdict.Done? <==> (forall n :: n in names ==> n in roles) && (id in old(held) || names == [])
      ensures held == if verdict.Done? && id in old(held) then old(held)[id := names] else old(held)
    {
      if (exists n :: n in names && n !in roles) || (id !in held && names != []) { return RoleNotFound; }
      if id in held { held := held[id := names]; }
      return Done;
    }

    /** Whether anybody but `id` holds `owner`, counted row by row. */
    method CountOtherOwners(id: Id) returns (remaining: nat)
      ensures remaining > 0 <==> AnotherOwner(held, id)
    {
      remaining := 0;
      var left := held.Keys - {id};
      while left != {}
        invariant left <= held.Keys - {id}
        invariant remaining > 0 <==> exists other ::
                  other in held && other != id && other !in left && OWNER in held[other]
        decreases left
      {
        var other :| other in left;
        if OWNER in held[other] { remaining := remaining + 1; }
        left := left - {other};
      }
    }

    method StoreRoles(id: Id, names: seq<RoleName>) returns (verdict: Verdict)
      modifies this`held
      ensures (View(), verdict) == SetRoles(old(View()), id, names)
      ensures verdict ==
        if id !in old(held) then AccountNotFound
        else if "owner" in old(held)[id] && "owner" !in names
                && !exists other :: other in old(held) && other != id && "owner" in old(held)[other]
             then LastOwner
        else if exists n :: n in names && n !in roles then RoleNotFound
        else Done
      ensures verdict.Done? ==> id in held && OnceEach(held[id], names)
      ensures held.Keys == old(held).Keys
      ensures forall other :: other in held && (other != id || !verdict.Done?) ==> held[other] == old(held)[other]
    {
      DedupIsOnceEach(names);
      if id !in held { return AccountNotFound; }
      if OWNER !in names && OWNER in held[id] {
        var remaining := CountOtherOwners(id);
        if remaining == 0 { return LastOwner; }
      }
      var unique := [];
      for i := 0 to |names|
        invariant unique == Dedup(names[..i])
        invariant forall j :: 0 <= j < i ==> names[j] in roles
      {
        assert names[..i + 1][..i] == names[..i];
        if names[i] !in roles { return RoleNotFound; }
        if names[i] !in unique { unique := unique + [names[i]]; }
      }
      assert names[..|names|] == names;
      held := held[id := unique];
      return Done;
    }

    method RemoveAccount(id: Id) returns (verdict: Verdict)
      modifies this`held
      ensures (View(), verdict) == DeleteAccount(old(View()), id)
      ensures verdict ==
        if id !in old(held) then AccountNotFound
        else if "owner" in old(held)[id]
                && !exists other :: other in old(held) && other != id && "owner" in old(held)[other]
             then LastOwner
        else Done
      ensures held == if verdict.Done? then old(held) - {id} else old(held)
    {
      if id !in held { return AccountNotFound; }
      if OWNER in held[id] {
        var remaining := CountOtherOwners(id);
        if remaining == 0 { return LastOwner; }
      }
      held := held - {id};
      return Done;
    }

    /** The roles read one by one, their permissions gathered, up to the first that does not exist. */
    method Gather(wanted: seq<RoleName>) returns (granted: Option<set<Permission>>)
      ensures granted == if AllExist(roles, wanted) then Some(Resolve(roles, wanted)) else None
    {
      var union := {};
      for i := 0 to |wanted|
        invariant union == Resolve(roles, wanted[..i])
        invariant forall j :: 0 <= j < i ==> wanted[j] in roles
      {
        assert wanted[..i + 1][..i] == wanted[..i];
        if wanted[i] !in roles { return None; }
        union := union + roles[wanted[i]].permissions;
      }
      assert wanted[..|wanted|] == wanted;
      return Some(union);
    }

    /** The assignment from its first guard to its write. */
    method SetAccountRoles(may: set<Permission>, target: Id, names: seq<RoleName>) returns (verdict: Verdict)
      modifies this`held
      ensures (View(), verdict) == Assign(old(View()), may, target, names)
      ensures verdict.Done? <==>
                && RolesAssign in may
                && target in old(held)
                && |set n | n in names| <= 16
                && (forall n :: n in names ==> n in roles && roles[n].permissions <= may)
                && ("owner" in old(held)[target] && "owner" !in names ==>
                      exists other :: other in old(held) && other != target && "owner" in old(held)[other])
      ensures verdict.Done? ==> OnceEach(held[target], names)
      ensures held.Keys == old(held).Keys
      ensures forall id :: id in held && (id != target || !verdict.Done?) ==> held[id] == old(held)[id]
      ensures verdict ==
        if RolesAssign !in may then Forbidden
        else if target !in old(held) then AccountNotFound
        else if |set n | n in names| > 16 then TooManyRoles
        else if exists n :: n in names && n !in roles then RoleNotFound
        else if exists n :: n in names && !(roles[n].permissions <= may) then Forbidden
        else if verdict.Done? then Done else LastOwner
    {
      AssignedIff(View(), may, target, names);
      AssignLeaves(View(), may, target, names);
      AssignsOnceEach(View(), may, target, names);
      if RolesAssign !in may { return Forbidden; }
      if target !in held { return AccountNotFound; }
      var wanted := Dedup(names);
      if |wanted| > MAX_ROLES_PER_ACCOUNT { return TooManyRoles; }
      var granted := Gather(wanted);
      if granted.None? { return RoleNotFound; }
      if !(granted.value <= may) { return Forbidden; }
      verdict := StoreRoles(target, wanted);
    }
  }

  // ---------------------------------------------------------------- what single transactions keep

  /**
    A save keeps an owner exactly when it carries `owner`, does nothing, or takes it from an account
    that is not the last one to hold it.
  */
  lemma SaveKeepsOwnerIff(t: Tables, id: Id, names: seq<RoleName>)
    requires HasOwner(t.held)
    ensures HasOwner(SaveAccount(t, id, names).0.held)
       <==> (OWNER in names || !AllExist(t.roles, names) || id !in t.held || AnotherOwner(t.held, id))
  {
    var t' := SaveAccount(t, id, names).0;
    if AnotherOwner(t.held, id) {
      var other :| other in t.held && other != id && OWNER in t.held[other];
      assert other in t'.held && OWNER in t'.held[other];
    } else if t' != t && OWNER in names {
      assert id in t'.held && OWNER in t'.held[id];
    }
  }

  /** No guarded transaction ever takes the last owner away. */
  lemma OwnerSurvives(t: Tables, id: Id, names: seq<RoleName>)
    requires HasOwner(t.held)
    ensures HasOwner(SetRoles(t, id, names).0.held)
    ensures HasOwner(DeleteAccount(t, id).0.held)
  {
    var owner :| owner in t.held && OWNER in t.held[owner];
    var set', del := SetRoles(t, id, names).0, DeleteAccount(t, id).0;
    if AnotherOwner(t.held, id) {
      var other :| other in t.held && other != id && OWNER in t.held[other];
      assert other in set'.held && OWNER in set'.held[other];
      assert other in del.held && OWNER in del.held[other];
    } else {
      assert owner == id;
      assert del == t;
      assert id in set'.held && OWNER in set'.held[id];
    }
  }
}
