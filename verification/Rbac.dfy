/** Permissions, roles as sets of them, and the subset rule every grant is held to. */
module Rbac {

  datatype Permission =
    | AccountsRead | AccountsInvite | AccountsDisable | AccountsDelete | AccountsRevokeSessions | AccountsResetPassword
    | RolesRead | RolesWrite | RolesAssign
    | ProfilesReadAny | ProfilesDeleteAny
    | AuditRead

  type RoleName = string

  const OWNER: RoleName := "owner"
  const ADMIN: RoleName := "admin"
  const AUDITOR: RoleName := "auditor"
  const MEMBER: RoleName := "member"

  const MAX_ROLES_PER_ACCOUNT: nat := 16

  const ALL_PERMISSIONS: set<Permission> := {
    AccountsRead, AccountsInvite, AccountsDisable, AccountsDelete, AccountsRevokeSessions, AccountsResetPassword,
    RolesRead, RolesWrite, RolesAssign, ProfilesReadAny, ProfilesDeleteAny, AuditRead }

  const ADMIN_PERMISSIONS: set<Permission> := ALL_PERMISSIONS - {RolesWrite}
  const AUDITOR_PERMISSIONS: set<Permission> := {AccountsRead, RolesRead, AuditRead}

  datatype Role = Role(permissions: set<Permission>, builtin: bool)

  type Roles = map<RoleName, Role>

  const BUILTIN_ROLES: Roles := map[
    OWNER := Role(ALL_PERMISSIONS, true),
    ADMIN := Role(ADMIN_PERMISSIONS, true),
    AUDITOR := Role(AUDITOR_PERMISSIONS, true),
    MEMBER := Role({}, true)]

  /** What a deployment starts with: administrators do not define roles, auditors read, members do nothing. */
  lemma BuiltinRoles(p: Permission)
    ensures BUILTIN_ROLES.Keys == {"owner", "admin", "auditor", "member"}
    ensures forall name :: name in BUILTIN_ROLES ==> BUILTIN_ROLES[name].builtin
    ensures p in BUILTIN_ROLES["owner"].permissions && p !in BUILTIN_ROLES["member"].permissions
    ensures p in BUILTIN_ROLES["admin"].permissions <==> p != RolesWrite
    ensures p in BUILTIN_ROLES["auditor"].permissions <==> p in {AccountsRead, RolesRead, AuditRead}
  {
  }

  /** The permissions behind one name, none when the table has no such role. */
  function Granted(roles: Roles, name: RoleName): set<Permission> {
    if name in roles then roles[name].permissions else {}
  }

  /** All that a list of names amounts to in a given table. */
  function Resolve(roles: Roles, names: seq<RoleName>): set<Permission> {
    if names == [] then {}
    else Resolve(roles, names[..|names| - 1]) + Granted(roles, names[|names| - 1])
  }

  predicate CanGrant(holder: set<Permission>, granted: set<Permission>) {
    granted <= holder
  }

  /** Names with later repeats dropped, in the order they were given. */
  function Dedup(names: seq<RoleName>): (unique: seq<RoleName>)
    ensures forall n :: n in unique <==> n in names
    ensures |unique| <= |names|
  {
    if names == [] then []
    else
      var rest := Dedup(names[..|names| - 1]);
      if names[|names| - 1] in rest then rest else rest + [names[|names| - 1]]
  }

  /** Each name once, in the order in which they are first mentioned. */
  ghost predicate OnceEach(unique: seq<RoleName>, names: seq<RoleName>) {
    && (forall n :: n in unique <==> n in names)
    && (forall i, j :: 0 <= i < j < |unique| ==> unique[i] != unique[j])
    && (forall i, j :: 0 <= i < j < |unique| ==> MentionedBefore(names, unique[i], unique[j]))
  }

  ghost predicate MentionedBefore(names: seq<RoleName>, a: RoleName, b: RoleName) {
    exists k :: 0 <= k < |names| && names[k] == a && b !in names[..k]
  }

  lemma {:induction false} DedupIsOnceEach(names: seq<RoleName>)
    ensures OnceEach(Dedup(names), names)
    ensures |Dedup(names)| == |set n | n in names|
  {
    if names == [] {
      assert (set n | n in names) == {};
    } else {
      var some, last := names[..|names| - 1], names[|names| - 1];
      assert names == some + [last];
      var before := Dedup(some);
      DedupIsOnceEach(some);
      forall a, b | MentionedBefore(some, a, b) ensures MentionedBefore(names, a, b) {
        StillBefore(some, last, a, b);
      }
      forall i | 0 <= i < |before| && last !in some ensures MentionedBefore(names, before[i], last) {
        NewIsLast(some, last, before[i]);
      }
      assert (set n | n in names) == (set n | n in some) + {last};
    }
  }

  lemma StillBefore(some: seq<RoleName>, last: RoleName, a: RoleName, b: RoleName)
    requires MentionedBefore(some, a, b)
    ensures MentionedBefore(some + [last], a, b)
  {
    var k :| 0 <= k < |some| && some[k] == a && b !in some[..k];
    assert (some + [last])[k] == a && (some + [last])[..k] == some[..k];
  }

  lemma NewIsLast(some: seq<RoleName>, last: RoleName, a: RoleName)
    requires a in some && last !in some
    ensures MentionedBefore(some + [last], a, last)
  {
    var k :| 0 <= k < |some| && some[k] == a;
    assert (some + [last])[k] == a && (some + [last])[..k] == some[..k];
  }

  /** A list without repeats is left as it is. */
  lemma {:induction false} DedupAgain(names: seq<RoleName>)
    ensures Dedup(Dedup(names)) == Dedup(names)
  {
    if names == [] {
    } else {
      var some, last := names[..|names| - 1], names[|names| - 1];
      var rest := Dedup(some);
      DedupAgain(some);
      if last !in rest {
        assert (rest + [last])[..|rest|] == rest;
      }
    }
  }

  /** What a list grants together stays within a bound exactly when it does without repeats, name by name. */
  lemma DedupWithin(roles: Roles, names: seq<RoleName>, bound: set<Permission>)
    ensures Resolve(roles, Dedup(names)) <= bound <==>
            forall n :: n in names && n in roles ==> roles[n].permissions <= bound
  {
    ResolveWithin(roles, Dedup(names), bound);
    assert forall n :: Granted(roles, n) == if n in roles then roles[n].permissions else {};
  }

  /** A list stays within a bound exactly when each of its names does. */
  lemma {:induction false} ResolveWithin(roles: Roles, names: seq<RoleName>, bound: set<Permission>)
    ensures Resolve(roles, names) <= bound <==> forall n :: n in names ==> Granted(roles, n) <= bound
  {
    if names == [] {
    } else {
      ResolveWithin(roles, names[..|names| - 1], bound);
      assert names == names[..|names| - 1] + [names[|names| - 1]];
    }
  }

  lemma {:induction false} ResolveCovers(roles: Roles, names: seq<RoleName>, name: RoleName)
    requires name in names
    ensures Granted(roles, name) <= Resolve(roles, names)
  {
    ResolveWithin(roles, names, Resolve(roles, names));
  }
}
