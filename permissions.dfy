/** The client-side permission evaluator (src/lib/permissions.ts): total
    functions over a `User | null` snapshot that decide what the UI shows.
    Each one answers `false` for no user, short-circuits for a superuser,
    and otherwise looks at the union of permission names over the user's
    roles. */
module Permissions {
  import opened Types

  /** Reference definition: some role in `roles` holds a permission named `p`. */
  ghost predicate Grants(roles: seq<Role>, p: string)
  {
    exists i, j :: 0 <= i < |roles| && 0 <= j < |roles[i].permissions| && roles[i].permissions[j].name == p
  }

  /** `perms.some((perm) => perm.name === permission)` */
  function AnyNamed(perms: seq<Permission>, permission: string): (r: bool)
    ensures r <==> exists j :: 0 <= j < |perms| && perms[j].name == permission
  {
    if perms == [] then false
    else
      assert forall j :: 1 <= j < |perms| ==> perms[1..][j - 1] == perms[j];
      perms[0].name == permission || AnyNamed(perms[1..], permission)
  }

  /** `roles.some((role) => role.permissions.some(...))` */
  function AnyRoleGrants(roles: seq<Role>, permission: string): (r: bool)
    ensures r <==> Grants(roles, permission)
  {
    if roles == [] then false
    else
      assert forall i :: 1 <= i < |roles| ==> roles[1..][i - 1] == roles[i];
      assert Grants(roles[1..], permission) ==> Grants(roles, permission) by {
        if Grants(roles[1..], permission) {
          var i, j :| 0 <= i < |roles[1..]| && 0 <= j < |roles[1..][i].permissions|
                      && roles[1..][i].permissions[j].name == permission;
          assert roles[i + 1].permissions[j].name == permission;
        }
      }
      AnyNamed(roles[0].permissions, permission) || AnyRoleGrants(roles[1..], permission)
  }

  /** `hasPermission(user, permission)`: false without a user, true for a
      superuser whatever the name (empty or unknown ones included), and
      otherwise true exactly when one of the user's roles grants it. */
  function HasPermission(user: Option<User>, permission: string): (r: bool)
    ensures user.None? ==> !r
    ensures user.Some? && user.value.isSuperuser ==> r
    ensures user.Some? && !user.value.isSuperuser ==> (r <==> Grants(user.value.roles, permission))
  {
    match user
    case None => false
    case Some(u) =>
      if u.isSuperuser then true
      else AnyRoleGrants(u.roles, permission)
  }

  /** `getUserPermissions(user)`: `[]` without a user, the marker `["*"]` for
      a superuser, and otherwise the permission names of all roles, each once
      (a JavaScript `Set`, kept here as a duplicate-free sequence in insertion
      order). A name is listed exactly when `HasPermission` grants it. */
  method GetUserPermissions(user: Option<User>) returns (names: seq<string>)
    ensures user.None? ==> names == []
    ensures user.Some? && user.value.isSuperuser ==> names == ["*"]
    ensures user.Some? && !user.value.isSuperuser ==> NoDuplicates(names)
    ensures user.Some? && !user.value.isSuperuser ==>
      forall p :: p in names <==> HasPermission(user, p)
  {
    if user.None? {
      return [];
    }
    var u := user.value;
    if u.isSuperuser {
      return ["*"];
    }
    names := [];
    var i := 0;
    while i < |u.roles|
      invariant 0 <= i <= |u.roles|
      invariant NoDuplicates(names)
      invariant forall p :: p in names <==> Grants(u.roles[..i], p)
    {
      var perms := u.roles[i].permissions;
      var j := 0;
      while j < |perms|
        invariant 0 <= j <= |perms|
        invariant NoDuplicates(names)
        invariant forall p :: p in names <==>
          (Grants(u.roles[..i], p) || exists k :: 0 <= k < j && perms[k].name == p)
      {
        if perms[j].name !in names {
          names := names + [perms[j].name];
        }
        j := j + 1;
      }
      forall p | true {
        GrantsExtend(u.roles, i, p);
      }
      i := i + 1;
    }
    assert u.roles[..i] == u.roles;
  }

  /** One more role in the prefix adds exactly that role's names. */
  lemma GrantsExtend(roles: seq<Role>, i: nat, p: string)
    requires i < |roles|
    ensures Grants(roles[..i + 1], p) <==>
      (Grants(roles[..i], p) || exists k :: 0 <= k < |roles[i].permissions| && roles[i].permissions[k].name == p)
  {
  }

  /** `hasAnyPermission(user, permissions)`: false without a user, true for a
      superuser (even for an empty list), otherwise true when some listed name
      is granted. */
  function HasAnyPermission(user: Option<User>, permissions: seq<string>): (r: bool)
    ensures user.None? ==> !r
    ensures user.Some? && user.value.isSuperuser ==> r
    ensures user.Some? && !user.value.isSuperuser ==>
      (r <==> exists i :: 0 <= i < |permissions| && Grants(user.value.roles, permissions[i]))
    ensures permissions == [] ==> (r <==> user.Some? && user.value.isSuperuser)
  {
    match user
    case None => false
    case Some(u) =>
      if u.isSuperuser then true
      else exists i :: 0 <= i < |permissions| && HasPermission(user, permissions[i])
  }

  /** `hasAllPermissions(user, permissions)`: false without a user even for an
      empty list, true for a superuser, otherwise true when every listed name
      is granted (so vacuously true for an empty list). */
  function HasAllPermissions(user: Option<User>, permissions: seq<string>): (r: bool)
    ensures user.None? ==> !r
    ensures user.Some? && user.value.isSuperuser ==> r
    ensures user.Some? && !user.value.isSuperuser ==>
      (r <==> forall i :: 0 <= i < |permissions| ==> Grants(user.value.roles, permissions[i]))
    ensures permissions == [] ==> (r <==> user.Some?)
  {
    match user
    case None => false
    case Some(u) =>
      if u.isSuperuser then true
      else forall i :: 0 <= i < |permissions| ==> HasPermission(user, permissions[i])
  }

  /** For a non-empty list, holding all of the names implies holding one. */
  lemma AllImpliesAny(user: Option<User>, permissions: seq<string>)
    requires permissions != []
    ensures HasAllPermissions(user, permissions) ==> HasAnyPermission(user, permissions)
  {
    if user.Some? && !user.value.isSuperuser && HasAllPermissions(user, permissions) {
      assert HasPermission(user, permissions[0]);
    }
  }

  /** The evaluation depends on the set of roles only: reordering or repeating
      roles changes no answer, so `GetUserPermissions` lists the same names. */
  lemma {:induction false} RoleOrderIrrelevant(u: User, v: User, p: string)
    requires u.isSuperuser == v.isSuperuser
    requires forall r :: r in u.roles <==> r in v.roles
    ensures HasPermission(Some(u), p) == HasPermission(Some(v), p)
  {
    if !u.isSuperuser {
      GrantsBySet(u.roles, v.roles, p);
      GrantsBySet(v.roles, u.roles, p);
    }
  }

  lemma GrantsBySet(a: seq<Role>, b: seq<Role>, p: string)
    requires forall r :: r in a ==> r in b
    ensures Grants(a, p) ==> Grants(b, p)
  {
    if Grants(a, p) {
      var i, j :| 0 <= i < |a| && 0 <= j < |a[i].permissions| && a[i].permissions[j].name == p;
      assert a[i] in b;
      var i' :| 0 <= i' < |b| && b[i'] == a[i];
      assert b[i'].permissions[j].name == p;
    }
  }
}
