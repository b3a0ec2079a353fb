/**
 * UserPrincipal: the authenticated user kept in the session, with the set
 * of role names and the set of permission strings its role grants. The
 * permission table is fixed per role; every principal built from a user
 * carries exactly one role name, the enum constant's own (lowercase) name.
 */
module Principals {
  import opened Wrappers
  import opened Ledger
  import opened Store
  import JavaText

  /** Role.name(): the enum constants are declared in lowercase. */
  function RoleName(role: Role): (r: string)
    ensures r in {"admin", "manager", "user"}
    ensures r != "ADMIN" && r != "MANAGER"
  {
    match role
    case admin => "admin"
    case manager => "manager"
    case user => "user"
  }

  /** The permissions every principal gets, whatever its role. */
  const BASE_PERMISSIONS: set<string> := {"profile:view", "profile:edit"}

  const ADMIN_PERMISSIONS: set<string> :=
    {"user:view", "user:create", "user:edit", "user:delete",
     "product:view", "product:create", "product:edit", "product:delete",
     "supplier:view", "supplier:create", "supplier:edit", "supplier:delete",
     "order:view", "order:create", "order:edit", "order:delete",
     "stock:view", "stock:create", "stock:edit",
     "dashboard:view", "report:view", "report:export",
     "settings:view", "settings:edit"}

  const MANAGER_PERMISSIONS: set<string> :=
    {"product:view", "product:create", "product:edit",
     "supplier:view", "supplier:create", "supplier:edit",
     "order:view", "order:create", "order:edit",
     "stock:view", "stock:create", "stock:edit",
     "dashboard:view", "report:view", "report:export"}

  const USER_PERMISSIONS: set<string> := {"product:view", "order:view", "order:create"}

  /** calculatePermissions: the base permissions plus those of the role's branch. */
  function CalculatePermissions(role: Role): (r: set<string>)
    ensures "profile:view" in r && "profile:edit" in r
    ensures BASE_PERMISSIONS <= r
  {
    BASE_PERMISSIONS + match role
      case admin => ADMIN_PERMISSIONS
      case manager => MANAGER_PERMISSIONS
      case user => USER_PERMISSIONS
  }

  /**
   * Each role's permissions strictly include those of the role below it,
   * and the plain user role gets exactly five.
   */
  lemma PermissionsNested()
    ensures CalculatePermissions(Role.user) ==
              {"profile:view", "profile:edit", "product:view", "order:view", "order:create"}
    ensures CalculatePermissions(Role.user) <= CalculatePermissions(Role.manager)
    ensures CalculatePermissions(Role.manager) <= CalculatePermissions(Role.admin)
    ensures CalculatePermissions(Role.user) != CalculatePermissions(Role.manager)
    ensures CalculatePermissions(Role.manager) != CalculatePermissions(Role.admin)
  {
    assert "order:edit" in CalculatePermissions(Role.manager);
    assert "order:edit" !in CalculatePermissions(Role.user);
    assert "user:view" in CalculatePermissions(Role.admin);
    assert "user:view" !in CalculatePermissions(Role.manager);
  }

  /** A permission over users or settings, or any delete permission. */
  predicate AdminOnly(permission: string)
  {
    JavaText.StartsWith(permission, "user:") || JavaText.StartsWith(permission, "settings:")
    || JavaText.EndsWith(permission, ":delete")
  }

  /** A permission whose first letters and tail differ from every admin-only pattern is not admin-only. */
  lemma PlainPermission(p: string)
    requires |p| >= 7 && p[0] != 'u' && (p[0] == 's' ==> p[1] != 'e')
    requires p[|p| - 1] != 'e' || p[|p| - 6] != 'd'
    ensures !AdminOnly(p)
  {
    assert !JavaText.StartsWith(p, "user:") by {
      assert p[..5][0] != "user:"[0];
    }
    assert !JavaText.StartsWith(p, "settings:") by {
      if |p| >= 9 {
        assert p[..9][0] != "settings:"[0] || p[..9][1] != "settings:"[1];
      }
    }
    assert !JavaText.EndsWith(p, ":delete") by {
      var tail := p[|p| - 7..];
      assert tail[6] != ":delete"[6] || tail[1] != ":delete"[1];
    }
  }

  /** No base or manager permission is admin-only. */
  lemma NotAdminOnly(permission: string)
    requires permission in MANAGER_PERMISSIONS + BASE_PERMISSIONS
    ensures !AdminOnly(permission)
  {
    PlainPermission(permission);
  }

  /**
   * Only the admin role is granted user:*, settings:* or *:delete
   * permissions, and it is granted some of each.
   */
  lemma OnlyAdminGetsAdminPermissions(role: Role, permission: string)
    ensures permission in CalculatePermissions(role) && AdminOnly(permission) ==> role == Role.admin
    ensures "user:delete" in CalculatePermissions(Role.admin) && "settings:edit" in CalculatePermissions(Role.admin)
  {
    if role != Role.admin && permission in CalculatePermissions(role) {
      assert permission in MANAGER_PERMISSIONS + BASE_PERMISSIONS;
      NotAdminOnly(permission);
    }
  }

  /**
   * The principal: identity fields, the role-name set, the permission set
   * and the time of the last request.
   */
  class UserPrincipal {
    var id: int
    var username: string
    var email: string
    var fullName: string
    var roles: set<string>
    var permissions: set<string>
    var lastActivity: Time
    var sessionId: Option<string>

    /**
     * from(user): the full name falls back to the username; the only role
     * is the role's name; the permissions are the role's table entry.
     */
    constructor From(userId: int, u: UserRow, now: Time)
      ensures id == userId && username == u.username && email == u.email && fullName == u.username
      ensures roles == {RoleName(u.role)} && permissions == CalculatePermissions(u.role)
      ensures lastActivity == now && sessionId.None?
    {
      id := userId;
      username := u.username;
      email := u.email;
      fullName := u.username;
      roles := {RoleName(u.role)};
      permissions := CalculatePermissions(u.role);
      lastActivity := now;
      sessionId := None;
    }

    /** hasRole: set membership. */
    predicate HasRole(role: string)
      reads this
      ensures HasRole(role) <==> exists r :: r in roles && r == role
    {
      role in roles
    }

    /** hasPermission: set membership. */
    predicate HasPermission(permission: string)
      reads this
      ensures HasPermission(permission) <==> exists q :: q in permissions && q == permission
    {
      permission in permissions
    }

    /** hasAnyRole: true as soon as one of the arguments is a role of this principal. */
    method HasAnyRole(roleList: seq<string>) returns (b: bool)
      ensures b <==> exists i :: 0 <= i < |roleList| && roleList[i] in roles
    {
      for i := 0 to |roleList|
        invariant forall j :: 0 <= j < i ==> roleList[j] !in roles
      {
        if HasRole(roleList[i]) {
          return true;
        }
      }
      return false;
    }

    /** updateLastActivity, with the clock as a parameter. */
    method UpdateLastActivity(now: Time)
      modifies this
      ensures lastActivity == now
      ensures id == old(id) && username == old(username) && email == old(email) && fullName == old(fullName)
      ensures roles == old(roles) && permissions == old(permissions) && sessionId == old(sessionId)
    {
      lastActivity := now;
    }

    /** getRoles: an unmodifiable view; a Dafny set is a value, so the caller cannot change it. */
    function GetRoles(): (r: set<string>)
      reads this
      ensures forall role :: role in r <==> HasRole(role)
    {
      roles
    }

    /** getPermissions, likewise. */
    function GetPermissions(): (r: set<string>)
      reads this
      ensures forall p :: p in r <==> HasPermission(p)
    {
      permissions
    }

    /** setRoles: stores a copy; later changes to the caller's set cannot reach it. */
    method SetRoles(newRoles: set<string>)
      modifies this
      ensures roles == newRoles
      ensures permissions == old(permissions) && lastActivity == old(lastActivity) && sessionId == old(sessionId)
      ensures id == old(id) && username == old(username) && email == old(email) && fullName == old(fullName)
    {
      roles := newRoles;
    }

    /** setPermissions: stores a copy. */
    method SetPermissions(newPermissions: set<string>)
      modifies this
      ensures permissions == newPermissions
      ensures roles == old(roles) && lastActivity == old(lastActivity) && sessionId == old(sessionId)
      ensures id == old(id) && username == old(username) && email == old(email) && fullName == old(fullName)
    {
      permissions := newPermissions;
    }
  }
}
