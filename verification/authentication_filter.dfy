/**
 * AuthenticationFilter: the decision taken for every request. Public path
 * prefixes pass without a session; otherwise an inactive session is sent
 * to the login page and a principal that fails the path rules to the
 * access-denied page. The constant path sets are iterated in declaration
 * order; every loop here only asks whether some entry matches, so the
 * answer does not depend on the order a HashSet would give.
 */
module AuthenticationFilter {
  import opened Store
  import opened JavaText
  import opened Principals

  const PUBLIC_PATHS: seq<string> :=
    ["/login", "/logout", "/register", "/error", "/access-denied", "/resources", "/assets",
     "/index.jsp", "/jsp/common", "/.js", "/.css", "/.png", "/.jpg", "/.gif", "/favicon.ico"]

  /** Prefixes that need the role name "ADMIN". */
  const ADMIN_PATHS: seq<string> := ["/admin", "/users", "/settings"]

  /** Prefixes that need the role name "ADMIN" or "MANAGER". */
  const MANAGER_PATHS: seq<string> := ["/reports", "/dashboard"]

  /**
   * getRequestPath: the request URI with as many leading characters cut as
   * the context path has (substring would throw on a longer context path).
   */
  function GetRequestPath(contextPath: string, requestUri: string): (r: string)
    requires |contextPath| <= |requestUri|
    ensures |r| == |requestUri| - |contextPath|
    ensures contextPath == "" ==> r == requestUri
    ensures StartsWith(requestUri, contextPath) ==> requestUri == contextPath + r
  {
    if |contextPath| > 0 then requestUri[|contextPath|..] else requestUri
  }

  /** isPublicPath: some public entry is a prefix of the path. */
  method IsPublicPath(path: string) returns (b: bool)
    ensures b <==> StartsWithAny(path, PUBLIC_PATHS)
  {
    for i := 0 to |PUBLIC_PATHS|
      invariant forall j :: 0 <= j < i ==> !StartsWith(path, PUBLIC_PATHS[j])
    {
      if StartsWith(path, PUBLIC_PATHS[i]) {
        return true;
      }
    }
    return false;
  }

  /** The rules isAuthorized applies to a principal's role names and permissions. */
  predicate Authorized(roles: set<string>, permissions: set<string>, path: string)
  {
    && (StartsWithAny(path, ADMIN_PATHS) ==> "ADMIN" in roles)
    && (StartsWithAny(path, MANAGER_PATHS) ==> "ADMIN" in roles || "MANAGER" in roles)
    && (StartsWith(path, "/products") && Contains(path, "/delete") ==> "product:delete" in permissions)
    && (StartsWith(path, "/suppliers") && Contains(path, "/edit") ==> "supplier:edit" in permissions)
    && (StartsWith(path, "/orders") && Contains(path, "/edit") ==> "order:edit" in permissions)
  }

  /**
   * isAuthorized: false without a principal; otherwise false as soon as
   * one role prefix or resource rule fails, and true when none does.
   */
  method IsAuthorized(user: UserPrincipal?, path: string) returns (b: bool)
    ensures user == null ==> !b
    ensures user != null ==> (b <==> Authorized(user.roles, user.permissions, path))
  {
    if user == null {
      return false;
    }
    for i := 0 to |ADMIN_PATHS|
      invariant forall j :: 0 <= j < i ==> !StartsWith(path, ADMIN_PATHS[j]) || "ADMIN" in user.roles
    {
      if StartsWith(path, ADMIN_PATHS[i]) && !user.HasRole("ADMIN") {
        return false;
      }
    }
    for i := 0 to |MANAGER_PATHS|
      invariant forall j :: 0 <= j < i ==> !StartsWith(path, MANAGER_PATHS[j]) || "ADMIN" in user.roles || "MANAGER" in user.roles
    {
      if StartsWith(path, MANAGER_PATHS[i]) {
        var privileged := user.HasAnyRole(["ADMIN", "MANAGER"]);
        if !privileged {
          assert ["ADMIN", "MANAGER"][0] == "ADMIN" && ["ADMIN", "MANAGER"][1] == "MANAGER";
          return false;
        }
      }
    }
    if StartsWith(path, "/products") && Contains(path, "/delete") && !user.HasPermission("product:delete") {
      return false;
    }
    if StartsWith(path, "/suppliers") && Contains(path, "/edit") && !user.HasPermission("supplier:edit") {
      return false;
    }
    if StartsWith(path, "/orders") && Contains(path, "/edit") && !user.HasPermission("order:edit") {
      return false;
    }
    return true;
  }

  /**
   * No principal built by from() passes the role rules: its only role name
   * is lowercase, and the rules ask for "ADMIN" or "MANAGER".
   */
  lemma RolePathsUnreachable(role: Role, path: string)
    requires StartsWithAny(path, ADMIN_PATHS) || StartsWithAny(path, MANAGER_PATHS)
    ensures !Authorized({RoleName(role)}, CalculatePermissions(role), path)
  {
  }

  /**
   * Away from the role prefixes, the resource rules split the roles as the
   * permission table does: admin passes everywhere, manager everywhere but
   * product deletion, and user nowhere a rule applies.
   */
  lemma ResourceRules(role: Role, path: string)
    requires !StartsWithAny(path, ADMIN_PATHS) && !StartsWithAny(path, MANAGER_PATHS)
    ensures var productDelete := StartsWith(path, "/products") && Contains(path, "/delete");
            var edit := (StartsWith(path, "/suppliers") || StartsWith(path, "/orders")) && Contains(path, "/edit");
            Authorized({RoleName(role)}, CalculatePermissions(role), path) <==>
              match role
              case admin => true
              case manager => !productDelete
              case user => !productDelete && !edit
  {
    assert AdminOnly("product:delete") by {
      assert "product:delete"[|"product:delete"| - 7..] == ":delete";
    }
    OnlyAdminGetsAdminPermissions(role, "product:delete");
    PermissionsNested();
  }

  /** What doFilter does with a request. */
  datatype Decision = PassOn | RedirectToLogin(location: string) | RedirectToAccessDenied(location: string)

  /**
   * doFilter: public paths pass first; then an inactive session redirects
   * to the login page carrying the path; then the path rules decide between
   * passing on and the access-denied page. Whether the session is active
   * (which depends on the session store and the clock) is a parameter; an
   * active session always holds a principal.
   */
  method DoFilter(contextPath: string, requestUri: string, sessionActive: bool, current: UserPrincipal?)
    returns (d: Decision)
    requires |contextPath| <= |requestUri|
    requires sessionActive ==> current != null
    ensures var path := GetRequestPath(contextPath, requestUri);
            if StartsWithAny(path, PUBLIC_PATHS) then d == PassOn
            else if !sessionActive then d == RedirectToLogin(contextPath + "/login?redirect=" + path)
            else if Authorized(current.roles, current.permissions, path) then d == PassOn
            else d == RedirectToAccessDenied(contextPath + "/access-denied")
  {
    var path := GetRequestPath(contextPath, requestUri);
    var isPublic := IsPublicPath(path);
    if isPublic {
      return PassOn;
    }
    if !sessionActive {
      return RedirectToLogin(contextPath + "/login?redirect=" + path);
    }
    var allowed := IsAuthorized(current, path);
    if !allowed {
      return RedirectToAccessDenied(contextPath + "/access-denied");
    }
    return PassOn;
  }
}
