/**
 * SecurityTag: the JSP tag that shows its body only to a principal that
 * meets the one criterion it is given. A non-empty hasRole decides alone;
 * otherwise a non-empty hasAnyRole (a comma-separated list whose entries
 * are trimmed); otherwise a non-empty hasPermission; with none set, and
 * with no principal in the session, the body is skipped.
 */
module SecurityTag {
  import opened JavaText
  import opened Principals
  import opened Store

  /** Tag.SKIP_BODY and Tag.EVAL_BODY_INCLUDE. */
  const SKIP_BODY := 0
  const EVAL_BODY_INCLUDE := 1

  /** The tag's attributes; an attribute left unset (null) is written "", which the tag treats alike. */
  datatype Attributes = Attributes(hasRole: string, hasAnyRole: string, hasPermission: string)

  /** The entry, trimmed, is one of `roles`. */
  predicate TrimmedIn(entry: string, roles: set<string>)
  {
    Trim(entry) in roles
  }

  /** Some entry, trimmed, is one of `roles`. */
  predicate SomeTrimmedIn(entries: seq<string>, roles: set<string>)
  {
    exists i :: 0 <= i < |entries| && TrimmedIn(entries[i], roles)
  }

  /** Some entry of the comma-separated list, trimmed, is one of `roles`. */
  predicate ListsRole(list: string, roles: set<string>)
  {
    SomeTrimmedIn(Split(list, ','), roles)
  }

  /** The criterion evaluateAccess applies to a principal's role names and permissions. */
  predicate Allows(roles: set<string>, permissions: set<string>, a: Attributes)
  {
    if a.hasRole != "" then a.hasRole in roles
    else if a.hasAnyRole != "" then ListsRole(a.hasAnyRole, roles)
    else a.hasPermission != "" && a.hasPermission in permissions
  }

  /**
   * evaluateAccess: no principal means no access; the first non-empty
   * attribute decides, the role list by an early-return loop over its
   * trimmed entries.
   */
  method EvaluateAccess(current: UserPrincipal?, a: Attributes) returns (allowed: bool)
    ensures current == null ==> !allowed
    ensures current != null ==> (allowed <==> Allows(current.roles, current.permissions, a))
  {
    if current == null {
      return false;
    }
    if a.hasRole != "" {
      return current.HasRole(a.hasRole);
    }
    if a.hasAnyRole != "" {
      allowed := HasListedRole(current, Split(a.hasAnyRole, ','));
      return;
    }
    if a.hasPermission != "" {
      return current.HasPermission(a.hasPermission);
    }
    return false;
  }

  /** The loop over the split role list: true at the first trimmed entry that is a role of `current`. */
  method HasListedRole(current: UserPrincipal, entries: seq<string>) returns (b: bool)
    ensures b <==> SomeTrimmedIn(entries, current.roles)
  {
    for i := 0 to |entries|
      invariant forall j :: 0 <= j < i ==> !TrimmedIn(entries[j], current.roles)
    {
      if current.HasRole(Trim(entries[i])) {
        return true;
      }
    }
    return false;
  }

  /** doStartTag: the body is included exactly when access is allowed. */
  method DoStartTag(current: UserPrincipal?, a: Attributes) returns (r: int)
    ensures r == EVAL_BODY_INCLUDE || r == SKIP_BODY
    ensures r == EVAL_BODY_INCLUDE <==> current != null && Allows(current.roles, current.permissions, a)
  {
    var allowed := EvaluateAccess(current, a);
    r := if allowed then EVAL_BODY_INCLUDE else SKIP_BODY;
  }

  /**
   * A hasRole criterion decides alone, whatever else is set; a tag with no
   * criterion shows nothing.
   */
  lemma RoleCriterionFirst(roles: set<string>, permissions: set<string>, a: Attributes)
    ensures a.hasRole != "" ==> (Allows(roles, permissions, a) <==> Allows(roles, permissions, Attributes(a.hasRole, "", "")))
    ensures a.hasRole == "" && a.hasAnyRole == "" && a.hasPermission == "" ==> !Allows(roles, permissions, a)
  {
  }

  /**
   * For a principal built by from(), a role criterion must name the role in
   * lowercase: "admin" shows the body to admins only, "ADMIN" to nobody.
   */
  lemma RoleNamesAreLowercase(role: Role, a: Attributes)
    requires a.hasRole != ""
    ensures Allows({RoleName(role)}, CalculatePermissions(role), a) <==> a.hasRole == RoleName(role)
    ensures a.hasRole == "ADMIN" ==> !Allows({RoleName(role)}, CalculatePermissions(role), a)
  {
  }

  /** Entries of a role list are trimmed before they are compared: "user, admin" admits an admin. */
  lemma RoleListTrimsEntries()
    ensures Allows({"admin"}, {}, Attributes("", "user, admin", ""))
  {
    SplitUserAdmin();
    TrimAdmin();
    assert TrimmedIn(Split("user, admin", ',')[1], {"admin"});
  }

  lemma SplitUserAdmin()
    ensures Split("user, admin", ',') == ["user", " admin"]
  {
    assert "user, admin" == Join(["user", " admin"], ',') + Repeat(',', 0);
    SplitJoin(["user", " admin"], 0, ',');
  }

  lemma TrimAdmin()
    ensures Trim(" admin") == "admin"
  {
    assert " admin"[1..] == "admin";
    assert TrimLeading("admin") == "admin";
    assert TrimLeading(" admin") == "admin";
    assert TrimTrailing("admin") == "admin";
  }
}
