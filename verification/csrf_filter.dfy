/**
 * CsrfFilter: state-changing requests outside the exempt prefixes must
 * carry the session's CSRF token, as the _csrf parameter or, when that is
 * missing or empty, as the X-CSRF-TOKEN header. The session's token is a
 * parameter (it lives in the session store).
 */
module CsrfFilter {
  import opened Wrappers
  import opened JavaText
  import AuthenticationFilter

  /** The methods that are checked. */
  const PROTECTED_METHODS: set<string> := {"POST", "PUT", "DELETE", "PATCH"}

  /** Prefixes with no check. */
  const CSRF_EXEMPT_PATHS: seq<string> := ["/api/", "/login", "/logout"]

  const SC_FORBIDDEN := 403
  const FAILURE_MESSAGE := "CSRF token validation failed"

  /** isCsrfExemptPath: some exempt entry is a prefix of the path. */
  method IsCsrfExemptPath(path: string) returns (b: bool)
    ensures b <==> StartsWithAny(path, CSRF_EXEMPT_PATHS)
  {
    for i := 0 to |CSRF_EXEMPT_PATHS|
      invariant forall j :: 0 <= j < i ==> !StartsWith(path, CSRF_EXEMPT_PATHS[j])
    {
      if StartsWith(path, CSRF_EXEMPT_PATHS[i]) {
        return true;
      }
    }
    return false;
  }

  /** The token validateCsrfToken checks: the parameter, or the header when the parameter is null or empty. */
  function RequestToken(parameter: Option<string>, header: Option<string>): (t: Option<string>)
    ensures parameter.Some? && parameter.value != "" ==> t == parameter
    ensures parameter.None? || parameter.value == "" ==> t == header
  {
    if parameter.None? || parameter.value == "" then header else parameter
  }

  /** SessionManager.validateCsrfToken: both tokens present and equal. */
  predicate TokenMatches(sessionToken: Option<string>, requestToken: Option<string>)
    ensures TokenMatches(sessionToken, requestToken) <==> sessionToken.Some? && sessionToken == requestToken
  {
    sessionToken.Some? && requestToken.Some? && sessionToken.value == requestToken.value
  }

  /** What doFilter does with a request. */
  datatype Decision = PassOn | SendError(status: int, message: string)

  /**
   * doFilter: only a protected method on a non-exempt path is checked, and
   * a failed check answers 403 without passing the request on.
   */
  method DoFilter(httpMethod: string, contextPath: string, requestUri: string,
                  parameter: Option<string>, header: Option<string>, sessionToken: Option<string>)
    returns (d: Decision)
    requires |contextPath| <= |requestUri|
    ensures var path := AuthenticationFilter.GetRequestPath(contextPath, requestUri);
            d != PassOn <==> httpMethod in PROTECTED_METHODS && !StartsWithAny(path, CSRF_EXEMPT_PATHS)
                             && !TokenMatches(sessionToken, RequestToken(parameter, header))
    ensures d != PassOn ==> d == SendError(SC_FORBIDDEN, FAILURE_MESSAGE)
  {
    if httpMethod in PROTECTED_METHODS {
      var path := AuthenticationFilter.GetRequestPath(contextPath, requestUri);
      var exempt := IsCsrfExemptPath(path);
      if !exempt && !TokenMatches(sessionToken, RequestToken(parameter, header)) {
        return SendError(SC_FORBIDDEN, FAILURE_MESSAGE);
      }
    }
    return PassOn;
  }

  /**
   * A non-empty parameter shadows the header: a wrong parameter fails even
   * with the right header, and the header is used only in its absence.
   * Without a session token, no checked request passes.
   */
  lemma TokenSources(sessionToken: Option<string>, parameter: Option<string>, header: Option<string>)
    ensures parameter.Some? && parameter.value != "" ==>
              (TokenMatches(sessionToken, RequestToken(parameter, header)) <==> sessionToken == parameter)
    ensures parameter.None? || parameter.value == "" ==>
              (TokenMatches(sessionToken, RequestToken(parameter, header)) <==> sessionToken.Some? && sessionToken == header)
    ensures sessionToken.None? ==> !TokenMatches(sessionToken, RequestToken(parameter, header))
  {
  }

  /**
   * An example of the constants at work, not a further decision: GET is
   * not a protected method, and paths under /login and /logout are exempt,
   * so DoFilter passes such requests on whatever the tokens.
   */
  lemma UncheckedRequests(httpMethod: string, path: string)
    ensures httpMethod == "GET" ==> httpMethod !in PROTECTED_METHODS
    ensures StartsWith(path, "/login") || StartsWith(path, "/logout") ==> StartsWithAny(path, CSRF_EXEMPT_PATHS)
  {
    if StartsWith(path, "/login") {
      assert StartsWith(path, CSRF_EXEMPT_PATHS[1]);
    }
    if StartsWith(path, "/logout") {
      assert StartsWith(path, CSRF_EXEMPT_PATHS[2]);
    }
  }
}
