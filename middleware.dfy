/**
 * The route gate (src/middleware.ts): paths under "/home" need a session
 * token that the verify endpoint accepts; everything else passes untouched.
 * The endpoint's answer is an argument: its status, or a failed fetch.
 */
module Middleware {
  import opened Wrappers
  import opened Text
  import opened Params
  import opened VerifyRoute

  /** A redirect target: a path and its query parameters. */
  datatype Location = Location(path: string, query: seq<Pair>)

  /**
   * The gate's answer: let the request through, or redirect, possibly
   * deleting the session cookie on the way.
   */
  datatype GateResponse = Next | Redirect(location: Location, clearsSession: bool)

  /** What calling the verify endpoint gives: a response status, or a fetch that threw. */
  datatype VerifyCall = Responded(status: int) | FetchFailed

  /** The prefix test of the gate; it also catches paths such as "/homework". */
  predicate IsProtected(pathname: string) {
    StartsWith(pathname, "/home")
  }

  /** `response.ok`. */
  predicate Ok(status: int) {
    200 <= status <= 299
  }

  /** "/login" with `returnUrl` set to the path that was asked for. */
  function LoginRedirect(pathname: string): (l: Location)
    ensures l.path == "/login"
    ensures Get(l.query, "returnUrl") == Some(pathname)
  {
    Location("/login", [Pair("returnUrl", pathname)])
  }

  /**
   * `middleware`. The redirect built when the status is not ok is discarded
   * (the source throws right after), so that case ends in the catch branch
   * like a failed fetch.
   */
  function Gate(pathname: string, token: Option<string>, verify: VerifyCall): (r: GateResponse)
    ensures !IsProtected(pathname) ==> r == Next
    ensures IsProtected(pathname) && !Filled(token) ==> r == Redirect(LoginRedirect(pathname), false)
    ensures IsProtected(pathname) && Filled(token) ==> (r == Next <==> verify.Responded? && Ok(verify.status))
    ensures r.Redirect? ==> r.location == LoginRedirect(pathname)
    ensures r.Redirect? ==> (r.clearsSession <==> Filled(token))
  {
    if !IsProtected(pathname) then Next
    else if !Filled(token) then Redirect(LoginRedirect(pathname), false)
    else match verify
      case Responded(status) =>
        if !Ok(status) then Redirect(LoginRedirect(pathname), true) else Next
      case FetchFailed => Redirect(LoginRedirect(pathname), true)
  }

  /**
   * Gate and endpoint together: a protected path is let through exactly when
   * a token is present, it decodes, and it carries a staff role.
   */
  lemma GateAdmitsOnlyStaff(pathname: string, token: Option<string>, decoding: Decoding)
    requires IsProtected(pathname)
    ensures
      var status := Verify(TokenBody(token), decoding).status;
      Gate(pathname, token, Responded(status)) == Next <==>
        Filled(token) && decoding.Decoded? && StaffRole(decoding.role)
  {
    var status := Verify(TokenBody(token), decoding).status;
    assert Ok(status) <==> status == 200;
  }

  /** The gate never looks past the path for an unprotected route: token and verify answer do not matter. */
  lemma UnprotectedIgnoresSession(pathname: string, t1: Option<string>, v1: VerifyCall, t2: Option<string>, v2: VerifyCall)
    requires !IsProtected(pathname)
    ensures Gate(pathname, t1, v1) == Gate(pathname, t2, v2)
  {
  }
}
