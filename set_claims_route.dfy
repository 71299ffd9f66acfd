/**
 * The claims endpoint (src/app/api/auth/setClaims/route.ts): looks the user
 * up, takes the stored role or 'ciudadano', and writes it as the `role`
 * claim. The lookup and the claim write are answers passed in.
 */
module SetClaimsRoute {
  import opened Wrappers
  import opened Text
  import VerifyRoute

  /** The request body: the parsed `uid`, or a body that is not JSON. */
  datatype ClaimsRequest = UidBody(uid: string) | Unparsable

  /** What the user-document lookup answers. */
  datatype UserLookup = Missing | Found(role: Option<string>) | LookupThrew

  datatype RoleClaim = RoleClaim(uid: string, role: string)

  datatype ClaimsBody = Failure(error: string) | ClaimsSet(message: string, role: string)

  /** The response, and the claim written, if any. */
  datatype ClaimsOutcome = ClaimsOutcome(status: int, body: ClaimsBody, claim: Option<RoleClaim>)

  const DefaultRole := "ciudadano"
  const UserNotFound := "User not found"
  const ServerError := "Internal Server Error"
  const ClaimsSetMessage := "Claims set successfully"

  /** `POST /api/auth/setClaims`; `written` says whether the claim write succeeds. */
  function SetClaims(req: ClaimsRequest, lookup: UserLookup, written: bool): (r: ClaimsOutcome)
    ensures r.status in {200, 404, 500}
    ensures r.status == 200 <==> r.claim.Some?
    ensures r.status == 200 <==> req.UidBody? && lookup.Found? && written
    ensures r.claim.Some? ==>
      r.claim.value == RoleClaim(req.uid, OrElse(lookup.role, DefaultRole))
      && r.body == ClaimsSet(ClaimsSetMessage, r.claim.value.role)
    ensures req.UidBody? && lookup.Missing? ==> r == ClaimsOutcome(404, Failure(UserNotFound), None)
    ensures r.status == 500 <==> r == ClaimsOutcome(500, Failure(ServerError), None)
    ensures r.status == 500 <==> req.Unparsable? || lookup.LookupThrew? || (lookup.Found? && !written)
  {
    match req
    case Unparsable => ClaimsOutcome(500, Failure(ServerError), None)
    case UidBody(uid) =>
      match lookup
      case Missing => ClaimsOutcome(404, Failure(UserNotFound), None)
      case LookupThrew => ClaimsOutcome(500, Failure(ServerError), None)
      case Found(stored) =>
        var role := OrElse(stored, DefaultRole);
        if written then ClaimsOutcome(200, ClaimsSet(ClaimsSetMessage, role), Some(RoleClaim(uid, role)))
        else ClaimsOutcome(500, Failure(ServerError), None)
  }

  /** A written claim is never empty: an absent or empty stored role becomes 'ciudadano'. */
  lemma WrittenRoleIsNeverEmpty(req: ClaimsRequest, lookup: UserLookup, written: bool)
    ensures SetClaims(req, lookup, written).claim.Some? ==> SetClaims(req, lookup, written).claim.value.role != ""
    ensures lookup.Found? && !Filled(lookup.role) && SetClaims(req, lookup, written).claim.Some? ==>
      SetClaims(req, lookup, written).claim.value.role == DefaultRole
  {
  }

  /**
   * Claims and verify together: a user stored without a role is given
   * 'ciudadano', and a token carrying that claim is refused with 403.
   */
  lemma DefaultRoleIsRefusedByVerify(uid: string, token: string, written: bool)
    requires token != "" && written
    ensures
      var r := SetClaims(UidBody(uid), Found(None), written);
      r.claim.Some?
      && VerifyRoute.Verify(VerifyRoute.TokenBody(Some(token)), VerifyRoute.Decoded(uid, Some(r.claim.value.role))).status == 403
  {
    assert DefaultRole !in VerifyRoute.AllowedRoles;
  }
}
