/**
 * The token-check endpoint (src/app/api/auth/verify/route.ts): from the
 * request body and what token verification answers, to a status code and a
 * JSON body. Only the staff roles pass.
 */
module VerifyRoute {
  import opened Wrappers
  import opened Text

  /** The request body: a parsed `token` field (None when absent), or a body that is not JSON. */
  datatype VerifyRequest = TokenBody(token: Option<string>) | Unparsable(message: string)

  /** What token verification answers: the decoded uid and `role` claim, or an error with its message. */
  datatype Decoding = Decoded(uid: string, role: Option<string>) | Rejected(message: string)

  datatype VerifyBody = Refused(error: string) | Accepted(uid: string, role: string)

  datatype VerifyResponse = VerifyResponse(status: int, body: VerifyBody)

  const AllowedRoles: set<string> := {"admin", "funcionario"}

  const NoToken := "No token provided"
  const UnauthorizedRole := "Unauthorized role"
  const InvalidToken := "Invalid token"

  /** The role check: a role is present, non-empty and one of the staff roles. */
  predicate StaffRole(role: Option<string>) {
    role.Some? && role.value != "" && role.value in AllowedRoles
  }

  /** The message a failure carries: its own, or 'Invalid token' when that is empty. */
  function FailureMessage(message: string): (m: string)
    ensures m != ""
    ensures message != "" ==> m == message
    ensures message == "" ==> m == InvalidToken
  {
    if message != "" then message else InvalidToken
  }

  /** `POST /api/auth/verify`. */
  function Verify(req: VerifyRequest, decoding: Decoding): (r: VerifyResponse)
    ensures r.status in {200, 400, 401, 403}
    ensures r.status == 200 <==> r.body.Accepted?
    ensures r.status == 200 <==> req.TokenBody? && Filled(req.token) && decoding.Decoded? && StaffRole(decoding.role)
    ensures r.status == 200 ==> r.body == Accepted(decoding.uid, decoding.role.value)
    ensures req.TokenBody? && !Filled(req.token) ==> r == VerifyResponse(400, Refused(NoToken))
    ensures req.Unparsable? ==> r == VerifyResponse(401, Refused(FailureMessage(req.message)))
    ensures req.TokenBody? && Filled(req.token) && decoding.Rejected? ==>
      r == VerifyResponse(401, Refused(FailureMessage(decoding.message)))
    ensures req.TokenBody? && Filled(req.token) && decoding.Decoded? && !StaffRole(decoding.role) ==>
      r == VerifyResponse(403, Refused(UnauthorizedRole))
  {
    match req
    case Unparsable(message) => VerifyResponse(401, Refused(FailureMessage(message)))
    case TokenBody(token) =>
      if !Filled(token) then VerifyResponse(400, Refused(NoToken))
      else match decoding
        case Rejected(message) => VerifyResponse(401, Refused(FailureMessage(message)))
        case Decoded(uid, role) =>
          if !StaffRole(role) then VerifyResponse(403, Refused(UnauthorizedRole))
          else VerifyResponse(200, Accepted(uid, role.value))
  }

  /** Every refusal carries a non-empty error. */
  lemma RefusalsExplainThemselves(req: VerifyRequest, decoding: Decoding)
    ensures Verify(req, decoding).body.Refused? ==> Verify(req, decoding).body.error != ""
  {
  }
}
