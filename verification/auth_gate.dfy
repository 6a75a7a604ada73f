/**
 * The authentication gate in front of protected routes
 * (server/src/middlewares/auth.middleware.ts). The signature check of the
 * token library is a parameter: it answers with the decoded claim, with
 * null, or by throwing.
 */
module AuthGate {
  import opened Wrappers
  import opened Js
  import opened Http

  /** The identity a session token carries (`JwtPayload`). */
  datatype Claim = Claim(userId: string, username: string, email: string)

  /**
   * What `verifyToken(token)` does with a token. The helper in
   * server/src/helpers/jwt.ts catches every error of `jwt.verify` and
   * returns null, so `Threw` does not arise through it; it stands for any
   * other throw inside the gate's `try`, which the gate answers alike.
   */
  datatype Verdict = Verified(claim: Claim) | NotVerified | Threw

  /**
   * The gate's decision: `Halt` answers the request and never calls `next`;
   * `Next` attaches the principal as `req.user` and calls `next` once.
   */
  datatype GateResult = Halt(reply: Response<Claim>) | Next(principal: Claim)

  const NoTokenProvided := "No token provided"
  const InvalidOrExpiredToken := "Invalid or expired token"
  const AuthenticationFailed := "Authentication failed"

  /**
   * `authMiddleware`. `cookies` is None when the request has no parsed
   * cookie jar, so that reading `req.cookies.token` throws.
   */
  function Gate(cookies: Option<Obj>, verify: Value -> Verdict): (r: GateResult)
    ensures cookies.None? ==> r == Halt(Reply(401, AuthenticationFailed))
    ensures cookies.Some? && !Truthy(Get(cookies.value, "token")) ==> r == Halt(Reply(401, NoTokenProvided))
    ensures cookies.Some? && Truthy(Get(cookies.value, "token")) ==>
      match verify(Get(cookies.value, "token"))
      case Verified(c) => r == Next(c)
      case NotVerified => r == Halt(Reply(401, InvalidOrExpiredToken))
      case Threw => r == Halt(Reply(401, AuthenticationFailed))
  {
    if cookies.None? then Halt(Reply(401, AuthenticationFailed))
    else
      var token := Get(cookies.value, "token");
      if !Truthy(token) then Halt(Reply(401, NoTokenProvided))
      else
        match verify(token)
        case Threw => Halt(Reply(401, AuthenticationFailed))
        case NotVerified => Halt(Reply(401, InvalidOrExpiredToken))
        case Verified(c) => Next(c)
  }

  /** The cookie's token, when the request has a cookie jar and the token is truthy. */
  function PresentedToken(cookies: Option<Obj>): Option<Value>
  {
    if cookies.Some? && Truthy(Get(cookies.value, "token")) then Some(Get(cookies.value, "token")) else None
  }

  /**
   * The gate lets a request through exactly when a truthy cookie token
   * verifies, and the principal is then exactly the verified claim. Every
   * refusal is a 401 with one of the three fixed messages, never a 500.
   */
  lemma GateDecision(cookies: Option<Obj>, verify: Value -> Verdict)
    ensures Gate(cookies, verify).Next? <==>
      PresentedToken(cookies).Some? && verify(PresentedToken(cookies).value).Verified?
    ensures Gate(cookies, verify).Next? ==>
      Gate(cookies, verify).principal == verify(PresentedToken(cookies).value).claim
    ensures Gate(cookies, verify).Halt? ==>
      && Gate(cookies, verify).reply.status == 401
      && Gate(cookies, verify).reply.message in {NoTokenProvided, InvalidOrExpiredToken, AuthenticationFailed}
      && Gate(cookies, verify).reply.payload.None?
  {
  }
}
