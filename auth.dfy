/**
 * The bearer-token gate of src/middlewares/auth.ts: check the `authorization`
 * header, strip the scheme, verify the token, and either reject through
 * `next(err)` or attach the decoded payload to `req.user` and call `next()`.
 */
module Auth {
  import opened Wrappers
  import opened Errors
  import opened JsString
  import opened Jwt

  const BEARER_PREFIX: string := "Bearer "

  /** The key the gate verifies with. */
  const GATE_SECRET: string := "some-secret-key"

  const MSG_AUTH_REQUIRED: string := "Необходима авторизация"
  const MSG_SIGN_IN: string := "Авторизуйтесь для выполнения"

  /** The gate's decision: pass with a payload, or reject with an error. */
  datatype Verdict = Pass(claims: Claims) | Reject(error: Err)

  /** `authorization && authorization.startsWith("Bearer ")`: undefined and "" are falsy. */
  predicate HasBearer(authorization: Option<string>) {
    authorization.Some? && authorization.value != "" && StartsWith(authorization.value, BEARER_PREFIX)
  }

  /** `authorization.replace("Bearer ", "")` */
  function TokenOf(authorization: string): string {
    ReplaceFirst(authorization, BEARER_PREFIX, "")
  }

  /**
   * The gate as a decision. It passes exactly when the header has the bearer
   * shape and the verifier accepts the stripped token under GATE_SECRET, and then
   * with the verifier's payload; every rejection is an Unauthorized error.
   */
  function Gate(authorization: Option<string>, verify: Verifier): (v: Verdict)
    ensures v.Pass? <==> HasBearer(authorization) && verify(TokenOf(authorization.value), GATE_SECRET).Some?
    ensures v.Pass? ==> Some(v.claims) == verify(TokenOf(authorization.value), GATE_SECRET)
    ensures v.Reject? ==> StatusCode(v.error) == UNAUTHORIZED
    ensures !HasBearer(authorization) ==> v == Reject(Unauthorized(Some(MSG_AUTH_REQUIRED)))
  {
    if !HasBearer(authorization) then
      Reject(NewUnauthorizedError(Some(MSG_AUTH_REQUIRED)))
    else
      match verify(TokenOf(authorization.value), GATE_SECRET)
      case None => Reject(NewUnauthorizedError(Some(MSG_SIGN_IN)))
      case Some(payload) => Pass(payload)
  }

  /** The token handed to `verify` is the header with its first seven characters dropped. */
  lemma TokenIsHeaderTail(authorization: string)
    requires HasBearer(Some(authorization))
    ensures TokenOf(authorization) == authorization[7..]
  {
    ReplacePrefix(authorization, BEARER_PREFIX, "");
  }

  /**
   * A header `"Bearer " + t` is judged on `t` alone: it passes with whatever the
   * verifier decodes from `t`, and otherwise is refused with the sign-in message.
   */
  lemma GateJudgesToken(t: string, verify: Verifier)
    ensures Gate(Some(BEARER_PREFIX + t), verify) ==
      match verify(t, GATE_SECRET)
      case Some(c) => Pass(c)
      case None => Reject(Unauthorized(Some(MSG_SIGN_IN)))
  {
    var h := BEARER_PREFIX + t;
    StripPrepended(BEARER_PREFIX, t);
    TokenIsHeaderTail(h);
  }

  /** No header, an empty one, or another scheme (wrong case, no space) are all refused before any token is read. */
  lemma GateRefusesMalformedHeaders(verify: Verifier, t: string)
    ensures Gate(None, verify) == Reject(Unauthorized(Some(MSG_AUTH_REQUIRED)))
    ensures Gate(Some(""), verify) == Reject(Unauthorized(Some(MSG_AUTH_REQUIRED)))
    ensures Gate(Some("bearer " + t), verify) == Reject(Unauthorized(Some(MSG_AUTH_REQUIRED)))
    ensures Gate(Some("Bearer"), verify) == Reject(Unauthorized(Some(MSG_AUTH_REQUIRED)))
  {
    assert ("bearer " + t)[0] == 'b';
  }

  /** The request object the gate mutates: its header and the optional `req.user`. */
  class SessionRequest {
    const authorization: Option<string>
    var user: Option<Claims>

    constructor (authorization: Option<string>)
      ensures this.authorization == authorization && user == None
    {
      this.authorization := authorization;
      user := None;
    }

    /**
     * `auth(req, res, next)`. `forwarded` is the argument of the one `next` call
     * (None for `next()`). `req.user` is assigned only when the gate passes.
     */
    method Authenticate(verify: Verifier) returns (forwarded: Option<Err>)
      modifies this`user
      ensures Gate(authorization, verify).Pass? ==>
        forwarded == None && user == Some(Gate(authorization, verify).claims)
      ensures Gate(authorization, verify).Reject? ==>
        forwarded == Some(Gate(authorization, verify).error) && user == old(user)
    {
      if authorization.None? || authorization.value == "" || !StartsWith(authorization.value, BEARER_PREFIX) {
        return Some(NewUnauthorizedError(Some(MSG_AUTH_REQUIRED)));
      }
      var token := ReplaceFirst(authorization.value, BEARER_PREFIX, "");
      var payload := verify(token, GATE_SECRET);
      if payload.None? {
        var newError := NewUnauthorizedError(Some(MSG_SIGN_IN));
        return Some(newError);
      }
      user := payload;
      forwarded := None;
    }
  }
}
