/**
 * server/middleware/auth.js: `authMiddleware` authenticates the bearer token
 * and stores the decoded claims in `req.user`; `instructorAuthMiddleware`
 * runs it with a continuation that also demands the instructor role. Both
 * verify with `process.env.JWT_SECRET` alone, without the fallback secret
 * the login route signs with.
 */
module Middleware {
  import opened Js
  import opened Jwt
  import opened Http

  /** `authMiddleware(req, res, next)`: `reply` is what it sends, `next`
      whether it calls its continuation (exactly when it sends nothing). */
  method AuthMiddleware(req: Request, decode: Decoder, env: Option<string>) returns (reply: Option<Reply>, next: bool)
    modifies req`user
    ensures var a := Authenticate(req.authorization, decode, StrictSecret(env));
            && (a.NoToken? ==> reply == Some(Reply(401, "No token, authorization denied")))
            && (a.BadToken? ==> reply == Some(Reply(401, "Token is not valid")))
            && (next <==> a.Decoded?)
            && (reply.None? <==> next)
            && req.user == (if a.Decoded? then Some(a.claims) else old(req.user))
  {
    var token := ExtractToken(req.authorization);
    if token.None? {
      return Some(Reply(401, "No token, authorization denied")), false;
    }
    var decoded := decode(token.value, StrictSecret(env));
    if decoded.None? {
      return Some(Reply(401, "Token is not valid")), false;
    }
    req.user := decoded;
    reply, next := None, true;
  }

  /** `instructorAuthMiddleware(req, res, next)`: the outcome is the instructor
      gate's; `req.user` is written as soon as the token decodes, even when
      the role check then refuses. */
  method InstructorAuthMiddleware(req: Request, decode: Decoder, env: Option<string>) returns (reply: Option<Reply>, next: bool)
    modifies req`user
    ensures var g := Gate(req.authorization, decode, StrictSecret(env), "instructor");
            && (g.Missing? ==> reply == Some(Reply(401, "No token, authorization denied")))
            && (g.Invalid? ==> reply == Some(Reply(401, "Token is not valid")))
            && (g.Forbidden? ==> reply == Some(Reply(403, "Access denied. Not an instructor.")))
            && (next <==> g.Admitted?)
            && (reply.None? <==> next)
    ensures var a := Authenticate(req.authorization, decode, StrictSecret(env));
            req.user == (if a.Decoded? then Some(a.claims) else old(req.user))
  {
    var passed;
    reply, passed := AuthMiddleware(req, decode, env);
    next := false;
    if passed {
      if req.user.value.role != Str("instructor") {
        reply := Some(Reply(403, "Access denied. Not an instructor."));
      } else {
        next := true;
      }
    }
  }

  /** Without `JWT_SECRET` in the environment the middleware passes `undefined`
      to `jwt.verify`, so whether a token gets in is the library's decision
      alone. With a library that throws on a falsy secret it admits no
      token, not even one the login route signed with its fallback secret. */
  lemma NoSecretNoEntry(header: Option<string>, decode: Decoder, env: Option<string>)
    requires env.None? || env.value == ""
    requires forall t: string :: decode(t, None).None?
    ensures Authenticate(header, decode, StrictSecret(env)) ==
            if ExtractToken(header).None? then NoToken else BadToken
  {
  }

  /** With a library that decodes a token without a secret (releases of
      jsonwebtoken up to 8.5.1 accept an unsigned token that way) the
      middleware admits whatever claims that token carries. */
  lemma NoSecretTrustsTheLibrary(header: Option<string>, decode: Decoder, env: Option<string>, claims: Claims)
    requires env.None? || env.value == ""
    requires ExtractToken(header).Some? && decode(ExtractToken(header).value, None) == Some(claims)
    ensures Authenticate(header, decode, StrictSecret(env)) == Decoded(claims)
  {
  }
}
