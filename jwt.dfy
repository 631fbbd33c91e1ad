/**
 * Bearer tokens as the server handles them. Signing and verifying (signature,
 * expiry as in section 4.1.4 of RFC 7519) belong to the JWT library and are
 * oracles here: a token is the record handed to `jwt.sign`, `Encoder` turns it
 * into the compact string and a `Decoder` is `jwt.verify`, answering `None`
 * whenever that call would throw.
 */
module Jwt {
  import opened Js

  /** The decoded payload; only `id` and `role` are read by the server.
      A missing claim reads as `Undefined`. */
  datatype Claims = Claims(id: Value, role: Value)

  /** What `jwt.sign(claims, secret, { expiresIn })` is asked to produce. */
  datatype Token = Token(claims: Claims, secret: string, expiresIn: string)

  type Encoder = Token -> string

  /** `jwt.verify(token, secret)`: the payload, or `None` if it throws. The
      secret is `None` when the caller passes `undefined` or `''`; what the
      library then does depends on its version, so the decoder decides. */
  type Decoder = (string, Option<string>) -> Option<Claims>

  /** The decoder of a file that never imports `jwt`: every call to
      `jwt.verify` throws a ReferenceError. */
  const Unbound: Decoder := (token: string, secret: Option<string>) => None

  /** `process.env.JWT_SECRET || 'your-secret-key'`, used at issuance and by
      most verifiers. */
  function SecretOrDefault(env: Option<string>): (s: string)
    ensures env.Some? && env.value != "" ==> s == env.value
    ensures env.None? || env.value == "" ==> s == "your-secret-key"
  {
    if env.Some? && env.value != "" then env.value else "your-secret-key"
  }

  /** `process.env.JWT_SECRET` with no fallback: `None` when it is undefined
      or empty, the two falsy secrets the library treats alike. */
  function StrictSecret(env: Option<string>): (s: Option<string>)
    ensures s.Some? <==> env.Some? && env.value != ""
    ensures s.Some? ==> s.value == env.value
  {
    if env.Some? && env.value != "" then env else None
  }

  /** `req.headers.authorization?.split(' ')[1]`, where an empty piece
      counts as no token (`!token`). */
  function ExtractToken(header: Option<string>): (t: Option<string>)
    ensures header.None? ==> t.None?
    ensures t.Some? ==> t.value != "" && ' ' !in t.value
  {
    match header
    case None => None
    case Some(h) =>
      var pieces := Split(h);
      if |pieces| < 2 || pieces[1] == "" then None else Some(pieces[1])
  }

  /** The scheme word is never checked: any space-free first word followed by
      one space and a space-free token yields that token, whatever follows
      after a further space. */
  lemma SchemeWordIgnored(word: string, token: string, rest: string)
    requires ' ' !in word && ' ' !in token && token != ""
    requires rest == "" || rest[0] == ' '
    ensures ExtractToken(Some(word + " " + token + rest)) == Some(token)
  {
    assert word + " " + token + rest == word + " " + (token + rest);
    SplitAfterWord(word, token + rest);
    SplitFirstPiece(token, rest);
  }

  /** A header without a space carries no token. */
  lemma NoSpaceNoToken(h: string)
    requires ' ' !in h
    ensures ExtractToken(Some(h)) == None
  {
    SplitWord(h);
  }

  /** A header whose first space is followed by another space or by nothing
      (`"Bearer"` + `" "`, `"Bearer  t"`) carries no token. */
  lemma EmptySecondPieceNoToken(word: string, rest: string)
    requires ' ' !in word
    requires rest == "" || rest[0] == ' '
    ensures ExtractToken(Some(word + " " + rest)) == None
  {
    SplitAfterWord(word, rest);
    assert "" + rest == rest;
    SplitFirstPiece("", rest);
  }

  /** The three steps every gate shares: extract, then decode. */
  datatype Authentication = NoToken | BadToken | Decoded(claims: Claims)

  function Authenticate(header: Option<string>, decode: Decoder, secret: Option<string>): (a: Authentication)
    ensures a.NoToken? <==> ExtractToken(header).None?
    ensures a.Decoded? ==> decode(ExtractToken(header).value, secret) == Some(a.claims)
    ensures a.BadToken? <==> ExtractToken(header).Some? && decode(ExtractToken(header).value, secret).None?
  {
    match ExtractToken(header)
    case None => NoToken
    case Some(t) =>
      match decode(t, secret)
      case None => BadToken
      case Some(c) => Decoded(c)
  }

  /** The outcome of a role gate: 401 for a missing token, 401 for a token
      the library rejects, 403 for the wrong role, or admission with the claims. */
  datatype GateOutcome = Missing | Invalid | Forbidden | Admitted(claims: Claims)

  /** A role gate: authenticate, then compare the `role` claim strictly
      (`!==`) with the required role. */
  function Gate(header: Option<string>, decode: Decoder, secret: Option<string>, required: string): (g: GateOutcome)
    ensures g.Missing? <==> Authenticate(header, decode, secret).NoToken?
    ensures g.Invalid? <==> Authenticate(header, decode, secret).BadToken?
    ensures g.Forbidden? <==> (Authenticate(header, decode, secret).Decoded? &&
                               Authenticate(header, decode, secret).claims.role != Str(required))
    ensures g.Admitted? ==> g.claims == Authenticate(header, decode, secret).claims && g.claims.role == Str(required)
  {
    match Authenticate(header, decode, secret)
    case NoToken => Missing
    case BadToken => Invalid
    case Decoded(c) => if c.role != Str(required) then Forbidden else Admitted(c)
  }

  /** With `jwt` unbound, a gate can only say "no token" or "invalid token". */
  lemma UnboundNeverAdmits(header: Option<string>, secret: Option<string>, required: string)
    ensures Gate(header, Unbound, secret, required) ==
            if ExtractToken(header).None? then Missing else Invalid
  {
  }

  /** A token that decodes to claims with role `r` passes exactly the gate that requires `r`. */
  lemma GateAdmitsOnlyItsRole(header: Option<string>, decode: Decoder, secret: Option<string>, required: string, other: string)
    requires Gate(header, decode, secret, required).Admitted?
    requires other != required
    ensures Gate(header, decode, secret, other) == Forbidden
  {
  }
}
