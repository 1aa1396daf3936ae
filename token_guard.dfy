/** `authenticateCompany`: the bearer-token middleware. It requires an
    `Authorization` header, removes the first `"Bearer "` from it, verifies
    what is left, and on success stores the token's `companyID` in
    `req.companyID`. It compares nothing with the path: the identity check is
    left to the handlers behind it. */
module TokenGuard {
  import opened Common
  import opened JsString
  import opened Jwt
  import opened Http

  const BearerPrefix: string := "Bearer "
  const NoTokenMessage: string := "Access denied. No token provided."
  const InvalidTokenMessage: string := "Invalid token"

  /** `token.replace('Bearer ', '')`: the string handed to the verifier. */
  function TokenOf(header: string): (t: string)
    ensures IndexOf(header, BearerPrefix).None? ==> t == header
    ensures IndexOf(header, BearerPrefix).Some? ==>
      var i := IndexOf(header, BearerPrefix).value;
      |t| == |header| - |BearerPrefix| && t == header[..i] + header[i + |BearerPrefix|..]
  {
    ReplaceFirst(header, BearerPrefix, "")
  }

  /** The guard's decision: admit with the decoded company (absent when the
      token's claims carry none), or deny with a 401. */
  datatype Admission = Admitted(companyID: Option<Id>) | Denied(response: Response)

  function Authenticate(header: Option<string>, sg: Signer, key: string, now: int): (a: Admission)
    ensures !Truthy(header) ==> a == Denied(Response(401, ErrorBody(NoTokenMessage)))
    ensures Truthy(header) && sg.verify(TokenOf(header.value), key, now).None? ==>
      a == Denied(Response(401, ErrorBody(InvalidTokenMessage)))
    ensures Truthy(header) && sg.verify(TokenOf(header.value), key, now).Some? ==>
      a == Admitted(sg.verify(TokenOf(header.value), key, now).value.companyID)
    ensures a.Denied? ==> a.response.status == 401
  {
    if !Truthy(header) then Denied(Response(401, ErrorBody(NoTokenMessage)))
    else match sg.verify(TokenOf(header.value), key, now)
      case None => Denied(Response(401, ErrorBody(InvalidTokenMessage)))
      case Some(decoded) => Admitted(decoded.companyID)
  }

  /** The middleware on a request: on admission it sets `req.companyID` and
      calls `next()`; on denial it answers and leaves the request as it was. */
  method AuthenticateCompany(req: Request, sg: Signer, key: string, now: int) returns (g: Gate)
    modifies req
    ensures var a := Authenticate(req.authorization, sg, key, now);
      && (a.Admitted? ==> g == Next && req.companyID == a.companyID)
      && (a.Denied? ==> g == Halt(a.response) && req.companyID == old(req.companyID))
  {
    var header := req.authorization;
    if !Truthy(header) {
      return Halt(Response(401, ErrorBody(NoTokenMessage)));
    }
    var decoded := sg.verify(TokenOf(header.value), key, now);
    if decoded.None? {
      return Halt(Response(401, ErrorBody(InvalidTokenMessage)));
    }
    req.companyID := decoded.value.companyID;
    g := Next;
  }

  /** A token signed for `p`, sent as `Bearer <token>` before it expires, is
      admitted with `p`'s company. */
  lemma {:induction false} BearerTokenAdmitted(sg: Signer, key: string, p: Payload, iat: int, now: int)
    requires Sound(sg)
    requires now < iat + TokenLifetime
    ensures Authenticate(Some(BearerPrefix + sg.sign(p, key, iat, TokenLifetime)), sg, key, now)
            == Admitted(Some(p.companyID))
  {
    var t := sg.sign(p, key, iat, TokenLifetime);
    ReplaceFirstAtStart(BearerPrefix, t, "");
    assert TokenOf(BearerPrefix + t) == t;
  }

  /** The same token sent without the prefix is admitted too: it contains no
      `"Bearer "`, so the guard passes it on unchanged. */
  lemma {:induction false} BareTokenAdmitted(sg: Signer, key: string, p: Payload, iat: int, now: int)
    requires Sound(sg)
    requires now < iat + TokenLifetime
    ensures Authenticate(Some(sg.sign(p, key, iat, TokenLifetime)), sg, key, now)
            == Admitted(Some(p.companyID))
  {
    var t := sg.sign(p, key, iat, TokenLifetime);
    CompactHasNoSpace(t);
    assert ' ' in BearerPrefix by { assert BearerPrefix[6] == ' '; }
    ReplaceFirstWithout(t, BearerPrefix, "", ' ');
  }

  /** Once its hour is over, the same token is denied as invalid, in either form. */
  lemma {:induction false} ExpiredTokenDenied(sg: Signer, key: string, p: Payload, iat: int, now: int)
    requires Sound(sg)
    requires now >= iat + TokenLifetime
    ensures Authenticate(Some(BearerPrefix + sg.sign(p, key, iat, TokenLifetime)), sg, key, now)
            == Denied(Response(401, ErrorBody(InvalidTokenMessage)))
    ensures Authenticate(Some(sg.sign(p, key, iat, TokenLifetime)), sg, key, now)
            == Denied(Response(401, ErrorBody(InvalidTokenMessage)))
  {
    var t := sg.sign(p, key, iat, TokenLifetime);
    ReplaceFirstAtStart(BearerPrefix, t, "");
    CompactHasNoSpace(t);
    assert ' ' in BearerPrefix by { assert BearerPrefix[6] == ' '; }
    ReplaceFirstWithout(t, BearerPrefix, "", ' ');
  }
}
