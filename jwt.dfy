/** The JSON Web Token signer and verifier the company login and the
    bearer-token guard share. The signing library is foreign code: the model
    reaches it through the two functions of a `Signer` and states, in `Sound`,
    the properties of it that the routes rely on. */
module Jwt {
  import opened Common

  /** `expiresIn: '1h'`, in seconds. */
  const TokenLifetime: int := 3600

  /** The key used when `JWT_SECRET` is not set. */
  const FallbackSecret: string := "your_secret_key"

  /** `process.env.JWT_SECRET || 'your_secret_key'`: both the guard and the
      login route compute their key with this same expression. */
  function SigningKey(env: Option<string>): (k: string)
    ensures k != ""
    ensures Truthy(env) ==> k == env.value
    ensures !Truthy(env) ==> k == FallbackSecret
  {
    if Truthy(env) then env.value else FallbackSecret
  }

  /** The claims the login route signs. */
  datatype Payload = Payload(companyID: Id, email: string)

  /** The claims a verified token decodes to; `companyID` and `email` are
      absent when the signed payload did not carry them, `exp` when no
      lifetime was given. */
  datatype Claims = Claims(companyID: Option<Id>, email: Option<string>, iat: int, exp: Option<int>)

  /** `sign(payload, key, iat, lifetime)` and `verify(token, key, now)`;
      `verify` answers `None` where the library throws. */
  datatype Signer = Signer(
    sign: (Payload, string, int, int) -> string,
    verify: (string, string, int) -> Option<Claims>)

  /** The claims of a token signed at `iat` for `lifetime` seconds. */
  function MintedClaims(p: Payload, iat: int, lifetime: int): Claims {
    Claims(Some(p.companyID), Some(p.email), iat, Some(iat + lifetime))
  }

  /** A character of a compact-serialised token: base64url digits and the dot
      that separates header, payload and signature. */
  predicate TokenChar(ch: char) {
    ('A' <= ch <= 'Z') || ('a' <= ch <= 'z') || ('0' <= ch <= '9') || ch == '-' || ch == '_' || ch == '.'
  }

  predicate CompactSerialized(t: string) {
    '.' in t && forall i :: 0 <= i < |t| ==> TokenChar(t[i])
  }

  /** What the routes rely on: a token verifies under the key it was signed
      with, to the claims it was signed with, until it expires and never
      after; and tokens are compact-serialised. */
  ghost predicate Sound(sg: Signer) {
    && (forall p, key, iat, lifetime, now ::
          sg.verify(sg.sign(p, key, iat, lifetime), key, now)
          == if now < iat + lifetime then Some(MintedClaims(p, iat, lifetime)) else None)
    && (forall p, key, iat, lifetime :: CompactSerialized(sg.sign(p, key, iat, lifetime)))
  }

  /** A compact token contains no space, so no `"Bearer "` either. */
  lemma CompactHasNoSpace(t: string)
    requires CompactSerialized(t)
    ensures ' ' !in t && t != ""
  {
    forall i | 0 <= i < |t|
      ensures t[i] != ' '
    {
      assert TokenChar(t[i]);
    }
  }
}
