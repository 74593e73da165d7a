/** The collaborators the session engine calls but does not own: the JWT
    helpers of src/utils/jwt.js (SHA-256 token hashing, HS256 refresh-token
    verification) and the `sanitize-html` library. None of them is modelled
    cryptographically; the engine receives each as a function value. */
module External {
  import opened Wrappers

  /** Milliseconds since the epoch, as JavaScript's `Date.now()`. */
  type Time = nat

  /** `ms(refreshTokenExpiry)` with the default `REFRESH_TOKEN_EXPIRY` of
      `'7d'`, in milliseconds: both the signed refresh token's `expiresIn`
      and the stored record's lifetime. */
  const RefreshLifetime: nat := 604_800_000

  /** A raw signed token, as the client holds it. */
  type Token = string

  /** The hex digest of a raw token: the only form in which a refresh token
      is ever stored. */
  type Digest = string

  /** The claims of a verified refresh token. The engine reads only `sub`;
      `email` is carried because the signer embeds it. */
  datatype Payload = Payload(sub: Option<string>, email: Option<string>)

  /** The collaborators: `hashToken` is deterministic (it is a function),
      `verifyRefreshToken(token, now)` yields the claims of a token whose
      signature, issuer, audience and expiry check out at `now` and `None`
      where jsonwebtoken throws, and `sanitize` strips every tag and
      attribute. */
  datatype Services = Services(
    hashToken: Token -> Digest,
    verifyRefreshToken: (Token, Time) -> Option<Payload>,
    sanitize: string -> string)

  /** A refresh token signed at `signedAt` carries `iat = floor(signedAt /
      1000)` and `exp = iat + RefreshLifetime / 1000` (seconds), and
      jsonwebtoken refuses it once the clock in seconds reaches `exp`; so from
      `signedAt + RefreshLifetime` on it never verifies. */
  ghost predicate SignedAt(ext: Services, token: Token, signedAt: Time) {
    forall t :: signedAt + RefreshLifetime <= t ==> ext.verifyRefreshToken(token, t).None?
  }

  /** The pair of freshly signed tokens handed back to the client. */
  datatype TokenPair = TokenPair(accessToken: Token, refreshToken: Token)
}
