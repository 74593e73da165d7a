/** The session engine of src/services/auth.service.js: issuing a token pair,
    rotating a refresh token with reuse detection, logout and logout-all,
    each against the refresh-token collection. The clock (`new Date()`,
    `Date.now()`) is the parameter `now`, one instant per call; the freshly
    signed pair (whose `jti` is a new uuid each time) is the parameter
    `minted`. */
module AuthService {
  import opened Wrappers
  import opened External
  import opened RefreshTokenModel
  import opened SessionStore

  /** Longest stored `userAgent` and `ip`. */
  const UserAgentLimit: nat := 255
  const IpLimit: nat := 45

  /** A request metadata field: a string, or anything else JavaScript may
      hand over (`undefined`, `null`, a number, ...). */
  datatype MetaValue = Str(s: string) | NonString

  /** The `meta` argument; a missing `meta` has both fields `NonString`. */
  datatype Meta = Meta(ip: MetaValue, userAgent: MetaValue)

  /** `s.slice(0, n)`. */
  function Truncate(s: string, n: nat): (r: string)
    ensures |r| <= n && r <= s
    ensures |s| <= n ==> r == s
    ensures |s| > n ==> |r| == n
  {
    if |s| <= n then s else s[..n]
  }

  /** `safeUserAgent`: `'unknown'` for a falsy or non-string value (the empty
      string is falsy), otherwise the sanitized text cut to 255 characters. */
  function SafeUserAgent(sanitize: string -> string, ua: MetaValue): (r: string)
    ensures |r| <= UserAgentLimit
    ensures (ua.NonString? || ua.s == "") ==> r == "unknown"
    ensures ua.Str? && ua.s != "" ==>
      && r <= sanitize(ua.s)
      && (|sanitize(ua.s)| <= UserAgentLimit ==> r == sanitize(ua.s))
      && (|sanitize(ua.s)| > UserAgentLimit ==> |r| == UserAgentLimit)
  {
    if ua.NonString? || ua.s == "" then "unknown"
    else Truncate(sanitize(ua.s), UserAgentLimit)
  }

  /** The stored `ip`: a string cut to 45 characters; anything else is left
      `undefined`, which the schema turns into `null`. */
  function ClientIp(ip: MetaValue): (r: Option<string>)
    ensures r.Some? <==> ip.Str?
    ensures r.Some? ==> |r.value| <= IpLimit && r.value <= ip.s
    ensures r.Some? && |ip.s| <= IpLimit ==> r.value == ip.s
    ensures r.Some? && |ip.s| > IpLimit ==> |r.value| == IpLimit
  {
    match ip
    case Str(s) => Some(Truncate(s, IpLimit))
    case NonString => None
  }

  /** The document `createToken` hands to `RefreshToken.create`. */
  function IssueDraft(ext: Services, h: Digest, user: UserId, meta: Meta, now: Time): Draft {
    Draft(Some(h), Some(user), Some(now + RefreshLifetime),
          ClientIp(meta.ip), Some(SafeUserAgent(ext.sanitize, meta.userAgent)))
  }

  /** The record `createToken` stores for the refresh token with digest `h`:
      accepted by the schema, owned by `user`, active until the refresh
      lifetime has passed, with bounded metadata. */
  function IssuedRecord(ext: Services, h: Digest, user: UserId, meta: Meta, now: Time): (r: Record)
    ensures FromDraft(IssueDraft(ext, h, user, meta, now), now) == Some(r)
    ensures r.tokenHash == h && r.user == user && r.createdAt == now
    ensures r.expiresAt == Some(now + RefreshLifetime)
    ensures r.revoked.None? && r.replacedByHash.None?
    ensures forall t :: now <= t < now + RefreshLifetime ==> IsActive(r, t)
    ensures r.ip.Some? ==> |r.ip.value| <= IpLimit
    ensures r.userAgent.Some? && |r.userAgent.value| <= UserAgentLimit
  {
    FromDraft(IssueDraft(ext, h, user, meta, now), now).value
  }

  /** `payload?.sub` is truthy: present and not the empty string. */
  predicate HasSubject(p: Payload) {
    p.sub.Some? && p.sub.value != ""
  }

  /** The old record after a successful rotation: revoked at `now` and linked
      to its successor's digest. */
  function Rotated(r: Record, successor: Digest, now: Time): Record {
    r.(revoked := Some(now), replacedByHash := Some(successor))
  }

  /** After a successful rotation the presented digest still leads to the old
      record, which is now revoked and so never active again: presenting the
      same refresh token a second time is refused as not active rather than
      accepted or treated as reuse. The successor is the only record with its
      digest. */
  lemma RotationRetiresPresentedToken(rs: seq<Record>, h: Digest, successor: Record, now: Time, later: Time)
    requires UniqueHashes(rs)
    requires Find(rs, h).Some?
    requires Find(rs, successor.tokenHash).None?
    ensures var k := Find(rs, h).value;
      var after := rs[k := Rotated(rs[k], successor.tokenHash, now)] + [successor];
      && UniqueHashes(after)
      && Find(after, h) == Some(k)
      && !IsActive(after[k], later)
      && after[k].replacedByHash == Some(successor.tokenHash)
      && Find(after, successor.tokenHash) == Some(|rs|)
  {
    var k := Find(rs, h).value;
    var updated := rs[k := Rotated(rs[k], successor.tokenHash, now)];
    FindAfterOverwrite(rs, k, Rotated(rs[k], successor.tokenHash, now), h);
    FindAfterOverwrite(rs, k, Rotated(rs[k], successor.tokenHash, now), successor.tokenHash);
    FindAfterAppend(updated, successor, h);
    assert forall i :: 0 <= i < |rs| ==> updated[i].tokenHash == rs[i].tokenHash;
    AppendFreshKeepsUnique(updated, successor);
    var after := updated + [successor];
    assert after[|rs|] == successor;
  }

  /** The outcomes the engine throws. The first three are the refresh
      endpoint's credential failures; a store failure propagates as is. */
  datatype AuthError =
    | InvalidRefreshToken
    | ReuseDetected
    | NotActive
    | StoreFailure(cause: StoreError)

  predicate IsCredentialFailure(e: AuthError) {
    !e.StoreFailure?
  }

  /** A thrown error as the central error handler reads it: `status` and
      `statusCode` are absent (`None`) unless set on the object. */
  datatype ThrownError = ThrownError(message: string, status: Option<nat>, statusCode: Option<nat>)

  /** `err.status || err.statusCode || 500`: the first of the two that is
      set and not 0 (0 is falsy), otherwise 500. */
  function ResponseStatus(err: ThrownError): (status: nat)
    ensures err.status.Some? && err.status.value != 0 ==> status == err.status.value
    ensures (err.status.None? || err.status.value == 0) && err.statusCode.Some? && err.statusCode.value != 0 ==>
      status == err.statusCode.value
    ensures (err.status.None? || err.status.value == 0) && (err.statusCode.None? || err.statusCode.value == 0) ==>
      status == 500
    ensures status != 0
  {
    if err.status.Some? && err.status.value != 0 then err.status.value
    else if err.statusCode.Some? && err.statusCode.value != 0 then err.statusCode.value
    else 500
  }

  /** The error objects as the service builds them. For an invalid token it
      calls `new Error(message, {cause, status: 401})`: the options argument
      of the `Error` constructor only carries `cause`, so `status` is never
      set on the thrown object. Store errors carry no status either. */
  function ThrownAsWritten(e: AuthError): ThrownError {
    match e
    case InvalidRefreshToken => ThrownError("Invalid refresh token", None, None)
    case ReuseDetected => ThrownError("Refresh token reuse detected, all sessions revoked", Some(401), None)
    case NotActive => ThrownError("Refresh token not active", Some(401), None)
    case StoreFailure(_) => ThrownError("store error", None, None)
  }

  /** As written, a refresh token that fails verification is answered with
      500, not with the 401 the code spells out. */
  lemma InvalidTokenAnswers500AsWritten()
    ensures ResponseStatus(ThrownAsWritten(InvalidRefreshToken)) == 500
    ensures ResponseStatus(ThrownAsWritten(ReuseDetected)) == 401
  {
  }

  /** The error objects with `status: 401` set on the invalid-token error as
      intended. */
  function Thrown(e: AuthError): (err: ThrownError)
    ensures e != InvalidRefreshToken ==> err == ThrownAsWritten(e)
  {
    match e
    case InvalidRefreshToken => ThrownError("Invalid refresh token", Some(401), None)
    case _ => ThrownAsWritten(e)
  }

  /** Every credential failure of rotation is answered 401; store failures
      500. */
  lemma CredentialFailuresAnswer401(e: AuthError)
    ensures IsCredentialFailure(e) <==> ResponseStatus(Thrown(e)) == 401
  {
  }

  /** `createToken`: store the digest of the new refresh token and hand back
      the pair. Exactly one record is added, and nothing else changes; if the
      digest is already stored the unique index refuses the insert. */
  method CreateToken(store: Store, ext: Services, user: UserId, meta: Meta, minted: TokenPair, now: Time)
    returns (res: Result<TokenPair, AuthError>)
    requires store.Valid()
    modifies store
    ensures store.Valid()
    ensures Find(old(store.records), ext.hashToken(minted.refreshToken)).Some? ==>
      res == Err(StoreFailure(DuplicateKey)) && store.records == old(store.records)
    ensures Find(old(store.records), ext.hashToken(minted.refreshToken)).None? ==>
      && res == Ok(minted)
      && store.records == old(store.records) +
           [IssuedRecord(ext, ext.hashToken(minted.refreshToken), user, meta, now)]
    ensures RevocationsKept(old(store.records), store.records)
  {
    var h := ext.hashToken(minted.refreshToken);
    var created := store.Create(IssueDraft(ext, h, user, meta, now), now);
    if created.Err? {
      return Err(StoreFailure(created.error));
    }
    res := Ok(minted);
  }

  /** `rotateRefreshToken`. Verification failure touches nothing; a verified
      token whose digest is not stored is treated as reuse and revokes every
      unrevoked record of its subject (expired ones included); a stored but
      inactive record is refused without further effect; an active record is
      revoked and linked to a newly issued successor. The revocation is only
      written by the final save, after the successor is stored, so a failed
      issue leaves the old record untouched. */
  method RotateRefreshToken(store: Store, ext: Services, presented: Token, meta: Meta,
                            minted: TokenPair, now: Time)
    returns (res: Result<TokenPair, AuthError>)
    requires store.Valid()
    modifies store
    ensures store.Valid()
    ensures ext.verifyRefreshToken(presented, now).None? ==>
      res == Err(InvalidRefreshToken) && store.records == old(store.records)
    ensures var p := ext.verifyRefreshToken(presented, now);
      p.Some? && Find(old(store.records), ext.hashToken(presented)).None? ==>
      && res == Err(ReuseDetected)
      && store.records == if HasSubject(p.value)
                          then RevokeMatching(old(store.records), ByUser(p.value.sub.value), now)
                          else old(store.records)
    ensures var k := Find(old(store.records), ext.hashToken(presented));
      ext.verifyRefreshToken(presented, now).Some? && k.Some? &&
      !IsActive(old(store.records)[k.value], now) ==>
      res == Err(NotActive) && store.records == old(store.records)
    ensures var k := Find(old(store.records), ext.hashToken(presented));
      var h' := ext.hashToken(minted.refreshToken);
      ext.verifyRefreshToken(presented, now).Some? && k.Some? &&
      IsActive(old(store.records)[k.value], now) && Find(old(store.records), h').Some? ==>
      res == Err(StoreFailure(DuplicateKey)) && store.records == old(store.records)
    ensures var k := Find(old(store.records), ext.hashToken(presented));
      var h' := ext.hashToken(minted.refreshToken);
      ext.verifyRefreshToken(presented, now).Some? && k.Some? &&
      IsActive(old(store.records)[k.value], now) && Find(old(store.records), h').None? ==>
      var was := old(store.records)[k.value];
      && res == Ok(minted)
      && store.records == old(store.records)[k.value := Rotated(was, h', now)] +
                          [IssuedRecord(ext, h', was.user, meta, now)]
    ensures RevocationsKept(old(store.records), store.records)
  {
    UnchangedKeepsRevocations(store.records);
    var payload := ext.verifyRefreshToken(presented, now);
    if payload.None? {
      return Err(InvalidRefreshToken);
    }
    var h := ext.hashToken(presented);
    var existing := store.FindOne(h);
    if existing.None? {
      if HasSubject(payload.value) {
        var _ := store.UpdateMany(payload.value.sub.value, now);
      }
      return Err(ReuseDetected);
    }
    var doc := existing.value;
    if !IsActive(doc, now) {
      return Err(NotActive);
    }
    ghost var k := Find(store.records, h).value;
    ghost var before := store.records;
    // revoked in memory only; written by the save below
    doc := doc.(revoked := Some(now));
    var issued := CreateToken(store, ext, doc.user, meta, minted, now);
    if issued.Err? {
      return issued;
    }
    doc := doc.(replacedByHash := Some(ext.hashToken(minted.refreshToken)));
    FindAfterAppend(before, store.records[|before|], h);
    OverwriteKeepsRevocations(before, k, doc);
    AppendKeepsRevocations(before, before[k := doc], store.records[|before|]);
    // cannot fail: the record was found above and nothing has removed it
    var _ := store.Save(doc);
    assert store.records == before[k := doc] + [store.records[|before|]];
    res := issued;
  }

  /** `revokeRefreshToken` (logout): no verification; revoke the record with
      the presented token's digest if it is not revoked yet (expired or not),
      and report whether a record changed. No other record changes. */
  method RevokeRefreshToken(store: Store, ext: Services, presented: Token, now: Time)
    returns (revoked: bool)
    requires store.Valid()
    modifies store
    ensures store.Valid()
    ensures revoked <==>
      exists r :: r in old(store.records) && r.tokenHash == ext.hashToken(presented) && r.revoked.None?
    ensures store.records == RevokeMatching(old(store.records), ByTokenHash(ext.hashToken(presented)), now)
    ensures RevocationsKept(old(store.records), store.records)
  {
    var h := ext.hashToken(presented);
    RevokeFirstByHashIsRevokeMatching(store.records, h, now);
    UniqueHashSelectsAtMostOne(store.records, h);
    var modified := store.UpdateOne(h, now);
    revoked := modified == 1;
  }

  /** `revokeAllRefreshTokens` (logout-all): revoke every unrevoked record of
      `user`, expired or not, and report how many changed. Afterwards no
      record of `user` is unrevoked and every other user's record is as it
      was. */
  method RevokeAllRefreshTokens(store: Store, user: UserId, now: Time)
    returns (count: nat)
    requires store.Valid()
    modifies store
    ensures store.Valid()
    ensures count == Count(old(store.records), ByUser(user))
    ensures store.records == RevokeMatching(old(store.records), ByUser(user), now)
    ensures |store.records| == |old(store.records)|
    ensures forall i :: 0 <= i < |store.records| && store.records[i].user == user ==>
      store.records[i].revoked.Some?
    ensures forall i :: 0 <= i < |store.records| && old(store.records)[i].user != user ==>
      store.records[i] == old(store.records)[i]
    ensures RevocationsKept(old(store.records), store.records)
  {
    count := store.UpdateMany(user, now);
  }
}
