/** The persisted session record of src/models/RefreshToken.js: its fields,
    the defaults and required fields the schema applies on insert, and the
    two derived (non-persisted) predicates `isExpired` and `isActive`. */
module RefreshTokenModel {
  import opened Wrappers
  import opened External

  /** A user's ObjectId in its hex string form. */
  type UserId = string

  /** A stored refresh-token record. `None` is the schema's `null`. */
  datatype Record = Record(
    tokenHash: Digest,
    user: UserId,
    createdAt: Time,
    expiresAt: Option<Time>,
    revoked: Option<Time>,
    replacedByHash: Option<Digest>,
    ip: Option<string>,
    userAgent: Option<string>)

  /** The document handed to `RefreshToken.create`: a field left `undefined`
      is `None`. */
  datatype Draft = Draft(
    tokenHash: Option<Digest>,
    user: Option<UserId>,
    expiresAt: Option<Time>,
    ip: Option<string>,
    userAgent: Option<string>)

  /** Schema validation and defaults: `tokenHash`, `user` and `expiresAt` are
      required; `createdAt` defaults to the insertion time; `revoked`,
      `replacedByHash`, `ip` and `userAgent` default to `null`. */
  function FromDraft(d: Draft, now: Time): (r: Option<Record>)
    ensures r.Some? <==> d.tokenHash.Some? && d.user.Some? && d.expiresAt.Some?
    ensures r.Some? ==>
      && r.value.tokenHash == d.tokenHash.value
      && r.value.user == d.user.value
      && r.value.expiresAt == d.expiresAt
      && r.value.createdAt == now
      && r.value.revoked.None?
      && r.value.replacedByHash.None?
      && r.value.ip == d.ip
      && r.value.userAgent == d.userAgent
  {
    if d.tokenHash.None? || d.user.None? || d.expiresAt.None? then None
    else Some(Record(d.tokenHash.value, d.user.value, now, d.expiresAt,
                     None, None, d.ip, d.userAgent))
  }

  /** The instant from which the record is expired; a missing `expiresAt`
      counts as time 0. */
  function ExpiryOf(r: Record): Time {
    r.expiresAt.GetOr(0)
  }

  /** The `isExpired` virtual. */
  predicate IsExpired(r: Record, now: Time) {
    now >= ExpiryOf(r)
  }

  /** The `isActive` virtual: neither revoked nor expired. */
  predicate IsActive(r: Record, now: Time) {
    r.revoked.None? && !IsExpired(r, now)
  }

  /** A record is active exactly while it is unrevoked and strictly before a
      recorded expiry. */
  lemma ActiveCharacterization(r: Record, now: Time)
    ensures IsActive(r, now) <==>
      r.revoked.None? && r.expiresAt.Some? && now < r.expiresAt.value
  {
  }

  /** A record without `expiresAt` is expired at every instant. */
  lemma MissingExpiryIsExpired(r: Record, now: Time)
    requires r.expiresAt.None?
    ensures IsExpired(r, now)
  {
  }

  /** Expiry is permanent: once expired, expired at every later instant. */
  lemma ExpiryIsPermanent(r: Record, t: Time, later: Time)
    requires t <= later && IsExpired(r, t)
    ensures IsExpired(r, later)
  {
  }

  /** Revocation is permanent: a record whose `revoked` is set is never active,
      whatever the clock says. */
  lemma RevokedIsNeverActive(r: Record, now: Time)
    requires r.revoked.Some?
    ensures !IsActive(r, now)
  {
  }
}
