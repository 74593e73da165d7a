/** Sequences of engine calls on a fresh refresh-token collection, and what
    each call returns: the multi-call properties of the session engine. */
module AuthScenarios {
  import opened Wrappers
  import opened External
  import opened RefreshTokenModel
  import opened SessionStore
  import opened AuthService

  /** A fresh collection after issuing a session with `p1` at `t0` and
      rotating it into `p2` at `t1`, while the first session is unexpired:
      the retired record, linked to its successor, and the successor. */
  method IssueAndRotate(ext: Services, user: UserId, meta: Meta, p1: TokenPair, p2: TokenPair,
                        t0: Time, t1: Time)
    returns (store: Store, issued: Result<TokenPair, AuthError>, rotated: Result<TokenPair, AuthError>)
    requires ext.hashToken(p1.refreshToken) != ext.hashToken(p2.refreshToken)
    requires ext.verifyRefreshToken(p1.refreshToken, t1).Some?
    requires t0 <= t1 < t0 + RefreshLifetime
    ensures fresh(store) && store.Valid()
    ensures issued == Ok(p1) && rotated == Ok(p2)
    ensures var h2 := ext.hashToken(p2.refreshToken);
      store.records == [Rotated(IssuedRecord(ext, ext.hashToken(p1.refreshToken), user, meta, t0), h2, t1),
                        IssuedRecord(ext, h2, user, meta, t1)]
  {
    store := new Store();
    issued := CreateToken(store, ext, user, meta, p1, t0);
    rotated := RotateRefreshToken(store, ext, p1.refreshToken, meta, p2, t1);
  }

  /** Issue a pair, rotate it, present the first refresh token again while
      its signature still verifies, then rotate the successor: the replay is
      refused as not active and the successor still rotates. */
  method IssueRotateReplay(ext: Services, user: UserId, meta: Meta,
                           p1: TokenPair, p2: TokenPair, p3: TokenPair,
                           t0: Time, t1: Time, t2: Time)
    returns (issued: Result<TokenPair, AuthError>, rotated: Result<TokenPair, AuthError>,
             replayed: Result<TokenPair, AuthError>, rotatedAgain: Result<TokenPair, AuthError>)
    requires ext.hashToken(p1.refreshToken) != ext.hashToken(p2.refreshToken)
    requires ext.hashToken(p3.refreshToken) !in {ext.hashToken(p1.refreshToken), ext.hashToken(p2.refreshToken)}
    requires t0 <= t1 <= t2 < t0 + RefreshLifetime
    requires ext.verifyRefreshToken(p1.refreshToken, t1).Some?
    requires ext.verifyRefreshToken(p1.refreshToken, t2).Some?
    requires ext.verifyRefreshToken(p2.refreshToken, t2).Some?
    ensures issued == Ok(p1) && rotated == Ok(p2)
    ensures replayed == Err(NotActive)
    ensures rotatedAgain == Ok(p3)
  {
    var store;
    store, issued, rotated := IssueAndRotate(ext, user, meta, p1, p2, t0, t1);
    replayed := RotateRefreshToken(store, ext, p1.refreshToken, meta, p3, t2);
    rotatedAgain := RotateRefreshToken(store, ext, p2.refreshToken, meta, p3, t2);
  }

  /** A fresh collection after issuing one session of `user`. */
  method IssueOne(ext: Services, user: UserId, meta: Meta, a: TokenPair, now: Time)
    returns (store: Store)
    ensures fresh(store) && store.Valid()
    ensures store.records == [IssuedRecord(ext, ext.hashToken(a.refreshToken), user, meta, now)]
  {
    store := new Store();
    var _ := CreateToken(store, ext, user, meta, a, now);
  }

  /** A fresh collection after issuing two sessions of `user` and then one
      of `other`, all with distinct digests: the three records in order. */
  method IssueThree(ext: Services, user: UserId, other: UserId, meta: Meta,
                    a: TokenPair, b: TokenPair, c: TokenPair, now: Time)
    returns (store: Store)
    requires ext.hashToken(a.refreshToken) != ext.hashToken(b.refreshToken)
    requires ext.hashToken(c.refreshToken) !in {ext.hashToken(a.refreshToken), ext.hashToken(b.refreshToken)}
    ensures fresh(store) && store.Valid()
    ensures store.records == [IssuedRecord(ext, ext.hashToken(a.refreshToken), user, meta, now),
                              IssuedRecord(ext, ext.hashToken(b.refreshToken), user, meta, now),
                              IssuedRecord(ext, ext.hashToken(c.refreshToken), other, meta, now)]
  {
    store := new Store();
    var _ := CreateToken(store, ext, user, meta, a, now);
    var _ := CreateToken(store, ext, user, meta, b, now);
    var _ := CreateToken(store, ext, other, meta, c, now);
  }

  /** The collection of `IssueThree` after `user`'s sessions are revoked:
      nothing of `user` is left to revoke, one session of `other` is. */
  lemma ReuseOfTwoAmongThree(ra: Record, rb: Record, rc: Record, user: UserId, other: UserId, now: Time)
    requires ra.user == user && rb.user == user && rc.user == other && user != other
    requires ra.revoked.None? && rb.revoked.None? && rc.revoked.None?
    ensures var after := [Revoked(ra, now), Revoked(rb, now), rc];
      && RevokeMatching([ra, rb, rc], ByUser(user), now) == after
      && Count(after, ByUser(user)) == 0
      && RevokeMatching(after, ByUser(user), now) == after
      && Count(after, ByUser(other)) == 1
  {
    var after := [Revoked(ra, now), Revoked(rb, now), rc];
    CountOfNoMatches(after, ByUser(user));
    assert after[..2] == [Revoked(ra, now), Revoked(rb, now)];
    CountOfNoMatches(after[..2], ByUser(other));
  }

  /** Two sessions of `user` and one of `other`; a verified refresh token of
      `user` that was never stored is presented. Reuse is detected, and a
      logout-all afterwards finds no session of `user` left to revoke while
      `other`'s session is still there. */
  method ReuseRevokesOnlyTheSubject(ext: Services, user: UserId, other: UserId, meta: Meta,
                                    a: TokenPair, b: TokenPair, c: TokenPair,
                                    forged: Token, minted: TokenPair, now: Time)
    returns (outcome: Result<TokenPair, AuthError>, leftForUser: nat, leftForOther: nat)
    requires user != "" && user != other
    requires ext.hashToken(a.refreshToken) != ext.hashToken(b.refreshToken)
    requires ext.hashToken(c.refreshToken) !in {ext.hashToken(a.refreshToken), ext.hashToken(b.refreshToken)}
    requires ext.hashToken(forged) !in
      {ext.hashToken(a.refreshToken), ext.hashToken(b.refreshToken), ext.hashToken(c.refreshToken)}
    requires ext.verifyRefreshToken(forged, now) == Some(Payload(Some(user), None))
    ensures outcome == Err(ReuseDetected)
    ensures leftForUser == 0 && leftForOther == 1
  {
    var store := IssueThree(ext, user, other, meta, a, b, c, now);
    ghost var ra := IssuedRecord(ext, ext.hashToken(a.refreshToken), user, meta, now);
    ghost var rb := IssuedRecord(ext, ext.hashToken(b.refreshToken), user, meta, now);
    ghost var rc := IssuedRecord(ext, ext.hashToken(c.refreshToken), other, meta, now);
    outcome := RotateRefreshToken(store, ext, forged, meta, minted, now);
    ghost var afterReuse := [Revoked(ra, now), Revoked(rb, now), rc];
    ReuseOfTwoAmongThree(ra, rb, rc, user, other, now);
    leftForUser := RevokeAllRefreshTokens(store, user, now);
    leftForOther := RevokeAllRefreshTokens(store, other, now);
  }

  /** A verified token without a subject triggers the reuse failure but
      revokes nothing. */
  method ReuseWithoutSubjectRevokesNothing(ext: Services, user: UserId, meta: Meta,
                                           a: TokenPair, forged: Token, minted: TokenPair, now: Time)
    returns (outcome: Result<TokenPair, AuthError>, left: nat)
    requires ext.hashToken(forged) != ext.hashToken(a.refreshToken)
    requires ext.verifyRefreshToken(forged, now) == Some(Payload(None, None))
    ensures outcome == Err(ReuseDetected)
    ensures left == 1
  {
    var store := IssueOne(ext, user, meta, a, now);
    ghost var ra := IssuedRecord(ext, ext.hashToken(a.refreshToken), user, meta, now);
    outcome := RotateRefreshToken(store, ext, forged, meta, minted, now);
    assert store.records == [ra];
    assert Count([ra], ByUser(user)) == 1 by {
      assert [ra][..0] == [];
    }
    left := RevokeAllRefreshTokens(store, user, now);
  }

  /** Logout-all after two issues counts both sessions; a second logout-all
      counts none, and neither old refresh token rotates any more. */
  method LogoutAllIsIdempotent(ext: Services, user: UserId, meta: Meta,
                               a: TokenPair, b: TokenPair, minted: TokenPair, now: Time)
    returns (first: nat, second: nat, retriedA: Result<TokenPair, AuthError>,
             retriedB: Result<TokenPair, AuthError>)
    requires ext.hashToken(a.refreshToken) != ext.hashToken(b.refreshToken)
    requires ext.verifyRefreshToken(a.refreshToken, now).Some?
    requires ext.verifyRefreshToken(b.refreshToken, now).Some?
    ensures first == 2 && second == 0
    ensures retriedA == Err(NotActive) && retriedB == Err(NotActive)
  {
    var store := new Store();
    var _ := CreateToken(store, ext, user, meta, a, now);
    var _ := CreateToken(store, ext, user, meta, b, now);
    ghost var ra := IssuedRecord(ext, ext.hashToken(a.refreshToken), user, meta, now);
    ghost var rb := IssuedRecord(ext, ext.hashToken(b.refreshToken), user, meta, now);
    assert store.records == [ra, rb];
    assert Count(store.records, ByUser(user)) == 2 by {
      assert [ra, rb][..1] == [ra];
      assert [ra][..0] == [];
      assert Matches(ByUser(user), ra) && Matches(ByUser(user), rb);
      assert Count([ra], ByUser(user)) == 1;
    }
    first := RevokeAllRefreshTokens(store, user, now);
    ghost var loggedOut := RevokeMatching([ra, rb], ByUser(user), now);
    assert store.records == loggedOut;
    RevokeMatchingIsIdempotent([ra, rb], ByUser(user), now, now);
    second := RevokeAllRefreshTokens(store, user, now);
    assert store.records == loggedOut == [Revoked(ra, now), Revoked(rb, now)];
    retriedA := RotateRefreshToken(store, ext, a.refreshToken, meta, minted, now);
    assert store.records == loggedOut;
    retriedB := RotateRefreshToken(store, ext, b.refreshToken, meta, minted, now);
  }

  /** Logout reports a change once; a second logout, or a logout with a token
      that was never issued, reports none, and the logged-out token no longer
      rotates. */
  method LogoutOnce(ext: Services, user: UserId, meta: Meta,
                    a: TokenPair, unknown: Token, minted: TokenPair, now: Time)
    returns (first: bool, second: bool, stranger: bool, retried: Result<TokenPair, AuthError>)
    requires ext.hashToken(unknown) != ext.hashToken(a.refreshToken)
    requires ext.verifyRefreshToken(a.refreshToken, now).Some?
    ensures first && !second && !stranger
    ensures retried == Err(NotActive)
  {
    var store := IssueOne(ext, user, meta, a, now);
    first := RevokeRefreshToken(store, ext, a.refreshToken, now);
    second := RevokeRefreshToken(store, ext, a.refreshToken, now);
    stranger := RevokeRefreshToken(store, ext, unknown, now);
    retried := RotateRefreshToken(store, ext, a.refreshToken, meta, minted, now);
  }

  /** On any store: after a successful rotation, presenting the same refresh
      token again, at any later instant at which its signature still
      verifies, is refused as not active. */
  method ReplayAfterRotationIsNotActive(store: Store, ext: Services, presented: Token, meta: Meta,
                                        minted: TokenPair, again: TokenPair, now: Time, later: Time)
    returns (first: Result<TokenPair, AuthError>, second: Result<TokenPair, AuthError>)
    requires store.Valid()
    requires ext.verifyRefreshToken(presented, later).Some?
    modifies store
    ensures store.Valid()
    ensures first.Ok? ==> second == Err(NotActive)
  {
    ghost var before := store.records;
    ghost var h := ext.hashToken(presented);
    first := RotateRefreshToken(store, ext, presented, meta, minted, now);
    if first.Ok? {
      ghost var k := Find(before, h).value;
      ghost var h' := ext.hashToken(minted.refreshToken);
      RotationRetiresPresentedToken(before, h, IssuedRecord(ext, h', before[k].user, meta, now), now, later);
    }
    second := RotateRefreshToken(store, ext, presented, meta, again, later);
  }

  /** A rotated-away refresh token whose record the TTL monitor has already
      removed is presented. The record's `expiresAt` and the token's `exp`
      come from the same lifetime, so by the time the record is due the
      signature has expired too: the call fails verification before any
      lookup, and the successor's session is left alone. */
  method PurgedTokenFailsVerification(ext: Services, user: UserId, meta: Meta,
                                      p1: TokenPair, p2: TokenPair, minted: TokenPair,
                                      t0: Time, t1: Time, t2: Time)
    returns (outcome: Result<TokenPair, AuthError>, left: nat)
    requires ext.hashToken(p1.refreshToken) != ext.hashToken(p2.refreshToken)
    requires SignedAt(ext, p1.refreshToken, t0)
    requires ext.verifyRefreshToken(p1.refreshToken, t1).Some?
    requires t0 <= t1 < t0 + RefreshLifetime
    requires t0 + RefreshLifetime <= t2 < t1 + RefreshLifetime
    ensures outcome == Err(InvalidRefreshToken)
    ensures left == 1
  {
    var store, _, _ := IssueAndRotate(ext, user, meta, p1, p2, t0, t1);
    ghost var h2 := ext.hashToken(p2.refreshToken);
    ghost var r1 := Rotated(IssuedRecord(ext, ext.hashToken(p1.refreshToken), user, meta, t0), h2, t1);
    ghost var r2 := IssuedRecord(ext, h2, user, meta, t1);
    store.Purge(t2);
    assert store.records == [r2] by {
      assert [r1, r2][..1] == [r1];
      assert [r1][..0] == [];
      assert TtlDue(r1, t2) && !TtlDue(r2, t2);
      assert Unexpired([r1], t2) == [];
    }
    outcome := RotateRefreshToken(store, ext, p1.refreshToken, meta, minted, t2);
    assert store.records == [r2];
    assert Count([r2], ByUser(user)) == 1 by {
      assert [r2][..0] == [];
    }
    left := RevokeAllRefreshTokens(store, user, t2);
  }
}
