/** The refresh-token collection as the engine uses it: the unique index on
    `tokenHash`, `findOne`, `create`, `save`, the two conditional updates
    (`updateOne` / `updateMany` with `{revoked: null, ...}` and
    `$set: {revoked: now}`) and the TTL index on `expiresAt`.

    The first half states what each operation does as functions over the
    sequence of stored records; the class `Store` below performs them step by
    step and is proved against those functions. */
module SessionStore {
  import opened Wrappers
  import opened External
  import opened RefreshTokenModel

  /** What the unique index on `tokenHash` guarantees. */
  ghost predicate UniqueHashes(rs: seq<Record>) {
    forall i, j :: 0 <= i < |rs| && 0 <= j < |rs| && rs[i].tokenHash == rs[j].tokenHash ==> i == j
  }

  /** The position of the first record with digest `h`, if any. */
  function Find(rs: seq<Record>, h: Digest): (k: Option<nat>)
    ensures k.Some? ==> k.value < |rs| && rs[k.value].tokenHash == h
    ensures k.Some? ==> forall i :: 0 <= i < k.value ==> rs[i].tokenHash != h
    ensures k.None? ==> forall i :: 0 <= i < |rs| ==> rs[i].tokenHash != h
  {
    if |rs| == 0 then None
    else if rs[0].tokenHash == h then Some(0)
    else match Find(rs[1..], h)
      case None => None
      case Some(j) => Some(j + 1)
  }

  /** The document `findOne({tokenHash: h})` returns. */
  function Lookup(rs: seq<Record>, h: Digest): Option<Record> {
    match Find(rs, h)
    case None => None
    case Some(k) => Some(rs[k])
  }

  /** The two update filters the engine issues; both also demand
      `revoked: null`. */
  datatype Filter = ByTokenHash(h: Digest) | ByUser(u: UserId)

  predicate Matches(f: Filter, r: Record) {
    && r.revoked.None?
    && match f
       case ByTokenHash(h) => r.tokenHash == h
       case ByUser(u) => r.user == u
  }

  /** The update `$set: {revoked: now}`. */
  function Revoked(r: Record, now: Time): Record {
    r.(revoked := Some(now))
  }

  /** `updateMany(filter, {$set: {revoked: now}})`. */
  function RevokeMatching(rs: seq<Record>, f: Filter, now: Time): seq<Record> {
    seq(|rs|, i requires 0 <= i < |rs| => if Matches(f, rs[i]) then Revoked(rs[i], now) else rs[i])
  }

  /** The position of the first record the filter selects. */
  function FirstMatch(rs: seq<Record>, f: Filter): (k: Option<nat>)
    ensures k.Some? ==> k.value < |rs| && Matches(f, rs[k.value])
    ensures k.Some? ==> forall i :: 0 <= i < k.value ==> !Matches(f, rs[i])
    ensures k.None? ==> forall i :: 0 <= i < |rs| ==> !Matches(f, rs[i])
  {
    if |rs| == 0 then None
    else if Matches(f, rs[0]) then Some(0)
    else match FirstMatch(rs[1..], f)
      case None => None
      case Some(j) => Some(j + 1)
  }

  /** `updateOne(filter, {$set: {revoked: now}})`: only the first selected
      record changes. */
  function RevokeFirst(rs: seq<Record>, f: Filter, now: Time): seq<Record> {
    match FirstMatch(rs, f)
    case None => rs
    case Some(k) => rs[k := Revoked(rs[k], now)]
  }

  /** The `modifiedCount` of `updateMany`: how many records the filter
      selects. */
  function Count(rs: seq<Record>, f: Filter): nat {
    if |rs| == 0 then 0
    else Count(rs[..|rs| - 1], f) + (if Matches(f, rs[|rs| - 1]) then 1 else 0)
  }

  /** The positions the filter selects. */
  ghost function MatchingIndices(rs: seq<Record>, f: Filter): set<nat> {
    set i: nat | i < |rs| && Matches(f, rs[i])
  }

  /** The modified count is the number of records the filter selects. */
  lemma {:induction false} CountIsCardinality(rs: seq<Record>, f: Filter)
    ensures Count(rs, f) == |MatchingIndices(rs, f)|
  {
    if |rs| > 0 {
      var n := |rs| - 1;
      var init := rs[..n];
      CountIsCardinality(init, f);
      if Matches(f, rs[n]) {
        assert MatchingIndices(rs, f) == MatchingIndices(init, f) + {n};
        assert n !in MatchingIndices(init, f);
      } else {
        assert MatchingIndices(rs, f) == MatchingIndices(init, f);
      }
    }
  }

  /** Nothing selected, nothing counted. */
  lemma {:induction false} CountOfNoMatches(rs: seq<Record>, f: Filter)
    requires forall i :: 0 <= i < |rs| ==> !Matches(f, rs[i])
    ensures Count(rs, f) == 0
  {
    if |rs| > 0 {
      CountOfNoMatches(rs[..|rs| - 1], f);
    }
  }

  /** After an `updateMany` no record is selected by its filter any more, so a
      second identical update changes nothing and counts 0. */
  lemma RevokeMatchingIsIdempotent(rs: seq<Record>, f: Filter, now: Time, later: Time)
    ensures Count(RevokeMatching(rs, f, now), f) == 0
    ensures RevokeMatching(RevokeMatching(rs, f, now), f, later) == RevokeMatching(rs, f, now)
  {
    CountOfNoMatches(RevokeMatching(rs, f, now), f);
  }

  /** Revoking never changes a digest, so uniqueness survives. */
  lemma RevokeMatchingKeepsUnique(rs: seq<Record>, f: Filter, now: Time)
    requires UniqueHashes(rs)
    ensures UniqueHashes(RevokeMatching(rs, f, now))
  {
  }

  /** Under the unique index at most one record carries a digest. */
  lemma {:induction false} UniqueHashSelectsAtMostOne(rs: seq<Record>, h: Digest)
    requires UniqueHashes(rs)
    ensures Count(rs, ByTokenHash(h)) == (if FirstMatch(rs, ByTokenHash(h)).Some? then 1 else 0)
  {
    var f := ByTokenHash(h);
    match FirstMatch(rs, f)
    case None =>
      CountOfNoMatches(rs, f);
    case Some(k) =>
      CountIsCardinality(rs, f);
      assert MatchingIndices(rs, f) == {k} by {
        forall i | i in MatchingIndices(rs, f) ensures i == k {
          assert rs[i].tokenHash == rs[k].tokenHash;
        }
      }
  }

  /** Under the unique index, `updateOne` and `updateMany` on a digest agree. */
  lemma RevokeFirstByHashIsRevokeMatching(rs: seq<Record>, h: Digest, now: Time)
    requires UniqueHashes(rs)
    ensures RevokeFirst(rs, ByTokenHash(h), now) == RevokeMatching(rs, ByTokenHash(h), now)
  {
  }

  /** The TTL index: with `expireAfterSeconds: 0` a record is due for deletion
      once the clock reaches its `expiresAt`; a record without a date in
      `expiresAt` is never deleted. */
  predicate TtlDue(r: Record, now: Time) {
    r.expiresAt.Some? && r.expiresAt.value <= now
  }

  /** The records left after a pass of the TTL monitor at `now`. */
  function Unexpired(rs: seq<Record>, now: Time): seq<Record> {
    if |rs| == 0 then []
    else Unexpired(rs[..|rs| - 1], now) + (if TtlDue(rs[|rs| - 1], now) then [] else [rs[|rs| - 1]])
  }

  /** A TTL pass keeps exactly the records that are not due, unchanged, and
      every record it removes was already expired. */
  lemma {:induction false} UnexpiredKeepsExactlyUndue(rs: seq<Record>, now: Time)
    ensures forall r :: r in Unexpired(rs, now) <==> r in rs && !TtlDue(r, now)
    ensures forall r :: r in rs && r !in Unexpired(rs, now) ==> IsExpired(r, now)
  {
    if |rs| > 0 {
      var n := |rs| - 1;
      UnexpiredKeepsExactlyUndue(rs[..n], now);
      assert rs == rs[..n] + [rs[n]];
    }
  }

  /** A TTL pass keeps the relative order, hence the unique index. */
  lemma {:induction false} UnexpiredKeepsUnique(rs: seq<Record>, now: Time)
    requires UniqueHashes(rs)
    ensures UniqueHashes(Unexpired(rs, now))
  {
    if |rs| > 0 {
      var n := |rs| - 1;
      var init := rs[..n];
      assert UniqueHashes(init) by {
        forall i, j | 0 <= i < |init| && 0 <= j < |init| && init[i].tokenHash == init[j].tokenHash
          ensures i == j
        {
          assert rs[i] == init[i] && rs[j] == init[j];
        }
      }
      UnexpiredKeepsUnique(init, now);
      UnexpiredKeepsExactlyUndue(init, now);
      var kept := Unexpired(init, now);
      if !TtlDue(rs[n], now) {
        forall i | 0 <= i < |kept| ensures kept[i].tokenHash != rs[n].tokenHash {
          assert kept[i] in init;
          var j :| 0 <= j < n && init[j] == kept[i];
          assert rs[j] == kept[i];
        }
        assert Unexpired(rs, now) == kept + [rs[n]];
      }
    }
  }

  /** Appending a record does not move the first record with a digest that
      is already stored. */
  lemma FindAfterAppend(rs: seq<Record>, r: Record, h: Digest)
    requires Find(rs, h).Some?
    ensures Find(rs + [r], h) == Find(rs, h)
  {
    var k := Find(rs, h).value;
    var k' := Find(rs + [r], h);
    assert (rs + [r])[k] == rs[k];
    assert forall i :: 0 <= i < k ==> (rs + [r])[i] == rs[i];
  }

  /** Overwriting a record with one of the same digest does not move any
      lookup. */
  lemma FindAfterOverwrite(rs: seq<Record>, k: nat, r: Record, h: Digest)
    requires k < |rs| && r.tokenHash == rs[k].tokenHash
    ensures Find(rs[k := r], h) == Find(rs, h)
  {
    var rs' := rs[k := r];
    assert forall i :: 0 <= i < |rs| ==> rs'[i].tokenHash == rs[i].tokenHash;
    match Find(rs, h)
    case None =>
    case Some(j) =>
      assert rs'[j].tokenHash == h;
  }

  /** Inserting a record whose digest is not yet stored keeps the index
      unique. */
  lemma AppendFreshKeepsUnique(rs: seq<Record>, r: Record)
    requires UniqueHashes(rs)
    requires Find(rs, r.tokenHash).None?
    ensures UniqueHashes(rs + [r])
  {
  }

  /** Revocation is never undone: every record stored before is still
      stored at the same position under the same digest, and one that was
      revoked keeps its `revoked` time. */
  ghost predicate RevocationsKept(before: seq<Record>, after: seq<Record>) {
    && |before| <= |after|
    && forall i :: 0 <= i < |before| ==>
         && after[i].tokenHash == before[i].tokenHash
         && (before[i].revoked.Some? ==> after[i].revoked == before[i].revoked)
  }

  /** Leaving the records alone keeps every revocation. */
  lemma UnchangedKeepsRevocations(rs: seq<Record>)
    ensures RevocationsKept(rs, rs)
  {
  }

  /** Storing one more record keeps every revocation. */
  lemma AppendKeepsRevocations(before: seq<Record>, after: seq<Record>, r: Record)
    requires RevocationsKept(before, after)
    ensures RevocationsKept(before, after + [r])
  {
    assert forall i :: 0 <= i < |after| ==> (after + [r])[i] == after[i];
  }

  /** Overwriting an unrevoked record, or one whose `revoked` stays as it
      was, with a document of the same digest keeps every revocation. */
  lemma OverwriteKeepsRevocations(rs: seq<Record>, k: nat, doc: Record)
    requires k < |rs| && doc.tokenHash == rs[k].tokenHash
    requires rs[k].revoked.None? || doc.revoked == rs[k].revoked
    ensures RevocationsKept(rs, rs[k := doc])
  {
  }

  /** A conditional `{revoked: null, ...}` update keeps every revocation. */
  lemma RevokeMatchingKeepsRevocations(rs: seq<Record>, f: Filter, now: Time)
    ensures RevocationsKept(rs, RevokeMatching(rs, f, now))
  {
  }

  /** A change that keeps revocations does not move the first record with a
      digest that was stored before. */
  lemma {:induction false} FindAfterKeep(before: seq<Record>, after: seq<Record>, h: Digest)
    requires RevocationsKept(before, after)
    requires Find(before, h).Some?
    ensures Find(after, h) == Find(before, h)
  {
    var k := Find(before, h).value;
    assert after[k].tokenHash == h;
  }

  /** Revocation is permanent across any change that keeps revocations: a
      digest that led to a revoked record still leads to the same position,
      with the same `revoked` time, and the record there is not active at any
      instant. */
  lemma RevokedStaysInactive(before: seq<Record>, after: seq<Record>, h: Digest, t: Time)
    requires RevocationsKept(before, after)
    requires Lookup(before, h).Some? && Lookup(before, h).value.revoked.Some?
    ensures Find(after, h) == Find(before, h)
    ensures Lookup(after, h).Some?
    ensures Lookup(after, h).value.revoked == Lookup(before, h).value.revoked
    ensures !IsActive(Lookup(after, h).value, t)
  {
    FindAfterKeep(before, after, h);
  }

  /** A TTL pass removes records but changes none: under the unique index,
      a digest still stored after the pass leads to the very record it led to
      before, revocation included. */
  lemma UnexpiredKeepsRevocations(rs: seq<Record>, now: Time, h: Digest)
    requires UniqueHashes(rs)
    ensures Lookup(Unexpired(rs, now), h).Some? ==> Lookup(Unexpired(rs, now), h) == Lookup(rs, h)
  {
    var kept := Unexpired(rs, now);
    UnexpiredKeepsExactlyUndue(rs, now);
    match Find(kept, h)
    case None =>
    case Some(j) =>
      assert kept[j] in rs;
      var m :| 0 <= m < |rs| && rs[m] == kept[j];
      var i := Find(rs, h).value;
      assert rs[i].tokenHash == rs[m].tokenHash;
  }

  /** The refresh-token collection. */
  class Store {
    var records: seq<Record>

    ghost predicate Valid()
      reads this
    {
      UniqueHashes(records)
    }

    constructor ()
      ensures Valid() && records == []
    {
      records := [];
    }

    /** The index lookup behind `findOne`, `create` and `save`. */
    method IndexOf(h: Digest) returns (k: Option<nat>)
      ensures k == Find(records, h)
    {
      var i := 0;
      while i < |records|
        invariant 0 <= i <= |records|
        invariant forall j :: 0 <= j < i ==> records[j].tokenHash != h
      {
        if records[i].tokenHash == h {
          return Some(i);
        }
        i := i + 1;
      }
      return None;
    }

    /** `findOne({tokenHash: h})`. */
    method FindOne(h: Digest) returns (doc: Option<Record>)
      ensures doc == Lookup(records, h)
      ensures doc.Some? ==> doc.value in records && doc.value.tokenHash == h
      ensures doc.None? ==> forall r :: r in records ==> r.tokenHash != h
    {
      var k := IndexOf(h);
      doc := if k.Some? then Some(records[k.value]) else None;
    }

    /** `RefreshToken.create(draft)`: schema validation first, then the unique
        index; on either failure nothing is stored. */
    method Create(d: Draft, now: Time) returns (res: Result<Record, StoreError>)
      requires Valid()
      modifies this
      ensures Valid()
      ensures FromDraft(d, now).None? ==>
        res == Err(ValidationError) && records == old(records)
      ensures FromDraft(d, now).Some? && Find(old(records), d.tokenHash.value).Some? ==>
        res == Err(DuplicateKey) && records == old(records)
      ensures FromDraft(d, now).Some? && Find(old(records), d.tokenHash.value).None? ==>
        res == Ok(FromDraft(d, now).value) && records == old(records) + [res.value]
      ensures RevocationsKept(old(records), records)
    {
      UnchangedKeepsRevocations(records);
      var doc := FromDraft(d, now);
      if doc.None? {
        return Err(ValidationError);
      }
      var k := IndexOf(doc.value.tokenHash);
      if k.Some? {
        return Err(DuplicateKey);
      }
      AppendKeepsRevocations(records, records, doc.value);
      AppendFreshKeepsUnique(records, doc.value);
      records := records + [doc.value];
      res := Ok(doc.value);
    }

    /** `doc.save()` on a document read earlier: its changes are written over
        the stored record with the same digest; if that record is gone, the
        save fails. */
    method Save(doc: Record) returns (ok: bool)
      requires Valid()
      modifies this
      ensures Valid()
      ensures ok == Find(old(records), doc.tokenHash).Some?
      ensures ok ==> records == old(records)[Find(old(records), doc.tokenHash).value := doc]
      ensures !ok ==> records == old(records)
    {
      var k := IndexOf(doc.tokenHash);
      if k.None? {
        return false;
      }
      records := records[k.value := doc];
      ok := true;
    }

    /** `updateOne({revoked: null, tokenHash: h}, {$set: {revoked: now}})`,
        returning `modifiedCount`. */
    method UpdateOne(h: Digest, now: Time) returns (modified: nat)
      requires Valid()
      modifies this
      ensures Valid()
      ensures modified == (if FirstMatch(old(records), ByTokenHash(h)).Some? then 1 else 0)
      ensures records == RevokeFirst(old(records), ByTokenHash(h), now)
      ensures RevocationsKept(old(records), records)
    {
      var f := ByTokenHash(h);
      RevokeFirstByHashIsRevokeMatching(records, h, now);
      RevokeMatchingKeepsRevocations(records, f, now);
      var i := 0;
      while i < |records|
        invariant 0 <= i <= |records|
        invariant forall j :: 0 <= j < i ==> !Matches(f, records[j])
      {
        if Matches(f, records[i]) {
          records := records[i := Revoked(records[i], now)];
          return 1;
        }
        i := i + 1;
      }
      modified := 0;
    }

    /** `updateMany({revoked: null, user: u}, {$set: {revoked: now}})`,
        returning `modifiedCount`. */
    method UpdateMany(u: UserId, now: Time) returns (modified: nat)
      requires Valid()
      modifies this
      ensures Valid()
      ensures modified == Count(old(records), ByUser(u))
      ensures records == RevokeMatching(old(records), ByUser(u), now)
      ensures RevocationsKept(old(records), records)
    {
      var f := ByUser(u);
      ghost var before := records;
      RevokeMatchingKeepsUnique(before, f, now);
      RevokeMatchingKeepsRevocations(before, f, now);
      var i := 0;
      modified := 0;
      while i < |records|
        invariant 0 <= i <= |records| == |before|
        invariant forall j :: 0 <= j < i ==>
          records[j] == if Matches(f, before[j]) then Revoked(before[j], now) else before[j]
        invariant forall j :: i <= j < |records| ==> records[j] == before[j]
        invariant modified == Count(before[..i], f)
      {
        assert before[..i + 1][..i] == before[..i];
        if Matches(f, records[i]) {
          records := records[i := Revoked(records[i], now)];
          modified := modified + 1;
        }
        i := i + 1;
      }
      assert before[..i] == before;
    }

    /** One pass of the TTL monitor at `now`. */
    method Purge(now: Time)
      requires Valid()
      modifies this
      ensures Valid()
      ensures records == Unexpired(old(records), now)
      ensures forall h :: Lookup(records, h).Some? ==> Lookup(records, h) == Lookup(old(records), h)
    {
      var kept := [];
      var i := 0;
      while i < |records|
        invariant 0 <= i <= |records|
        invariant kept == Unexpired(records[..i], now)
      {
        assert records[..i + 1][..i] == records[..i];
        if !TtlDue(records[i], now) {
          kept := kept + [records[i]];
        }
        i := i + 1;
      }
      assert records[..i] == records;
      UnexpiredKeepsUnique(records, now);
      forall h ensures Lookup(kept, h).Some? ==> Lookup(kept, h) == Lookup(records, h) {
        UnexpiredKeepsRevocations(records, now, h);
      }
      records := kept;
    }
  }

  /** The failures the collection reports. */
  datatype StoreError = ValidationError | DuplicateKey
}
