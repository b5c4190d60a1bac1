/**
 * An in-memory stand-in for the MongoDB database the routes use: the
 * `SummaryHistory` collection as a sequence in insertion order, the `User`
 * collection as a map from Clerk ID to document, and a logical clock that
 * stamps every write.
 *
 * Only the operations the routes issue are provided, each with the meaning the
 * routes rely on: `save` of a new document (schema validation included),
 * `findOneAndDelete` with an owner filter, `countDocuments`/`find` with
 * `sort({createdAt: -1}).skip().limit()`, `findOneAndUpdate` with `$set` or
 * `$inc`, and the per-type `aggregate` of app/api/user/route.ts.
 */
module Store {
  import opened Wrappers
  import opened SummaryHistory
  import opened UserModel

  /** A history query: the owner, and optionally a content type and a video ID. */
  datatype Query = Query(userId: string, contentType: Option<string>, videoId: Option<string>)

  predicate Matches(e: Entry, q: Query) {
    && e.userId == q.userId
    && (q.contentType.Some? ==> TypeName(e.contentType) == q.contentType.value)
    && (q.videoId.Some? ==> e.videoId == q.videoId.value)
  }

  /** Strictly increasing creation times. */
  predicate Ascending(es: seq<Entry>) {
    forall i, j | 0 <= i < j < |es| :: es[i].createdAt < es[j].createdAt
  }

  /** Non-increasing creation times: newest first. */
  predicate Descending(es: seq<Entry>) {
    forall i, j | 0 <= i < j < |es| :: es[i].createdAt >= es[j].createdAt
  }

  /** The entries matching `q`, in stored order. */
  function Select(es: seq<Entry>, q: Query): (r: seq<Entry>)
    ensures |r| <= |es|
    ensures forall e :: e in r <==> e in es && Matches(e, q)
  {
    if es == [] then []
    else (if Matches(es[0], q) then [es[0]] else []) + Select(es[1..], q)
  }

  /** Selecting keeps the stored order. */
  lemma {:induction false} SelectAscending(es: seq<Entry>, q: Query)
    requires Ascending(es)
    ensures Ascending(Select(es, q))
  {
    if es != [] {
      assert Ascending(es[1..]);
      SelectAscending(es[1..], q);
      var rest := Select(es[1..], q);
      forall e | e in rest ensures es[0].createdAt < e.createdAt {
        var k :| 0 <= k < |es[1..]| && es[1..][k] == e;
      }
    }
  }

  function Reverse(s: seq<Entry>): (r: seq<Entry>)
    ensures |r| == |s|
    ensures forall i | 0 <= i < |s| :: r[i] == s[|s| - 1 - i]
  {
    if s == [] then [] else Reverse(s[1..]) + [s[0]]
  }

  /** `find(q).sort({createdAt: -1})`: the matching entries, newest first. */
  function NewestFirst(es: seq<Entry>, q: Query): (r: seq<Entry>)
    ensures |r| == |Select(es, q)|
    ensures forall e :: e in r <==> e in es && Matches(e, q)
  {
    var s := Select(es, q);
    assert forall e :: e in Reverse(s) <==> e in s by {
      forall e ensures e in Reverse(s) <==> e in s {
        if e in s { var i :| 0 <= i < |s| && s[i] == e; assert Reverse(s)[|s| - 1 - i] == e; }
      }
    }
    Reverse(s)
  }

  /** In a store whose entries are in creation order, the listing is sorted newest first. */
  lemma NewestFirstIsSorted(es: seq<Entry>, q: Query)
    requires Ascending(es)
    ensures Descending(NewestFirst(es, q))
  {
    SelectAscending(es, q);
  }

  /** A window of a newest-first sequence is newest first and holds only its entries. */
  lemma WindowKeeps(s: seq<Entry>, skip: nat, limit: int)
    requires Descending(s)
    ensures Descending(Window(s, skip, limit))
    ensures forall e | e in Window(s, skip, limit) :: e in s
  {
    var r := Window(s, skip, limit);
    if skip < |s| {
      assert forall k | 0 <= k < |r| :: r[k] == s[skip + k];
    }
  }

  /** With a positive limit the window is the slice from `skip`, at most `limit` long. */
  lemma WindowOfPositive(s: seq<Entry>, skip: nat, limit: int)
    requires limit > 0
    ensures skip < |s| ==> Window(s, skip, limit) == s[skip..Min(|s|, skip + limit)]
    ensures skip >= |s| ==> Window(s, skip, limit) == []
  {
    if skip < |s| && limit < |s| - skip {
      assert s[skip..][..limit] == s[skip..skip + limit];
    }
  }

  /**
   * `.skip(skip).limit(limit)`: drop `skip` entries, then keep at most `limit`;
   * a limit of 0 keeps all, a negative one keeps at most its absolute value.
   */
  function Window(s: seq<Entry>, skip: nat, limit: int): (r: seq<Entry>)
    ensures skip >= |s| ==> r == []
    ensures skip < |s| ==> r <= s[skip..]
    ensures limit != 0 ==> |r| <= (if limit > 0 then limit else -limit)
    ensures limit == 0 ==> r == (if skip < |s| then s[skip..] else [])
    ensures skip < |s| && limit != 0 ==>
      |r| == Min(|s| - skip, if limit > 0 then limit else -limit)
  {
    if skip >= |s| then []
    else
      var rest := s[skip..];
      var n := if limit > 0 then limit else -limit;
      if limit == 0 || n >= |rest| then rest else rest[..n]
  }

  function Min(a: int, b: int): int { if a < b then a else b }

  /** The entry `findOneAndDelete({_id: id, userId: owner})` would remove. */
  predicate Owned(e: Entry, id: nat, owner: string) { e.id == id && e.userId == owner }

  function FirstOwned(es: seq<Entry>, id: nat, owner: string): (r: Option<Entry>)
    ensures r.Some? <==> exists e :: e in es && Owned(e, id, owner)
    ensures r.Some? ==> r.value in es && Owned(r.value, id, owner)
  {
    if es == [] then None
    else if Owned(es[0], id, owner) then Some(es[0])
    else FirstOwned(es[1..], id, owner)
  }

  /** The entries that survive the owner-scoped delete, in stored order. */
  function Without(es: seq<Entry>, id: nat, owner: string): (r: seq<Entry>)
    ensures forall e :: e in r <==> e in es && !Owned(e, id, owner)
    ensures |r| <= |es|
  {
    if es == [] then []
    else (if Owned(es[0], id, owner) then [] else [es[0]]) + Without(es[1..], id, owner)
  }

  /** Nothing is removed when no entry has both the ID and the owner. */
  lemma {:induction false} WithoutNothingOwned(es: seq<Entry>, id: nat, owner: string)
    requires forall e | e in es :: !Owned(e, id, owner)
    ensures Without(es, id, owner) == es
  {
    if es != [] {
      WithoutNothingOwned(es[1..], id, owner);
      assert [es[0]] + es[1..] == es;
    }
  }

  /** Creation times and IDs both strictly increase along the sequence. */
  predicate Ordered(es: seq<Entry>) {
    forall i, j | 0 <= i < j < |es| :: es[i].createdAt < es[j].createdAt && es[i].id < es[j].id
  }

  /** Deleting keeps the survivors in order. */
  lemma {:induction false} WithoutOrdered(es: seq<Entry>, id: nat, owner: string)
    requires Ordered(es)
    ensures Ordered(Without(es, id, owner))
  {
    if es != [] {
      assert Ordered(es[1..]);
      WithoutOrdered(es[1..], id, owner);
      var rest := Without(es[1..], id, owner);
      if Owned(es[0], id, owner) {
        assert Without(es, id, owner) == rest;
      } else {
        forall e | e in rest ensures es[0].createdAt < e.createdAt && es[0].id < e.id {
          var k :| 0 <= k < |es[1..]| && es[1..][k] == e;
          assert es[k + 1] == e;
        }
        OrderedCons(es[0], rest);
      }
    }
  }

  /** An entry older, and with a smaller ID, than every entry of an ordered sequence can go in front. */
  lemma OrderedCons(x: Entry, rest: seq<Entry>)
    requires Ordered(rest)
    requires forall e | e in rest :: x.createdAt < e.createdAt && x.id < e.id
    ensures Ordered([x] + rest)
  {
    var s := [x] + rest;
    forall i, j | 0 <= i < j < |s| ensures s[i].createdAt < s[j].createdAt && s[i].id < s[j].id {
      assert s[j] == rest[j - 1];
      if i > 0 {
        assert s[i] == rest[i - 1];
      } else {
        assert s[j] in rest;
      }
    }
  }

  /** Every entry is valid, has an ID below `nextId` and was created before `clock`. */
  predicate Stamped(es: seq<Entry>, nextId: nat, clock: nat) {
    forall i | 0 <= i < |es| :: ValidEntry(es[i]) && es[i].id < nextId && es[i].createdAt < clock
  }

  lemma WithoutStamped(es: seq<Entry>, id: nat, owner: string, nextId: nat, clock: nat)
    requires Stamped(es, nextId, clock)
    ensures Stamped(Without(es, id, owner), nextId, clock)
  {
    var r := Without(es, id, owner);
    forall i | 0 <= i < |r| ensures ValidEntry(r[i]) && r[i].id < nextId && r[i].createdAt < clock {
      assert r[i] in es;
    }
  }

  /** Entry IDs are distinct. */
  predicate DistinctIds(es: seq<Entry>) {
    forall i, j | 0 <= i < j < |es| :: es[i].id != es[j].id
  }

  /** With distinct IDs, a delete that finds its entry removes exactly one. */
  lemma {:induction false} WithoutRemovesOne(es: seq<Entry>, id: nat, owner: string)
    requires DistinctIds(es)
    requires exists e :: e in es && Owned(e, id, owner)
    ensures |Without(es, id, owner)| == |es| - 1
  {
    assert es != [];
    if Owned(es[0], id, owner) {
      forall e | e in es[1..] ensures !Owned(e, id, owner) {
        var k :| 0 <= k < |es[1..]| && es[1..][k] == e;
        assert es[k + 1] == e;
      }
      WithoutNothingOwned(es[1..], id, owner);
    } else {
      var e :| e in es && Owned(e, id, owner);
      assert e in es[1..] by { var k :| 0 <= k < |es| && es[k] == e; assert k != 0; }
      assert DistinctIds(es[1..]);
      WithoutRemovesOne(es[1..], id, owner);
    }
  }

  /** The statistics `$group` produces for one content type. */
  datatype TypeStat = TypeStat(count: nat, lastCreated: nat)

  /** The number of `owner`'s entries of type `t`. */
  function CountType(es: seq<Entry>, owner: string, t: ContentType): nat {
    |Select(es, Query(owner, Some(TypeName(t)), None))|
  }

  /** The owner has entries of type `t` exactly when their count is positive. */
  lemma CountTypePositive(es: seq<Entry>, owner: string, t: ContentType)
    ensures CountType(es, owner, t) > 0 <==> exists e :: e in es && e.userId == owner && e.contentType == t
  {
    var q := Query(owner, Some(TypeName(t)), None);
    if exists e :: e in es && e.userId == owner && e.contentType == t {
      var e :| e in es && e.userId == owner && e.contentType == t;
      assert Matches(e, q);
      assert e in Select(es, q);
    } else if CountType(es, owner, t) > 0 {
      var e := Select(es, q)[0];
      assert e in Select(es, q);
      ParseTypeName(e.contentType);
    }
  }

  /** `$max: '$createdAt'` over `owner`'s entries of type `t` (0 when there are none). */
  function LastCreated(es: seq<Entry>, owner: string, t: ContentType): (r: nat)
    ensures forall e | e in es && e.userId == owner && e.contentType == t :: e.createdAt <= r
    ensures (exists e :: e in es && e.userId == owner && e.contentType == t) ==>
      exists e :: e in es && e.userId == owner && e.contentType == t && e.createdAt == r
    ensures (forall e | e in es :: e.userId != owner || e.contentType != t) ==> r == 0
  {
    if es == [] then 0
    else
      var rest := LastCreated(es[1..], owner, t);
      if es[0].userId == owner && es[0].contentType == t && es[0].createdAt >= rest then es[0].createdAt
      else rest
  }

  const AllTypes: set<ContentType> := {Guide, Briefing, Note, Chat}

  /**
   * The `$match`/`$group` aggregation folded into an object: one key per content
   * type the owner has at least one entry of, named as stored.
   */
  function Stats(es: seq<Entry>, owner: string): map<string, TypeStat> {
    AddType(AddType(AddType(AddType(map[], es, owner, Guide), es, owner, Briefing), es, owner, Note), es, owner, Chat)
  }

  /**
   * The statistics have a key for type `t` exactly when the owner has entries of
   * it, and that key carries their number and the latest creation time.
   */
  lemma StatsByType(es: seq<Entry>, owner: string, t: ContentType)
    ensures TypeName(t) in Stats(es, owner) <==> CountType(es, owner, t) > 0
    ensures TypeName(t) in Stats(es, owner) ==>
      Stats(es, owner)[TypeName(t)] == TypeStat(CountType(es, owner, t), LastCreated(es, owner, t))
  {
    var m1 := AddType(map[], es, owner, Guide);
    var m2 := AddType(m1, es, owner, Briefing);
    var m3 := AddType(m2, es, owner, Note);
    var m4 := AddType(m3, es, owner, Chat);
    assert m4 == Stats(es, owner);
  }

  /** Every key of the statistics is a stored content-type name. */
  lemma StatsKeys(es: seq<Entry>, owner: string, k: string)
    requires k in Stats(es, owner)
    ensures ParseType(k).Some?
  {
    var m1 := AddType(map[], es, owner, Guide);
    var m2 := AddType(m1, es, owner, Briefing);
    var m3 := AddType(m2, es, owner, Note);
    assert k in AddType(m3, es, owner, Chat);
  }

  /** One step of the fold: record type `t` when the owner has entries of it. */
  function AddType(m: map<string, TypeStat>, es: seq<Entry>, owner: string, t: ContentType): (r: map<string, TypeStat>)
    ensures TypeName(t) in r <==> TypeName(t) in m || CountType(es, owner, t) > 0
    ensures CountType(es, owner, t) > 0 ==>
      r[TypeName(t)] == TypeStat(CountType(es, owner, t), LastCreated(es, owner, t))
    ensures forall k | k != TypeName(t) :: (k in r <==> k in m) && (k in m ==> r[k] == m[k])
  {
    if CountType(es, owner, t) > 0 then m[TypeName(t) := TypeStat(CountType(es, owner, t), LastCreated(es, owner, t))]
    else m
  }

  /** `countDocuments({userId: owner})`. */
  function Total(es: seq<Entry>, owner: string): nat {
    |Select(es, Query(owner, None, None))|
  }

  /** The per-type counts add up to the owner's total. */
  lemma {:induction false} CountsAddUp(es: seq<Entry>, owner: string)
    ensures CountType(es, owner, Guide) + CountType(es, owner, Briefing)
          + CountType(es, owner, Note) + CountType(es, owner, Chat) == Total(es, owner)
  {
    if es != [] {
      CountsAddUp(es[1..], owner);
      CountTypeStep(es, owner, Guide);
      CountTypeStep(es, owner, Briefing);
      CountTypeStep(es, owner, Note);
      CountTypeStep(es, owner, Chat);
    }
  }

  /** The first entry adds one to the count of its own type, for its owner only. */
  lemma CountTypeStep(es: seq<Entry>, owner: string, t: ContentType)
    requires es != []
    ensures CountType(es, owner, t)
      == (if es[0].userId == owner && es[0].contentType == t then 1 else 0) + CountType(es[1..], owner, t)
  {
    ParseTypeName(es[0].contentType);
    ParseTypeName(t);
  }

  /**
   * A `$set` update as Mongoose casts it against the schema: each schema field
   * the body names, whole (a `usage` or `preferences` object replaces the
   * stored one); `None` leaves a field alone.
   */
  datatype Patch = Patch(clerkId: Option<string>, email: Option<string>,
                         firstName: Option<string>, lastName: Option<string>, profileImage: Option<string>,
                         plan: Option<string>, usage: Option<Usage>, preferences: Option<Preferences>)

  /** A `PUT` body: fields that cast to the schema's types, or one that does not cast, so the update throws. */
  datatype SetBody = SetFields(patch: Patch) | Uncastable

  /** The patch that names no field. */
  const EmptyPatch: Patch := Patch(None, None, None, None, None, None, None, None)

  /** The record after the `$set`, stamped `updatedAt: now` by the schema's timestamps. */
  function ApplyPatch(u: User, p: Patch, now: nat): (r: User)
    ensures r.clerkId == p.clerkId.GetOr(u.clerkId) && r.email == p.email.GetOr(u.email)
    ensures r.usage == p.usage.GetOr(u.usage)
    ensures r.createdAt == u.createdAt && r.lastLoginAt == u.lastLoginAt && r.updatedAt == now
    ensures r.plan == p.plan.GetOr(u.plan) && r.preferences == p.preferences.GetOr(u.preferences)
    ensures r.firstName == (if p.firstName.Some? then p.firstName else u.firstName)
    ensures r.lastName == (if p.lastName.Some? then p.lastName else u.lastName)
    ensures r.profileImage == (if p.profileImage.Some? then p.profileImage else u.profileImage)
  {
    u.(clerkId := p.clerkId.GetOr(u.clerkId),
       email := p.email.GetOr(u.email),
       firstName := if p.firstName.Some? then p.firstName else u.firstName,
       lastName := if p.lastName.Some? then p.lastName else u.lastName,
       profileImage := if p.profileImage.Some? then p.profileImage else u.profileImage,
       plan := p.plan.GetOr(u.plan),
       usage := p.usage.GetOr(u.usage),
       preferences := p.preferences.GetOr(u.preferences),
       updatedAt := now)
  }

  /** Applying the same `$set` twice is applying it once, at the later time. */
  lemma ApplyPatchIdempotent(u: User, p: Patch, t1: nat, t2: nat)
    ensures ApplyPatch(ApplyPatch(u, p, t1), p, t2) == ApplyPatch(u, p, t2)
  {
  }

  /** A `$set` of no field changes only `updatedAt`. */
  lemma EmptyPatchStampsOnly(u: User, now: nat)
    ensures ApplyPatch(u, EmptyPatch, now) == u.(updatedAt := now)
  {
  }

  /**
   * A `$set` runs no validators, so a body that empties the email, or names a
   * plan or theme outside its enum, stores a record the next `save()` refuses.
   */
  lemma PatchCanBreakSave(u: User, p: Patch, now: nat)
    requires p.email == Some("") || (p.plan.Some? && p.plan.value !in Plans)
             || (p.preferences.Some? && p.preferences.value.theme !in Themes)
    ensures !Saveable(ApplyPatch(u, p, now))
  {
  }

  /** The result of a `findOneAndUpdate`: no matching record, a write that throws, or the new record. */
  datatype UpdateOutcome = Missing | Threw | Changed(user: User)

  /**
   * Writing `r` in place of the record keyed `clerkId` would give another user's
   * Clerk ID or email to a second record, which the unique indexes refuse.
   */
  predicate Duplicates(users: map<string, User>, clerkId: string, r: User) {
    (r.clerkId != clerkId && r.clerkId in users) || !EmailFree(users - {clerkId}, r.email)
  }

  /** Users keyed by their Clerk ID. */
  predicate Keyed(users: map<string, User>) {
    forall k | k in users :: users[k].clerkId == k
  }

  /** A patch that leaves the Clerk ID and email alone never hits a unique index. */
  lemma ProfilePatchNoDuplicate(users: map<string, User>, clerkId: string, p: Patch, now: nat)
    requires Keyed(users) && EmailsUnique(users) && clerkId in users
    requires p.clerkId.None? && p.email.None?
    ensures !Duplicates(users, clerkId, ApplyPatch(users[clerkId], p, now))
  {
    var r := ApplyPatch(users[clerkId], p, now);
    forall k | k in users - {clerkId}
      ensures users[k].email != r.email
    {
      assert k != clerkId;
    }
  }

  /** No two users share an email (the schema's unique index). */
  predicate EmailsUnique(users: map<string, User>) {
    forall k1, k2 | k1 in users && k2 in users && k1 != k2 :: users[k1].email != users[k2].email
  }

  /** An email no stored user has. */
  predicate EmailFree(users: map<string, User>, email: string) {
    forall k | k in users :: users[k].email != email
  }

  class Database {
    var entries: seq<Entry>
    var users: map<string, User>
    var clock: nat
    var nextId: nat

    /**
     * Entries are valid, in creation order, stamped before the clock and with
     * IDs below the next one; users are keyed by their Clerk ID and have
     * distinct emails. (A `$set` skips the `required` validators, so an
     * updated record may hold an empty Clerk ID or email.)
     */
    predicate Valid()
      reads this
    {
      && Stamped(entries, nextId, clock)
      && Ordered(entries)
      && Keyed(users)
      && EmailsUnique(users)
    }

    constructor ()
      ensures Valid() && entries == [] && users == map[]
    {
      entries := [];
      users := map[];
      clock := 0;
      nextId := 0;
    }

    /** A valid store keeps its entries in creation order with distinct IDs. */
    lemma ValidOrdered()
      requires Valid()
      ensures Ascending(entries) && DistinctIds(entries)
    {
    }

    /** `new SummaryHistory(d).save()`: validated, stamped now, appended; a refused draft changes nothing. */
    method Save(d: Draft) returns (r: Option<Entry>)
      requires Valid()
      modifies this
      ensures Valid()
      ensures r == Materialize(d, old(nextId), old(clock))
      ensures r.Some? ==> entries == old(entries) + [r.value] && users == old(users)
      ensures r.None? ==> entries == old(entries) && users == old(users)
      ensures clock == if r.Some? then old(clock) + 1 else old(clock)
    {
      r := Materialize(d, nextId, clock);
      if r.Some? {
        var e := r.value;
        assert e.id == nextId && e.createdAt == clock && ValidEntry(e);
        entries := entries + [e];
        nextId := nextId + 1;
        clock := clock + 1;
        forall i | 0 <= i < |entries|
          ensures ValidEntry(entries[i]) && entries[i].id < nextId && entries[i].createdAt < clock
        {
          if i < |entries| - 1 { assert entries[i] == old(entries)[i]; }
        }
        forall i, j | 0 <= i < j < |entries|
          ensures entries[i].createdAt < entries[j].createdAt && entries[i].id < entries[j].id
        {
          assert entries[i] == old(entries)[i];
          if j < |entries| - 1 { assert entries[j] == old(entries)[j]; }
        }
      }
    }

    /** `findOneAndDelete({_id: id, userId: owner})`. */
    method DeleteOwned(id: nat, owner: string) returns (removed: Option<Entry>)
      requires Valid()
      modifies this
      ensures Valid()
      ensures removed == FirstOwned(old(entries), id, owner)
      ensures entries == Without(old(entries), id, owner) && users == old(users)
      ensures removed.Some? ==> |entries| == |old(entries)| - 1
      ensures removed.None? ==> entries == old(entries)
    {
      removed := FirstOwned(entries, id, owner);
      if removed.Some? {
        WithoutRemovesOne(entries, id, owner);
      } else {
        WithoutNothingOwned(entries, id, owner);
      }
      WithoutOrdered(entries, id, owner);
      WithoutStamped(entries, id, owner, nextId, clock);
      entries := Without(entries, id, owner);
    }

    function FindUser(clerkId: string): (r: Option<User>)
      reads this
      ensures r.Some? <==> clerkId in users
      ensures r.Some? ==> r.value == users[clerkId]
    {
      if clerkId in users then Some(users[clerkId]) else None
    }

    /**
     * `user.save()` of a new user document: refused when it is not saveable
     * or the Clerk ID or the email is already taken.
     */
    method CreateUser(u: User) returns (ok: bool)
      requires Valid()
      modifies this
      ensures Valid()
      ensures ok <==> Saveable(u) && u.clerkId !in old(users) && EmailFree(old(users), u.email)
      ensures ok ==> users == old(users)[u.clerkId := u]
      ensures !ok ==> users == old(users)
      ensures entries == old(entries)
    {
      ok := Saveable(u) && u.clerkId !in users && EmailFree(users, u.email);
      if ok {
        users := users[u.clerkId := u];
        clock := clock + 1;
      }
    }

    /**
     * `user.lastLoginAt = new Date(); user.save()` on an existing user: the
     * save validates the whole loaded record, so it is refused, and nothing
     * is written, when an earlier `$set` left the record unsaveable.
     */
    method Touch(clerkId: string) returns (ok: bool)
      requires Valid() && clerkId in users
      modifies this
      ensures Valid()
      ensures ok <==> Saveable(old(users)[clerkId])
      ensures ok ==> users == old(users)[clerkId := old(users)[clerkId].(lastLoginAt := old(clock), updatedAt := old(clock))]
      ensures !ok ==> users == old(users)
      ensures entries == old(entries)
    {
      ok := Saveable(users[clerkId]);
      if ok {
        users := users[clerkId := users[clerkId].(lastLoginAt := clock, updatedAt := clock)];
        clock := clock + 1;
      }
    }

    /** `findByIdAndUpdate(user._id, {$inc: {<counter of t>: 1}, lastLoginAt: now})`. */
    method IncrementUsage(clerkId: string, t: ContentType)
      requires Valid() && clerkId in users
      modifies this
      ensures Valid()
      ensures users == old(users)[clerkId := old(users)[clerkId].(
                usage := Increment(old(users)[clerkId].usage, t), lastLoginAt := old(clock), updatedAt := old(clock))]
      ensures entries == old(entries)
    {
      var u := users[clerkId];
      users := users[clerkId := u.(usage := Increment(u.usage, t), lastLoginAt := clock, updatedAt := clock)];
      clock := clock + 1;
    }

    /**
     * `findOneAndUpdate({clerkId}, {$set: body}, {new: true})`: a body that
     * does not cast throws before the query; no record gives `Missing`; a
     * write that would duplicate a Clerk ID or email throws; otherwise the
     * record is replaced, under its new Clerk ID, and returned.
     */
    method Update(clerkId: string, body: SetBody) returns (r: UpdateOutcome)
      requires Valid()
      modifies this
      ensures Valid()
      ensures entries == old(entries)
      ensures body.Uncastable? ==> r == Threw
      ensures body.SetFields? && clerkId !in old(users) ==> r == Missing
      ensures body.SetFields? && clerkId in old(users) ==>
        var u := ApplyPatch(old(users)[clerkId], body.patch, old(clock));
        r == if Duplicates(old(users), clerkId, u) then Threw else Changed(u)
      ensures r.Changed? ==> users == (old(users) - {clerkId})[r.user.clerkId := r.user]
      ensures !r.Changed? ==> users == old(users)
    {
      if body.Uncastable? {
        return Threw;
      }
      if clerkId !in users {
        return Missing;
      }
      var u := ApplyPatch(users[clerkId], body.patch, clock);
      if Duplicates(users, clerkId, u) {
        return Threw;
      }
      RekeyedValid(users, clerkId, u);
      users := (users - {clerkId})[u.clerkId := u];
      clock := clock + 1;
      r := Changed(u);
    }
  }

  /** Replacing a record by one that duplicates nothing keeps the users keyed and their emails distinct. */
  lemma RekeyedValid(users: map<string, User>, clerkId: string, u: User)
    requires Keyed(users) && EmailsUnique(users) && clerkId in users
    requires !Duplicates(users, clerkId, u)
    ensures var after := (users - {clerkId})[u.clerkId := u];
      Keyed(after) && EmailsUnique(after)
  {
    var after := (users - {clerkId})[u.clerkId := u];
    forall k1, k2 | k1 in after && k2 in after && k1 != k2
      ensures after[k1].email != after[k2].email
    {
      if k1 == u.clerkId {
        assert k2 in users - {clerkId};
      } else if k2 == u.clerkId {
        assert k1 in users - {clerkId};
      }
    }
  }
}
