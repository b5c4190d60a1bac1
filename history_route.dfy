/**
 * app/api/history/route.ts: list (`GET`), save (`POST`) and delete (`DELETE`)
 * the signed-in user's history entries.
 *
 * Clerk's `auth()` is the parameter `user` (the signed-in user's ID, if any),
 * the database is a `Store.Database`, and `dbUp` says whether
 * `connectToDatabase()` succeeds.
 */
module HistoryRoute {
  import opened Wrappers
  import opened Text
  import opened VideoId
  import opened SummaryHistory
  import opened UserModel
  import opened Store

  const Unauthorized: string := "Unauthorized"
  const FetchFailed: string := "Failed to fetch history"
  const MissingFields: string := "Missing required fields: videoUrl, videoTitle, contentType, content"
  const UserNotFound: string := "User not found"
  const InvalidUrl: string := "Invalid YouTube URL"
  const SaveFailed: string := "Failed to save to history"
  const SavedMessage: string := "Summary saved to history successfully"
  const IdRequired: string := "History ID required"
  const EntryNotFound: string := "History entry not found"
  const DeleteFailed: string := "Failed to delete history entry"
  const DeletedMessage: string := "History entry deleted successfully"

  datatype Body =
    | Error(error: string)
    | Listed(data: seq<Entry>, page: int, limit: int, total: nat, pages: Option<int>)
    | Saved(entry: Entry, message: string)
    | Deleted(message: string)

  datatype Response = Response(status: nat, body: Body)

  /** JavaScript truthiness of an optional string. */
  predicate Truthy(v: Option<string>) { v.Some? && v.value != "" }

  /** `searchParams.get(name) || fallback`. */
  function ParamOr(param: Option<string>, fallback: string): (r: string)
    ensures Truthy(param) ==> r == param.value
    ensures !Truthy(param) ==> r == fallback
  {
    if Truthy(param) then param.value else fallback
  }

  /** The longest prefix of decimal digits. */
  function LeadingDigits(s: string): (r: string)
    ensures r <= s && AllDigits(r)
    ensures |r| < |s| ==> !IsDigit(s[|r|])
  {
    if s == [] || !IsDigit(s[0]) then [] else [s[0]] + LeadingDigits(s[1..])
  }

  /** The longest prefix of hexadecimal digits. */
  function LeadingHexDigits(s: string): (r: string)
    ensures r <= s && AllHexDigits(r)
    ensures |r| < |s| ==> !IsHexDigit(s[|r|])
  {
    if s == [] || !IsHexDigit(s[0]) then [] else [s[0]] + LeadingHexDigits(s[1..])
  }

  /** `s` starts with the `0x` or `0X` prefix that switches `parseInt` to base 16. */
  predicate HexPrefixed(s: string) {
    |s| >= 2 && s[0] == '0' && (s[1] == 'x' || s[1] == 'X')
  }

  /**
   * The unsigned part of `parseInt`: after `0x`/`0X` the longest run of
   * hexadecimal digits, otherwise the longest run of decimal digits; an empty
   * run gives `None` (NaN).
   */
  function Magnitude(u: string): Option<nat> {
    if HexPrefixed(u) then
      var d := LeadingHexDigits(u[2..]);
      if d == [] then None else Some(HexValue(d))
    else
      var d := LeadingDigits(u);
      if d == [] then None else Some(DigitsValue(d))
  }

  /**
   * `parseInt(s)` with no radix: leading white space is skipped, an optional
   * sign is read, then the magnitude; no digits gives `None` (NaN).
   */
  function ParseInt(s: string): Option<int> {
    ParseTrimmed(TrimStart(s))
  }

  /** `parseInt` once the leading white space is gone. */
  function ParseTrimmed(t: string): Option<int> {
    if |t| > 0 && t[0] == '-' then Negate(Magnitude(t[1..]))
    else if |t| > 0 && t[0] == '+' then Widen(Magnitude(t[1..]))
    else Widen(Magnitude(t))
  }

  function Widen(m: Option<nat>): Option<int> {
    if m.None? then None else Some(m.value)
  }

  function Negate(m: Option<nat>): Option<int> {
    if m.None? then None else Some(0 - (m.value as int))
  }

  /**
   * `parseInt` reads back what `toString` writes, and ignores what follows the
   * digits, unless `0` is followed by `x` or `X`, which starts a hexadecimal number.
   */
  lemma ParseIntOfNatToString(n: nat, rest: string)
    requires rest == [] || !IsDigit(rest[0])
    requires n != 0 || rest == [] || (rest[0] != 'x' && rest[0] != 'X')
    ensures ParseInt(NatToString(n) + rest) == Some(n)
  {
    var d := NatToString(n);
    assert d != "0" || n == 0 by {
      if d == "0" { DigitsValueOfNatToString(n); }
    }
    ParseIntOfDigits(d, rest);
    DigitsValueOfNatToString(n);
  }

  /** A run of digits followed by something else is read as the run's value, unless it is `0x`. */
  lemma ParseIntOfDigits(d: string, rest: string)
    requires d != [] && AllDigits(d) && (rest == [] || !IsDigit(rest[0]))
    requires d != "0" || rest == [] || (rest[0] != 'x' && rest[0] != 'X')
    ensures ParseInt(d + rest) == Some(DigitsValue(d))
  {
    var s := d + rest;
    assert s[0] == d[0];
    Unsigned(s);
    NotHexPrefixed(d, rest);
    LeadingDigitsOf(d, rest);
    DecimalMagnitude(s, d);
  }

  /** A string starting with neither white space nor a sign is read by its magnitude alone. */
  lemma Unsigned(s: string)
    requires s == [] || (!IsSpace(s[0]) && s[0] != '-' && s[0] != '+')
    ensures ParseInt(s) == Widen(Magnitude(s))
  {
    TrimStartKeeps(s);
  }

  lemma DecimalMagnitude(s: string, d: string)
    requires !HexPrefixed(s) && d != [] && LeadingDigits(s) == d
    ensures Magnitude(s) == Some(DigitsValue(d))
  {
  }

  lemma HexMagnitude(s: string, d: string)
    requires HexPrefixed(s) && LeadingHexDigits(s[2..]) == d
    ensures Magnitude(s) == if d == [] then None else Some(HexValue(d))
  {
  }

  lemma NotHexPrefixed(d: string, rest: string)
    requires d != [] && AllDigits(d)
    requires d != "0" || rest == [] || (rest[0] != 'x' && rest[0] != 'X')
    ensures !HexPrefixed(d + rest)
  {
    var s := d + rest;
    if |d| >= 2 {
      assert s[1] == d[1];
    } else if |s| >= 2 && s[0] == '0' {
      assert d == "0" && s[1] == rest[0];
    }
  }

  lemma {:induction false} LeadingDigitsOf(d: string, rest: string)
    requires AllDigits(d) && (rest == [] || !IsDigit(rest[0]))
    ensures LeadingDigits(d + rest) == d
  {
    if d != [] {
      assert (d + rest)[1..] == d[1..] + rest;
      LeadingDigitsOf(d[1..], rest);
    } else {
      assert d + rest == rest;
    }
  }

  /**
   * After `0x` or `0X`, `parseInt` reads the run of hexadecimal digits as a
   * base-16 number and ignores what follows; a prefix with no digits is NaN.
   */
  lemma ParseIntOfHex(x: char, d: string, rest: string)
    requires x == 'x' || x == 'X'
    requires AllHexDigits(d) && (rest == [] || !IsHexDigit(rest[0]))
    ensures ParseInt(['0', x] + d + rest) == if d == [] then None else Some(HexValue(d))
  {
    var s := ['0', x] + d + rest;
    HexShape(x, d, rest);
    Unsigned(s);
    LeadingHexDigitsOf(d, rest);
    HexMagnitude(s, d);
  }

  lemma HexShape(x: char, d: string, rest: string)
    requires x == 'x' || x == 'X'
    ensures var s := ['0', x] + d + rest;
      s != [] && s[0] == '0' && !IsSpace(s[0]) && HexPrefixed(s) && s[2..] == d + rest
  {
    var s := ['0', x] + d + rest;
    assert s[0] == '0' && s[1] == x;
    assert s[2..] == d + rest;
  }

  lemma {:induction false} LeadingHexDigitsOf(d: string, rest: string)
    requires AllHexDigits(d) && (rest == [] || !IsHexDigit(rest[0]))
    ensures LeadingHexDigits(d + rest) == d
  {
    if d != [] {
      assert (d + rest)[1..] == d[1..] + rest;
      LeadingHexDigitsOf(d[1..], rest);
    } else {
      assert d + rest == rest;
    }
  }

  /** A `-` in front of an unsigned number negates it; NaN stays NaN. */
  lemma ParseIntMinus(u: string)
    requires u == [] || (!IsSpace(u[0]) && u[0] != '-' && u[0] != '+')
    ensures ParseInt(['-'] + u) == if ParseInt(u).None? then None else Some(0 - ParseInt(u).value)
  {
    Unsigned(u);
    SignRead('-', u);
  }

  /** A `+` in front of an unsigned number changes nothing. */
  lemma ParseIntPlus(u: string)
    requires u == [] || (!IsSpace(u[0]) && u[0] != '-' && u[0] != '+')
    ensures ParseInt(['+'] + u) == ParseInt(u)
  {
    Unsigned(u);
    SignRead('+', u);
  }

  lemma SignRead(c: char, u: string)
    requires c == '-' || c == '+'
    ensures ParseInt([c] + u) == ParseTrimmed([c] + u)
    ensures c == '-' ==> ParseTrimmed([c] + u) == Negate(Magnitude(u))
    ensures c == '+' ==> ParseTrimmed([c] + u) == Widen(Magnitude(u))
  {
    var s := [c] + u;
    assert s[0] == c && !IsSpace(c);
    TrimStartKeeps(s);
    assert s[1..] == u;
  }

  /** `Math.ceil(total / limit)` for a non-zero limit. */
  function CeilDiv(total: nat, limit: int): (r: int)
    requires limit != 0
    ensures limit > 0 ==> (r - 1) * limit < total <= r * limit
    ensures limit < 0 ==> r * limit <= total < (r - 1) * limit
  {
    if limit > 0 then (total + limit - 1) / limit else -(total / -limit)
  }

  /** The `GET` query string: `page`, `limit`, `type` and `videoId`. */
  datatype ListRequest = ListRequest(page: Option<string>, limit: Option<string>,
                                     contentType: Option<string>, videoId: Option<string>)

  /** The query the handler builds: the owner, plus each filter that is present and non-empty. */
  function QueryFor(userId: string, req: ListRequest): (q: Query)
    ensures q.userId == userId
    ensures q.contentType.Some? <==> Truthy(req.contentType)
    ensures q.contentType.Some? ==> q.contentType == req.contentType
    ensures q.videoId.Some? <==> Truthy(req.videoId)
    ensures q.videoId.Some? ==> q.videoId == req.videoId
  {
    Query(userId, if Truthy(req.contentType) then req.contentType else None,
                  if Truthy(req.videoId) then req.videoId else None)
  }

  /**
   * `GET`: the caller's entries matching the filters, newest first, after
   * skipping `(page - 1) * limit` and keeping at most `limit`, with the total
   * number of matches and the page count. A page or limit that `parseInt`
   * reads as NaN is taken to make the database query throw (status 500).
   */
  function Get(entries: seq<Entry>, user: Option<string>, dbUp: bool, req: ListRequest): (r: Response)
    ensures r.status in {200, 401, 500}
    ensures r.status == 401 <==> !Truthy(user)
    ensures r.status == 200 ==> r.body.Listed?
  {
    if !Truthy(user) then Response(401, Error(Unauthorized))
    else if !dbUp then Response(500, Error(FetchFailed))
    else
      var page := ParseInt(ParamOr(req.page, "1"));
      var limit := ParseInt(ParamOr(req.limit, "10"));
      if page.None? || limit.None? then Response(500, Error(FetchFailed))
      else Listing(entries, QueryFor(user.value, req), page.value, limit.value)
  }

  /** The database part of `GET` once `page` and `limit` are numbers: a negative skip is refused. */
  function Listing(entries: seq<Entry>, q: Query, page: int, limit: int): (r: Response)
    ensures r.status in {200, 500}
    ensures r.status == 200 <==> (page - 1) * limit >= 0
    ensures r.status == 200 ==> r.body.Listed? && r.body.page == page && r.body.limit == limit
  {
    var skip := (page - 1) * limit;
    if skip < 0 then Response(500, Error(FetchFailed))
    else
      var total := |Select(entries, q)|;
      var pages := if limit == 0 then None else Some(CeilDiv(total, limit));
      Response(200, Listed(Window(NewestFirst(entries, q), skip, limit), page, limit, total, pages))
  }

  /** Once `page` and `limit` are read as numbers, `GET` is the listing for them. */
  lemma GetParsed(entries: seq<Entry>, user: Option<string>, req: ListRequest, page: int, limit: int)
    requires Truthy(user)
    requires ParseInt(ParamOr(req.page, "1")) == Some(page) && ParseInt(ParamOr(req.limit, "10")) == Some(limit)
    ensures Get(entries, user, true, req) == Listing(entries, QueryFor(user.value, req), page, limit)
  {
  }

  /** Without `page` and `limit` the first ten matches are listed. */
  lemma GetDefaults(entries: seq<Entry>, user: Option<string>, req: ListRequest)
    requires Truthy(user) && req.page.None? && req.limit.None?
    ensures Get(entries, user, true, req) == Listing(entries, QueryFor(user.value, req), 1, 10)
  {
    assert ParseInt(ParamOr(req.page, "1")) == Some(1) by {
      assert NatToString(1) + [] == "1";
      ParseIntOfNatToString(1, []);
    }
    TenIsParsed(req);
    GetParsed(entries, user, req, 1, 10);
  }

  lemma TenIsParsed(req: ListRequest)
    requires req.limit.None?
    ensures ParseInt(ParamOr(req.limit, "10")) == Some(10)
  {
    assert NatToString(10) + [] == "10" by {
      assert NatToString(1) == "1";
    }
    ParseIntOfNatToString(10, []);
  }

  /** A hexadecimal `page` such as `0x2` is read in base 16. */
  lemma GetHexPage(entries: seq<Entry>, user: Option<string>, req: ListRequest, x: char, d: string)
    requires x == 'x' || x == 'X'
    requires d != [] && AllHexDigits(d)
    requires Truthy(user) && req.page == Some(['0', x] + d) && req.limit.None?
    ensures Get(entries, user, true, req) == Listing(entries, QueryFor(user.value, req), HexValue(d), 10)
  {
    HexPageIsParsed(req, x, d);
    TenIsParsed(req);
    GetParsed(entries, user, req, HexValue(d), 10);
  }

  lemma HexPageIsParsed(req: ListRequest, x: char, d: string)
    requires x == 'x' || x == 'X'
    requires d != [] && AllHexDigits(d) && req.page == Some(['0', x] + d)
    ensures ParseInt(ParamOr(req.page, "1")) == Some(HexValue(d))
  {
    var t := ParamOr(req.page, "1");
    assert t == ['0', x] + d + [];
    ParseIntOfHex(x, d, []);
  }

  /** A `page` or `limit` read as NaN makes `GET` fail. */
  lemma GetNaN(entries: seq<Entry>, user: Option<string>, req: ListRequest)
    requires Truthy(user)
    requires ParseInt(ParamOr(req.page, "1")).None? || ParseInt(ParamOr(req.limit, "10")).None?
    ensures Get(entries, user, true, req) == Response(500, Error(FetchFailed))
  {
  }

  /** A `limit` of `0x` with no digits after it is NaN, and the listing fails. */
  lemma GetBareHexLimit(entries: seq<Entry>, user: Option<string>, req: ListRequest, x: char)
    requires x == 'x' || x == 'X'
    requires Truthy(user) && req.limit == Some(['0', x])
    ensures Get(entries, user, true, req) == Response(500, Error(FetchFailed))
  {
    BareHexIsNaN(req, x);
    GetNaN(entries, user, req);
  }

  lemma BareHexIsNaN(req: ListRequest, x: char)
    requires x == 'x' || x == 'X'
    requires req.limit == Some(['0', x])
    ensures ParseInt(ParamOr(req.limit, "10")).None?
  {
    var t := ParamOr(req.limit, "10");
    assert t == ['0', x] + [] + [];
    ParseIntOfHex(x, [], []);
  }

  /**
   * A listing holds only entries matching the query, at most `limit` of them,
   * newest first; `total` counts every match.
   */
  lemma ListingScoped(entries: seq<Entry>, q: Query, page: int, limit: int)
    requires Ascending(entries)
    requires (page - 1) * limit >= 0
    ensures var r := Listing(entries, q, page, limit);
      && (forall e | e in r.body.data :: e in entries && Matches(e, q))
      && Descending(r.body.data)
      && (limit > 0 ==> |r.body.data| <= limit)
      && r.body.total == |Select(entries, q)|
      && (limit > 0 ==> r.body.pages == Some(CeilDiv(r.body.total, limit)))
  {
    var r := Listing(entries, q, page, limit);
    var all := NewestFirst(entries, q);
    var skip := (page - 1) * limit;
    assert r.body.data == Window(all, skip, limit);
    NewestFirstIsSorted(entries, q);
    WindowKeeps(all, skip, limit);
  }

  /** The query keeps the caller's entries and applies each non-empty filter. */
  lemma QueryScoped(e: Entry, userId: string, req: ListRequest)
    requires Matches(e, QueryFor(userId, req))
    ensures e.userId == userId
    ensures Truthy(req.contentType) ==> TypeName(e.contentType) == req.contentType.value
    ensures Truthy(req.videoId) ==> e.videoId == req.videoId.value
  {
  }

  /** With a positive limit, page `p` starts `(p - 1) * limit` matches into the newest-first listing. */
  lemma ListingPage(entries: seq<Entry>, q: Query, page: int, limit: int)
    requires limit > 0 && page >= 1
    ensures var r := Listing(entries, q, page, limit);
      var all := NewestFirst(entries, q);
      var skip := (page - 1) * limit;
      && r.status == 200
      && (skip < |all| ==> r.body.data == all[skip..Min(|all|, skip + limit)])
      && (skip >= |all| ==> r.body.data == [])
  {
    var skip := (page - 1) * limit;
    assert skip >= 0 by { ProductNonNegative(page - 1, limit); }
    var all := NewestFirst(entries, q);
    assert Listing(entries, q, page, limit).body.data == Window(all, skip, limit);
    assert && (skip < |all| ==> Window(all, skip, limit) == all[skip..Min(|all|, skip + limit)])
           && (skip >= |all| ==> Window(all, skip, limit) == [])
    by {
      WindowOfPositive(all, skip, limit);
    }
  }

  lemma ProductNonNegative(a: int, b: int)
    requires a >= 0 && b >= 0
    ensures a * b >= 0
  {
  }

  /** The `POST` body. */
  datatype RequestMetadata = RequestMetadata(transcriptLength: Option<nat>, apiUsed: Option<string>,
                                             processingTime: Option<nat>)

  datatype SaveRequest = SaveRequest(
    videoUrl: Option<string>,
    videoTitle: Option<string>,
    channelName: Option<string>,
    videoDuration: Option<string>,
    videoViews: Option<string>,
    videoThumbnail: Option<string>,
    contentType: Option<string>,
    content: Option<string>,
    analysis: Option<string>,
    metadata: Option<RequestMetadata>)

  /** The four fields the handler insists on. */
  predicate HasRequiredFields(req: SaveRequest) {
    Truthy(req.videoUrl) && Truthy(req.videoTitle) && Truthy(req.contentType) && Truthy(req.content)
  }

  /** The usage counter the ternary chain picks: an unrecognised type counts as a chat message. */
  function UsageTypeFor(contentType: string): (t: ContentType)
    ensures ParseType(contentType).Some? ==> t == ParseType(contentType).value
    ensures ParseType(contentType).None? ==> t == Chat
  {
    if contentType == "study-guide" then Guide
    else if contentType == "briefing-doc" then Briefing
    else if contentType == "note" then Note
    else Chat
  }

  /** The document the handler creates: the request's fields, the owner, the extracted ID and `generatedAt: now`. */
  function DraftFor(req: SaveRequest, userId: string, email: string, videoId: string, now: nat): Draft
    requires HasRequiredFields(req)
  {
    var m := req.metadata.GetOr(RequestMetadata(None, None, None));
    Draft(userId, email, req.videoUrl.value, req.videoTitle.value, videoId,
          req.channelName, req.videoDuration, req.videoViews, req.videoThumbnail,
          req.contentType.value, req.content.value, req.analysis,
          m.transcriptLength, Some(now), m.apiUsed, m.processingTime)
  }

  /**
   * `POST`: checks in order — no user 401, a missing field 400, no database
   * 500, no user record 404, no video ID 400, a content type outside the enum
   * or an owner whose email a `$set` emptied 500 (the save fails validation) —
   * and changes nothing when any fails. Otherwise the entry is appended, then
   * the owner's counter for its type rises by one and its login and update
   * stamps are refreshed, at the tick after the entry's, with the rest of the
   * owner's record kept.
   */
  method Post(db: Database, user: Option<string>, req: SaveRequest, dbUp: bool) returns (r: Response)
    requires db.Valid()
    modifies db
    ensures db.Valid()
    ensures !Truthy(user) ==> r == Response(401, Error(Unauthorized))
    ensures Truthy(user) && !HasRequiredFields(req) ==> r == Response(400, Error(MissingFields))
    ensures Truthy(user) && HasRequiredFields(req) && !dbUp ==> r == Response(500, Error(SaveFailed))
    ensures Truthy(user) && HasRequiredFields(req) && dbUp && user.value !in old(db.users) ==>
      r == Response(404, Error(UserNotFound))
    ensures (Truthy(user) && HasRequiredFields(req) && dbUp && user.value in old(db.users)
             && ExtractSingle(req.videoUrl.value).None?) ==> r == Response(400, Error(InvalidUrl))
    ensures (Truthy(user) && HasRequiredFields(req) && dbUp && user.value in old(db.users)
             && ExtractSingle(req.videoUrl.value).Some?
             && (ParseType(req.contentType.value).None? || old(db.users)[user.value].email == "")) ==>
      r == Response(500, Error(SaveFailed))
    ensures r.status != 200 ==> db.entries == old(db.entries) && db.users == old(db.users)
    ensures r.status == 200 <==>
      Truthy(user) && HasRequiredFields(req) && dbUp && user.value in old(db.users)
      && ExtractSingle(req.videoUrl.value).Some? && ParseType(req.contentType.value).Some?
      && old(db.users)[user.value].email != ""
    ensures r.status == 200 ==>
      && r.body.Saved? && r.body.message == SavedMessage
      && db.entries == old(db.entries) + [r.body.entry]
      && r.body.entry.userId == user.value
      && r.body.entry.userEmail == old(db.users)[user.value].email
      && Some(r.body.entry.videoId) == ExtractSingle(req.videoUrl.value)
      && r.body.entry.videoUrl == req.videoUrl.value
      && TypeName(r.body.entry.contentType) == req.contentType.value
      && r.body.entry.content == req.content.value
      && r.body.entry.metadata.generatedAt == r.body.entry.createdAt
      && r.body.entry.createdAt == old(db.clock)
      && db.users == old(db.users)[user.value := old(db.users)[user.value].(
           usage := Increment(old(db.users)[user.value].usage, r.body.entry.contentType),
           lastLoginAt := old(db.clock) + 1, updatedAt := old(db.clock) + 1)]
  {
    if !Truthy(user) {
      return Response(401, Error(Unauthorized));
    }
    if !HasRequiredFields(req) {
      return Response(400, Error(MissingFields));
    }
    if !dbUp {
      return Response(500, Error(SaveFailed));
    }
    var owner := db.FindUser(user.value);
    if owner.None? {
      return Response(404, Error(UserNotFound));
    }
    var videoId := ExtractSingle(req.videoUrl.value);
    if videoId.None? {
      return Response(400, Error(InvalidUrl));
    }
    var saved := db.Save(DraftFor(req, user.value, owner.value.email, videoId.value, db.clock));
    if saved.None? {
      return Response(500, Error(SaveFailed));
    }
    db.IncrementUsage(user.value, UsageTypeFor(req.contentType.value));
    r := Response(200, Saved(saved.value, SavedMessage));
  }

  /** The length of an ObjectId's hexadecimal text. */
  const ObjectIdLength: nat := 24

  /**
   * The `id` parameter cast to an ObjectId `_id`: 24 hexadecimal digits in
   * either case, read as a number; anything else makes the query throw.
   */
  function CastId(s: string): (r: Option<nat>)
    ensures r.Some? <==> |s| == ObjectIdLength && AllHexDigits(s)
    ensures r.Some? ==> r.value == HexValue(s) && r.value < Pow16(ObjectIdLength)
  {
    if |s| == ObjectIdLength && AllHexDigits(s) then
      HexValueBound(s);
      Some(HexValue(s))
    else None
  }

  /** A hexadecimal number is below 16 to the power of its length. */
  lemma {:induction false} HexValueBound(s: string)
    requires AllHexDigits(s)
    ensures HexValue(s) < Pow16(|s|)
  {
    if s != [] {
      HexValueBound(s[..|s| - 1]);
    }
  }

  /** Every `_id` reads back from its hexadecimal text. */
  lemma CastIdOfHexText(n: nat)
    requires n < Pow16(ObjectIdLength)
    ensures CastId(HexText(n, ObjectIdLength)) == Some(n)
  {
    HexValueOfHexText(n, ObjectIdLength);
  }

  /**
   * `DELETE`: no user 401, no `id` 400, no database 500, an ID that does not
   * cast 500; then the entry with that ID is removed only if the caller owns
   * it, and otherwise 404 with the store unchanged.
   */
  method Delete(db: Database, user: Option<string>, id: Option<string>, dbUp: bool) returns (r: Response)
    requires db.Valid()
    modifies db
    ensures db.Valid()
    ensures db.users == old(db.users)
    ensures !Truthy(user) ==> r == Response(401, Error(Unauthorized))
    ensures Truthy(user) && !Truthy(id) ==> r == Response(400, Error(IdRequired))
    ensures Truthy(user) && Truthy(id) && (!dbUp || CastId(id.value).None?) ==>
      r == Response(500, Error(DeleteFailed))
    ensures r.status != 200 ==> db.entries == old(db.entries)
    ensures r.status == 200 <==>
      Truthy(user) && Truthy(id) && dbUp && CastId(id.value).Some?
      && exists e :: e in old(db.entries) && Owned(e, CastId(id.value).value, user.value)
    ensures Truthy(user) && Truthy(id) && dbUp && CastId(id.value).Some? && r.status != 200 ==>
      r == Response(404, Error(EntryNotFound))
    ensures r.status == 200 ==>
      && r.body == Deleted(DeletedMessage)
      && db.entries == Without(old(db.entries), CastId(id.value).value, user.value)
      && |db.entries| == |old(db.entries)| - 1
  {
    if !Truthy(user) {
      return Response(401, Error(Unauthorized));
    }
    if !Truthy(id) {
      return Response(400, Error(IdRequired));
    }
    if !dbUp || CastId(id.value).None? {
      return Response(500, Error(DeleteFailed));
    }
    var removed := db.DeleteOwned(CastId(id.value).value, user.value);
    if removed.None? {
      return Response(404, Error(EntryNotFound));
    }
    r := Response(200, Deleted(DeletedMessage));
  }

  /** The owner-scoped delete never touches another user's entries. */
  lemma DeleteKeepsOthers(entries: seq<Entry>, id: nat, owner: string, e: Entry)
    requires e in entries && e.userId != owner
    ensures e in Without(entries, id, owner)
  {
  }
}
