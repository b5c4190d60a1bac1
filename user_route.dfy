/**
 * app/api/user/route.ts: get-or-create the signed-in user's profile (`GET`),
 * update it (`PUT`) and report usage statistics (`POST` with
 * `action: 'stats'`).
 *
 * Clerk is two parameters: `user`, the ID `auth()` returns, and `clerk`, what
 * `currentUser()` returns. `dbUp` says whether the database can be reached and
 * its queries succeed; `today` is the calendar day used for defaults.
 */
module UserRoute {
  import opened Wrappers
  import opened SummaryHistory
  import opened UserModel
  import opened Store

  const Unauthorized: string := "Unauthorized"
  const NotInClerk: string := "User not found in Clerk"
  const UserNotFound: string := "User not found"
  const UpdatedMessage: string := "Profile updated successfully"
  const QueuedMessage: string := "Profile update queued (database unavailable)"
  const InvalidAction: string := "Invalid action"
  const StatsFailed: string := "Failed to get user statistics"

  /** The profile `currentUser()` returns. */
  datatype ClerkUser = ClerkUser(emails: seq<string>, firstName: Option<string>, lastName: Option<string>,
                                 imageUrl: Option<string>)

  datatype Mode = DatabaseMode | ClerkOnly | Offline

  datatype Body =
    | Error(error: string)
    | Profile(data: User, mode: Mode)
    | Updated(data: User, message: string)
    | Queued(message: string, mode: Mode)
    | Statistics(plan: string, usage: Usage, createdAt: nat, total: nat, byType: map<string, TypeStat>)

  datatype Response = Response(status: nat, body: Body)

  predicate Truthy(v: Option<string>) { v.Some? && v.value != "" }

  /** `clerkUser.emailAddresses[0]?.emailAddress || ''`. */
  function FirstEmail(c: ClerkUser): (e: string)
    ensures |c.emails| > 0 ==> e == c.emails[0]
    ensures |c.emails| == 0 ==> e == ""
  {
    if |c.emails| > 0 then c.emails[0] else ""
  }

  /**
   * The profile answered without the database: taken from Clerk, on the free
   * plan, with zero counters and default preferences.
   */
  function BasicUser(userId: string, c: ClerkUser, now: nat, today: Date): (u: User)
    ensures u.clerkId == userId && u.email == FirstEmail(c) && u.plan == FreePlan
    ensures Counter(u.usage, Guide) == 0 && Counter(u.usage, Briefing) == 0
    ensures Counter(u.usage, Note) == 0 && Counter(u.usage, Chat) == 0
    ensures u.preferences == DefaultPreferences
  {
    User(userId, FirstEmail(c), c.firstName, c.lastName, c.imageUrl, FreePlan,
         Usage(0, 0, 0, 0, today), DefaultPreferences, now, now, now)
  }

  /**
   * `GET`: without a user 401. With the database, an existing record has its
   * last login refreshed and is answered in database mode; a missing one is
   * created from Clerk (404 when Clerk has no user). When the database is
   * unreachable, or the save of the refreshed or created record is refused,
   * a Clerk-only profile is answered instead, or 404 when Clerk has no user.
   */
  method Get(db: Database, user: Option<string>, dbUp: bool, clerk: Option<ClerkUser>, today: Date)
    returns (r: Response)
    requires db.Valid() && ValidDate(today)
    modifies db
    ensures db.Valid()
    ensures db.entries == old(db.entries)
    ensures !Truthy(user) ==> r == Response(401, Error(Unauthorized)) && db.users == old(db.users)
    ensures !dbUp ==> db.users == old(db.users)
    ensures Truthy(user) && !dbUp ==>
      r == (if clerk.None? then Response(404, Error(NotInClerk))
            else Response(200, Profile(BasicUser(user.value, clerk.value, old(db.clock), today), ClerkOnly)))
    ensures Truthy(user) && dbUp && user.value in old(db.users) && Saveable(old(db.users)[user.value]) ==>
      && r.status == 200 && r.body.Profile? && r.body.mode == DatabaseMode
      && r.body.data == old(db.users)[user.value].(lastLoginAt := old(db.clock), updatedAt := old(db.clock))
      && db.users == old(db.users)[user.value := r.body.data]
    ensures Truthy(user) && dbUp && user.value in old(db.users) && !Saveable(old(db.users)[user.value]) ==>
      && r == (if clerk.None? then Response(404, Error(NotInClerk))
               else Response(200, Profile(BasicUser(user.value, clerk.value, old(db.clock), today), ClerkOnly)))
      && db.users == old(db.users)
    ensures Truthy(user) && dbUp && user.value !in old(db.users) && clerk.None? ==>
      r == Response(404, Error(NotInClerk)) && db.users == old(db.users)
    ensures Truthy(user) && dbUp && user.value !in old(db.users) && clerk.Some? ==>
      var created := NewUser(user.value, FirstEmail(clerk.value), clerk.value.firstName, clerk.value.lastName,
                           clerk.value.imageUrl, old(db.clock), today);
      if FirstEmail(clerk.value) != "" && EmailFree(old(db.users), FirstEmail(clerk.value)) then
        r == Response(200, Profile(created, DatabaseMode)) && db.users == old(db.users)[user.value := created]
      else
        r == Response(200, Profile(BasicUser(user.value, clerk.value, old(db.clock), today), ClerkOnly))
        && db.users == old(db.users)
  {
    if !Truthy(user) {
      return Response(401, Error(Unauthorized));
    }
    var now := db.clock;
    var dbConnected := dbUp;
    var found: Option<User> := None;
    if dbConnected {
      found := db.FindUser(user.value);
      if found.None? {
        if clerk.None? {
          return Response(404, Error(NotInClerk));
        }
        var c := clerk.value;
        var created := NewUser(user.value, FirstEmail(c), c.firstName, c.lastName, c.imageUrl, db.clock, today);
        var ok := db.CreateUser(created);
        if ok {
          found := Some(created);
        } else {
          dbConnected := false;
        }
      } else {
        var ok := db.Touch(user.value);
        if ok {
          found := Some(db.users[user.value]);
        } else {
          dbConnected := false;
        }
      }
    }
    if !dbConnected || found.None? {
      if clerk.None? {
        return Response(404, Error(NotInClerk));
      }
      return Response(200, Profile(BasicUser(user.value, clerk.value, now, today), ClerkOnly));
    }
    r := Response(200, Profile(found.value, DatabaseMode));
  }

  /**
   * `PUT`: without a user 401; a missing record 404; otherwise the `$set` is
   * applied and the updated record answered. Whatever throws inside the
   * database step — an unreachable database, a body that does not cast, a
   * duplicate Clerk ID or email — is answered as a success that carries no
   * data and says the update is queued, with nothing stored.
   */
  method Put(db: Database, user: Option<string>, body: SetBody, dbUp: bool) returns (r: Response)
    requires db.Valid()
    modifies db
    ensures db.Valid()
    ensures db.entries == old(db.entries)
    ensures r.status != 200 || r.body.Queued? ==> db.users == old(db.users)
    ensures !Truthy(user) ==> r == Response(401, Error(Unauthorized))
    ensures Truthy(user) && (!dbUp || body.Uncastable?) ==> r == Response(200, Queued(QueuedMessage, Offline))
    ensures Truthy(user) && dbUp && body.SetFields? && user.value !in old(db.users) ==>
      r == Response(404, Error(UserNotFound))
    ensures Truthy(user) && dbUp && body.SetFields? && user.value in old(db.users) ==>
      var u := ApplyPatch(old(db.users)[user.value], body.patch, old(db.clock));
      && (Duplicates(old(db.users), user.value, u) ==> r == Response(200, Queued(QueuedMessage, Offline)))
      && (!Duplicates(old(db.users), user.value, u) ==>
            && r == Response(200, Updated(u, UpdatedMessage))
            && db.users == (old(db.users) - {user.value})[u.clerkId := u])
  {
    if !Truthy(user) {
      return Response(401, Error(Unauthorized));
    }
    if !dbUp {
      return Response(200, Queued(QueuedMessage, Offline));
    }
    var updated := db.Update(user.value, body);
    match updated
    case Threw =>
      r := Response(200, Queued(QueuedMessage, Offline));
    case Missing =>
      r := Response(404, Error(UserNotFound));
    case Changed(u) =>
      r := Response(200, Updated(u, UpdatedMessage));
  }

  /**
   * `POST`: without a user 401; an action other than `stats` 400; then the
   * database (500 when down) and the record (404 when absent); otherwise the
   * caller's plan, usage, total and per-type statistics.
   */
  function Post(entries: seq<Entry>, users: map<string, User>, user: Option<string>, action: Option<string>,
                dbUp: bool): (r: Response)
    ensures r.status in {200, 400, 401, 404, 500}
    ensures r.status == 401 <==> !Truthy(user)
    ensures r.status == 400 <==> Truthy(user) && action != Some("stats")
    ensures r.status == 200 <==> Truthy(user) && action == Some("stats") && dbUp && user.value in users
  {
    if !Truthy(user) then Response(401, Error(Unauthorized))
    else if action != Some("stats") then Response(400, Error(InvalidAction))
    else if !dbUp then Response(500, Error(StatsFailed))
    else if user.value !in users then Response(404, Error(UserNotFound))
    else
      var u := users[user.value];
      Response(200, Statistics(u.plan, u.usage, u.createdAt, Total(entries, user.value), Stats(entries, user.value)))
  }

  /**
   * The statistics cover only the caller's entries: `byType` has a key for each
   * content type they have used, with its count, and the counts add up to `total`.
   */
  lemma PostStatistics(entries: seq<Entry>, users: map<string, User>, user: Option<string>, t: ContentType)
    requires Post(entries, users, user, Some("stats"), true).status == 200
    ensures var b := Post(entries, users, user, Some("stats"), true).body;
      && b.total == CountType(entries, user.value, Guide) + CountType(entries, user.value, Briefing)
                  + CountType(entries, user.value, Note) + CountType(entries, user.value, Chat)
      && (TypeName(t) in b.byType <==> exists e :: e in entries && e.userId == user.value && e.contentType == t)
      && (TypeName(t) in b.byType ==> b.byType[TypeName(t)].count == CountType(entries, user.value, t))
  {
    var u := users[user.value];
    assert Post(entries, users, user, Some("stats"), true).body
      == Statistics(u.plan, u.usage, u.createdAt, Total(entries, user.value), Stats(entries, user.value));
    CountsAddUp(entries, user.value);
    StatsByType(entries, user.value, t);
    CountTypePositive(entries, user.value, t);
  }
}
