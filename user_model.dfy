/**
 * The `User` collection's schema (lib/models/User.ts): an account keyed by its
 * Clerk ID, its plan, its usage counters and its preferences, with the
 * defaults Mongoose fills in on creation.
 *
 * `createdAt`, `updatedAt` and `lastLoginAt` are logical clock ticks; the
 * `monthlyReset` default is a calendar computation and keeps calendar dates.
 */
module UserModel {
  import opened Wrappers
  import opened SummaryHistory

  /** A calendar date; `month` counts from 0 as JavaScript's `Date` does. */
  datatype Date = Date(year: int, month: nat, day: nat)

  predicate ValidDate(d: Date) { d.month < 12 && 1 <= d.day <= 31 }

  /** `d1` is strictly earlier than `d2`. */
  predicate Before(d1: Date, d2: Date) {
    || d1.year < d2.year
    || (d1.year == d2.year && d1.month < d2.month)
    || (d1.year == d2.year && d1.month == d2.month && d1.day < d2.day)
  }

  /**
   * `new Date(now.getFullYear(), now.getMonth() + 1, 1)`: month 12 overflows
   * into January of the following year.
   */
  function NextMonthStart(today: Date): (r: Date)
    requires ValidDate(today)
    ensures ValidDate(r) && r.day == 1
    ensures Before(today, r)
  {
    if today.month + 1 == 12 then Date(today.year + 1, 0, 1) else Date(today.year, today.month + 1, 1)
  }

  /** The monthly reset is the first first-of-the-month after `today`: none lies in between. */
  lemma NextMonthStartIsFirst(today: Date, d: Date)
    requires ValidDate(today) && ValidDate(d) && d.day == 1
    requires Before(today, d)
    ensures !Before(d, NextMonthStart(today))
  {
  }

  const FreePlan: string := "free"
  const Plans: set<string> := {"free", "pro", "premium"}
  const Themes: set<string> := {"light", "dark", "system"}

  datatype Usage = Usage(studyGuides: nat, briefingDocs: nat, notes: nat, chatMessages: nat, monthlyReset: Date)

  datatype Preferences = Preferences(theme: string, language: string, notifications: bool)

  /** A stored user. `plan` and `theme` stay strings: a `$set` update is not checked against the enums. */
  datatype User = User(
    clerkId: string,
    email: string,
    firstName: Option<string>,
    lastName: Option<string>,
    profileImage: Option<string>,
    plan: string,
    usage: Usage,
    preferences: Preferences,
    createdAt: nat,
    updatedAt: nat,
    lastLoginAt: nat)

  /** `clerkId` and `email` are required; Mongoose's `required` refuses `""`. */
  predicate ValidUser(u: User) { u.clerkId != "" && u.email != "" }

  /**
   * What `save()` checks of a whole document: the required fields, and the
   * `plan` and `theme` enums. A `$set` update can store a record that fails it.
   */
  predicate Saveable(u: User) { ValidUser(u) && u.plan in Plans && u.preferences.theme in Themes }

  const DefaultPreferences: Preferences := Preferences("system", "en", true)

  /**
   * A user document created at tick `now` on calendar day `today`, with the
   * schema's defaults: plan free, every counter 0, reset on the 1st of next
   * month, theme `system`, language `en`, notifications on.
   */
  function NewUser(clerkId: string, email: string, firstName: Option<string>, lastName: Option<string>,
                   profileImage: Option<string>, now: nat, today: Date): (u: User)
    requires ValidDate(today)
    ensures u.clerkId == clerkId && u.email == email
    ensures u.plan == FreePlan && u.plan in Plans
    ensures Counter(u.usage, Guide) == 0 && Counter(u.usage, Briefing) == 0
    ensures Counter(u.usage, Note) == 0 && Counter(u.usage, Chat) == 0
    ensures u.usage.monthlyReset.day == 1 && Before(today, u.usage.monthlyReset)
    ensures u.preferences.theme in Themes && u.preferences == DefaultPreferences
    ensures u.createdAt == now && u.lastLoginAt == now
  {
    User(clerkId, email, firstName, lastName, profileImage, FreePlan,
         Usage(0, 0, 0, 0, NextMonthStart(today)), DefaultPreferences, now, now, now)
  }

  /** The usage counter that records entries of type `t`. */
  function Counter(u: Usage, t: ContentType): nat {
    match t
    case Guide => u.studyGuides
    case Briefing => u.briefingDocs
    case Note => u.notes
    case Chat => u.chatMessages
  }

  /** `$inc` of the counter for `t`. */
  function Increment(u: Usage, t: ContentType): (r: Usage)
    ensures Counter(r, t) == Counter(u, t) + 1
    ensures forall t': ContentType | t' != t :: Counter(r, t') == Counter(u, t')
    ensures r.monthlyReset == u.monthlyReset
  {
    match t
    case Guide => u.(studyGuides := u.studyGuides + 1)
    case Briefing => u.(briefingDocs := u.briefingDocs + 1)
    case Note => u.(notes := u.notes + 1)
    case Chat => u.(chatMessages := u.chatMessages + 1)
  }
}
