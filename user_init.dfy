/**
 * hooks/use-user-initialization.ts: the client hook that makes sure the
 * signed-in Clerk user has a profile in the database, and exposes it.
 *
 * Clerk's `useUser()` is the parameter `clerk`. The `fetch` calls to the user
 * route are outside the model: what each one does is a parameter (`Reply`).
 * The React state (`userData`, `isInitializing`, `error`) becomes the fields
 * of a `UserSession` object.
 */
module UserInit {
  import opened Wrappers
  import opened Text
  import opened UserModel

  const InitFailed: string := "Failed to initialize user"
  const InitFailedPrefix: string := "Failed to initialize user: "
  const UpdateFailed: string := "Failed to update user data"
  const UpdateRejected: string := "Failed to update user"
  const StatsFailed: string := "Failed to get user stats"
  const StatsRejected: string := "Failed to get stats"
  const UnknownError: string := "Unknown error"

  /** What `useUser()` reports. */
  datatype Clerk = Clerk(isLoaded: bool, isSignedIn: bool, hasUser: bool)

  /** The JSON of an answer: `{success, data, error}`, or a body that does not parse. */
  datatype Body<T> =
    | Parsed(success: bool, data: Option<T>, error: Option<string>)
      /** `message` is the message of the parse error. */
    | Unparsable(message: string)

  /** What one `fetch` does: an answer with its status, or a rejection. */
  datatype Reply<T> =
    | Answered(ok: bool, status: nat, statusText: string, body: Body<T>)
      /** `message` is `None` when the thrown value is not an `Error`. */
    | Threw(message: Option<string>)

  /** `x.error || fallback` for a parsed body. */
  function ErrorOr<T>(b: Body<T>, fallback: string): (m: string)
    requires b.Parsed?
    ensures m != "" || fallback == ""
  {
    if b.error.Some? && b.error.value != "" then b.error.value else fallback
  }

  /** A message that the hook keeps from the user: an authentication or a server error. */
  predicate Silent(message: string) {
    || Contains(message, "Unauthorized") || Contains(message, "401")
    || Contains(message, "500") || Contains(message, "Internal Server Error")
  }

  /** How `initializeUser` ends. */
  datatype InitOutcome<T> =
    | Loaded(data: T)                        // `result.data` of a successful answer
    | Quiet                                  // an HTTP 500, or a silent failure: no profile, no error
    | Failed(message: string, cleared: bool) // any other failure, shown; `cleared` when the profile was set to null first

  /**
   * How the request of `initializeUser` ends: the profile accepted, the early
   * return on a 500, or a throw. `cleared` says that `setUserData(result.data)`
   * ran with a null `data` before the throw.
   */
  datatype InitStep = Accepted(data: User) | ServerDown | Thrown(message: string, cleared: bool)

  /**
   * The message `initializeUser` throws for a reply, or the profile it accepts.
   * A success without `data` stores null and then throws the `TypeError` of
   * reading `result.data.email`, whose engine-specific text is `readError`.
   */
  function InitResult(reply: Reply<User>, readError: string): (r: InitStep)
    ensures r.Accepted? <==>
      reply.Answered? && reply.ok && reply.body.Parsed? && reply.body.success && reply.body.data.Some?
    ensures r.Accepted? ==> r.data == reply.body.data.value
    ensures r.Thrown? && r.cleared <==>
      reply.Answered? && reply.ok && reply.body.Parsed? && reply.body.success && reply.body.data.None?
  {
    match reply
    case Threw(message) => Thrown(message.GetOr(UnknownError), false)
    case Answered(ok, status, statusText, body) =>
      if !ok then
        var message := if body.Parsed? then ErrorOr(body, InitFailedPrefix + statusText) else InitFailedPrefix + statusText;
        if status == 500 then ServerDown else Thrown(message, false)
      else if body.Unparsable? then Thrown(body.message, false)
      else if body.success then
        if body.data.Some? then Accepted(body.data.value) else Thrown(readError, true)
      else Thrown(ErrorOr(body, InitFailed), false)
  }

  /**
   * `initializeUser`'s outcome: a thrown message is shown unless it is
   * silent; a success without `data` leaves no profile.
   */
  function InitOutcomeOf(reply: Reply<User>, readError: string): (o: InitOutcome<User>)
    ensures o.Failed? ==> !Silent(o.message)
    ensures reply.Answered? && !reply.ok && reply.status == 500 ==> o == Quiet
    ensures o.Loaded? <==> InitResult(reply, readError).Accepted?
    ensures reply.Answered? && reply.ok && reply.body.Parsed? && reply.body.success && reply.body.data.None? ==>
      o == if Silent(readError) then Quiet else Failed(readError, true)
  {
    match InitResult(reply, readError)
    case Accepted(data) => Loaded(data)
    case ServerDown => Quiet
    case Thrown(message, cleared) => if Silent(message) then Quiet else Failed(message, cleared)
  }

  /**
   * A rejected answer whose error, or status text when the body does not
   * parse, names the authentication failure is kept quiet, whatever its status.
   */
  lemma UnauthorizedIsQuiet(reply: Reply<User>, readError: string)
    requires reply.Answered? && !reply.ok
    requires || (reply.body.Parsed? && reply.body.error == Some("Unauthorized"))
             || (reply.body.Unparsable? && reply.statusText == "Unauthorized")
    ensures InitOutcomeOf(reply, readError) == Quiet
  {
    if reply.status != 500 {
      if reply.body.Parsed? {
        ContainsMiddle("", "Unauthorized", "");
        assert "" + "Unauthorized" + "" == "Unauthorized";
      } else {
        ContainsMiddle(InitFailedPrefix, "Unauthorized", "");
        assert InitFailedPrefix + "Unauthorized" + "" == InitFailedPrefix + reply.statusText;
      }
    }
  }

  /** The hook's state. */
  class UserSession {
    var userData: Option<User>
    var isInitializing: bool
    var error: Option<string>

    constructor()
      ensures userData == None && !isInitializing && error == None
    {
      userData := None;
      isInitializing := false;
      error := None;
    }

    /** `isUserReady`. */
    predicate IsUserReady(clerk: Clerk)
      reads this
    {
      clerk.isLoaded && clerk.isSignedIn && userData.Some? && !isInitializing
    }

    /**
     * `initializeUser`: without a loaded, signed-in Clerk user there is no
     * profile and no request. Otherwise the error is cleared and the profile
     * is fetched: a success with data stores it; an HTTP 500 or a silent
     * failure leaves no profile and no error; any other failure shows its
     * message and keeps the profile, unless a success without data already
     * cleared it. It is not initializing afterwards.
     */
    method InitializeUser(clerk: Clerk, reply: Reply<User>, readError: string) returns (requested: bool)
      modifies this
      ensures requested <==> clerk.isLoaded && clerk.isSignedIn && clerk.hasUser
      ensures !requested ==> userData == None && isInitializing == old(isInitializing) && error == old(error)
      ensures requested ==> !isInitializing && match InitOutcomeOf(reply, readError)
        case Loaded(data) => userData == Some(data) && error == None
        case Quiet => userData == None && error == None
        case Failed(message, cleared) => userData == (if cleared then None else old(userData)) && error == Some(message)
      ensures requested && InitOutcomeOf(reply, readError).Loaded? ==> IsUserReady(clerk)
      ensures error.Some? && requested ==> !Silent(error.value)
    {
      if !clerk.isLoaded || !clerk.isSignedIn || !clerk.hasUser {
        userData := None;
        return false;
      }
      requested := true;
      isInitializing := true;
      error := None;
      match InitResult(reply, readError) {
        case Accepted(data) =>
          userData := Some(data);
        case ServerDown =>
          userData := None;
          error := None;
        case Thrown(message, cleared) =>
          if cleared {
            userData := None;
          }
          if Contains(message, "Unauthorized") || Contains(message, "401") {
            userData := None;
            error := None;
          } else if Contains(message, "500") || Contains(message, "Internal Server Error") {
            userData := None;
            error := None;
          } else {
            error := Some(message);
          }
      }
      isInitializing := false;
    }

    /**
     * `updateUserData`: nothing is sent without a profile. Otherwise a
     * successful answer's `data` becomes the profile and is returned; any
     * failure sets `error` and returns nothing.
     */
    method UpdateUserData(reply: Reply<User>) returns (r: Option<User>, requested: bool)
      modifies this
      ensures isInitializing == old(isInitializing)
      ensures old(userData).None? ==> !requested && r == None && userData == None && error == old(error)
      ensures old(userData).Some? ==> requested
      ensures old(userData).Some? && Succeeded(reply) ==>
        r == reply.body.data && userData == reply.body.data && error == old(error)
      ensures old(userData).Some? && !Succeeded(reply) ==>
        r == None && userData == old(userData) && error == Some(FailureMessage(reply, UpdateFailed, UpdateRejected))
    {
      if userData.None? {
        return None, false;
      }
      requested := true;
      if Succeeded(reply) {
        userData := reply.body.data;
        r := reply.body.data;
      } else {
        error := Some(FailureMessage(reply, UpdateFailed, UpdateRejected));
        r := None;
      }
    }

    /**
     * `getUserStats`: nothing is sent without a profile. Otherwise a
     * successful answer's `data` is returned; any failure sets `error` and
     * returns nothing. The profile is never changed.
     */
    method GetUserStats<S>(reply: Reply<S>) returns (r: Option<S>, requested: bool)
      modifies this
      ensures userData == old(userData) && isInitializing == old(isInitializing)
      ensures requested <==> old(userData).Some?
      ensures !requested ==> r == None && error == old(error)
      ensures requested && Succeeded(reply) ==> r == reply.body.data && error == old(error)
      ensures requested && !Succeeded(reply) ==> r == None && error == Some(FailureMessage(reply, StatsFailed, StatsRejected))
    {
      if userData.None? {
        return None, false;
      }
      requested := true;
      if Succeeded(reply) {
        r := reply.body.data;
      } else {
        error := Some(FailureMessage(reply, StatsFailed, StatsRejected));
        r := None;
      }
    }
  }

  /** An ok answer whose body parses and says `success`. */
  predicate Succeeded<T>(reply: Reply<T>) {
    reply.Answered? && reply.ok && reply.body.Parsed? && reply.body.success
  }

  /**
   * The message a failed update or stats request leaves in `error`: `notOk`
   * for an answer that is not ok, the body's error or `rejected` for an
   * unsuccessful one, and the thrown message otherwise.
   */
  function FailureMessage<T>(reply: Reply<T>, notOk: string, rejected: string): (m: string)
    requires !Succeeded(reply)
    ensures reply.Answered? && !reply.ok ==> m == notOk
  {
    match reply
    case Threw(message) => message.GetOr(UnknownError)
    case Answered(ok, _, _, body) =>
      if !ok then notOk
      else if body.Unparsable? then body.message
      else ErrorOr(body, rejected)
  }
}
