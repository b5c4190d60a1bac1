/**
 * The transcript retry loop shared by the three generation routes
 * (app/api/youtube, app/api/youtube-enhanced, app/api/youtube-mock).
 *
 * The transcript provider is outside the model: each of the three calls the
 * loop may make is given as the `Attempt` it would produce. The `setTimeout`
 * pauses are recorded as their delays in milliseconds instead of being waited.
 */
module Transcript {
  import opened Wrappers
  import opened Text

  /** What one call to the transcript provider does: return caption segments, or throw. */
  datatype Attempt =
    | Fetched(segments: seq<string>)
      /** `message` is `None` when the thrown value is not an `Error`. */
    | Threw(message: Option<string>)

  const MaxAttempts: nat := 3
  const MinLength: nat := 50
  const UnknownError: string := "Unknown error"
  const NoTranscript: string :=
    "Could not fetch video " + "transcript" + ". Please ensure the video has captions/subtitles available and is publicly accessible."
  const RetrySuggestion: string := "Try again in a few moments, or try a different video with captions."

  /** The segment texts joined by single spaces and trimmed. */
  function TextOf(segments: seq<string>): string {
    Trim(Join(segments, " "))
  }

  /** The message recorded when the last attempt returns fewer than 50 characters. */
  function TooShortMessage(length: nat): (m: string)
    ensures Contains(m, NatToString(length)) && m != ""
  {
    var pre := "Video transcript is too short or empty (";
    var post := " characters). This video may not have sufficient captions available.";
    ContainsMiddle(pre, NatToString(length), post);
    pre + NatToString(length) + post
  }

  /** An attempt that returns a usable transcript. */
  predicate Usable(a: Attempt) {
    a.Fetched? && |TextOf(a.segments)| >= MinLength
  }

  /**
   * The loop's variables: `transcript`, `transcriptError`, how many calls were
   * made and the pauses taken between them.
   */
  datatype Progress = Progress(transcript: string, error: Option<string>, calls: nat, waits: seq<nat>)

  const Start: Progress := Progress("", None, 0, [])

  predicate Succeeded(p: Progress) { |p.transcript| >= MinLength }

  /** Attempt number `n` (1-based), with its outcome `a`. */
  function Step(p: Progress, n: nat, a: Attempt): Progress {
    match a
    case Fetched(segments) =>
      var t := TextOf(segments);
      if |t| >= MinLength then p.(transcript := t, calls := n)
      else if n < MaxAttempts then p.(transcript := t, calls := n, waits := p.waits + [1000 * n])
      else p.(transcript := t, calls := n, error := Some(TooShortMessage(|t|)))
    case Threw(message) =>
      var q := p.(calls := n, error := Some(message.GetOr(UnknownError)));
      if n < MaxAttempts then q.(waits := q.waits + [1000 * n]) else q
  }

  /** The attempts from number `done + 1` on, stopping after the first usable one. */
  function RetryFrom(outcomes: seq<Attempt>, done: nat, p: Progress): Progress
    requires |outcomes| == MaxAttempts && done <= MaxAttempts
    decreases MaxAttempts - done
  {
    if done == MaxAttempts then p
    else
      var q := Step(p, done + 1, outcomes[done]);
      if Succeeded(q) then q else RetryFrom(outcomes, done + 1, q)
  }

  function Retry(outcomes: seq<Attempt>): Progress
    requires |outcomes| == MaxAttempts
  {
    RetryFrom(outcomes, 0, Start)
  }

  /** The `for (let attempt = 1; attempt <= 3; attempt++)` loop. */
  method FetchWithRetry(outcomes: seq<Attempt>) returns (p: Progress)
    requires |outcomes| == MaxAttempts
    ensures p == Retry(outcomes)
  {
    p := Start;
    var attempt := 1;
    while attempt <= MaxAttempts
      invariant 1 <= attempt <= MaxAttempts + 1
      invariant RetryFrom(outcomes, attempt - 1, p) == Retry(outcomes)
      invariant !Succeeded(p)
    {
      ghost var next := Step(p, attempt, outcomes[attempt - 1]);
      match outcomes[attempt - 1] {
        case Fetched(segments) =>
          p := p.(transcript := TextOf(segments), calls := attempt);
          if |p.transcript| >= MinLength {
            assert p == next;
            break;
          } else if attempt < MaxAttempts {
            p := p.(waits := p.waits + [1000 * attempt]);
            assert p == next;
            attempt := attempt + 1;
            continue;
          } else {
            p := p.(error := Some(TooShortMessage(|p.transcript|)));
          }
        case Threw(message) =>
          p := p.(calls := attempt, error := Some(message.GetOr(UnknownError)));
          if attempt < MaxAttempts {
            p := p.(waits := p.waits + [1000 * attempt]);
            assert p == next;
            attempt := attempt + 1;
            continue;
          }
      }
      assert p == next;
      attempt := attempt + 1;
    }
  }

  // ---------------------------------------------------------------------------
  // Properties of the loop

  /** The pauses after the first `n` failed attempts: 1000 ms, 2000 ms, ... */
  function Pauses(n: nat): (r: seq<nat>)
    ensures |r| == n
  {
    if n == 0 then [] else Pauses(n - 1) + [1000 * n]
  }

  /** The text of the last attempt that fetched anything among the first `n`, or "". */
  function LastFetched(outcomes: seq<Attempt>, n: nat): string
    requires n <= |outcomes|
  {
    if n == 0 then ""
    else if outcomes[n - 1].Fetched? then TextOf(outcomes[n - 1].segments)
    else LastFetched(outcomes, n - 1)
  }

  /** The `transcriptError` left by a failed last attempt. */
  function FinalError(a: Attempt): string {
    match a
    case Fetched(segments) => TooShortMessage(|TextOf(segments)|)
    case Threw(message) => message.GetOr(UnknownError)
  }

  /** The loop's variables after `done` attempts, none of them usable. */
  predicate Consistent(outcomes: seq<Attempt>, done: nat, p: Progress)
    requires |outcomes| == MaxAttempts && done <= MaxAttempts
  {
    && p.calls == done
    && p.waits == Pauses(done)
    && p.transcript == LastFetched(outcomes, done)
    && !Succeeded(p)
    && (forall k | 0 <= k < done :: !Usable(outcomes[k]))
  }

  /** One attempt: a usable one ends the loop, any other leaves it unfinished. */
  lemma StepOutcome(outcomes: seq<Attempt>, done: nat, p: Progress)
    requires |outcomes| == MaxAttempts && done < MaxAttempts
    requires Consistent(outcomes, done, p)
    ensures var q := Step(p, done + 1, outcomes[done]);
      && q.calls == done + 1
      && (Succeeded(q) <==> Usable(outcomes[done]))
      && (Succeeded(q) ==> q.transcript == TextOf(outcomes[done].segments) && q.waits == Pauses(done))
      && (!Succeeded(q) && done + 1 < MaxAttempts ==> Consistent(outcomes, done + 1, q))
      && (!Succeeded(q) && done + 1 == MaxAttempts ==>
            q.waits == Pauses(done) && q.transcript == LastFetched(outcomes, MaxAttempts)
            && q.error == Some(FinalError(outcomes[done])))
  {
  }

  /**
   * What the loop leaves after attempts `done + 1` on: it stopped at the first
   * usable attempt and kept its text, having paused 1000 ms, 2000 ms, ...
   * after each attempt before it; or every attempt was unusable and it kept
   * the last text fetched and the last attempt's error.
   */
  predicate Ended(outcomes: seq<Attempt>, done: nat, r: Progress)
    requires |outcomes| == MaxAttempts
  {
    && done < r.calls <= MaxAttempts
    && r.waits == Pauses(r.calls - 1)
    && (Succeeded(r) ==> Usable(outcomes[r.calls - 1])
                         && r.transcript == TextOf(outcomes[r.calls - 1].segments)
                         && forall k | 0 <= k < r.calls - 1 :: !Usable(outcomes[k]))
    && (!Succeeded(r) ==> r.calls == MaxAttempts
                          && r.transcript == LastFetched(outcomes, MaxAttempts)
                          && r.error == Some(FinalError(outcomes[MaxAttempts - 1]))
                          && forall k | 0 <= k < MaxAttempts :: !Usable(outcomes[k]))
  }

  /** A usable attempt ends the loop with its text, after the pauses of the attempts before it. */
  lemma StepSucceeds(outcomes: seq<Attempt>, done: nat, p: Progress)
    requires |outcomes| == MaxAttempts && done < MaxAttempts
    requires Consistent(outcomes, done, p)
    requires Succeeded(Step(p, done + 1, outcomes[done]))
    ensures Usable(outcomes[done])
    ensures Ended(outcomes, done, Step(p, done + 1, outcomes[done]))
  {
    StepOutcome(outcomes, done, p);
  }

  /** An unusable attempt before the last leaves the loop's variables consistent. */
  lemma StepContinues(outcomes: seq<Attempt>, done: nat, p: Progress)
    requires |outcomes| == MaxAttempts && done + 1 < MaxAttempts
    requires Consistent(outcomes, done, p)
    requires !Succeeded(Step(p, done + 1, outcomes[done]))
    ensures !Usable(outcomes[done])
    ensures Consistent(outcomes, done + 1, Step(p, done + 1, outcomes[done]))
  {
    StepOutcome(outcomes, done, p);
  }

  /** An unusable last attempt leaves its error and the last text fetched. */
  lemma StepFailsLast(outcomes: seq<Attempt>, p: Progress)
    requires |outcomes| == MaxAttempts
    requires Consistent(outcomes, MaxAttempts - 1, p)
    requires !Succeeded(Step(p, MaxAttempts, outcomes[MaxAttempts - 1]))
    ensures !Usable(outcomes[MaxAttempts - 1])
    ensures Ended(outcomes, MaxAttempts - 1, Step(p, MaxAttempts, outcomes[MaxAttempts - 1]))
  {
    StepOutcome(outcomes, MaxAttempts - 1, p);
  }

  /** A later start still ends the same way. */
  lemma EndedEarlier(outcomes: seq<Attempt>, done: nat, r: Progress)
    requires |outcomes| == MaxAttempts && Ended(outcomes, done + 1, r)
    ensures Ended(outcomes, done, r)
  {
  }

  lemma {:induction false} RetryFromShape(outcomes: seq<Attempt>, done: nat, p: Progress)
    requires |outcomes| == MaxAttempts && done < MaxAttempts
    requires Consistent(outcomes, done, p)
    decreases MaxAttempts - done
    ensures Ended(outcomes, done, RetryFrom(outcomes, done, p))
  {
    var q := Step(p, done + 1, outcomes[done]);
    if Succeeded(q) {
      assert RetryFrom(outcomes, done, p) == q;
      StepSucceeds(outcomes, done, p);
    } else if done + 1 < MaxAttempts {
      assert RetryFrom(outcomes, done, p) == RetryFrom(outcomes, done + 1, q);
      StepContinues(outcomes, done, p);
      RetryFromShape(outcomes, done + 1, q);
      EndedEarlier(outcomes, done, RetryFrom(outcomes, done + 1, q));
    } else {
      assert RetryFrom(outcomes, done, p) == q;
      StepFailsLast(outcomes, p);
    }
  }

  /** The retry loop succeeds exactly when some attempt returns at least 50 characters. */
  lemma RetrySucceedsIff(outcomes: seq<Attempt>)
    requires |outcomes| == MaxAttempts
    ensures Succeeded(Retry(outcomes)) <==> exists k | 0 <= k < MaxAttempts :: Usable(outcomes[k])
  {
    RetryFromShape(outcomes, 0, Start);
    var r := Retry(outcomes);
    if Succeeded(r) {
      assert Usable(outcomes[r.calls - 1]);
    }
  }

  /**
   * What the loop leaves behind: it stops at the first usable attempt and keeps
   * its text; between attempts it pauses 1000 ms, then 2000 ms; when all three
   * fail, the transcript is the last text fetched and the error the last
   * attempt's.
   */
  lemma RetryOutcome(outcomes: seq<Attempt>)
    requires |outcomes| == MaxAttempts
    ensures Ended(outcomes, 0, Retry(outcomes))
  {
    RetryFromShape(outcomes, 0, Start);
  }

  /** At most two pauses are taken, of 1000 ms and then 2000 ms: three seconds in all. */
  lemma PausesBounded(n: nat)
    requires n < MaxAttempts
    ensures Pauses(n) <= [1000, 2000]
  {
    assert Pauses(1) == [1000];
    assert Pauses(2) == [1000, 2000];
  }

  /** The 400 body returned when no usable transcript was fetched. */
  datatype FailureBody = FailureBody(error: string, transcriptLength: nat, videoId: string, suggestion: string)

  /** `transcriptError || <default message>`: an absent or empty error falls back to the default. */
  function ReportedError(error: Option<string>): (m: string)
    ensures m != ""
    ensures error.Some? && error.value != "" ==> m == error.value
  {
    if error.Some? && error.value != "" then error.value else NoTranscript
  }

  function Failure(p: Progress, videoId: string): (b: FailureBody)
    ensures b.transcriptLength == |p.transcript| && b.videoId == videoId
    ensures b.error == ReportedError(p.error)
  {
    FailureBody(ReportedError(p.error), |p.transcript|, videoId, RetrySuggestion)
  }

  /**
   * The reported failure names the last attempt: a too-short text reports its
   * length, a thrown error its message, a thrown non-`Error` "Unknown error".
   */
  lemma FailureNamesLastAttempt(outcomes: seq<Attempt>, videoId: string)
    requires |outcomes| == MaxAttempts
    requires !Succeeded(Retry(outcomes))
    ensures var b := Failure(Retry(outcomes), videoId);
      && b.transcriptLength == |LastFetched(outcomes, MaxAttempts)| < MinLength
      && (outcomes[2].Fetched? ==> b.error == TooShortMessage(|TextOf(outcomes[2].segments)|)
                                   && b.transcriptLength == |TextOf(outcomes[2].segments)|)
      && (outcomes[2] == Threw(None) ==> b.error == UnknownError)
      && (outcomes[2].Threw? && outcomes[2].message.Some? && outcomes[2].message.value != "" ==>
            b.error == outcomes[2].message.value)
      && (outcomes[2] == Threw(Some("")) ==> b.error == NoTranscript)
  {
    RetryOutcome(outcomes);
  }
}
