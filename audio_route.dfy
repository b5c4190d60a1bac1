/**
 * app/api/audio-podcast/route.ts: `POST` turns generated markdown into text
 * fit for speech synthesis and estimates how long it takes to read aloud.
 *
 * The signed-in user is the parameter `user`. The JSON body is a `Request`
 * whose absent fields are `None`. Numbers are exact reals; the route's
 * floating-point arithmetic is not modelled.
 */
module AudioRoute {
  import opened Wrappers
  import opened Text
  import opened Speech

  const Unauthorized: string := "Unauthorized"
  const ContentRequired: string := "Content is required"
  const PreparedMessage: string := "Content prepared for audio synthesis"
  const BrowserNote: string := "Use browser's speechSynthesis API for immediate playback"
  const FutureNote: string := "Enhanced TTS services will be integrated for better quality audio generation"
  const DefaultVoice: string := "default"
  const DefaultSpeed: real := 1.0

  /** Average speaking rate, in words per minute at speed 1. */
  const WordsPerMinute: real := 150.0

  datatype Request = Request(content: Option<string>, title: Option<string>, voice: Option<string>,
                             speed: Option<real>)

  datatype Body =
    | Error(error: string)
      /** `estimatedDuration` is `None` where the route's division gives an infinite value, sent as `null`. */
    | Prepared(cleanedContent: string, originalLength: nat, cleanedLength: nat, estimatedDuration: Option<int>,
               title: Option<string>, voice: string, speed: real, browser: string, future: string,
               message: string)

  datatype Response = Response(status: nat, body: Body)

  /** `Math.round`: the nearest integer, halves rounded up. */
  function Round(x: real): (r: int)
    ensures x - 0.5 < r as real <= x + 0.5
  {
    (x + 0.5).Floor
  }

  lemma RoundMonotone(x: real, y: real)
    requires x <= y
    ensures Round(x) <= Round(y)
  {
  }

  /** `text.split(/\s+/).length`. */
  function WordCount(text: string): (n: nat)
    ensures n >= 1
  {
    |SplitOnSpace(text)|
  }

  /**
   * `estimateDuration`: seconds to read `text` at `WordsPerMinute` times
   * `speed`, rounded; `None` at speed 0, where the quotient is infinite.
   */
  function EstimateDuration(text: string, speed: real): (r: Option<int>)
    ensures r.None? <==> speed == 0.0
  {
    if speed == 0.0 then None
    else Some(Round(WordCount(text) as real / (WordsPerMinute * speed) * 60.0))
  }

  /** The exact reading time of `words` words at 0.4 seconds per word at speed 1. */
  function Seconds(words: nat, speed: real): real
    requires speed != 0.0
  {
    words as real * 0.4 / speed
  }

  /**
   * The estimate is within half a second of 0.4 seconds per word at speed 1,
   * the words being one more than the runs of white space.
   */
  lemma DurationTracksWords(text: string, speed: real)
    requires speed != 0.0
    ensures var exact := Seconds(SpaceRuns(text) + 1, speed);
      exact - 0.5 < EstimateDuration(text, speed).value as real <= exact + 0.5
  {
    var n := WordCount(text);
    assert n == SpaceRuns(text) + 1 by { WordCountIsRunsPlusOne(text); }
    RoundedSeconds(n, speed);
  }

  /** Rounding the seconds for `n` words stays within half a second of the exact time. */
  lemma RoundedSeconds(n: nat, speed: real)
    requires speed != 0.0
    ensures Seconds(n, speed) - 0.5 < Round(n as real / (WordsPerMinute * speed) * 60.0) as real <= Seconds(n, speed) + 0.5
  {
    SecondsPerWord(n as real, speed);
  }

  lemma SecondsPerWord(w: real, speed: real)
    requires speed != 0.0
    ensures w / (WordsPerMinute * speed) * 60.0 == w * 0.4 / speed
  {
  }

  lemma SmallerQuotient(w: real, a: real, b: real)
    requires w >= 0.0 && 0.0 < a <= b
    ensures w / b <= w / a
  {
  }

  lemma LargerQuotient(a: real, b: real, d: real)
    requires a <= b && d > 0.0
    ensures a / d <= b / d
  {
  }

  /** Reading faster never takes longer. */
  lemma FasterIsShorter(text: string, slow: real, fast: real)
    requires 0.0 < slow <= fast
    ensures EstimateDuration(text, fast).value <= EstimateDuration(text, slow).value
  {
    var w := WordCount(text) as real;
    SmallerQuotient(w, WordsPerMinute * slow, WordsPerMinute * fast);
    RoundMonotone(w / (WordsPerMinute * fast) * 60.0, w / (WordsPerMinute * slow) * 60.0);
  }

  /** At a positive speed, more words never take less time. */
  lemma MoreWordsLonger(short: string, long: string, speed: real)
    requires speed > 0.0 && SpaceRuns(short) <= SpaceRuns(long)
    ensures 0 <= EstimateDuration(short, speed).value <= EstimateDuration(long, speed).value
  {
    WordCountIsRunsPlusOne(short);
    WordCountIsRunsPlusOne(long);
    var a := WordCount(short) as real;
    var b := WordCount(long) as real;
    var d := WordsPerMinute * speed;
    LargerQuotient(0.0, a, d);
    LargerQuotient(a, b, d);
    RoundMonotone(0.0, a / d * 60.0);
    RoundMonotone(a / d * 60.0, b / d * 60.0);
  }

  /**
   * `POST`: without a user 401 before the body is read; without content 400;
   * otherwise the cleaned content with its lengths, the duration estimate and
   * the title, voice and speed (the last two defaulted).
   */
  function Post(user: Option<string>, req: Request): Response {
    if user.None? || user.value == "" then Response(401, Error(Unauthorized))
    else if req.content.None? || req.content.value == "" then Response(400, Error(ContentRequired))
    else
      var content := req.content.value;
      var speed := req.speed.GetOr(DefaultSpeed);
      var cleaned := ServerClean(content);
      Response(200, Prepared(cleaned, |content|, |cleaned|, EstimateDuration(cleaned, speed), req.title,
                             req.voice.GetOr(DefaultVoice), speed, BrowserNote, FutureNote, PreparedMessage))
  }

  /** The checks, in order: the user, then the content; a check that fails decides the answer alone. */
  lemma PostChecks(user: Option<string>, req: Request)
    ensures Post(user, req).status in {200, 400, 401}
    ensures Post(user, req).status == 401 <==> user.None? || user.value == ""
    ensures Post(user, req).status == 400 <==> user.Some? && user.value != "" && (req.content.None? || req.content.value == "")
    ensures Post(user, req).status != 200 <==> Post(user, req).body.Error?
  {
  }

  /**
   * A prepared answer carries speakable text: one line, only word characters,
   * white space and punctuation, single spaces and no white space at either
   * end.
   */
  lemma PostSpeakable(user: Option<string>, req: Request)
    requires Post(user, req).status == 200
    ensures var b := Post(user, req).body;
      && b.Prepared?
      && '\n' !in b.cleanedContent
      && (forall c | c in b.cleanedContent :: Speakable(c))
      && Spaced(b.cleanedContent)
      && (b.cleanedContent == [] || (!IsSpace(b.cleanedContent[0]) && !IsSpace(b.cleanedContent[|b.cleanedContent| - 1])))
  {
    assert Post(user, req).body.cleanedContent == ServerClean(req.content.value);
    ServerCleanShape(req.content.value);
  }

  /**
   * A prepared answer's lengths and estimate describe its text, and voice and
   * speed fall back to their defaults when absent.
   */
  lemma PostPrepared(user: Option<string>, req: Request)
    requires Post(user, req).status == 200
    ensures var b := Post(user, req).body;
      && b.Prepared?
      && b.originalLength == |req.content.value| > 0
      && b.cleanedLength == |b.cleanedContent|
      && b.estimatedDuration == EstimateDuration(b.cleanedContent, b.speed)
      && b.voice == (if req.voice.Some? then req.voice.value else DefaultVoice)
      && b.speed == (if req.speed.Some? then req.speed.value else DefaultSpeed)
      && (b.estimatedDuration.None? <==> b.speed == 0.0)
      && b.message == PreparedMessage
  {
    var content := req.content.value;
    var speed := req.speed.GetOr(DefaultSpeed);
    var cleaned := ServerClean(content);
    assert Post(user, req).body == Prepared(cleaned, |content|, |cleaned|, EstimateDuration(cleaned, speed), req.title,
                                            req.voice.GetOr(DefaultVoice), speed, BrowserNote, FutureNote, PreparedMessage);
  }

  /** Plain prose comes back as it was sent. */
  lemma PlainContentKept(user: Option<string>, req: Request)
    requires user.Some? && user.value != "" && req.content.Some? && Plain(req.content.value)
    ensures Post(user, req).body.cleanedContent == req.content.value
    ensures Post(user, req).body.cleanedLength == Post(user, req).body.originalLength
  {
    PlainUnchanged(req.content.value);
    CleanContentKept(user, req);
  }

  lemma CleanContentKept(user: Option<string>, req: Request)
    requires user.Some? && user.value != "" && req.content.Some? && req.content.value != []
    requires ServerClean(req.content.value) == req.content.value
    ensures Post(user, req).body.cleanedContent == req.content.value
    ensures Post(user, req).body.cleanedLength == Post(user, req).body.originalLength
  {
  }
}
