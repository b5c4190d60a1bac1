/**
 * `POST` of app/api/youtube/route.ts: validate the URL, fetch the transcript
 * with retries, check the Gemini key, build the prompt for the requested type
 * and ask Gemini for the content.
 *
 * Gemini is a parameter `llm` that maps a prompt to the generated text, or to
 * `None` when the call throws.
 */
module YouTubeRoute {
  import opened Wrappers
  import opened Text
  import opened VideoId
  import opened Transcript
  import opened Generation

  const ConfigError: string := "API configuration error"

  datatype Body =
    | Error(error: string)
    | TranscriptError(failure: FailureBody)
    | Generated(content: string, videoId: string, contentType: string)

  datatype Response = Response(status: nat, body: Body)

  const StudyGuideHeader: string :=
    "Create a comprehensive study guide based on this YouTube video transcript. Include:\n\n"
    + "1. **Main Topics & Key Concepts**\n2. **Important Definitions**\n3. **Key Takeaways**\n"
    + "4. **Study Questions**\n5. **Summary Points**\n6. **Additional Resources to Explore**\n\n"
    + "Format the response in clear markdown with proper headings and bullet points.\n\nTranscript: "

  const BriefingHeader: string :=
    "Create a professional briefing document based on this YouTube video transcript. Include:\n\n"
    + "1. **Executive Summary**\n2. **Key Points & Insights**\n3. **Main Arguments/Findings**\n"
    + "4. **Actionable Recommendations**\n5. **Conclusion**\n6. **Next Steps**\n\n"
    + "Format as a professional briefing document in markdown.\n\nTranscript: "

  /**
   * The fixed wording of the two prompts, each followed by the excerpt.
   * `Texts` is the route's own wording; the handler takes the wording as a
   * parameter, and every property below holds for any.
   */
  datatype Wording = Wording(studyGuide: string, briefing: string)

  const Texts: Wording := Wording(StudyGuideHeader, BriefingHeader)

  /** The instructions for a type: the study guide's, or else the briefing's. */
  function Header(contentType: Option<string>, w: Wording): string {
    if contentType == Some(StudyGuide) then w.studyGuide else w.briefing
  }

  /**
   * The prompt for a known type: its instructions, then at most the first
   * 8000 transcript characters; `None` for any other type.
   */
  function PromptFor(contentType: Option<string>, transcript: string, w: Wording): (r: Option<string>)
    ensures r.Some? <==> IsKnownType(contentType)
    ensures r.Some? ==>
      var header := Header(contentType, w);
      && |header| <= |r.value| && r.value[..|header|] == header
      && r.value[|header|..] == Excerpt(transcript)
      && |r.value| <= |header| + MaxExcerpt
  {
    var header := Header(contentType, w);
    PromptEndsWithExcerpt(header, transcript);
    if IsKnownType(contentType) then Some(header + Excerpt(transcript)) else None
  }

  /** The handler, with the Gemini key's presence, the transcript attempts, Gemini and the wording as inputs. */
  function Post(req: Request, geminiKey: bool, attempts: seq<Attempt>, llm: string -> Option<string>, w: Wording)
    : (r: Response)
    requires |attempts| == MaxAttempts
    ensures r.status in {200, 400, 500}
  {
    if !Truthy(req.url) then Response(400, Error(UrlRequired))
    else
      match ExtractFive(req.url.value)
      case None => Response(400, Error(InvalidUrl))
      case Some(videoId) => AfterExtraction(req, videoId, Retry(attempts), geminiKey, llm, w)
  }

  /** Everything after the video ID is known, given the retry loop's result. */
  function AfterExtraction(req: Request, videoId: string, fetched: Progress, geminiKey: bool,
                           llm: string -> Option<string>, w: Wording): (r: Response)
    ensures r.status in {200, 400, 500}
  {
    if !Succeeded(fetched) then Response(400, TranscriptError(Failure(fetched, videoId)))
    else if !geminiKey then Response(500, Error(ConfigError))
    else
      match PromptFor(req.contentType, fetched.transcript, w)
      case None => Response(400, Error(InvalidType))
      case Some(prompt) =>
        match llm(prompt)
        case None => Response(500, Error(ProcessFailed))
        case Some(content) => Response(200, Generated(content, videoId, req.contentType.value))
  }

  /** The URL is checked first: a missing or empty URL, then one without a video ID, answer 400. */
  lemma PostUrlChecks(req: Request, geminiKey: bool, attempts: seq<Attempt>, llm: string -> Option<string>, w: Wording)
    requires |attempts| == MaxAttempts
    ensures var r := Post(req, geminiKey, attempts, llm, w);
      && (r.body == Error(UrlRequired) <==> !Truthy(req.url))
      && (r.body == Error(InvalidUrl) <==> Truthy(req.url) && ExtractFive(req.url.value).None?)
      && (r.body == Error(UrlRequired) || r.body == Error(InvalidUrl) ==> r.status == 400)
  {
    MessagesDiffer();
    assert |ConfigError| == 23 && ConfigError[22] == 'r';
  }

  /** With a valid URL, the answer is the transcript failure exactly when no attempt was usable. */
  lemma PostTranscriptFailure(req: Request, geminiKey: bool, attempts: seq<Attempt>, llm: string -> Option<string>, w: Wording)
    requires |attempts| == MaxAttempts
    requires Truthy(req.url) && ExtractFive(req.url.value).Some?
    ensures var r := Post(req, geminiKey, attempts, llm, w);
      r.body.TranscriptError? <==> forall k | 0 <= k < MaxAttempts :: !Usable(attempts[k])
    ensures var r := Post(req, geminiKey, attempts, llm, w);
      r.body.TranscriptError? ==> r.status == 400 && r.body.failure.videoId == ExtractFive(req.url.value).value
  {
    var videoId := ExtractFive(req.url.value).value;
    assert Post(req, geminiKey, attempts, llm, w) == AfterExtraction(req, videoId, Retry(attempts), geminiKey, llm, w);
    TranscriptDecides(req, videoId, Retry(attempts), geminiKey, llm, w);
    RetrySucceedsIff(attempts);
  }

  /** Once the video ID is known, only a failed transcript answers with the transcript failure. */
  lemma TranscriptDecides(req: Request, videoId: string, fetched: Progress, geminiKey: bool,
                          llm: string -> Option<string>, w: Wording)
    ensures var r := AfterExtraction(req, videoId, fetched, geminiKey, llm, w);
      && (r.body.TranscriptError? <==> !Succeeded(fetched))
      && (!Succeeded(fetched) ==> r == Response(400, TranscriptError(Failure(fetched, videoId))))
  {
  }

  /**
   * The Gemini key and the type are only checked once a usable transcript is in
   * hand: a missing key answers 500, then an unknown type 400.
   */
  lemma PostLateChecks(req: Request, geminiKey: bool, attempts: seq<Attempt>, llm: string -> Option<string>, w: Wording)
    requires |attempts| == MaxAttempts
    ensures var r := Post(req, geminiKey, attempts, llm, w);
      r.body == Error(ConfigError) <==>
        Truthy(req.url) && ExtractFive(req.url.value).Some? && Succeeded(Retry(attempts)) && !geminiKey
    ensures var r := Post(req, geminiKey, attempts, llm, w);
      r.body == Error(InvalidType) <==>
        Truthy(req.url) && ExtractFive(req.url.value).Some? && Succeeded(Retry(attempts))
        && geminiKey && !IsKnownType(req.contentType)
  {
  }

  /**
   * A 200 carries the extracted ID, the requested type and what Gemini made of a
   * prompt that ends with the first min(8000, |transcript|) characters of the
   * first usable transcript.
   */
  lemma PostSuccess(req: Request, geminiKey: bool, attempts: seq<Attempt>, llm: string -> Option<string>, w: Wording)
    requires |attempts| == MaxAttempts
    requires Post(req, geminiKey, attempts, llm, w).status == 200
    ensures Truthy(req.url) && IsKnownType(req.contentType) && geminiKey
    ensures var r := Post(req, geminiKey, attempts, llm, w);
      && r.body.Generated?
      && Some(r.body.videoId) == ExtractFive(req.url.value)
      && r.body.contentType == req.contentType.value
      && var k := Retry(attempts).calls - 1;
         && 0 <= k < MaxAttempts && Usable(attempts[k])
         && (forall j | 0 <= j < k :: !Usable(attempts[j]))
         && var prompt := PromptFor(req.contentType, TextOf(attempts[k].segments), w).value;
            Some(r.body.content) == llm(prompt)
  {
    assert Truthy(req.url) && ExtractFive(req.url.value).Some?;
    var videoId := ExtractFive(req.url.value).value;
    assert Post(req, geminiKey, attempts, llm, w) == AfterExtraction(req, videoId, Retry(attempts), geminiKey, llm, w);
    RetryOutcome(attempts);
  }
}
