/**
 * `POST` of app/api/youtube-enhanced/route.ts: the standard route's pipeline
 * with two API keys, a YouTube Data API metadata lookup before the transcript,
 * a video-information block in the prompt, and a best-effort save to the
 * history API for signed-in users.
 *
 * The metadata lookup, the transcript attempts, Gemini and Clerk's `auth()` are
 * inputs. The save to `/api/history` is returned as the request it sends: its
 * reply is only logged, so it is not an input.
 */
module EnhancedRoute {
  import opened Wrappers
  import opened Text
  import opened VideoId
  import opened Transcript
  import opened Generation
  import HistoryRoute

  const YouTubeKeyMissing: string := "YOUTUBE_API_KEY not found in environment variables"
  const GeminiKeyMissing: string := "GEMINI_API_KEY not found in environment variables"
  const MetadataFailed: string := "Failed to fetch video metadata from YouTube API"
  const VideoNotFound: string := "Video not found or not accessible"
  /** The message of the `ReferenceError` raised by reading `userId` out of its scope. */
  const UserIdNotDefined: string := "userId is not defined"

  /** `snippet.thumbnails`: the `high` and `default` image URLs. */
  datatype Thumbnails = Thumbnails(high: Option<string>, standard: Option<string>)

  /** `items[0]`: the fields of its snippet, statistics and content details the route reads. */
  datatype Video = Video(
    title: Option<string>,
    channelTitle: Option<string>,
    publishedAt: Option<string>,
    description: Option<string>,
    tags: Option<seq<string>>,
    thumbnails: Option<Thumbnails>,
    duration: Option<string>,
    viewCount: Option<string>,
    likeCount: Option<string>)

  /** The metadata lookup: the fetch or its body parse throws, or a reply arrives. */
  datatype MetadataReply =
    | Unreachable(message: Option<string>)
    | Replied(status: nat, errorMessage: Option<string>, items: Option<seq<Video>>)

  /** `response.ok`. */
  predicate Ok(status: nat) { 200 <= status <= 299 }

  /** Which of the two keys are set. */
  datatype Env = Env(youtubeKey: bool, geminiKey: bool)

  /**
   * What Gemini does with a prompt: generate text, with the milliseconds the
   * call took (`Date.now() - startTime` around it), or throw.
   */
  datatype LlmReply = Content(text: string, elapsed: nat) | LlmFailed(message: Option<string>)

  datatype VideoMetadata = VideoMetadata(title: Option<string>, channelTitle: Option<string>,
                                         publishedAt: Option<string>, duration: Option<string>,
                                         viewCount: Option<string>, likeCount: Option<string>,
                                         thumbnails: Option<Thumbnails>)

  datatype Body =
    | Error(error: string)
    | Detailed(error: string, details: string)
    | NotFound(error: string, videoId: string)
    | TranscriptError(failure: FailureBody)
    | Enhanced(content: string, videoId: string, contentType: string, videoMetadata: VideoMetadata,
               transcriptLength: nat, enhanced: bool, saved: bool)

  datatype Response = Response(status: nat, body: Body)

  /** The response, and the request sent to the history API if one was sent. */
  datatype Outcome = Outcome(response: Response, history: Option<HistoryRoute.SaveRequest>)

  function Reply(status: nat, body: Body): Outcome { Outcome(Response(status, body), None) }

  /** A template literal's rendering of an optional value: `undefined` when absent. */
  function Shown(v: Option<string>): string { v.GetOr("undefined") }

  /** `snippet.description?.substring(0, 500)` as rendered in the template. */
  function DescriptionText(d: Option<string>): (r: string)
    ensures d.None? ==> r == "undefined"
    ensures d.Some? ==> r <= d.value && |r| == if |d.value| < 500 then |d.value| else 500
  {
    match d
    case None => "undefined"
    case Some(text) => Prefix(text, 500)
  }

  /** `snippet.tags?.join(', ') || 'None'`. */
  function TagsText(tags: Option<seq<string>>): (r: string)
    ensures r != ""
    ensures tags.None? || tags.value == [] ==> r == "None"
    ensures tags.Some? && Join(tags.value, ", ") != "" ==> r == Join(tags.value, ", ")
  {
    if tags.Some? && Join(tags.value, ", ") != "" then Join(tags.value, ", ") else "None"
  }

  /** The video-information block of the prompt. */
  function VideoContext(v: Video): string {
    "\nVideo Title: " + Shown(v.title) + "\nChannel: " + Shown(v.channelTitle)
    + "\nPublished: " + Shown(v.publishedAt) + "\nDuration: " + Shown(v.duration)
    + "\nViews: " + Shown(v.viewCount) + "\nLikes: " + Shown(v.likeCount)
    + "\nDescription: " + DescriptionText(v.description) + "...\nTags: " + TagsText(v.tags) + "\n"
  }

  const StudyHead: string :=
    "Create a comprehensive study guide for this YouTube video. Use both the video metadata and transcript to create detailed content.\n\nVIDEO INFORMATION:\n"
  const StudyTail: string :=
    "\n\nINSTRUCTIONS:\nCreate a study guide with the following sections:\n"
    + "1. **Video Overview** - Summary of the video including title, channel, and key details\n"
    + "2. **Main Topics & Key Concepts** - Core subjects covered\n"
    + "3. **Important Definitions** - Key terms and their meanings\n"
    + "4. **Detailed Content Breakdown** - Section-by-section analysis\n"
    + "5. **Key Takeaways** - Most important points to remember\n"
    + "6. **Study Questions** - Questions to test understanding\n"
    + "7. **Additional Resources** - Related topics to explore\n\n"
    + "Format the response in clear markdown with proper headings and bullet points.\n\nVIDEO TRANSCRIPT:\n"
  const BriefingHead: string :=
    "Create a professional briefing document for this YouTube video. Use both the video metadata and transcript to create comprehensive content.\n\nVIDEO INFORMATION:\n"
  const BriefingTail: string :=
    "\n\nINSTRUCTIONS:\nCreate a briefing document with the following sections:\n"
    + "1. **Executive Summary** - High-level overview of the video content\n"
    + "2. **Video Details** - Title, channel, metrics, and publication info\n"
    + "3. **Content Analysis** - Detailed breakdown of the video content\n"
    + "4. **Key Points & Insights** - Most important information presented\n"
    + "5. **Main Arguments/Findings** - Core messages and conclusions\n"
    + "6. **Actionable Recommendations** - What viewers should do with this information\n"
    + "7. **Conclusion** - Summary and final thoughts\n"
    + "8. **Appendix** - Additional details and context\n\n"
    + "Format as a professional briefing document in markdown.\n\nVIDEO TRANSCRIPT:\n"

  /**
   * The fixed wording of the two prompts, before and after the video block.
   * `Texts` is the route's own wording; the handler takes the wording as a
   * parameter, and every property below holds for any.
   */
  datatype Wording = Wording(studyHead: string, studyTail: string, briefingHead: string, briefingTail: string)

  const Texts: Wording := Wording(StudyHead, StudyTail, BriefingHead, BriefingTail)

  /** The instructions around the video block for a type: the study guide's, or else the briefing's. */
  function Header(contentType: Option<string>, context: string, w: Wording): string {
    if contentType == Some(StudyGuide) then w.studyHead + context + w.studyTail
    else w.briefingHead + context + w.briefingTail
  }

  /**
   * The prompt for a known type: the instructions around the video block, then
   * at most the first 8000 transcript characters; `None` for any other type.
   */
  function PromptFor(contentType: Option<string>, context: string, transcript: string, w: Wording)
    : (r: Option<string>)
    ensures r.Some? <==> IsKnownType(contentType)
    ensures r.Some? ==>
      var header := Header(contentType, context, w);
      && |header| <= |r.value| && r.value[..|header|] == header
      && r.value[|header|..] == Excerpt(transcript)
      && |r.value| <= |header| + MaxExcerpt
  {
    var header := Header(contentType, context, w);
    PromptEndsWithExcerpt(header, transcript);
    if IsKnownType(contentType) then Some(header + Excerpt(transcript)) else None
  }

  /** `thumbnails?.high?.url || thumbnails?.default?.url`. */
  function ThumbnailUrl(t: Option<Thumbnails>): Option<string> {
    if t.Some? && HistoryRoute.Truthy(t.value.high) then t.value.high
    else if t.Some? then t.value.standard
    else None
  }

  /** The body posted to the history API after a successful generation. */
  function HistoryRequest(url: string, contentType: string, v: Video, content: string, transcriptLength: nat,
                          processingTime: nat): HistoryRoute.SaveRequest
  {
    HistoryRoute.SaveRequest(Some(url), v.title, v.channelTitle, v.duration, v.viewCount, ThumbnailUrl(v.thumbnails),
                             Some(contentType), Some(content), None,
                             Some(HistoryRoute.RequestMetadata(Some(transcriptLength), Some("enhanced"),
                                                               Some(processingTime))))
  }

  /**
   * The handler as it should behave. `user` is what `auth()` yields, `None`
   * also when it throws (the surrounding `try` swallows that).
   */
  function Post(req: Request, env: Env, metadata: MetadataReply, attempts: seq<Attempt>,
                llm: string -> LlmReply, user: Option<string>, w: Wording): Outcome
    requires |attempts| == MaxAttempts
  {
    Handle(req, env, metadata, attempts, llm, user, false, w)
  }

  /**
   * The handler as written: the final `return` reads `userId`, which is only
   * declared inside the history `try` block, so it throws and the outer `catch`
   * answers 500 instead of the generated content.
   */
  function PostAsWritten(req: Request, env: Env, metadata: MetadataReply, attempts: seq<Attempt>,
                         llm: string -> LlmReply, user: Option<string>, w: Wording): Outcome
    requires |attempts| == MaxAttempts
  {
    Handle(req, env, metadata, attempts, llm, user, true, w)
  }

  function Handle(req: Request, env: Env, metadata: MetadataReply, attempts: seq<Attempt>,
                  llm: string -> LlmReply, user: Option<string>, asWritten: bool, w: Wording): Outcome
    requires |attempts| == MaxAttempts
  {
    if !Truthy(req.url) then Reply(400, Error(UrlRequired))
    else if !env.youtubeKey then Reply(500, Error(YouTubeKeyMissing))
    else if !env.geminiKey then Reply(500, Error(GeminiKeyMissing))
    else
      match ExtractFive(req.url.value)
      case None => Reply(400, Error(InvalidUrl))
      case Some(videoId) => AfterExtraction(req, videoId, metadata, attempts, llm, user, asWritten, w)
  }

  /** From the metadata lookup on, once the video ID is known. */
  function AfterExtraction(req: Request, videoId: string, metadata: MetadataReply, attempts: seq<Attempt>,
                           llm: string -> LlmReply, user: Option<string>, asWritten: bool, w: Wording): Outcome
    requires |attempts| == MaxAttempts && Truthy(req.url)
  {
    match metadata
    case Unreachable(message) => Reply(500, Detailed(ProcessFailed, message.GetOr(UnknownError)))
    case Replied(status, errorMessage, items) =>
      if !Ok(status) then Reply(status, Detailed(MetadataFailed, ReportedError(errorMessage)))
      else if items.None? || |items.value| == 0 then Reply(404, NotFound(VideoNotFound, videoId))
      else AfterMetadata(req, videoId, items.value[0], Retry(attempts), llm, user, asWritten, w)
  }

  /** `error?.message || 'Unknown error'`. */
  function ReportedError(message: Option<string>): (r: string)
    ensures r != ""
  {
    if message.Some? && message.value != "" then message.value else UnknownError
  }

  /** From the transcript on, once the video's metadata is known. */
  function AfterMetadata(req: Request, videoId: string, v: Video, fetched: Progress,
                         llm: string -> LlmReply, user: Option<string>, asWritten: bool, w: Wording): Outcome
    requires Truthy(req.url)
  {
    if !Succeeded(fetched) then Reply(400, TranscriptError(Failure(fetched, videoId)))
    else
      match PromptFor(req.contentType, VideoContext(v), fetched.transcript, w)
      case None => Reply(400, Error(InvalidType))
      case Some(prompt) =>
        match llm(prompt)
        case LlmFailed(message) => Reply(500, Detailed(ProcessFailed, message.GetOr(UnknownError)))
        case Content(content, processingTime) =>
          var history :=
            if Truthy(user) then Some(HistoryRequest(req.url.value, req.contentType.value, v, content,
                                                     |fetched.transcript|, processingTime))
            else None;
          var response :=
            if asWritten then Response(500, Detailed(ProcessFailed, UserIdNotDefined))
            else Response(200, Enhanced(content, videoId, req.contentType.value, MetadataOf(v),
                                        |fetched.transcript|, true, Truthy(user)));
          Outcome(response, history)
  }

  function MetadataOf(v: Video): VideoMetadata {
    VideoMetadata(v.title, v.channelTitle, v.publishedAt, v.duration, v.viewCount, v.likeCount, v.thumbnails)
  }

  /** The URL's presence, then the two keys, then the video ID are checked before anything is fetched. */
  lemma PostEarlyChecks(req: Request, env: Env, metadata: MetadataReply, attempts: seq<Attempt>,
                        llm: string -> LlmReply, user: Option<string>,
                        metadata': MetadataReply, attempts': seq<Attempt>, llm': string -> LlmReply,
                        user': Option<string>, w: Wording)
    requires |attempts| == MaxAttempts && |attempts'| == MaxAttempts
    requires !Truthy(req.url) || !env.youtubeKey || !env.geminiKey || ExtractFive(req.url.value).None?
    ensures Post(req, env, metadata, attempts, llm, user, w) == Post(req, env, metadata', attempts', llm', user', w)
    ensures var r := Post(req, env, metadata, attempts, llm, user, w).response;
      && (!Truthy(req.url) ==> r == Response(400, Error(UrlRequired)))
      && (Truthy(req.url) && !env.youtubeKey ==> r == Response(500, Error(YouTubeKeyMissing)))
      && (Truthy(req.url) && env.youtubeKey && !env.geminiKey ==> r == Response(500, Error(GeminiKeyMissing)))
      && (Truthy(req.url) && env.youtubeKey && env.geminiKey ==> r == Response(400, Error(InvalidUrl)))
  {
  }

  /** With the early checks passed, the conditions that are decided before any transcript attempt. */
  predicate EarlyPass(req: Request, env: Env) {
    Truthy(req.url) && env.youtubeKey && env.geminiKey && ExtractFive(req.url.value).Some?
  }

  /**
   * A failed metadata lookup answers with the provider's own status and
   * details; no items answers 404. Either way no transcript attempt, Gemini
   * call or history save is made.
   */
  lemma PostMetadataChecks(req: Request, env: Env, metadata: MetadataReply, attempts: seq<Attempt>,
                           llm: string -> LlmReply, user: Option<string>,
                           attempts': seq<Attempt>, llm': string -> LlmReply, user': Option<string>, w: Wording)
    requires |attempts| == MaxAttempts && |attempts'| == MaxAttempts
    requires EarlyPass(req, env)
    requires metadata.Unreachable? || !Ok(metadata.status) || metadata.items.None? || metadata.items.value == []
    ensures Post(req, env, metadata, attempts, llm, user, w) == Post(req, env, metadata, attempts', llm', user', w)
    ensures Post(req, env, metadata, attempts, llm, user, w).history.None?
    ensures var r := Post(req, env, metadata, attempts, llm, user, w).response;
      && (metadata.Unreachable? ==>
            r == Response(500, Detailed(ProcessFailed, metadata.message.GetOr(UnknownError))))
      && (metadata.Replied? && !Ok(metadata.status) ==>
            r.status == metadata.status && r.body.Detailed? && r.body.error == MetadataFailed
            && (metadata.errorMessage.Some? && metadata.errorMessage.value != "" ==>
                  r.body.details == metadata.errorMessage.value))
      && (metadata.Replied? && Ok(metadata.status) ==>
            r == Response(404, NotFound(VideoNotFound, ExtractFive(req.url.value).value)))
  {
  }

  /** The metadata reply that lets the handler go on to the transcript. */
  predicate Found(metadata: MetadataReply) {
    metadata.Replied? && Ok(metadata.status) && metadata.items.Some? && |metadata.items.value| > 0
  }

  /** Past the metadata, the answer is the transcript failure exactly when no attempt was usable. */
  lemma PostTranscriptFailure(req: Request, env: Env, metadata: MetadataReply, attempts: seq<Attempt>,
                              llm: string -> LlmReply, user: Option<string>, w: Wording)
    requires |attempts| == MaxAttempts
    requires EarlyPass(req, env) && Found(metadata)
    ensures var o := Post(req, env, metadata, attempts, llm, user, w);
      && (o.response.body.TranscriptError? <==> forall k | 0 <= k < MaxAttempts :: !Usable(attempts[k]))
      && (o.response.body.TranscriptError? ==>
            && o.response.status == 400 && o.history.None?
            && o.response.body.failure == Failure(Retry(attempts), ExtractFive(req.url.value).value))
  {
    var videoId := ExtractFive(req.url.value).value;
    ReachesMetadata(req, env, metadata, attempts, llm, user, false, w);
    TranscriptDecides(req, videoId, metadata.items.value[0], Retry(attempts), llm, user, w);
    RetrySucceedsIff(attempts);
  }

  /** Once the metadata is known, only a failed transcript answers with the transcript failure. */
  lemma TranscriptDecides(req: Request, videoId: string, v: Video, fetched: Progress,
                          llm: string -> LlmReply, user: Option<string>, w: Wording)
    requires Truthy(req.url)
    ensures var o := AfterMetadata(req, videoId, v, fetched, llm, user, false, w);
      && (o.response.body.TranscriptError? <==> !Succeeded(fetched))
      && (!Succeeded(fetched) ==> o == Reply(400, TranscriptError(Failure(fetched, videoId))))
  {
  }

  /** With the early checks and the metadata passed, the handler goes on with the first video and the retry loop. */
  lemma ReachesMetadata(req: Request, env: Env, metadata: MetadataReply, attempts: seq<Attempt>,
                        llm: string -> LlmReply, user: Option<string>, asWritten: bool, w: Wording)
    requires |attempts| == MaxAttempts
    requires EarlyPass(req, env) && Found(metadata)
    ensures Handle(req, env, metadata, attempts, llm, user, asWritten, w)
         == AfterMetadata(req, ExtractFive(req.url.value).value, metadata.items.value[0], Retry(attempts), llm, user,
                          asWritten, w)
  {
  }

  /** An unknown type is refused with 400, but only once a usable transcript is in hand. */
  lemma PostInvalidType(req: Request, env: Env, metadata: MetadataReply, attempts: seq<Attempt>,
                        llm: string -> LlmReply, user: Option<string>, w: Wording)
    requires |attempts| == MaxAttempts
    ensures Post(req, env, metadata, attempts, llm, user, w).response == Response(400, Error(InvalidType)) <==>
      EarlyPass(req, env) && Found(metadata) && Succeeded(Retry(attempts)) && !IsKnownType(req.contentType)
  {
  }

  /**
   * A 200 carries what Gemini made of the prompt for the first usable
   * transcript and the video's metadata, the transcript's length, and
   * `saved` exactly when a user is signed in; exactly then the content is also
   * posted to the history API, with its outcome not affecting the answer.
   */
  lemma PostSuccess(req: Request, env: Env, metadata: MetadataReply, attempts: seq<Attempt>,
                    llm: string -> LlmReply, user: Option<string>, w: Wording)
    requires |attempts| == MaxAttempts
    requires Post(req, env, metadata, attempts, llm, user, w).response.status == 200
    ensures EarlyPass(req, env) && Found(metadata) && IsKnownType(req.contentType)
    ensures var o := Post(req, env, metadata, attempts, llm, user, w);
      var b := o.response.body;
      && b.Enhanced? && b.enhanced && Some(b.videoId) == ExtractFive(req.url.value)
      && b.contentType == req.contentType.value
      && b.videoMetadata == MetadataOf(metadata.items.value[0])
      && b.saved == Truthy(user)
      && var k := Retry(attempts).calls - 1;
         && 0 <= k < MaxAttempts && Usable(attempts[k])
         && (forall j | 0 <= j < k :: !Usable(attempts[j]))
         && b.transcriptLength == |TextOf(attempts[k].segments)|
         && var prompt := PromptFor(req.contentType, VideoContext(metadata.items.value[0]),
                                    TextOf(attempts[k].segments), w).value;
            && llm(prompt).Content? && llm(prompt).text == b.content
            && (o.history.Some? <==> Truthy(user))
            && (o.history.Some? ==> o.history.value == HistoryRequest(req.url.value, b.contentType,
                                                                      metadata.items.value[0], b.content,
                                                                      b.transcriptLength, llm(prompt).elapsed))
  {
    assert EarlyPass(req, env) && Found(metadata);
    ReachesMetadata(req, env, metadata, attempts, llm, user, false, w);
    RetryOutcome(attempts);
  }

  /**
   * `w` is what the handler as written answers where the intended handler
   * answers `o`: the same, except that a 200 becomes a 500 "userId is not
   * defined" (after the history request has gone out).
   */
  predicate AsWrittenOf(o: Outcome, w: Outcome) {
    && w.response.status != 200
    && (o.response.status == 200 ==>
          w.response == Response(500, Detailed(ProcessFailed, UserIdNotDefined)) && w.history == o.history)
    && (o.response.status != 200 ==> w == o)
  }

  lemma AfterMetadataAsWritten(req: Request, videoId: string, v: Video, fetched: Progress,
                               llm: string -> LlmReply, user: Option<string>, w: Wording)
    requires Truthy(req.url)
    ensures AsWrittenOf(AfterMetadata(req, videoId, v, fetched, llm, user, false, w),
                        AfterMetadata(req, videoId, v, fetched, llm, user, true, w))
  {
  }

  /** The handler as written never answers 200, and differs from the intended one only where that one succeeds. */
  lemma AsWrittenNeverSucceeds(req: Request, env: Env, metadata: MetadataReply, attempts: seq<Attempt>,
                               llm: string -> LlmReply, user: Option<string>, w: Wording)
    requires |attempts| == MaxAttempts
    ensures AsWrittenOf(Post(req, env, metadata, attempts, llm, user, w),
                        PostAsWritten(req, env, metadata, attempts, llm, user, w))
  {
    if EarlyPass(req, env) && Found(metadata) {
      AfterMetadataAsWritten(req, ExtractFive(req.url.value).value, metadata.items.value[0], Retry(attempts),
                             llm, user, w);
    }
  }

  /** A description is cut to its first 500 characters; missing tags read "None". */
  lemma VideoContextFields(v: Video)
    ensures v.description.Some? ==>
      DescriptionText(v.description) == v.description.value[..if |v.description.value| < 500 then |v.description.value| else 500]
    ensures v.tags.None? ==> TagsText(v.tags) == "None"
  {
  }
}
