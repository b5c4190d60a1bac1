/**
 * `POST` of app/api/chat/route.ts: answer a question about the selected video.
 * The message is checked, the video's transcript is fetched when a URL is
 * given (a failure is swallowed), one of three prompts is chosen, Gemini
 * answers, and a signed-in user's exchange is sent to the history API.
 *
 * The single transcript call, Gemini (`None` when it throws) and Clerk's
 * `auth()` (`None` also when it throws, which the surrounding `try` swallows)
 * are inputs; the history save is returned as the request it sends.
 */
module ChatRoute {
  import opened Wrappers
  import opened Text
  import opened VideoId
  import opened Transcript
  import opened Generation
  import SummaryHistory
  import HistoryRoute

  const MessageRequired: string := "Message is required"
  const ConfigError: string := "API configuration error"
  const ChatFailed: string := "Failed to process your message. Please try again."
  const ChatType: string := "chat"

  datatype Request = Request(message: Option<string>, videoUrl: Option<string>, videoTitle: Option<string>)

  datatype Body =
    | Error(error: string)
    | Answered(response: string, hasVideoContext: bool, videoTitle: Option<string>, videoUrl: Option<string>)

  datatype Response = Response(status: nat, body: Body)

  /** The response, and the request sent to the history API if one was sent. */
  datatype Outcome = Outcome(response: Response, history: Option<HistoryRoute.SaveRequest>)

  function Reply(status: nat, body: Body): Outcome { Outcome(Response(status, body), None) }

  /** `!message || !message.trim()`. */
  predicate Blank(message: Option<string>) { message.None? || Trim(message.value) == "" }

  /** `v || null`. */
  function OrNull(v: Option<string>): (r: Option<string>)
    ensures r.Some? <==> Truthy(v)
    ensures r.Some? ==> r == v
  {
    if Truthy(v) then v else None
  }

  /**
   * The transcript used as context: the caption texts joined by spaces (not
   * trimmed) when a URL is given, an ID is found in it and the call returns;
   * empty otherwise.
   */
  function ContextTranscript(videoUrl: Option<string>, fetch: Attempt): string {
    if Truthy(videoUrl) && ExtractSingle(videoUrl.value).Some? && fetch.Fetched? then Join(fetch.segments, " ")
    else ""
  }

  /** The three prompts. */
  datatype PromptKind = WithTranscript | WithoutTranscript | WithoutVideo

  /** The transcript prompt needs a transcript and a title; the second a URL and a title. */
  function KindOf(transcript: string, req: Request): PromptKind {
    if transcript != "" && Truthy(req.videoTitle) then WithTranscript
    else if Truthy(req.videoUrl) && Truthy(req.videoTitle) then WithoutTranscript
    else WithoutVideo
  }

  const Transcript0: string :=
    "You are an AI assistant helping users understand and analyze YouTube videos. \n"
    + "\n"
    + "The user is asking about this video:\n"
    + "Title: \""
  const Transcript1: string :=
    "\"\n"
    + "URL: "
  const Transcript2: string :=
    "\n"
    + "\n"
    + "Video Transcript (first 8000 characters):\n"
  const Transcript3: string :=
    "\n"
    + "\n"
    + "User Question: \""
  const Transcript4: string :=
    "\"\n"
    + "\n"
    + "Please provide a helpful, accurate response based on the video content. If the question is about specific details in the video, reference the transcript. If it's a general question, provide useful information while acknowledging the video context.\n"
    + "\n"
    + "Guidelines:\n"
    + "- Be conversational and helpful\n"
    + "- Reference specific parts of the video when relevant\n"
    + "- If you can't find the answer in the transcript, say so clearly\n"
    + "- Provide actionable insights when possible\n"
    + "- Keep responses focused and well-structured\n"
    + "- Use markdown formatting for better readability"
  const Unread0: string :=
    "You are an AI assistant helping users with YouTube videos.\n"
    + "\n"
    + "The user has selected this video: \""
  const Unread1: string := "\" ("
  const Unread2: string :=
    ")\n"
    + "\n"
    + "However, I couldn't access the video transcript (it may not have captions or may not be publicly available).\n"
    + "\n"
    + "User Question: \""
  const Unread3: string :=
    "\"\n"
    + "\n"
    + "Please provide a helpful response. Since I don't have access to the video content, I'll:\n"
    + "- Acknowledge that I can't analyze the specific video content\n"
    + "- Provide general helpful information related to their question\n"
    + "- Suggest ways they might find the information they're looking for\n"
    + "- Offer to help with other aspects of video analysis\n"
    + "\n"
    + "Be conversational, helpful, and honest about the limitations."
  const NoVideo0: string :=
    "You are an AI assistant for a YouTube Summary AI application.\n"
    + "\n"
    + "The user hasn't selected a specific YouTube video yet.\n"
    + "\n"
    + "User Question: \""
  const NoVideo1: string :=
    "\"\n"
    + "\n"
    + "Please provide a helpful response. Since no video is selected:\n"
    + "- Acknowledge that no video is currently selected\n"
    + "- Provide general helpful information if their question is about YouTube, video analysis, or study methods\n"
    + "- Suggest they select a YouTube video first if they want video-specific analysis\n"
    + "- Offer guidance on how to use the application effectively\n"
    + "\n"
    + "Be conversational, helpful, and guide them toward productive use of the application."

  /**
   * The fixed wording of the three prompts around their holes: the transcript
   * prompt's five pieces, the no-transcript prompt's four, the no-video
   * prompt's two. `Texts` is the route's own wording; the handler takes the
   * wording as a parameter, and every property below holds for any.
   */
  datatype Wording = Wording(t0: string, t1: string, t2: string, t3: string, t4: string,
                             u0: string, u1: string, u2: string, u3: string,
                             n0: string, n1: string)

  const Texts: Wording :=
    Wording(Transcript0, Transcript1, Transcript2, Transcript3, Transcript4,
            Unread0, Unread1, Unread2, Unread3, NoVideo0, NoVideo1)

  /**
   * The prompt of each kind. Absent fields render as `undefined`, which only
   * the no-transcript prompt can meet (its URL and title are present).
   */
  function Prompt(kind: PromptKind, req: Request, transcript: string, w: Wording): string {
    var message := req.message.GetOr("undefined");
    var title := req.videoTitle.GetOr("undefined");
    var url := req.videoUrl.GetOr("undefined");
    match kind
    case WithTranscript => w.t0 + title + w.t1 + url + w.t2 + Excerpt(transcript) + w.t3 + message + w.t4
    case WithoutTranscript => w.u0 + title + w.u1 + url + w.u2 + message + w.u3
    case WithoutVideo => w.n0 + message + w.n1
  }

  /** A template whose fourth and sixth pieces are holes holds both. */
  lemma HolesHeld(s0: string, h1: string, s1: string, h2: string, s2: string, h3: string, s3: string,
                  h4: string, s4: string)
    ensures var c := s0 + h1 + s1 + h2 + s2 + h3 + s3 + h4 + s4;
      Contains(c, h3) && Contains(c, h4) && |c| == |s0 + s1 + s2 + s3 + s4| + |h1| + |h2| + |h3| + |h4|
  {
    var c := s0 + h1 + s1 + h2 + s2 + h3 + s3 + h4 + s4;
    assert c == (s0 + h1 + s1 + h2 + s2) + h3 + (s3 + h4 + s4);
    ContainsMiddle(s0 + h1 + s1 + h2 + s2, h3, s3 + h4 + s4);
    assert c == (s0 + h1 + s1 + h2 + s2 + h3 + s3) + h4 + s4;
    ContainsMiddle(s0 + h1 + s1 + h2 + s2 + h3 + s3, h4, s4);
  }

  /**
   * Every prompt quotes the question; the transcript prompt quotes the first
   * 8000 transcript characters and nothing more of it: it is the fixed text,
   * the title, the URL, the question and that excerpt.
   */
  lemma PromptQuotes(req: Request, transcript: string, w: Wording)
    requires !Blank(req.message)
    ensures Contains(Prompt(KindOf(transcript, req), req, transcript, w), req.message.value)
    ensures KindOf(transcript, req) == WithTranscript ==>
      var p := Prompt(WithTranscript, req, transcript, w);
      && Contains(p, Excerpt(transcript))
      && |p| == |w.t0 + w.t1 + w.t2 + w.t3 + w.t4|
                + |req.videoTitle.value| + |req.videoUrl.GetOr("undefined")| + |Excerpt(transcript)|
                + |req.message.value|
      && |Excerpt(transcript)| <= MaxExcerpt
  {
    var message := req.message.value;
    var title := req.videoTitle.GetOr("undefined");
    var url := req.videoUrl.GetOr("undefined");
    match KindOf(transcript, req)
    case WithTranscript =>
      HolesHeld(w.t0, title, w.t1, url, w.t2, Excerpt(transcript), w.t3, message, w.t4);
    case WithoutTranscript =>
      ContainsMiddle(w.u0 + title + w.u1 + url + w.u2, message, w.u3);
    case WithoutVideo =>
      ContainsMiddle(w.n0, message, w.n1);
  }

  /** The exchange as stored: the question, then Gemini's answer. */
  function Exchange(message: string, answer: string): string {
    "**User Question:** " + message + "\n\n**AI Response:** " + answer
  }

  /** The request to the history API: the exchange as a `chat` entry. */
  function HistoryRequest(req: Request, message: string, answer: string, transcript: string)
    : HistoryRoute.SaveRequest
  {
    HistoryRoute.SaveRequest(req.videoUrl, req.videoTitle, None, None, None, None, Some(ChatType),
                             Some(Exchange(message, answer)), None,
                             Some(HistoryRoute.RequestMetadata(Some(|transcript|), Some(ChatType), None)))
  }

  /**
   * With a URL and a title, the history API accepts the request (its four
   * required fields are present) and counts it as a chat message; the stored
   * exchange quotes both the question and the answer.
   */
  lemma HistoryRequestAccepted(req: Request, message: string, answer: string, transcript: string)
    requires Truthy(req.videoUrl) && Truthy(req.videoTitle)
    ensures var h := HistoryRequest(req, message, answer, transcript);
      && HistoryRoute.HasRequiredFields(h)
      && HistoryRoute.UsageTypeFor(h.contentType.value) == SummaryHistory.Chat
      && Contains(h.content.value, message) && Contains(h.content.value, answer)
  {
    var head := "**User Question:** ";
    var mid := "\n\n**AI Response:** ";
    ContainsMiddle(head, message, mid + answer);
    assert head + message + (mid + answer) == Exchange(message, answer);
    ContainsMiddle(head + message + mid, answer, "");
    assert head + message + mid + answer + "" == Exchange(message, answer);
  }

  /** The handler. `fetch` is what the one transcript call would do, if it is made; `w` is the prompts' wording. */
  function Post(req: Request, geminiKey: bool, fetch: Attempt, llm: string -> Option<string>, user: Option<string>,
                w: Wording)
    : Outcome
  {
    if Blank(req.message) then Reply(400, Error(MessageRequired))
    else if !geminiKey then Reply(500, Error(ConfigError))
    else
      var transcript := ContextTranscript(req.videoUrl, fetch);
      match llm(Prompt(KindOf(transcript, req), req, transcript, w))
      case None => Reply(500, Error(ChatFailed))
      case Some(answer) =>
        var body := Answered(answer, transcript != "", OrNull(req.videoTitle), OrNull(req.videoUrl));
        var history := if Truthy(user) && Truthy(req.videoUrl) && Truthy(req.videoTitle)
                       then Some(HistoryRequest(req, req.message.value, answer, transcript)) else None;
        Outcome(Response(200, body), history)
  }

  /**
   * A blank message is refused with 400 before anything else, then a missing
   * key with 500; neither depends on the video, the transcript, Gemini or the
   * user, and neither saves anything.
   */
  lemma PostChecks(req: Request, geminiKey: bool, fetch: Attempt, llm: string -> Option<string>,
                   user: Option<string>, fetch': Attempt, llm': string -> Option<string>, user': Option<string>,
                   w: Wording)
    requires Blank(req.message) || !geminiKey
    ensures Post(req, geminiKey, fetch, llm, user, w) == Post(req, geminiKey, fetch', llm', user', w)
    ensures var o := Post(req, geminiKey, fetch, llm, user, w);
      && o.history.None?
      && (Blank(req.message) ==> o.response == Response(400, Error(MessageRequired)))
      && (!Blank(req.message) ==> o.response == Response(500, Error(ConfigError)))
  {
  }

  /**
   * A transcript call that throws is answered as if the video had no captions:
   * the failure is swallowed and never changes the status.
   */
  lemma FetchFailureSwallowed(req: Request, geminiKey: bool, message: Option<string>,
                              llm: string -> Option<string>, user: Option<string>, w: Wording)
    ensures Post(req, geminiKey, Threw(message), llm, user, w) == Post(req, geminiKey, Fetched([]), llm, user, w)
  {
    assert ContextTranscript(req.videoUrl, Threw(message)) == ContextTranscript(req.videoUrl, Fetched([])) by {
      assert Join([], " ") == "";
    }
  }

  /**
   * On success: the prompt is the transcript prompt iff there is a transcript
   * and a title, the no-transcript prompt iff not but there are a URL and a
   * title; `hasVideoContext` says whether there is a transcript; and history is
   * sent iff the user, the URL and the title are all present, carrying the
   * question and the answer.
   */
  lemma PostSuccess(req: Request, geminiKey: bool, fetch: Attempt, llm: string -> Option<string>,
                    user: Option<string>, w: Wording)
    requires Post(req, geminiKey, fetch, llm, user, w).response.status == 200
    ensures var o := Post(req, geminiKey, fetch, llm, user, w);
      var transcript := ContextTranscript(req.videoUrl, fetch);
      var kind := KindOf(transcript, req);
      && !Blank(req.message) && geminiKey
      && o.response.body.Answered?
      && llm(Prompt(kind, req, transcript, w)) == Some(o.response.body.response)
      && (kind == WithTranscript <==> transcript != "" && Truthy(req.videoTitle))
      && (kind == WithoutTranscript <==> transcript == "" && Truthy(req.videoUrl) && Truthy(req.videoTitle))
      && (o.response.body.hasVideoContext <==> transcript != "")
      && (transcript != "" ==> Truthy(req.videoUrl) && fetch.Fetched?)
      && (o.history.Some? <==> Truthy(user) && Truthy(req.videoUrl) && Truthy(req.videoTitle))
      && (o.history.Some? ==>
            o.history.value == HistoryRequest(req, req.message.value, o.response.body.response, transcript))
  {
  }
}
