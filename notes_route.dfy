/**
 * `POST` of app/api/notes/route.ts: save a note about a video, or have Gemini
 * analyse it first (`type: 'analyze'`). A signed-in user's note is sent to the
 * history API either way.
 *
 * The single transcript call, Gemini (`None` when it throws) and Clerk's
 * `auth()` (`None` also when it throws, which the surrounding `try` swallows)
 * are inputs; the history save is returned as the request it sends.
 */
module NotesRoute {
  import opened Wrappers
  import opened Text
  import opened VideoId
  import opened Transcript
  import opened Generation
  import SummaryHistory
  import HistoryRoute

  const NoteRequired: string := "Note content is required"
  const UrlRequired: string := "Video URL is required"
  const ConfigError: string := "API configuration error"
  const NoteFailed: string := "Failed to process note. Please try again."
  const SavedMessage: string := "Note saved successfully"
  const NoteType: string := "note"
  const Analyze: string := "analyze"

  /** The transcript must be longer than this to be quoted, and at most `ContextCap` characters of it are. */
  const ContextThreshold: nat := 100
  const ContextCap: nat := 2000

  /** `action` is the request's `type`; absent, it defaults to `save`. */
  datatype Request = Request(note: Option<string>, videoUrl: Option<string>, videoTitle: Option<string>,
                             action: Option<string>)

  datatype Body =
    | Error(error: string)
    | Analyzed(note: string, analysis: string, videoTitle: Option<string>, videoUrl: string, hasVideoContext: bool)
    | SavedNote(note: string, videoTitle: Option<string>, videoUrl: string, message: string)

  datatype Response = Response(status: nat, body: Body)

  /** The response, and the request sent to the history API if one was sent. */
  datatype Outcome = Outcome(response: Response, history: Option<HistoryRoute.SaveRequest>)

  function Reply(status: nat, body: Body): Outcome { Outcome(Response(status, body), None) }

  /** `!note || !note.trim()`. */
  predicate Blank(note: Option<string>) { note.None? || Trim(note.value) == "" }

  /** Only `analyze` analyses; an absent type and every other value save. */
  predicate Analyzes(req: Request) { req.action == Some(Analyze) }

  /**
   * The transcript of the analyse branch: the caption texts joined by spaces
   * and trimmed when an ID is found and the call returns; empty otherwise.
   */
  function NoteTranscript(videoUrl: string, fetch: Attempt): string {
    if ExtractSingle(videoUrl).Some? && fetch.Fetched? then TextOf(fetch.segments) else ""
  }

  const ContextHeader: string := "\n\nVideo Context (first 2000 characters):\n"

  /** The video-context block: the first 2000 characters of a transcript longer than 100, else nothing. */
  function VideoContext(transcript: string): (c: string)
    ensures c != "" <==> |transcript| > ContextThreshold
    ensures c != "" ==> c == ContextHeader + Prefix(transcript, ContextCap)
    ensures |c| <= |ContextHeader| + ContextCap
  {
    if |transcript| > ContextThreshold then ContextHeader + Prefix(transcript, ContextCap) else ""
  }

  const Analysis0: string :=
    "You are an AI assistant helping to analyze and enhance user notes about a YouTube video.\n"
    + "\n"
    + "Video: \""
  const Analysis1: string :=
    "\"\n"
    + "URL: "
  const Analysis2: string :=
    "\n"
    + "\n"
    + "User's Note:\n"
    + "\""
  const Analysis3: string :=
    "\"\n"
    + "\n"
    + "Please provide a helpful analysis of this note including:\n"
    + "\n"
    + "1. **Key Insights**: What are the main points or insights in this note?\n"
    + "2. **Connections**: How does this note relate to the video content?\n"
    + "3. **Suggestions**: What additional points or questions might be worth exploring?\n"
    + "4. **Organization**: How could this note be structured or categorized?\n"
    + "5. **Action Items**: Are there any actionable takeaways or next steps?\n"
    + "\n"
    + "Format your response in clear markdown with proper headings. Be concise but insightful."

  /**
   * The fixed wording of the analysis prompt around its holes. `Texts` is
   * the route's own wording; the handler takes the wording as a parameter,
   * and every property below holds for any.
   */
  datatype Wording = Wording(a0: string, a1: string, a2: string, a3: string)

  const Texts: Wording := Wording(Analysis0, Analysis1, Analysis2, Analysis3)

  /** The analysis prompt. An absent title renders as `undefined`. */
  function AnalysisPrompt(note: string, videoUrl: string, videoTitle: Option<string>, transcript: string, w: Wording)
    : string
  {
    w.a0 + videoTitle.GetOr("undefined") + w.a1 + videoUrl + VideoContext(transcript) + w.a2 + note + w.a3
  }

  /**
   * The analysis prompt quotes the note, and the transcript's first 2000
   * characters exactly when the transcript is longer than 100; the context it
   * adds is never longer than the header and 2000 characters.
   */
  lemma AnalysisPromptQuotes(note: string, videoUrl: string, videoTitle: Option<string>, transcript: string,
                             w: Wording)
    ensures var p := AnalysisPrompt(note, videoUrl, videoTitle, transcript, w);
      && Contains(p, note)
      && (|transcript| > ContextThreshold ==> Contains(p, Prefix(transcript, ContextCap)))
      && |p| <= |w.a0 + w.a1 + w.a2 + w.a3| + |videoTitle.GetOr("undefined")| + |videoUrl|
                + |note| + |ContextHeader| + ContextCap
  {
    var title := videoTitle.GetOr("undefined");
    var c := VideoContext(transcript);
    var p := AnalysisPrompt(note, videoUrl, videoTitle, transcript, w);
    var head := w.a0 + title + w.a1 + videoUrl;
    assert p == (head + c + w.a2) + note + w.a3;
    ContainsMiddle(head + c + w.a2, note, w.a3);
    if |transcript| > ContextThreshold {
      var excerpt := Prefix(transcript, ContextCap);
      assert p == (head + ContextHeader) + excerpt + (w.a2 + note + w.a3);
      ContainsMiddle(head + ContextHeader, excerpt, w.a2 + note + w.a3);
    }
  }

  /** The note as sent to the history API: with Gemini's analysis, or without it when only saved. */
  function HistoryRequest(req: Request, note: string, videoUrl: string, analysis: Option<string>,
                          transcriptLength: Option<nat>): HistoryRoute.SaveRequest
  {
    var apiUsed := if analysis.Some? then "notes-analyze" else "notes-save";
    HistoryRoute.SaveRequest(Some(videoUrl), req.videoTitle, None, None, None, None, Some(NoteType), Some(note),
                             analysis, Some(HistoryRoute.RequestMetadata(transcriptLength, Some(apiUsed), None)))
  }

  /**
   * The history API accepts a note iff it has a title (the note and the URL are
   * present by then), and counts it as a note. A note sent without a title is
   * refused there, which the notes route only logs.
   */
  lemma HistoryRequestAccepted(req: Request, note: string, videoUrl: string, analysis: Option<string>,
                               transcriptLength: Option<nat>)
    requires note != "" && videoUrl != ""
    ensures var h := HistoryRequest(req, note, videoUrl, analysis, transcriptLength);
      && (HistoryRoute.HasRequiredFields(h) <==> Truthy(req.videoTitle))
      && HistoryRoute.UsageTypeFor(h.contentType.value) == SummaryHistory.Note
  {
  }

  /** The handler. `fetch` is what the one transcript call would do, if it is made; `w` is the prompt's wording. */
  function Post(req: Request, geminiKey: bool, fetch: Attempt, llm: string -> Option<string>, user: Option<string>,
                w: Wording)
    : Outcome
  {
    if Blank(req.note) then Reply(400, Error(NoteRequired))
    else if !Truthy(req.videoUrl) then Reply(400, Error(UrlRequired))
    else if !geminiKey then Reply(500, Error(ConfigError))
    else if Analyzes(req) then Analysis(req, NoteTranscript(req.videoUrl.value, fetch), llm, user, w)
    else
      Outcome(Response(200, SavedNote(req.note.value, req.videoTitle, req.videoUrl.value, SavedMessage)),
              if Truthy(user) then Some(HistoryRequest(req, req.note.value, req.videoUrl.value, None, None)) else None)
  }

  /** The analyse branch, once the transcript is known. */
  function Analysis(req: Request, transcript: string, llm: string -> Option<string>, user: Option<string>, w: Wording)
    : Outcome
    requires req.note.Some? && req.videoUrl.Some?
  {
    var note := req.note.value;
    var url := req.videoUrl.value;
    match llm(AnalysisPrompt(note, url, req.videoTitle, transcript, w))
    case None => Reply(500, Error(NoteFailed))
    case Some(analysis) =>
      Outcome(Response(200, Analyzed(note, analysis, req.videoTitle, url, transcript != "")),
              if Truthy(user) then Some(HistoryRequest(req, note, url, Some(analysis), Some(|transcript|))) else None)
  }

  /**
   * The checks run in order — a blank note 400, a missing URL 400, a missing
   * key 500 (even for a plain save, which never calls Gemini) — before any
   * call, so they depend on nothing else and save nothing.
   */
  lemma PostChecks(req: Request, geminiKey: bool, fetch: Attempt, llm: string -> Option<string>,
                   user: Option<string>, fetch': Attempt, llm': string -> Option<string>, user': Option<string>,
                   w: Wording)
    requires Blank(req.note) || !Truthy(req.videoUrl) || !geminiKey
    ensures Post(req, geminiKey, fetch, llm, user, w) == Post(req, geminiKey, fetch', llm', user', w)
    ensures var o := Post(req, geminiKey, fetch, llm, user, w);
      && o.history.None?
      && (Blank(req.note) ==> o.response == Response(400, Error(NoteRequired)))
      && (!Blank(req.note) && !Truthy(req.videoUrl) ==> o.response == Response(400, Error(UrlRequired)))
      && (!Blank(req.note) && Truthy(req.videoUrl) ==> o.response == Response(500, Error(ConfigError)))
  {
  }

  /**
   * Any type other than `analyze` saves: no transcript call and no Gemini call
   * are made (the answer does not depend on them), the answer is 200, and a
   * signed-in user's note is sent without an analysis.
   */
  lemma PostSave(req: Request, geminiKey: bool, fetch: Attempt, llm: string -> Option<string>, user: Option<string>,
                 fetch': Attempt, llm': string -> Option<string>, w: Wording)
    requires !Blank(req.note) && Truthy(req.videoUrl) && geminiKey && !Analyzes(req)
    ensures Post(req, geminiKey, fetch, llm, user, w) == Post(req, geminiKey, fetch', llm', user, w)
    ensures var o := Post(req, geminiKey, fetch, llm, user, w);
      && o.response == Response(200, SavedNote(req.note.value, req.videoTitle, req.videoUrl.value, SavedMessage))
      && (o.history.Some? <==> Truthy(user))
      && (o.history.Some? ==> o.history.value.content == req.note && o.history.value.analysis.None?)
  {
  }

  /**
   * `analyze` answers 200 iff Gemini answers the analysis prompt;
   * `hasVideoContext` says whether a transcript was obtained, even one too
   * short to be quoted; and a signed-in user's note is sent with its analysis.
   */
  lemma PostAnalyze(req: Request, geminiKey: bool, fetch: Attempt, llm: string -> Option<string>,
                    user: Option<string>, w: Wording)
    requires !Blank(req.note) && Truthy(req.videoUrl) && geminiKey && Analyzes(req)
    ensures var o := Post(req, geminiKey, fetch, llm, user, w);
      var transcript := NoteTranscript(req.videoUrl.value, fetch);
      var prompt := AnalysisPrompt(req.note.value, req.videoUrl.value, req.videoTitle, transcript, w);
      && (o.response.status == 200 <==> llm(prompt).Some?)
      && (o.response.status != 200 ==> o == Reply(500, Error(NoteFailed)))
      && (o.response.status == 200 ==>
            && o.response.body.Analyzed? && Some(o.response.body.analysis) == llm(prompt)
            && (o.response.body.hasVideoContext <==> transcript != "")
            && (o.history.Some? <==> Truthy(user))
            && (o.history.Some? ==> o.history.value.analysis == Some(o.response.body.analysis)
                                    && o.history.value.metadata.value.transcriptLength == Some(|transcript|)))
  {
  }

  /** A transcript call that throws leaves the transcript empty, as one that returns no captions does. */
  lemma ThrowLeavesNoTranscript(videoUrl: string, message: Option<string>)
    ensures NoteTranscript(videoUrl, Threw(message)) == NoteTranscript(videoUrl, Fetched([])) == ""
  {
    assert TextOf([]) == "" by {
      assert Join([], " ") == "";
      assert |Trim("")| == 0 by { var a :| OccursAt("", Trim(""), a); }
    }
  }

  /** A transcript call that throws is answered as one that returns no captions. */
  lemma FetchFailureSwallowed(req: Request, geminiKey: bool, message: Option<string>,
                              llm: string -> Option<string>, user: Option<string>, w: Wording)
    ensures Post(req, geminiKey, Threw(message), llm, user, w) == Post(req, geminiKey, Fetched([]), llm, user, w)
  {
    if !Blank(req.note) && Truthy(req.videoUrl) && geminiKey && Analyzes(req) {
      ThrowLeavesNoTranscript(req.videoUrl.value, message);
      assert Post(req, geminiKey, Threw(message), llm, user, w) == Analysis(req, "", llm, user, w);
      assert Post(req, geminiKey, Fetched([]), llm, user, w) == Analysis(req, "", llm, user, w);
    }
  }
}
