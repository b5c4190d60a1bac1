/**
 * components/notes-modal.tsx: the dialog in which a note on the current video
 * is written, saved, or sent for analysis.
 *
 * The `fetch` to the notes route is outside the model: what it does is a
 * parameter (`Reply`). The React state becomes the fields of a `NotesModal`
 * object; the `onClose` and `onNoteSaved` callbacks become what the handlers
 * return. Toasts are the messages returned.
 */
module NotesModal {
  import opened Wrappers
  import opened Text

  const SaveType: string := "save"
  const AnalyzeType: string := "analyze"
  const EmptySave: string := "Please enter some note content"
  const EmptyAnalyze: string := "Please enter some note content to analyze"
  const SaveFailed: string := "Failed to save note"
  const AnalyzeFailed: string := "Failed to analyze note"
  const Saved: string := "Note saved successfully!"
  const Analyzed: string := "Note analysis completed!"

  /** The JSON body sent to the notes route. */
  datatype NoteRequest = NoteRequest(note: string, videoUrl: string, videoTitle: string, kind: string)

  /** What the request does: an ok answer with its `note` and `analysis`, an answer that is not ok, or a rejection. */
  datatype Reply =
    | Answered(note: string, analysis: string)
    | NotOk(error: Option<string>)
      /** `message` is `None` when the thrown value is not an `Error`. */
    | Threw(message: Option<string>)

  /** A toast: a success or an error, with its text. */
  datatype Toast = Success(text: string) | Failure(text: string)

  /**
   * The note sent: the title in bold and a blank line before the content when
   * there is a title, the content alone otherwise.
   */
  function NoteBody(title: string, content: string): string {
    if title != "" then "**" + title + "**\n\n" + content else content
  }

  /**
   * The content is sent whole, at the end; a title adds exactly six
   * characters around it, and the body starts with the title in bold.
   */
  lemma NoteBodyParts(title: string, content: string)
    ensures var body := NoteBody(title, content);
      && |body| == |content| + (if title == "" then 0 else |title| + 6)
      && body[|body| - |content|..] == content
      && (title != "" ==> body[..|title| + 4] == "**" + title + "**")
  {
    if title != "" {
      var head := "**" + title + "**";
      assert NoteBody(title, content) == head + ("\n\n" + content);
    }
  }

  /** The toast of a failed request: the route's error, or the thrown message, or `fallback`. */
  function FailureText(r: Reply, fallback: string): (text: string)
    requires !r.Answered?
    ensures r.NotOk? && r.error.Some? && r.error.value != "" ==> text == r.error.value
    ensures r.NotOk? && (r.error.None? || r.error.value == "") ==> text == fallback
  {
    match r
    case NotOk(error) => if error.Some? && error.value != "" then error.value else fallback
    case Threw(message) => message.GetOr(fallback)
  }

  /** Content that is white space only, or nothing. */
  predicate Blank(content: string) { forall k | 0 <= k < |content| :: IsSpace(content[k]) }

  /** The guard `!noteContent.trim()` rejects exactly the blank content. */
  lemma TrimGuardIsBlank(content: string)
    ensures Trim(content) == "" <==> Blank(content)
  {
    TrimEmptyIffBlank(content);
  }

  /** The dialog's state. */
  class NotesModal {
    var noteTitle: string
    var noteContent: string
    var analysis: string
    var isSaving: bool
    var isAnalyzing: bool

    constructor()
      ensures noteTitle == "" && noteContent == "" && analysis == "" && !isSaving && !isAnalyzing
    {
      noteTitle := "";
      noteContent := "";
      analysis := "";
      isSaving := false;
      isAnalyzing := false;
    }

    /**
     * `handleSaveNote`: blank content sends nothing. Otherwise the note is
     * sent with type `save`; an ok answer reports the saved note and the
     * current analysis to `onNoteSaved`, clears the form and closes the
     * dialog; a failure keeps the form. `isSaving` is false afterwards.
     */
    method HandleSaveNote(videoUrl: string, videoTitle: string, reply: Reply)
      returns (sent: Option<NoteRequest>, toast: Toast, noteSaved: Option<(string, string)>, closed: bool)
      modifies this
      ensures isAnalyzing == old(isAnalyzing)
      ensures Blank(old(noteContent)) ==>
        && sent == None && toast == Failure(EmptySave) && noteSaved == None && !closed
        && noteTitle == old(noteTitle) && noteContent == old(noteContent) && analysis == old(analysis)
        && isSaving == old(isSaving)
      ensures !Blank(old(noteContent)) ==>
        && sent == Some(NoteRequest(NoteBody(old(noteTitle), old(noteContent)), videoUrl, videoTitle, SaveType))
        && !isSaving
      ensures !Blank(old(noteContent)) && reply.Answered? ==>
        && toast == Success(Saved) && noteSaved == Some((reply.note, old(analysis))) && closed
        && noteTitle == "" && noteContent == "" && analysis == ""
      ensures !Blank(old(noteContent)) && !reply.Answered? ==>
        && toast == Failure(FailureText(reply, SaveFailed)) && noteSaved == None && !closed
        && noteTitle == old(noteTitle) && noteContent == old(noteContent) && analysis == old(analysis)
    {
      noteSaved := None;
      closed := false;
      if Blank(noteContent) {
        sent := None;
        toast := Failure(EmptySave);
        return;
      }
      isSaving := true;
      sent := Some(NoteRequest(NoteBody(noteTitle, noteContent), videoUrl, videoTitle, SaveType));
      if reply.Answered? {
        toast := Success(Saved);
        noteSaved := Some((reply.note, analysis));
        noteTitle := "";
        noteContent := "";
        analysis := "";
        closed := true;
      } else {
        toast := Failure(FailureText(reply, SaveFailed));
      }
      isSaving := false;
    }

    /**
     * `handleAnalyzeNote`: blank content sends nothing. Otherwise the note is
     * sent with type `analyze`; an ok answer's analysis replaces the current
     * one. The form is kept either way and `isAnalyzing` is false afterwards.
     */
    method HandleAnalyzeNote(videoUrl: string, videoTitle: string, reply: Reply) returns (sent: Option<NoteRequest>, toast: Toast)
      modifies this
      ensures noteTitle == old(noteTitle) && noteContent == old(noteContent) && isSaving == old(isSaving)
      ensures Blank(old(noteContent)) ==>
        sent == None && toast == Failure(EmptyAnalyze) && analysis == old(analysis) && isAnalyzing == old(isAnalyzing)
      ensures !Blank(old(noteContent)) ==>
        && sent == Some(NoteRequest(NoteBody(noteTitle, noteContent), videoUrl, videoTitle, AnalyzeType))
        && !isAnalyzing
        && (reply.Answered? ==> analysis == reply.analysis && toast == Success(Analyzed))
        && (!reply.Answered? ==> analysis == old(analysis) && toast == Failure(FailureText(reply, AnalyzeFailed)))
    {
      if Blank(noteContent) {
        sent := None;
        toast := Failure(EmptyAnalyze);
        return;
      }
      isAnalyzing := true;
      sent := Some(NoteRequest(NoteBody(noteTitle, noteContent), videoUrl, videoTitle, AnalyzeType));
      if reply.Answered? {
        analysis := reply.analysis;
        toast := Success(Analyzed);
      } else {
        toast := Failure(FailureText(reply, AnalyzeFailed));
      }
      isAnalyzing := false;
    }
  }
}
