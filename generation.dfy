/**
 * What the three generation routes share: the request they read, the two
 * content types they accept, their fixed messages and the transcript excerpt
 * they put into a prompt.
 */
module Generation {
  import opened Wrappers
  import opened Text

  const StudyGuide: string := "study-guide"
  const BriefingDoc: string := "briefing-doc"

  const UrlRequired: string := "YouTube URL is required"
  const InvalidUrl: string := "Invalid YouTube URL format. Please use a valid YouTube URL."
  const InvalidType: string := "Invalid type. Must be \"study-guide\" or \"briefing-doc\""
  const ProcessFailed: string := "Failed to process video. Please try again."

  /** The four messages are told apart by their lengths; the shortest by its last character too. */
  lemma MessagesDiffer()
    ensures |UrlRequired| == 23 && |InvalidUrl| == 59 && |InvalidType| == 53 && |ProcessFailed| == 42
    ensures UrlRequired[22] == 'd'
  {
  }

  /** The JSON body `{ url, type }`; an absent field is `None`. */
  datatype Request = Request(url: Option<string>, contentType: Option<string>)

  /** JavaScript truthiness of an optional string: present and non-empty. */
  predicate Truthy(v: Option<string>) { v.Some? && v.value != "" }

  /** `type === 'study-guide'` or `type === 'briefing-doc'`. */
  predicate IsKnownType(t: Option<string>) {
    t == Some(StudyGuide) || t == Some(BriefingDoc)
  }

  const MaxExcerpt: nat := 8000

  /** `transcript.substring(0, 8000)`. */
  function Excerpt(transcript: string): (e: string)
    ensures |e| == if |transcript| < MaxExcerpt then |transcript| else MaxExcerpt
    ensures e <= transcript
  {
    Prefix(transcript, MaxExcerpt)
  }

  /** A prompt of the form `header + excerpt` ends with the excerpt and is at most 8000 characters longer than the header. */
  lemma PromptEndsWithExcerpt(header: string, transcript: string)
    ensures var p := header + Excerpt(transcript);
      && p[|header|..] == Excerpt(transcript)
      && |p| <= |header| + MaxExcerpt
      && (|transcript| <= MaxExcerpt ==> p[|header|..] == transcript)
  {
    if |transcript| <= MaxExcerpt {
      assert Excerpt(transcript) == transcript;
    }
  }
}
