/**
 * The `SummaryHistory` collection's schema (lib/models/SummaryHistory.ts): one
 * saved piece of generated content, its required fields, its content-type
 * enumeration and the defaults Mongoose fills in when a document is created.
 *
 * Dates are the store's logical clock ticks (see module `Store`): what matters
 * to the model is their order, not the wall-clock value.
 */
module SummaryHistory {
  import opened Wrappers

  /** The `contentType` enumeration. */
  datatype ContentType = Guide | Briefing | Note | Chat

  /** The stored spelling of a content type. */
  function TypeName(t: ContentType): (s: string)
    ensures s != ""
  {
    match t
    case Guide => "study-guide"
    case Briefing => "briefing-doc"
    case Note => "note"
    case Chat => "chat"
  }

  /** The enum check Mongoose applies on save: a string names a content type or is refused. */
  function ParseType(s: string): (r: Option<ContentType>)
    ensures r.Some? ==> TypeName(r.value) == s
    ensures r.None? ==> forall t: ContentType :: TypeName(t) != s
  {
    if s == "study-guide" then Some(Guide)
    else if s == "briefing-doc" then Some(Briefing)
    else if s == "note" then Some(Note)
    else if s == "chat" then Some(Chat)
    else None
  }

  /** Every content type is accepted under its own name, and names are distinct. */
  lemma ParseTypeName(t: ContentType)
    ensures ParseType(TypeName(t)) == Some(t)
  {
  }

  /** The `metadata` sub-document. */
  datatype Metadata = Metadata(transcriptLength: Option<nat>, generatedAt: nat,
                               apiUsed: Option<string>, processingTime: Option<nat>)

  /** A stored history entry; `id` is the document's `_id`. */
  datatype Entry = Entry(
    id: nat,
    userId: string,
    userEmail: string,
    videoUrl: string,
    videoTitle: string,
    videoId: string,
    channelName: Option<string>,
    videoDuration: Option<string>,
    videoViews: Option<string>,
    videoThumbnail: Option<string>,
    contentType: ContentType,
    content: string,
    analysis: Option<string>,
    metadata: Metadata,
    createdAt: nat,
    updatedAt: nat)

  /** What a caller hands to `new SummaryHistory(...)`, before validation and defaults. */
  datatype Draft = Draft(
    userId: string,
    userEmail: string,
    videoUrl: string,
    videoTitle: string,
    videoId: string,
    channelName: Option<string>,
    videoDuration: Option<string>,
    videoViews: Option<string>,
    videoThumbnail: Option<string>,
    contentType: string,
    content: string,
    analysis: Option<string>,
    transcriptLength: Option<nat>,
    generatedAt: Option<nat>,
    apiUsed: Option<string>,
    processingTime: Option<nat>)

  /**
   * The schema's validation: the six required strings are non-empty (Mongoose's
   * `required` refuses `""`) and the content type is in the enumeration.
   */
  predicate Admissible(d: Draft) {
    && d.userId != "" && d.userEmail != "" && d.videoUrl != ""
    && d.videoTitle != "" && d.videoId != "" && d.content != ""
    && ParseType(d.contentType).Some?
  }

  /** A stored entry satisfies the schema's required fields. */
  predicate ValidEntry(e: Entry) {
    && e.userId != "" && e.userEmail != "" && e.videoUrl != ""
    && e.videoTitle != "" && e.videoId != "" && e.content != ""
  }

  /**
   * Creating and validating a document with `_id` `id` at time `now`: refused
   * unless admissible; otherwise every supplied field is kept, the optional ones
   * stay absent when not supplied, `metadata.generatedAt` defaults to `now`, and
   * both timestamps are `now`.
   */
  function Materialize(d: Draft, id: nat, now: nat): (r: Option<Entry>)
    ensures r.Some? <==> Admissible(d)
    ensures r.Some? ==>
      && ValidEntry(r.value)
      && r.value.id == id && r.value.createdAt == now && r.value.updatedAt == now
      && r.value.userId == d.userId && r.value.userEmail == d.userEmail
      && r.value.videoUrl == d.videoUrl && r.value.videoTitle == d.videoTitle
      && r.value.videoId == d.videoId && r.value.content == d.content
      && TypeName(r.value.contentType) == d.contentType
      && r.value.channelName == d.channelName && r.value.videoDuration == d.videoDuration
      && r.value.videoViews == d.videoViews && r.value.videoThumbnail == d.videoThumbnail
      && r.value.analysis == d.analysis
      && r.value.metadata.generatedAt == d.generatedAt.GetOr(now)
      && r.value.metadata.transcriptLength == d.transcriptLength
      && r.value.metadata.apiUsed == d.apiUsed
      && r.value.metadata.processingTime == d.processingTime
  {
    if !Admissible(d) then None
    else
      Some(Entry(id, d.userId, d.userEmail, d.videoUrl, d.videoTitle, d.videoId,
                 d.channelName, d.videoDuration, d.videoViews, d.videoThumbnail,
                 ParseType(d.contentType).value, d.content, d.analysis,
                 Metadata(d.transcriptLength, d.generatedAt.GetOr(now), d.apiUsed, d.processingTime),
                 now, now))
  }
}
