# ContentCapsule, modelled in Dafny

ContentCapsule is a Next.js application. It turns a YouTube video into study
material. A signed-in user pastes a video URL on the home page and the page
adds it as a source. For the selected source the user can then:

- generate a study guide or a briefing document;
- chat about the video;
- write notes and have them analysed;
- listen to generated content read aloud.

Generated content, chats and notes are stored per user in MongoDB. The
history dialog lists, filters and deletes that history.

This project models the application's core logic. It proves what each part
promises. The model covers:

- **Video IDs.** The two `extractVideoId` variants: the five-pattern loop of
  the generation routes and the single alternation regex of the history, chat
  and notes routes and of the page. Each regular expression is modelled by
  what `String.prototype.match` does: the leftmost match, found with greedy
  backtracking.
- **Transcript retry loop.** Three attempts with pauses of 1000 ms and
  2000 ms. The loop stops at the first transcript of at least 50 characters.
  When all three attempts fail, it reports the last attempt's error.
- **Generation routes.** `/api/youtube`, `/api/youtube-enhanced` (with the
  YouTube Data API metadata) and `/api/youtube-mock` (fixed templates). The
  `useYouTubeAI` hook tries these three routes in that order.
- **Chat and notes routes.** Their prompts, and the history entries they post.
- **History route.** Listing with filters and pagination, the checked save
  that also bumps the user's usage counter, and the owner-scoped delete.
- **User route and user model.** The profile route (get or create, update,
  statistics) and the user document's defaults. The monthly reset falls on the
  first day of the next month.
- **Storage.** The MongoDB collections are one `Database` object: the history
  entries in creation order, and the users keyed by their Clerk ID.
- **Audio.** The speech cleaning of the audio-podcast route and of the player
  component: a chain of `replace` calls, each a left-to-right scan. Also the
  route's duration estimate, and the player's state machine (play, pause,
  stop, volume, mute, speed, skip).
- **Client hooks and dialogs.** The user-initialization hook, the history
  dialog and the notes dialog. Their React state becomes the fields of a
  class.
- **Home page.** The page's source list, its generation gate and its
  ISO 8601 duration display.

Outside calls are parameters: Clerk, MongoDB, the transcript provider, Gemini,
the YouTube Data API and `fetch`. Each handler is proved for every reply those
services can give. Prompt and template wording is a `Wording` parameter. The
`Texts` constant holds the application's own wording, and every property
holds for any wording.

## Model

| member | source | states |
|---|---|---|
| Text.Prefix | app/api/youtube/route.ts:93 | `substring(0, n)` is a prefix of the string of length min(n, length) |
| Text.TrimStart | app/api/youtube/route.ts:32 | `trimStart` drops exactly the leading white space: the rest is a suffix that starts with a non-space |
| Text.TrimEnd | app/api/youtube/route.ts:32 | `trimEnd` drops exactly the trailing white space: the rest is a prefix that ends with a non-space |
| Text.Trim | app/api/youtube/route.ts:32 | `trim` yields a contiguous piece of its input with no white space at either end |
| Text.TrimEmptyIffBlank | app/api/chat/route.ts:20 | `!s.trim()` holds exactly when every character is white space |
| Text.NatToString | app/page.tsx:423 | `toString` of a non-negative number is a non-empty run of digits, one digit exactly below 10 |
| Text.DigitsValueOfNatToString | app/page.tsx:418-420 | reading back the digits of `toString` gives the number |
| Text.PadTwo | app/page.tsx:423 | `padStart(2, '0')` gives at least two digits, exactly two below 100, with the same value |
| Text.HexValueOfHexText | app/api/history/route.ts:173-176 | a number that fits in `width` hexadecimal digits reads back from its zero-padded hexadecimal text |
| Text.CountOf | components/audio-podcast.tsx:173 | the number of occurrences of a character is at most the length |
| Text.ContainsMiddle | app/api/chat/route.ts:60 | a string put inside a template is included in it |
| VideoId.IdAfter | app/api/youtube/route.ts:134-138 | the capture group `([a-zA-Z0-9_-]{11})` matches exactly where eleven ID characters start, and captures them |
| VideoId.Leftmost | app/api/youtube/route.ts:142 | `match` finds the leftmost start index at which the pattern matches, and no earlier one exists |
| VideoId.Match | app/api/youtube/route.ts:142-145 | a capture is eleven characters of the pattern's class that occur in the URL |
| VideoId.FirstOf | app/api/youtube/route.ts:141-148 | the first pattern that matches decides, and its capture is eleven ID characters taken from the URL |
| VideoId.ExtractFive | app/api/youtube/route.ts:131-149 | an extracted ID is eleven `[a-zA-Z0-9_-]` characters occurring in the URL |
| VideoId.ExtractSingle | app/api/history/route.ts:8-12 | an extracted ID is eleven characters outside `"&?/` and white space, occurring in the URL |
| VideoId.ExtractVideoId | app/api/youtube/route.ts:141-148 | the loop that returns from inside on the first match computes the five-pattern extractor |
| VideoId.FirstOfNone | app/api/youtube/route.ts:148 | when no pattern matches the loop returns null |
| VideoId.NoLowercaseYNoId | app/api/youtube/route.ts:134-138 | both extractors are case-sensitive: a URL without a lower-case `y` yields no ID |
| VideoId.MixedCaseHostNotRecognised | app/api/history/route.ts:9 | `https://www.YouTube.com/watch?v=dQw4w9WgXcQ` yields no ID in either extractor |
| VideoId.ExtractorsAgreeOnWatchUrl | app/api/history/route.ts:9 | on a `youtube.com/watch?v=` URL with nothing after the ID that starts a new path or parameter, both extractors return that ID |
| VideoId.OnlyShortLinkAt | app/api/youtube/route.ts:134-138 | only the `youtu.be/` literal can start a string whose sixth character is a dot |
| VideoId.FiveRejectsDot | app/api/youtube/route.ts:136 | `youtu.be/abc.defghij` yields no ID in the five-pattern extractor |
| VideoId.SingleAcceptsDot | app/api/chat/route.ts:10 | `youtu.be/abc.defghij` yields `abc.defghij` in the single-regex extractor |
| VideoId.ExtractorsDisagreeOnDot | app/api/notes/route.ts:10 | the two extractors disagree on an ID holding a dot: the page and the history route accept a video the generation routes refuse |
| Transcript.TooShortMessage | app/api/youtube/route.ts:46 | the too-short error names the transcript's length |
| Transcript.FetchWithRetry | app/api/youtube/route.ts:28-58 | the `for` loop over three attempts computes the retry specification |
| Transcript.RetryFromShape | app/api/youtube/route.ts:36-56 | from any consistent state the loop ends: either at the first usable attempt, after pauses of 1000·k ms and with every earlier attempt unusable, or after three unusable attempts with the last text fetched and the last error |
| Transcript.RetrySucceedsIff | app/api/youtube/route.ts:36-38 | the loop succeeds exactly when some attempt returns at least 50 characters after trimming |
| Transcript.RetryOutcome | app/api/youtube/route.ts:28-58 | the loop stops at the first usable attempt with its text, pausing 1000 ms then 2000 ms; if all three fail it keeps the last text fetched and the last attempt's error |
| Transcript.PausesBounded | app/api/youtube/route.ts:42 | at most two pauses are taken: 1000 ms and then 2000 ms |
| Transcript.ReportedError | app/api/youtube/route.ts:63 | `transcriptError || default` is never empty and is the error when one is set |
| Transcript.Failure | app/api/youtube/route.ts:61-68 | the 400 body reports the transcript's length, the video ID and the reported error |
| Transcript.FailureNamesLastAttempt | app/api/youtube/route.ts:44-51 | a failed loop reports the last attempt: a too-short text its length, a thrown `Error` its message, any other throw "Unknown error" |
| Generation.Excerpt | app/api/youtube/route.ts:93 | the excerpt is the first min(8000, length) transcript characters |
| Generation.PromptEndsWithExcerpt | app/api/youtube/route.ts:81-106 | a prompt ends with the excerpt and is at most 8000 characters longer than its instructions |
| YouTubeRoute.PromptFor | app/api/youtube/route.ts:80-109 | a prompt exists exactly for `study-guide` and `briefing-doc`; it is that type's instructions followed by the excerpt |
| YouTubeRoute.Post | app/api/youtube/route.ts:7-129 | the handler answers only 200, 400 or 500 |
| YouTubeRoute.AfterExtraction | app/api/youtube/route.ts:28-121 | past the video ID the handler answers only 200, 400 or 500 |
| YouTubeRoute.PostUrlChecks | app/api/youtube/route.ts:12-21 | a missing URL, then a URL without a video ID, answer 400 before any transcript attempt |
| YouTubeRoute.PostTranscriptFailure | app/api/youtube/route.ts:61-68 | with a valid URL, the answer is the transcript failure exactly when no attempt was usable |
| YouTubeRoute.TranscriptDecides | app/api/youtube/route.ts:61-68 | once the ID is known, only a failed transcript yields the transcript-failure answer |
| YouTubeRoute.PostLateChecks | app/api/youtube/route.ts:73-109 | the Gemini key (500), then the type (400), are checked only after a usable transcript |
| YouTubeRoute.PostSuccess | app/api/youtube/route.ts:112-121 | a 200 carries the extracted ID, the type, and Gemini's answer to a prompt ending with the first usable transcript's excerpt |
| EnhancedRoute.DescriptionText | app/api/youtube-enhanced/route.ts:122 | `description?.substring(0, 500)` is `undefined` when absent and otherwise a prefix of at most 500 characters |
| EnhancedRoute.TagsText | app/api/youtube-enhanced/route.ts:123 | the tags line is never empty: the tags joined with `, `, or `None` when there are none |
| EnhancedRoute.PromptFor | app/api/youtube-enhanced/route.ts:126-170 | a prompt exists exactly for the two known types; it holds the video block and ends with the excerpt |
| EnhancedRoute.ReportedError | app/api/youtube-enhanced/route.ts:47 | `error?.message \|\| 'Unknown error'` is never empty |
| EnhancedRoute.PostEarlyChecks | app/api/youtube-enhanced/route.ts:13-34 | the URL, the two keys and the video ID are checked in order before any outside call, and a failed check decides the answer alone |
| EnhancedRoute.PostMetadataChecks | app/api/youtube-enhanced/route.ts:40-56 | a failed metadata lookup answers with the provider's status and details, no items answers 404, and nothing further is attempted or saved |
| EnhancedRoute.PostTranscriptFailure | app/api/youtube-enhanced/route.ts:100-107 | past the metadata, the answer is the transcript failure exactly when no attempt was usable |
| EnhancedRoute.TranscriptDecides | app/api/youtube-enhanced/route.ts:100-107 | once the metadata is known, only a failed transcript yields the transcript-failure answer |
| EnhancedRoute.ReachesMetadata | app/api/youtube-enhanced/route.ts:58-97 | with the early checks and the metadata passed, the handler continues with the first item and the retry loop |
| EnhancedRoute.PostInvalidType | app/api/youtube-enhanced/route.ts:168-170 | an unknown type answers 400 exactly when everything before it passed |
| EnhancedRoute.PostSuccess | app/api/youtube-enhanced/route.ts:172-236 | a 200 carries Gemini's answer for the first usable transcript, the metadata and the transcript length; `saved` holds and the history is posted exactly when a user is signed in, with the transcript length and the Gemini call's measured `processingTime` in its metadata |
| EnhancedRoute.AfterMetadataAsWritten | app/api/youtube-enhanced/route.ts:235 | past the metadata, the handler as written answers like the intended one, except that a 200 becomes a 500 |
| EnhancedRoute.AsWrittenNeverSucceeds | app/api/youtube-enhanced/route.ts:235 | the handler as written never answers 200: reading `userId` out of its scope throws into the 500 branch |
| EnhancedRoute.VideoContextFields | app/api/youtube-enhanced/route.ts:115-124 | the video block shows at most 500 description characters, and "None" for missing tags |
| MockRoute.FillHolds | app/api/youtube-mock/route.ts:71-171 | a filled template starts with its heading and contains what fills its holes |
| MockRoute.StudyGuideQuotes | app/api/youtube-mock/route.ts:71-109 | the study guide quotes the transcript's length, its first 100 characters and `floor(length / 100)` topics |
| MockRoute.BriefingQuotes | app/api/youtube-mock/route.ts:111-171 | the briefing quotes the length, the first 150 characters and `floor(length / 50)` topics, and ends with the date |
| MockRoute.ContentFor | app/api/youtube-mock/route.ts:69-174 | content exists exactly for the two known types |
| MockRoute.Post | app/api/youtube-mock/route.ts:4-193 | the mock answers only 200 or 400 |
| MockRoute.AfterExtraction | app/api/youtube-mock/route.ts:20-184 | past the video ID the mock answers only 200 or 400 |
| MockRoute.PostRefusesBadUrlFirst | app/api/youtube-mock/route.ts:9-18 | a missing URL or one without a video ID answers 400 whatever the transcript provider would do |
| MockRoute.PostStatus | app/api/youtube-mock/route.ts:9-174 | the mock answers 400 exactly when the URL, the transcript or the type is bad, and the type is judged last |
| MockRoute.PostSuccess | app/api/youtube-mock/route.ts:176-184 | a 200 reports the first usable transcript's length (at least 50) and that type's template built from it |
| YouTubeAi.TriedFromIsChain | hooks/use-youtube-ai.ts:19-49 | from any point, the endpoints called form a consecutive part of the chain, each after an answer that was not ok |
| YouTubeAi.TriedIsChain | hooks/use-youtube-ai.ts:19-49 | at most three endpoints are called, in the order enhanced, regular, mock, and the next only after a not-ok answer |
| YouTubeAi.AnswerError | hooks/use-youtube-ai.ts:53 | `errorData.error \|\| 'Failed to generate content'` is never empty |
| YouTubeAi.ResultIsFirstOk | hooks/use-youtube-ai.ts:28-57 | the call stops at the first ok answer and returns its body |
| YouTubeAi.ResultOnlyFromOk | hooks/use-youtube-ai.ts:51-57 | content is returned only from an ok answer preceded by not-ok answers |
| YouTubeAi.AllFailReportsLast | hooks/use-youtube-ai.ts:51-61 | when every endpoint fails, all three are called and the error is the mock route's |
| YouTubeAi.Generator.constructor | hooks/use-youtube-ai.ts:10-11 | the hook starts not generating and without an error |
| YouTubeAi.Generator.ClearError | hooks/use-youtube-ai.ts:71 | `clearError` clears the error only |
| YouTubeAi.Generator.GenerateContent | hooks/use-youtube-ai.ts:13-65 | one identical request per endpoint tried; the result and the error state follow the chain; not generating afterwards |
| ChatRoute.OrNull | app/api/chat/route.ts:146-147 | `v \|\| null` is the value exactly when it is truthy |
| ChatRoute.PromptQuotes | app/api/chat/route.ts:50-103 | every prompt quotes the question; the transcript prompt quotes exactly the first 8000 transcript characters |
| ChatRoute.HistoryRequestAccepted | app/api/chat/route.ts:114-133 | with a URL and a title, the posted chat passes the history route's field check and counts as a chat; it quotes the question and the answer |
| ChatRoute.PostChecks | app/api/chat/route.ts:20-27 | a blank message answers 400, then a missing key 500, depending on nothing else and saving nothing |
| ChatRoute.FetchFailureSwallowed | app/api/chat/route.ts:43-46 | a transcript call that throws is answered as if the video had no captions |
| ChatRoute.PostSuccess | app/api/chat/route.ts:50-148 | the prompt kind follows the transcript, URL and title; `hasVideoContext` says whether a transcript was obtained; history is sent exactly when a user, URL and title are present |
| NotesRoute.VideoContext | app/api/notes/route.ts:48-50 | the context is non-empty exactly for a transcript longer than 100, and then quotes its first 2000 characters |
| NotesRoute.AnalysisPromptQuotes | app/api/notes/route.ts:56-72 | the analysis prompt quotes the note, and quotes the transcript's first 2000 characters exactly when the transcript is longer than 100 |
| NotesRoute.HistoryRequestAccepted | app/api/notes/route.ts:91-101 | the history route accepts the posted note exactly when it has a title, and counts it as a note |
| NotesRoute.PostChecks | app/api/notes/route.ts:20-31 | a blank note, a missing URL (400) and a missing key (500) are refused in order before any call |
| NotesRoute.PostSave | app/api/notes/route.ts:123-161 | any type other than `analyze` answers 200 without a transcript or Gemini call, and posts the note without analysis |
| NotesRoute.PostAnalyze | app/api/notes/route.ts:36-120 | `analyze` answers 200 exactly when Gemini answers; `hasVideoContext` follows the transcript; the note is posted with its analysis |
| NotesRoute.ThrowLeavesNoTranscript | app/api/notes/route.ts:52-54 | a transcript call that throws leaves the transcript empty |
| NotesRoute.FetchFailureSwallowed | app/api/notes/route.ts:52-54 | a transcript call that throws is answered as one that returns no captions |
| SummaryHistory.TypeName | lib/models/SummaryHistory.ts:64 | every content type has a non-empty stored name |
| SummaryHistory.ParseType | lib/models/SummaryHistory.ts:62-67 | the enum check accepts exactly the four stored names |
| SummaryHistory.ParseTypeName | lib/models/SummaryHistory.ts:64 | each content type is accepted under its own name |
| SummaryHistory.Materialize | lib/models/SummaryHistory.ts:26-86 | a document is created exactly when its required fields are non-empty and its type is in the enum; it keeps every field and defaults `generatedAt` and the timestamps |
| UserModel.NextMonthStart | lib/models/User.ts:71-76 | the monthly reset is a valid first-of-the-month date after today |
| UserModel.NextMonthStartIsFirst | lib/models/User.ts:75 | no first-of-the-month lies between today and the reset |
| UserModel.NewUser | lib/models/User.ts:27-100 | a new user has the free plan, zero counters, the reset date, default preferences and both timestamps at creation |
| UserModel.Increment | app/api/history/route.ts:133-136 | `$inc` raises the chosen counter by one and leaves the other counters alone |
| Store.Select | app/api/history/route.ts:40 | `find(query)` keeps exactly the matching entries |
| Store.SelectAscending | app/api/history/route.ts:40 | selecting keeps creation order |
| Store.Reverse | app/api/history/route.ts:41 | reversal puts the element at i into position length−1−i |
| Store.NewestFirst | app/api/history/route.ts:40-41 | the sorted listing holds exactly the matching entries |
| Store.NewestFirstIsSorted | app/api/history/route.ts:41 | the listing is sorted newest first |
| Store.Window | app/api/history/route.ts:42-43 | `skip` then `limit` keeps a prefix of the rest, at most the limit's absolute value long; limit 0 keeps all |
| Store.WindowKeeps | app/api/history/route.ts:42-43 | a window of a newest-first listing is newest first and holds only its entries |
| Store.WindowOfPositive | app/api/history/route.ts:42-43 | with a positive limit the window is the slice from `skip`, at most `limit` long |
| Store.FirstOwned | app/api/history/route.ts:173-176 | the delete finds an entry exactly when one has that ID and owner |
| Store.Without | app/api/history/route.ts:173-176 | the owner-scoped delete keeps exactly the entries not owned with that ID |
| Store.WithoutNothingOwned | app/api/history/route.ts:178-180 | a delete that finds nothing changes nothing |
| Store.WithoutOrdered | app/api/history/route.ts:173-176 | the delete keeps the remaining entries in order |
| Store.WithoutStamped | app/api/history/route.ts:173-176 | the delete keeps every remaining entry valid and stamped |
| Store.WithoutRemovesOne | app/api/history/route.ts:173-176 | with distinct IDs a delete that finds its entry removes exactly one |
| Store.CountTypePositive | app/api/user/route.ts:195-204 | a type's count is positive exactly when the owner has an entry of it |
| Store.LastCreated | app/api/user/route.ts:201 | `$max` of `createdAt` is an upper bound attained by one of the owner's entries of that type |
| Store.StatsByType | app/api/user/route.ts:218-224 | `byType` has a key for a type exactly when the owner has entries of it, with their count and latest time |
| Store.StatsKeys | app/api/user/route.ts:218-224 | every key of `byType` is a stored content-type name |
| Store.AddType | app/api/user/route.ts:218-224 | one fold step records type t when the owner has entries of it and keeps every other key |
| Store.CountsAddUp | app/api/user/route.ts:206 | the per-type counts add up to the owner's total |
| Store.ApplyPatch | app/api/user/route.ts:137-141 | `$set` replaces exactly the schema fields the body names, the Clerk ID, email and usage included, keeps the rest and stamps `updatedAt` |
| Store.PatchCanBreakSave | app/api/user/route.ts:137-141 | a `$set` that empties the email or names a plan or theme outside its enum leaves a record that `save()` refuses |
| Store.ApplyPatchIdempotent | app/api/user/route.ts:137-141 | the same `$set` applied twice is the same as once, at the later time |
| Store.EmptyPatchStampsOnly | app/api/user/route.ts:137-141 | a `$set` that names no field changes only `updatedAt` |
| Store.ProfilePatchNoDuplicate | lib/models/User.ts:28-39 | a `$set` that leaves the Clerk ID and email alone never hits a unique index |
| Store.RekeyedValid | lib/models/User.ts:28-39 | replacing a record by one that duplicates no Clerk ID or email keeps users keyed by Clerk ID with distinct emails |
| Store.Database.constructor | lib/models/SummaryHistory.ts:26-86 | an empty store is valid |
| Store.Database.ValidOrdered | app/api/history/route.ts:41 | a valid store keeps entries in creation order with distinct IDs |
| Store.Database.Save | app/api/history/route.ts:107-126 | a save appends the validated, stamped document and advances the clock; a refused one changes nothing; the store stays valid |
| Store.Database.DeleteOwned | app/api/history/route.ts:173-176 | `findOneAndDelete` removes the owner's entry with that ID, exactly one when found, and keeps the store valid |
| Store.Database.FindUser | app/api/history/route.ts:96 | `findOne({clerkId})` finds exactly the stored user |
| Store.Database.CreateUser | app/api/user/route.ts:42-52 | a new user is saved exactly when its required fields are set, its plan and theme are in their enums, and its Clerk ID and email are free |
| Store.Database.Touch | app/api/user/route.ts:56-57 | a login's `save()` succeeds exactly when the stored record passes the schema's required and enum checks, and then stamps `lastLoginAt` and `updatedAt` and changes nothing else; a refused save writes nothing |
| Store.Database.IncrementUsage | app/api/history/route.ts:133-136 | the owner's counter for the type rises by one and the last login is refreshed |
| Store.Database.Update | app/api/user/route.ts:137-141 | a body that does not cast throws; no record gives nothing; a duplicate Clerk ID or email throws; otherwise the patched record replaces the old one under its new Clerk ID and is returned; only a success changes the users |
| HistoryRoute.ParamOr | app/api/history/route.ts:26-27 | `get(name) \|\| fallback` is the parameter exactly when it is truthy |
| HistoryRoute.LeadingDigits | app/api/history/route.ts:26-27 | `parseInt` reads the longest prefix of digits |
| HistoryRoute.LeadingHexDigits | app/api/history/route.ts:26-27 | after `0x`, `parseInt` reads the longest prefix of hexadecimal digits |
| HistoryRoute.ParseIntOfNatToString | app/api/history/route.ts:26-27 | `parseInt` reads back a number's decimal form, whatever non-digit follows, except an `x` or `X` after a lone `0` |
| HistoryRoute.ParseIntOfDigits | app/api/history/route.ts:26-27 | `parseInt` of a digit run followed by a non-digit is the run's value, unless the run is `0` and an `x` or `X` follows |
| HistoryRoute.ParseIntOfHex | app/api/history/route.ts:26-27 | after `0x` or `0X`, `parseInt` reads the hexadecimal run in base 16 and ignores what follows; no digits is NaN |
| HistoryRoute.ParseIntMinus | app/api/history/route.ts:26-27 | a leading `-` negates what `parseInt` reads, and NaN stays NaN |
| HistoryRoute.ParseIntPlus | app/api/history/route.ts:26-27 | a leading `+` does not change what `parseInt` reads |
| HistoryRoute.CeilDiv | app/api/history/route.ts:53 | `Math.ceil(total / limit)` is the least page count covering the total, for either sign of limit |
| HistoryRoute.QueryFor | app/api/history/route.ts:32-34 | the query is the caller's, plus each filter exactly when it is non-empty |
| HistoryRoute.Get | app/api/history/route.ts:15-63 | `GET` answers 401 exactly without a user, otherwise 200 with a listing or 500 |
| HistoryRoute.Listing | app/api/history/route.ts:37-55 | the listing succeeds exactly when the skip is not negative, and reports its page and limit |
| HistoryRoute.GetDefaults | app/api/history/route.ts:26-27 | without `page` and `limit` the first page of ten is listed |
| HistoryRoute.GetHexPage | app/api/history/route.ts:26-27 | a `page` such as `0x2` lists that page read in base 16 |
| HistoryRoute.GetBareHexLimit | app/api/history/route.ts:27 | a `limit` of `0x` alone is NaN and the listing fails |
| HistoryRoute.ListingScoped | app/api/history/route.ts:37-55 | a listing holds only matching entries, at most `limit`, newest first, and `total` counts every match |
| HistoryRoute.QueryScoped | app/api/history/route.ts:32-34 | every entry matching the query is the caller's and satisfies each non-empty filter |
| HistoryRoute.ListingPage | app/api/history/route.ts:42-43 | page p starts (p−1)·limit matches into the newest-first listing |
| HistoryRoute.UsageTypeFor | app/api/history/route.ts:129-131 | the counter chosen is the entry's type, and an unrecognised type counts as a chat message |
| HistoryRoute.Post | app/api/history/route.ts:66-152 | the checks run in order: no user 401, a missing field 400, no database 500, no user record 404, no video ID 400, a refused document (a type outside the enum, or an owner with an empty email) 500. A failed check changes nothing. A success appends the entry, then bumps the owner's counter for its type and stamps the owner's `lastLoginAt` and `updatedAt` one tick after the entry's creation, keeping every other field of the owner's record |
| HistoryRoute.CastId | app/api/history/route.ts:173-176 | an ID casts exactly when it is 24 hexadecimal digits, and then to their value, below 16^24 |
| HistoryRoute.CastIdOfHexText | app/api/history/route.ts:173-176 | every `_id` casts back from its 24-digit hexadecimal text |
| HistoryRoute.Delete | app/api/history/route.ts:155-193 | no user 401, no ID 400, database or cast failure 500; the caller's entry is removed and answers 200, otherwise 404 with nothing changed |
| HistoryRoute.DeleteKeepsOthers | app/api/history/route.ts:173-176 | a delete never removes another user's entry |
| UserRoute.FirstEmail | app/api/user/route.ts:44 | the first email address, or the empty string |
| UserRoute.BasicUser | app/api/user/route.ts:75-98 | the Clerk-only profile is on the free plan with zero counters and default preferences |
| UserRoute.Get | app/api/user/route.ts:7-120 | no user 401; an existing record that still passes the schema is refreshed and answered in database mode; a missing one is created from Clerk or 404; with no database, or when the save is refused (a record a `PUT` left invalid, a refused creation), a Clerk-only profile or 404 with nothing stored |
| UserRoute.Put | app/api/user/route.ts:123-171 | no user 401; no record 404; a database that is down, a body that does not cast or a duplicate Clerk ID or email, a queued success with no data and nothing stored; otherwise the patched record, stored under its Clerk ID |
| UserRoute.Post | app/api/user/route.ts:174-238 | 401 exactly without a user, 400 exactly for another action, 200 exactly with the database up and the record present |
| UserRoute.PostStatistics | app/api/user/route.ts:195-227 | the statistics cover only the caller's entries, keyed by each type used, and the counts add up to the total |
| UserInit.ErrorOr | hooks/use-user-initialization.ts:63 | `x.error \|\| fallback` is non-empty when the fallback is |
| UserInit.InitResult | hooks/use-user-initialization.ts:51-92 | the profile is accepted exactly for an ok answer whose body says `success` and carries `data`; a success without `data` clears the profile and throws |
| UserInit.InitOutcomeOf | hooks/use-user-initialization.ts:87-113 | a shown error is never an authentication or server error; a 500 is always quiet; a profile loads exactly when accepted; a success without `data` shows the read error unless it is silent |
| UserInit.UnauthorizedIsQuiet | hooks/use-user-initialization.ts:100-104 | a rejection naming `Unauthorized` is kept quiet whatever its status |
| UserInit.UserSession.constructor | hooks/use-user-initialization.ts:33-35 | the hook starts without a profile, not initializing and without an error |
| UserInit.UserSession.InitializeUser | hooks/use-user-initialization.ts:38-117 | a request is made exactly for a loaded, signed-in user; the profile and error follow the outcome, a success without `data` leaving no profile; a loaded profile makes the user ready |
| UserInit.UserSession.UpdateUserData | hooks/use-user-initialization.ts:122-152 | nothing is sent without a profile; a success replaces and returns it; a failure sets the error |
| UserInit.UserSession.GetUserStats | hooks/use-user-initialization.ts:154-183 | nothing is sent without a profile; a success returns the data; a failure sets the error; the profile never changes |
| UserInit.FailureMessage | hooks/use-user-initialization.ts:134-150 | an answer that is not ok leaves the fixed message |
| HistoryModal.Keep | components/history-modal.tsx:109-111 | `filter` keeps exactly the elements satisfying the predicate |
| HistoryModal.KeepInOrder | components/history-modal.tsx:109-111 | `filter` keeps the order of what it keeps |
| HistoryModal.KeepCounts | components/history-modal.tsx:109-111 | `filter` keeps every copy of a kept element and none of the others |
| HistoryModal.KeepEverything | components/history-modal.tsx:109-111 | a filter that keeps everything changes nothing |
| HistoryModal.FilteredIsByType | components/history-modal.tsx:109-111 | the filtered list is the items of that type, every copy, in order; under `all` it is the whole list |
| HistoryModal.WithoutRemovesId | components/history-modal.tsx:95 | deleting removes exactly the items with that ID and keeps the rest in order |
| HistoryModal.HistoryModal.constructor | components/history-modal.tsx:58-61 | the dialog starts empty, not loading, with filter `all` |
| HistoryModal.HistoryModal.QueryParams | components/history-modal.tsx:67-68 | a `type` parameter is sent exactly when a type is chosen |
| HistoryModal.HistoryModal.SetFilter | components/history-modal.tsx:61 | choosing a filter changes only the filter |
| HistoryModal.HistoryModal.FetchHistory | components/history-modal.tsx:64-83 | an ok answer replaces the list with its data or nothing; a failure keeps it; not loading afterwards |
| HistoryModal.HistoryModal.DeleteHistoryItem | components/history-modal.tsx:85-101 | an ok delete removes the item's ID from the list; a failure keeps it |
| NotesModal.NoteBodyParts | components/notes-modal.tsx:42 | the note ends with the content whole; a title adds six characters and opens it in bold |
| NotesModal.FailureText | components/notes-modal.tsx:49-51 | the toast shows the route's error, or the fallback |
| NotesModal.TrimGuardIsBlank | components/notes-modal.tsx:29 | the guard rejects exactly the blank content |
| NotesModal.NotesModal.constructor | components/notes-modal.tsx:22-26 | the dialog starts empty and idle |
| NotesModal.NotesModal.HandleSaveNote | components/notes-modal.tsx:28-70 | blank content sends nothing; an ok save reports the note and analysis, clears the form and closes; a failure keeps the form |
| NotesModal.NotesModal.HandleAnalyzeNote | components/notes-modal.tsx:72-107 | blank content sends nothing; an ok answer's analysis replaces the current one; the form is kept |
| Page.IndexOf | app/page.tsx:415 | `indexOf` finds an occurrence at or after the start position |
| Page.IndexOfLeftmost | app/page.tsx:415 | the occurrence found is the leftmost one, and nothing is found only when there is none |
| Page.IndexOfFinds | app/page.tsx:415-416 | the duration regex matches exactly when the text contains `PT` |
| Page.Component | app/page.tsx:415 | an optional `(\d+)X` group never moves backwards or past the end |
| Page.ClockChars | app/page.tsx:422-425 | the display holds only digits and colons |
| Page.FormatDurationKeepsIff | app/page.tsx:415-416 | a duration is displayed unchanged exactly when it holds no `PT` |
| Page.ReadoutHasNoP | app/page.tsx:418-425 | a formatted duration never contains `P` |
| Page.ReadField | app/page.tsx:415 | a present field is read with its value and skipped |
| Page.SkipField | app/page.tsx:415 | an absent field is skipped without reading anything |
| Page.ReadFields | app/page.tsx:415-420 | the hours, minutes and seconds are read back from their fields |
| Page.FormatDesignator | app/page.tsx:413-426 | the display of `PTnHnMnS` shows its hours, minutes and seconds, 0 for each absent part |
| Page.FormatShown | app/page.tsx:415-425 | a duration that opens with `PT` is shown as the components read after it |
| Page.ShownAs | app/page.tsx:413-426 | a designator is displayed as its clock |
| Page.FourThirteen | app/page.tsx:414 | `PT4M13S` is shown as `4:13` |
| Page.NinetySeconds | app/page.tsx:418-425 | `PT90S` is shown as `0:90`: the components are not normalised |
| Page.OneHour | app/page.tsx:422-423 | `PT1H2M3S` is shown as `1:02:03` |
| Page.GenerationGate | app/page.tsx:113-123 | generation proceeds only for a selected source with a URL |
| Page.NoTranscriptClassified | app/page.tsx:155 | the routes' no-transcript message gets the transcript advice |
| Page.NewSource | app/page.tsx:348-374 | the new source is numbered after the others, keeps the URL and thumbnail, and uses the placeholders unless the metadata call succeeded |
| Page.ExtractedUrlNamesHost | app/page.tsx:330 | a URL the page accepts names `youtube.com` or `youtu.be`, so it passes the generation handlers' host check |
| Page.Home.constructor | app/page.tsx:84-86 | the page starts with no sources and no selection |
| Page.Home.AddYouTubeSource | app/page.tsx:326-411 | without a URL or ID nothing changes; otherwise one source is appended and selected, the input cleared and the dialog closed, whatever the metadata call does |
| Page.AppendNumbered | app/page.tsx:365-376 | sources stay numbered from 1 in the order added, each with an accepted URL |
| Page.SelectedPassesGate | app/page.tsx:113-123 | the selection of a valid page always passes the generation gate |
| Speech.SpaceRun | app/api/audio-podcast/route.ts:76 | the leading white-space run is maximal |
| Speech.RunOf | app/api/audio-podcast/route.ts:72 | the leading run of one character is maximal |
| Speech.DigitRun | app/api/audio-podcast/route.ts:70 | the leading digit run is maximal |
| Speech.CloseAt | app/api/audio-podcast/route.ts:62-65 | the lazy `(.*?)` stops at an occurrence of the delimiter with no line terminator before it |
| Speech.LinkFrom | app/api/audio-podcast/route.ts:67 | a link match ends its label at `](` and itself at `)` |
| Speech.NewlinesRemoveNewlines | app/api/audio-podcast/route.ts:74 | the newline step leaves no newline and adds only spaces |
| Speech.CollapseKeeps | app/api/audio-podcast/route.ts:76 | collapsing adds only spaces |
| Speech.FilterKeeps | app/api/audio-podcast/route.ts:78 | the whitelist keeps only speakable characters of the input |
| Speech.SentencesKeep | app/api/audio-podcast/route.ts:80 | sentence spacing adds only spaces |
| Speech.SentencesHead | app/api/audio-podcast/route.ts:80 | sentence spacing keeps the first character |
| Speech.SentencesSpaced | app/api/audio-podcast/route.ts:80 | after sentence spacing no `.`, `!` or `?` is directly followed by a capital |
| Speech.TrimKeeps | app/api/audio-podcast/route.ts:81 | `trim` keeps only characters of its input |
| Speech.TrimSpaced | app/api/audio-podcast/route.ts:81 | `trim` creates no stop before a capital |
| Speech.ServerCleanShape | app/api/audio-podcast/route.ts:57-82 | the server's output is one line of speakable characters, with no stop before a capital and no white space at either end |
| Speech.ClientCleanShape | components/audio-podcast.tsx:98-110 | the client's output is one line with no white space at either end |
| Speech.PlainLayoutUnchanged | app/api/audio-podcast/route.ts:69-74 | plain prose passes the list and newline steps unchanged |
| Speech.PlainListsUnchanged | app/api/audio-podcast/route.ts:69-70 | plain prose passes the list steps unchanged |
| Speech.PlainLinesUnchanged | app/api/audio-podcast/route.ts:72-74 | plain prose passes the newline steps unchanged |
| Speech.PlainTailUnchanged | app/api/audio-podcast/route.ts:76-81 | plain prose passes the final steps unchanged |
| Speech.PlainUnchanged | app/api/audio-podcast/route.ts:57-82 | plain prose comes out of both cleaners unchanged |
| Speech.CloseAtFirst | app/api/audio-podcast/route.ts:62 | the closing delimiter found is the first one on the line |
| Speech.BoldUnwrapped | app/api/audio-podcast/route.ts:62 | a one-line `**x**` loses its asterisks |
| Speech.BoldIsRead | app/api/audio-podcast/route.ts:57-82 | both cleaners read a one-line `**x**` as `x` |
| Speech.LinkFromFirst | app/api/audio-podcast/route.ts:67 | the label found ends at the first `](` on the line |
| Speech.LinkFormattingUntouched | app/api/audio-podcast/route.ts:60-65 | a link without markup passes the header, bold, italic and code steps unchanged |
| Speech.WholeLinkRead | app/api/audio-podcast/route.ts:67 | a line that is one whole link is read as its label |
| Speech.LinkShapeRead | app/api/audio-podcast/route.ts:67 | `[t](u)` is read as `t` when neither part holds its closing bracket or a line break |
| Speech.LinkUnwrapped | app/api/audio-podcast/route.ts:67 | the link step reduces a one-line `[t](u)` to `t` |
| Speech.LinkIsRead | app/api/audio-podcast/route.ts:57-82 | both cleaners read a one-line link as its text |
| Speech.WordRun | app/api/audio-podcast/route.ts:86 | the leading word is maximal |
| Speech.SplitOnSpace | app/api/audio-podcast/route.ts:86 | `split(/\s+/)` gives at least one piece, none holding white space |
| Speech.WordCountIsRunsPlusOne | app/api/audio-podcast/route.ts:86 | the server counts one more word than there are white-space runs |
| Speech.SplitOnBlank | components/audio-podcast.tsx:173 | `split(' ')` gives at least one piece |
| Speech.BlankCount | components/audio-podcast.tsx:173 | the client counts one more word than there are spaces |
| AudioRoute.Round | app/api/audio-podcast/route.ts:91 | `Math.round` is within half of its argument |
| AudioRoute.RoundMonotone | app/api/audio-podcast/route.ts:91 | rounding is monotone |
| AudioRoute.WordCount | app/api/audio-podcast/route.ts:86 | the server's word count is at least one |
| AudioRoute.EstimateDuration | app/api/audio-podcast/route.ts:85-92 | the estimate is absent (an infinite quotient) exactly at speed 0 |
| AudioRoute.DurationTracksWords | app/api/audio-podcast/route.ts:85-92 | the estimate is within half a second of 0.4 s per word divided by the speed |
| AudioRoute.RoundedSeconds | app/api/audio-podcast/route.ts:88-91 | rounding n words' time stays within half a second of the exact time |
| AudioRoute.FasterIsShorter | app/api/audio-podcast/route.ts:85-92 | a faster speed never gives a longer estimate |
| AudioRoute.MoreWordsLonger | app/api/audio-podcast/route.ts:85-92 | more words never give a shorter estimate |
| AudioRoute.PostChecks | app/api/audio-podcast/route.ts:6-16 | 401 exactly without a user, then 400 exactly without content, and only errors otherwise |
| AudioRoute.PostSpeakable | app/api/audio-podcast/route.ts:19-44 | a prepared answer's text is one line of speakable characters, spaced, with no white space at either end |
| AudioRoute.PostPrepared | app/api/audio-podcast/route.ts:12-44 | the answer's lengths and estimate describe its text, and voice and speed fall back to their defaults |
| AudioRoute.PlainContentKept | app/api/audio-podcast/route.ts:19-44 | plain prose comes back as it was sent, with equal lengths |
| AudioRoute.CleanContentKept | app/api/audio-podcast/route.ts:19-44 | content the cleaner leaves alone comes back unchanged |
| Player.SpeedPositive | components/audio-podcast.tsx:378-383 | every speed the menu offers is positive |
| Player.ClientWords | components/audio-podcast.tsx:173 | the client's word count is the spaces plus one |
| Player.ClientDurationPerWord | components/audio-podcast.tsx:173-174 | the client's estimate is 0.4 s per word divided by the rate, and positive |
| Player.SecondsPart | components/audio-podcast.tsx:250 | `Math.floor(seconds % 60)` is below 60 and completes the whole minutes |
| Player.FormatTimeReadsBack | components/audio-podcast.tsx:248-252 | `formatTime` gives minutes, a colon and two digits below 60 that read back to the whole seconds |
| Player.PrepareContentForSpeech | components/audio-podcast.tsx:98-110 | the component's cleaner computes the client cleaning |
| Player.AudioPlayer.constructor | components/audio-podcast.tsx:38-53 | the player starts stopped, at volume 0.8, rate 1 and unmuted |
| Player.AudioPlayer.GenerateAudio | components/audio-podcast.tsx:112-186 | no content changes nothing; a missing voice only resets generating; otherwise the cleaned content is spoken at the current rate and volume |
| Player.AudioPlayer.Speak | components/audio-podcast.tsx:130-175 | the utterance speaks the text at the current rate and volume, and the duration is estimated from it |
| Player.AudioPlayer.OnStart | components/audio-podcast.tsx:144-153 | `start` makes the player play, unpaused |
| Player.AudioPlayer.OnEnd | components/audio-podcast.tsx:155-163 | `end` stops and rewinds the player |
| Player.AudioPlayer.OnError | components/audio-podcast.tsx:165-170 | `error` stops the player without rewinding |
| Player.AudioPlayer.TogglePlayPause | components/audio-podcast.tsx:188-209 | no utterance or idle generates, playing pauses, paused resumes |
| Player.AudioPlayer.StopAudio | components/audio-podcast.tsx:211-220 | stop rewinds and drops the utterance |
| Player.AudioPlayer.HandleVolumeChange | components/audio-podcast.tsx:222-226 | the volume is the slider's value, muted exactly at zero |
| Player.AudioPlayer.ToggleMute | components/audio-podcast.tsx:228-235 | muting sets the volume to 0, unmuting back to 0.8 |
| Player.AudioPlayer.HandleSpeedChange | components/audio-podcast.tsx:237-246 | the new rate is set; a playing player is stopped and regenerated |
| Player.AudioPlayer.SkipBack | components/audio-podcast.tsx:306 | ten seconds back, not before the start |
| Player.AudioPlayer.SkipForward | components/audio-podcast.tsx:339 | ten seconds forward, not past the estimated duration |
| Player.Max | components/audio-podcast.tsx:306 | `Math.max` is the larger argument |
| Player.Min | components/audio-podcast.tsx:339 | `Math.min` is the smaller argument |

## Left out

- Outside services are parameters: the reply of Clerk, MongoDB, the
  transcript provider, Gemini, the YouTube Data API and each `fetch`. Their
  latency, their failures beyond the modelled replies, and the JSON parsing
  of bodies are not modelled.
- Console logging, toasts other than their texts, chat messages added to the
  page, and React rendering are left out. They do not change the state the
  model tracks.
- Timers are left out: the 1000 ms and 2000 ms retry pauses are recorded
  rather than waited; the player's `currentTime` ticking interval and the
  500 ms delay of `handleSaveWithAnalysis` are not modelled.
- handleSaveWithAnalysis: not modelled. It is `handleAnalyzeNote` followed by
  `handleSaveNote` after a timer.
- The history dialog's `useEffect` refetch when it opens or the filter changes
  is left out. `SetFilter` and `FetchHistory` are separate calls.
- Player.AudioPlayer.HandleSpeedChange: the regeneration it schedules is
  reported as `restart` and not run. The source restarts from a stale closure
  after 100 ms; that timing is not modelled.
- The speech-synthesis engine is not modelled: its speaking, its events'
  timing and voice loading. `voiceFound` says whether the selected voice
  exists.
- Floating point becomes exact `real` arithmetic. `Math.round` is
  characterised by its half-up rounding.
- AudioRoute.EstimateDuration: at speed 0 the route divides by zero and the
  JSON answer carries `null`; the model returns `None` for it. A negative
  speed, which the player never sends, gives a negative estimate in both.
- Player.FormatTimeReadsBack: only non-negative times are modelled; the
  player never holds a negative time.
- Page.NewSource: `formatNumber` is a parameter. Its `toFixed(1)` rounding of
  binary floating point is not modelled.
- Strings are sequences of characters; JavaScript lengths count UTF-16 code
  units, so a surrogate pair counts one here and two in the application.
- HistoryRoute.ParseIntOfNatToString: `parseInt` is exact on unbounded
  integers; precision loss above 2^53 is not modelled.
- HistoryRoute.Get: a `page` or `limit` that `parseInt` reads as NaN is
  taken to make the query throw, answering 500; how the driver treats a NaN
  `skip` or `limit` is not modelled.
- HistoryRoute.CastId: only the 24-hexadecimal-digit form of an ObjectId is
  modelled; the 12-character raw-byte string that some BSON versions also
  accept is not.
- Store.ApplyPatch: a `usage` or `preferences` object in the body replaces
  the stored one whole. Mongoose's casting of a partial nested object, a
  `$set` of `_id`, `createdAt`, `updatedAt` or `lastLoginAt`, and dotted
  paths are not modelled. Fields outside the schema are dropped in strict
  mode, which the model treats as a patch that omits them.
- UserInit.InitResult: the text of the `TypeError` thrown by reading
  `result.data.email` of a missing `data` depends on the JavaScript engine,
  and is the parameter `readError`.
- MongoDB indexes, sorting ties and concurrent requests are left out. The
  `Database` object is one sequential store, with creation times from a
  logical clock.
- The diagnostic routes (`/api/test-transcript`, `/api/test-youtube-api`,
  `/api/test-gemini`, `/api/list-models`, `/api/health`) are not part of this
  model. Their `extractVideoId` is the same five-pattern function.
- The audio route's `GET` endpoint, the layout and the `content-viewer` and
  `user-profile` components are not part of this model.
- The mock route's date is a parameter standing for
  `new Date().toLocaleDateString()`.
- NotesModal.NotesModal.HandleAnalyzeNote: an ok answer without `analysis`
  leaves `undefined` in the source; the model takes the analysis as a string.
- `auth()` throwing is modelled only where the source catches it (the
  history saves of the generation, chat and notes routes). Elsewhere it
  reaches the route's 500 branch and is not modelled separately.

## Findings

| source | as written | input that shows it | evidently intended | confidence | as-written member | corrected member |
|---|---|---|---|---|---|---|
| app/api/youtube-enhanced/route.ts:235 | the final answer reads `userId`, which is declared only inside the history `try` block at line 182, so a `ReferenceError` sends every request that got this far to the 500 branch | any request with a valid URL, both keys, a found video, a usable transcript and a known type | answer 200 with the content, and `saved` true exactly when a user is signed in | not executed | EnhancedRoute.AsWrittenNeverSucceeds | EnhancedRoute.PostSuccess |
