/**
 * app/page.tsx: the main page. Modelled here are its pure helpers (the ISO
 * 8601 duration display, the YouTube URL gate of the two generation handlers,
 * the transcript-error classification) and the source list that
 * `addYouTubeSource` extends.
 *
 * The metadata call to the diagnostic route is a parameter (`MetadataReply`),
 * and so is `formatNumber`, whose `toFixed(1)` is floating point.
 */
module Page {
  import opened Wrappers
  import opened Text
  import opened Speech
  import opened VideoId
  import Transcript

  // ------------------------------------------------------------ formatDuration

  /** The leftmost index at or after `from` where `sub` occurs. */
  function IndexOf(s: string, sub: string, from: nat): (r: Option<nat>)
    decreases |s| + 1 - from
    ensures r.Some? ==> from <= r.value && OccursAt(s, sub, r.value)
  {
    if OccursAt(s, sub, from) then Some(from)
    else if from >= |s| then None
    else IndexOf(s, sub, from + 1)
  }

  /** The index found is the leftmost occurrence; none is found only where there is none. */
  lemma {:induction false} IndexOfLeftmost(s: string, sub: string, from: nat)
    decreases |s| + 1 - from
    ensures IndexOf(s, sub, from).Some? ==> forall j | from <= j < IndexOf(s, sub, from).value :: !OccursAt(s, sub, j)
    ensures IndexOf(s, sub, from).None? ==> forall j | from <= j :: !OccursAt(s, sub, j)
  {
    if !OccursAt(s, sub, from) && from < |s| {
      IndexOfLeftmost(s, sub, from + 1);
    }
  }

  lemma IndexOfFinds(s: string, sub: string)
    ensures IndexOf(s, sub, 0).Some? <==> Contains(s, sub)
  {
    IndexOfLeftmost(s, sub, 0);
    if Contains(s, sub) {
      var i :| 0 <= i <= |s| && OccursAt(s, sub, i);
    }
  }

  /**
   * `(?:(\d+)X)?` at `p`: the digits and the designator `x` when a digit run
   * followed by `x` starts there, with the position after it; otherwise
   * nothing and `p` again.
   */
  function Component(s: string, p: nat, x: char): (r: (Option<nat>, nat))
    requires p <= |s|
    ensures p <= r.1 <= |s|
  {
    var d := DigitRun(s[p..]);
    if d > 0 && p + d < |s| && s[p + d] == x then (Some(DigitsValue(s[p..p + d])), p + d + 1)
    else (None, p)
  }

  /** The display: `H:MM:SS` when there are hours, `M:SS` otherwise; padding never shortens. */
  function Clock(hours: nat, minutes: nat, seconds: nat): string {
    if hours > 0 then NatToString(hours) + ":" + PadTwo(minutes) + ":" + PadTwo(seconds)
    else NatToString(minutes) + ":" + PadTwo(seconds)
  }

  /**
   * `formatDuration`: the first `PT` and the hour, minute and second
   * components after it, each absent one counting as 0; a duration without
   * `PT` is returned as it is.
   */
  function FormatDuration(duration: string): string {
    var start := IndexOf(duration, "PT", 0);
    if start.None? then duration else Readout(duration, start.value + 2)
  }

  /** The hours, minutes and seconds read from `p` on, in that order, shown as a clock. */
  function Readout(duration: string, p: nat): string
    requires p <= |duration|
  {
    var c := Components(duration, p);
    Clock(c.0.GetOr(0), c.1.GetOr(0), c.2.GetOr(0))
  }

  /** The hours, minutes and seconds read from `p` on. */
  function Components(duration: string, p: nat): (Option<nat>, Option<nat>, Option<nat>)
    requires p <= |duration|
  {
    var hours := Component(duration, p, 'H');
    var rest := MinutesSeconds(duration, hours.1);
    (hours.0, rest.0, rest.1)
  }

  /** The minutes and then the seconds read from `p` on. */
  function MinutesSeconds(duration: string, p: nat): (Option<nat>, Option<nat>)
    requires p <= |duration|
  {
    var minutes := Component(duration, p, 'M');
    (minutes.0, Component(duration, minutes.1, 'S').0)
  }

  lemma ClockChars(hours: nat, minutes: nat, seconds: nat)
    ensures forall c | c in Clock(hours, minutes, seconds) :: IsDigit(c) || c == ':'
  {
    var h := NatToString(hours);
    var m := PadTwo(minutes);
    var s := PadTwo(seconds);
    assert forall c | c in h :: IsDigit(c);
    assert forall c | c in m :: IsDigit(c);
    assert forall c | c in s :: IsDigit(c);
  }

  /** A duration is displayed as it is exactly when it holds no `PT`. */
  lemma FormatDurationKeepsIff(duration: string)
    ensures FormatDuration(duration) == duration <==> !Contains(duration, "PT")
  {
    IndexOfFinds(duration, "PT");
    var start := IndexOf(duration, "PT", 0);
    if start.Some? {
      var i := start.value;
      FormatFrom(duration, i);
      ReadoutHasNoP(duration, i + 2);
      assert duration[i] == duration[i..i + 2][0] == 'P';
    }
  }

  lemma ReadoutHasNoP(duration: string, p: nat)
    requires p <= |duration|
    ensures 'P' !in Readout(duration, p)
  {
    var c := Components(duration, p);
    ClockChars(c.0.GetOr(0), c.1.GetOr(0), c.2.GetOr(0));
  }

  /** An ISO 8601 designator field: the number and its letter, or nothing. */
  function Field(v: Option<nat>, x: char): string {
    if v.Some? then NatToString(v.value) + [x] else ""
  }

  /** The time part of an ISO 8601 duration in designator form, `PTnHnMnS`, each part optional. */
  function Designator(hours: Option<nat>, minutes: Option<nat>, seconds: Option<nat>): string {
    "PT" + Field(hours, 'H') + Field(minutes, 'M') + Field(seconds, 'S')
  }

  lemma {:induction false} DigitRunOfDigits(a: string, rest: string)
    requires AllDigits(a) && (rest == [] || !IsDigit(rest[0]))
    ensures DigitRun(a + rest) == |a|
    decreases |a|
  {
    if a != [] {
      assert (a + rest)[1..] == a[1..] + rest;
      DigitRunOfDigits(a[1..], rest);
    }
  }

  /** A field that is present is read with its value and skipped. */
  lemma ReadField(s: string, p: nat, v: nat, x: char, rest: string)
    requires !IsDigit(x) && p <= |s| && s[p..] == NatToString(v) + [x] + rest
    ensures Component(s, p, x) == (Some(v), p + |NatToString(v)| + 1)
  {
    var n := NatToString(v);
    assert s[p..] == n + ([x] + rest);
    assert DigitRun(s[p..]) == |n| by {
      DigitRunOfDigits(n, [x] + rest);
    }
    assert s[p..p + |n|] == n by {
      assert s[p..][..|n|] == n;
    }
    assert s[p + |n|] == x by {
      assert s[p..][|n|] == x;
    }
    assert DigitsValue(s[p..p + |n|]) == v by {
      DigitsValueOfNatToString(v);
    }
  }

  /** Where the field for `x` is absent, and the text goes on with another field or ends, nothing is read. */
  lemma SkipField(s: string, p: nat, x: char, next: Option<nat>, y: char, rest: string)
    requires !IsDigit(y) && y != x && p <= |s| && s[p..] == Field(next, y) + rest
    requires next.None? ==> rest == []
    ensures Component(s, p, x) == (None, p)
  {
    if next.Some? {
      var n := NatToString(next.value);
      DigitRunOfDigits(n, [y] + rest);
      assert s[p..] == n + ([y] + rest);
      assert s[p + |n|] == s[p..][|n|] == y;
    } else {
      assert s[p..] == [];
    }
  }

  /** The three components read from `p` on, where the fields are laid out. */
  lemma ReadFields(d: string, p: nat, hours: Option<nat>, minutes: Option<nat>, seconds: Option<nat>)
    requires p <= |d| && d[p..] == Field(hours, 'H') + Field(minutes, 'M') + Field(seconds, 'S')
    ensures Components(d, p) == (hours, minutes, seconds)
  {
    var fh, fm, fs := Field(hours, 'H'), Field(minutes, 'M'), Field(seconds, 'S');
    var q := p + |fh|;
    assert d[p..] == fh + (fm + fs);
    assert Component(d, p, 'H') == (hours, q) by {
      ReadHours(d, p, hours, minutes, seconds);
    }
    assert q <= |d| && MinutesSeconds(d, q) == (minutes, seconds) by {
      DropLaid(d, p, fh, fm + fs);
      ReadMinutesSeconds(d, q, minutes, seconds);
    }
    Assemble(d, p, q, hours, minutes, seconds);
  }

  lemma Assemble(d: string, p: nat, q: nat, hours: Option<nat>, minutes: Option<nat>, seconds: Option<nat>)
    requires p <= q <= |d|
    requires Component(d, p, 'H') == (hours, q) && MinutesSeconds(d, q) == (minutes, seconds)
    ensures Components(d, p) == (hours, minutes, seconds)
  {
  }

  /** The hours field is read, or its absence seen before a minutes or seconds field or the end. */
  lemma ReadHours(d: string, p: nat, hours: Option<nat>, minutes: Option<nat>, seconds: Option<nat>)
    requires p <= |d| && d[p..] == Field(hours, 'H') + (Field(minutes, 'M') + Field(seconds, 'S'))
    ensures Component(d, p, 'H') == (hours, p + |Field(hours, 'H')|)
  {
    var fm, fs := Field(minutes, 'M'), Field(seconds, 'S');
    if hours.Some? {
      ReadField(d, p, hours.value, 'H', fm + fs);
    } else if minutes.Some? {
      SkipField(d, p, 'H', minutes, 'M', fs);
    } else {
      SkipField(d, p, 'H', seconds, 'S', []);
    }
  }

  /** What is laid out after a prefix `a` of the text at `p` starts at `p + |a|`. */
  lemma DropLaid(d: string, p: nat, a: string, b: string)
    requires p <= |d| && d[p..] == a + b
    ensures p + |a| <= |d| && d[p + |a|..] == b
  {
    assert d[p + |a|..] == d[p..][|a|..];
  }

  lemma ReadMinutesSeconds(d: string, p: nat, minutes: Option<nat>, seconds: Option<nat>)
    requires p <= |d| && d[p..] == Field(minutes, 'M') + Field(seconds, 'S')
    ensures MinutesSeconds(d, p) == (minutes, seconds)
  {
    var fm, fs := Field(minutes, 'M'), Field(seconds, 'S');
    var q := p + |fm|;
    assert Component(d, p, 'M') == (minutes, q) by {
      ReadMinutes(d, p, minutes, seconds);
    }
    assert q <= |d| && Component(d, q, 'S').0 == seconds by {
      DropLaid(d, p, fm, fs);
      ReadSeconds(d, q, seconds);
    }
    MinutesThenSeconds(d, p, q, minutes, seconds);
  }

  /** `MinutesSeconds` reads the seconds where the minutes field ends. */
  lemma MinutesThenSeconds(d: string, p: nat, q: nat, minutes: Option<nat>, seconds: Option<nat>)
    requires p <= q <= |d|
    requires Component(d, p, 'M') == (minutes, q) && Component(d, q, 'S').0 == seconds
    ensures MinutesSeconds(d, p) == (minutes, seconds)
  {
  }

  /** The minutes field is read, or its absence seen before a seconds field or the end. */
  lemma ReadMinutes(d: string, p: nat, minutes: Option<nat>, seconds: Option<nat>)
    requires p <= |d| && d[p..] == Field(minutes, 'M') + Field(seconds, 'S')
    ensures Component(d, p, 'M') == (minutes, p + |Field(minutes, 'M')|)
  {
    if minutes.Some? {
      ReadField(d, p, minutes.value, 'M', Field(seconds, 'S'));
    } else {
      SkipField(d, p, 'M', seconds, 'S', []);
    }
  }

  /** The seconds field, the last one, is read, or its absence seen at the end. */
  lemma ReadSeconds(d: string, p: nat, seconds: Option<nat>)
    requires p <= |d| && d[p..] == Field(seconds, 'S')
    ensures Component(d, p, 'S').0 == seconds
  {
    if seconds.Some? {
      ReadField(d, p, seconds.value, 'S', []);
    } else {
      assert d[p..] == [];
    }
  }

  /**
   * The display of a designator duration shows its hours, minutes and
   * seconds, 0 for each absent part.
   */
  lemma FormatDesignator(hours: Option<nat>, minutes: Option<nat>, seconds: Option<nat>)
    ensures FormatDuration(Designator(hours, minutes, seconds))
         == Clock(hours.GetOr(0), minutes.GetOr(0), seconds.GetOr(0))
  {
    DesignatorReads(hours, minutes, seconds);
    FormatShown(Designator(hours, minutes, seconds), hours, minutes, seconds);
  }

  /** A duration whose `PT` opens it is shown as the components read after it. */
  lemma FormatShown(d: string, hours: Option<nat>, minutes: Option<nat>, seconds: Option<nat>)
    requires IndexOf(d, "PT", 0) == Some(0) && 2 <= |d| && Components(d, 2) == (hours, minutes, seconds)
    ensures FormatDuration(d) == Clock(hours.GetOr(0), minutes.GetOr(0), seconds.GetOr(0))
  {
    FormatFrom(d, 0);
    ReadoutOf(d, hours, minutes, seconds);
  }

  lemma DesignatorReads(hours: Option<nat>, minutes: Option<nat>, seconds: Option<nat>)
    ensures var d := Designator(hours, minutes, seconds);
      && IndexOf(d, "PT", 0) == Some(0) && 2 <= |d|
      && Components(d, 2) == (hours, minutes, seconds)
  {
    var rest := Field(hours, 'H') + Field(minutes, 'M') + Field(seconds, 'S');
    assert Designator(hours, minutes, seconds) == "PT" + rest;
    LaidOut(Designator(hours, minutes, seconds), rest, hours, minutes, seconds);
  }

  lemma LaidOut(d: string, rest: string, hours: Option<nat>, minutes: Option<nat>, seconds: Option<nat>)
    requires rest == Field(hours, 'H') + Field(minutes, 'M') + Field(seconds, 'S') && d == "PT" + rest
    ensures IndexOf(d, "PT", 0) == Some(0) && 2 <= |d|
    ensures Components(d, 2) == (hours, minutes, seconds)
  {
    DesignatorStarts(d, rest);
    ReadFields(d, 2, hours, minutes, seconds);
  }

  lemma DesignatorStarts(d: string, rest: string)
    requires d == "PT" + rest
    ensures IndexOf(d, "PT", 0) == Some(0) && d[2..] == rest
  {
    assert d[..2] == "PT";
  }

  /** Where `PT` is first found at `i`, the display is what is read after it. */
  lemma FormatFrom(d: string, i: nat)
    requires IndexOf(d, "PT", 0) == Some(i) && i + 2 <= |d|
    ensures FormatDuration(d) == Readout(d, i + 2)
  {
    assert IndexOf(d, "PT", 0).value + 2 == i + 2;
  }

  lemma ReadoutOf(d: string, hours: Option<nat>, minutes: Option<nat>, seconds: Option<nat>)
    requires 2 <= |d|
    requires Components(d, 2) == (hours, minutes, seconds)
    ensures Readout(d, 2) == Clock(hours.GetOr(0), minutes.GetOr(0), seconds.GetOr(0))
  {
  }

  lemma ShownAs(d: string, hours: Option<nat>, minutes: Option<nat>, seconds: Option<nat>, shown: string)
    requires Designator(hours, minutes, seconds) == d
    requires Clock(hours.GetOr(0), minutes.GetOr(0), seconds.GetOr(0)) == shown
    ensures FormatDuration(d) == shown
  {
    FormatDesignator(hours, minutes, seconds);
  }

  /** `PT4M13S` is shown as `4:13`. */
  lemma FourThirteen()
    ensures FormatDuration("PT4M13S") == "4:13"
  {
    assert NatToString(13) == "13" && PadTwo(13) == "13" && NatToString(4) == "4";
    assert Designator(None, Some(4), Some(13)) == "PT4M13S";
    ShownAs("PT4M13S", None, Some(4), Some(13), "4:13");
  }

  /** `PT90S` is shown as `0:90`: the components are not normalised. */
  lemma NinetySeconds()
    ensures FormatDuration("PT90S") == "0:90"
  {
    assert NatToString(90) == "90" && PadTwo(90) == "90" && NatToString(0) == "0";
    assert Designator(None, None, Some(90)) == "PT90S";
    ShownAs("PT90S", None, None, Some(90), "0:90");
  }

  /** `PT1H2M3S` is shown as `1:02:03`. */
  lemma OneHour()
    ensures FormatDuration("PT1H2M3S") == "1:02:03"
  {
    assert NatToString(1) == "1" && PadTwo(2) == "02" && PadTwo(3) == "03";
    assert Designator(Some(1), Some(2), Some(3)) == "PT1H2M3S";
    ShownAs("PT1H2M3S", Some(1), Some(2), Some(3), "1:02:03");
  }

  // ------------------------------------------------------------ gates

  /** A source in the sidebar. */
  datatype Source = Source(id: nat, title: string, kind: string, url: string, duration: string,
                           thumbnail: string, views: string, likes: string)

  /** What the generation handlers do before generating. */
  datatype Gate =
    | NoVideo     // no source selected, or one without a URL
    | NotYouTube  // the URL mentions neither host
    | Proceed

  /** The check that `handleGenerateContent` and `handleGenerateAudioPodcast` make first. */
  function GenerationGate(selected: Option<Source>): (g: Gate)
    ensures g == Proceed ==> selected.Some? && selected.value.url != ""
  {
    if selected.None? || selected.value.url == "" then NoVideo
    else if !Contains(selected.value.url, "youtube.com") && !Contains(selected.value.url, "youtu.be") then NotYouTube
    else Proceed
  }

  /** `error.includes('transcript') || error.includes('captions')`: which advice the error message gets. */
  predicate IsTranscriptError(error: string) {
    Contains(error, "transcript") || Contains(error, "captions")
  }

  /** The generation routes' message for a video without a usable transcript gets the transcript advice. */
  lemma NoTranscriptClassified()
    ensures IsTranscriptError(Transcript.NoTranscript)
  {
    ContainsMiddle("Could not fetch video ", "transcript",
                   ". Please ensure the video has captions/subtitles available and is publicly accessible.");
  }

  // ------------------------------------------------------------ addYouTubeSource

  /** The JSON the metadata route answers with. */
  datatype VideoData = VideoData(success: bool, title: string, duration: string, viewCount: string,
                                 likeCount: string, channelTitle: string)

  /** The metadata call: an answer, ok or not, or a throw anywhere in the `try` block. */
  datatype MetadataReply = Answered(ok: bool, data: VideoData) | Threw

  function Placeholder(id: string): string { "YouTube Video (" + id + ")" }

  function Thumbnail(id: string): string { "https://img.youtube.com/vi/" + id + "/mqdefault.jpg" }

  /**
   * The source `addYouTubeSource` appends: the metadata when the call answered
   * ok with `success`, the placeholders otherwise.
   */
  function NewSource(n: nat, url: string, id: string, reply: MetadataReply, formatNumber: string -> string)
    : (s: Source)
    ensures s.id == n + 1 && s.url == url && s.kind == "youtube" && s.thumbnail == Thumbnail(id)
    ensures !(reply.Answered? && reply.ok && reply.data.success) ==>
      s.title == Placeholder(id) && s.duration == "Unknown" && s.views == "Unknown" && s.likes == "Unknown"
  {
    if reply.Answered? && reply.ok && reply.data.success then
      var d := reply.data;
      Source(n + 1, d.title, "youtube", url, FormatDuration(d.duration), Thumbnail(id), formatNumber(d.viewCount),
             formatNumber(d.likeCount))
    else
      Source(n + 1, Placeholder(id), "youtube", url, "Unknown", Thumbnail(id), "Unknown", "Unknown")
  }

  /** A URL the single-regex extractor accepts names one of the two hosts. */
  lemma ExtractedUrlNamesHost(url: string)
    requires ExtractSingle(url).Some?
    ensures Contains(url, "youtube.com") || Contains(url, "youtu.be")
  {
    var i := Leftmost(Single, url, 0).value;
    assert SingleAt(url, i).Some?;
    if OccursAt(url, Host, i) {
      assert url[i..i + 11] == url[i..i + |Host|][..11];
      assert OccursAt(url, "youtube.com", i);
    } else {
      assert OccursAt(url, ShortHost, i);
      assert url[i..i + 8] == url[i..i + |ShortHost|][..8];
      assert OccursAt(url, "youtu.be", i);
    }
  }

  /** The page's sources, the selection and the URL input. */
  class Home {
    var sources: seq<Source>
    var selectedSource: Option<Source>
    var videoUrl: string
    var isUploadModalOpen: bool

    /**
     * Sources are numbered from 1 in the order they were added, each has a URL
     * the extractor accepts, and the selection is one of them.
     */
    predicate Valid()
      reads this
    {
      && Numbered(sources)
      && (selectedSource.Some? ==> selectedSource.value in sources)
    }

    constructor()
      ensures Valid() && sources == [] && selectedSource == None && videoUrl == "" && !isUploadModalOpen
    {
      sources := [];
      selectedSource := None;
      videoUrl := "";
      isUploadModalOpen := false;
    }

    /**
     * `addYouTubeSource`: nothing without a URL or a video ID in it; otherwise
     * one source is appended and selected, the input is cleared and the dialog
     * closed, whether or not the metadata call works.
     */
    method AddYouTubeSource(reply: MetadataReply, formatNumber: string -> string)
      requires Valid()
      modifies this
      ensures Valid()
      ensures old(videoUrl) == "" || ExtractSingle(old(videoUrl)).None? ==> unchanged(this)
      ensures old(videoUrl) != "" && ExtractSingle(old(videoUrl)).Some? ==>
        && sources == old(sources)
                      + [NewSource(|old(sources)|, old(videoUrl), ExtractSingle(old(videoUrl)).value, reply, formatNumber)]
        && selectedSource == Some(sources[|sources| - 1])
        && videoUrl == "" && !isUploadModalOpen
    {
      if videoUrl == "" {
        return;
      }
      var videoId := ExtractSingle(videoUrl);
      if videoId.None? {
        return;
      }
      var source := NewSource(|sources|, videoUrl, videoId.value, reply, formatNumber);
      AppendNumbered(sources, source);
      sources := sources + [source];
      selectedSource := Some(source);
      videoUrl := "";
      isUploadModalOpen := false;
    }
  }

  /** Sources are numbered from 1 in the order they were added, and each URL has a video ID. */
  predicate Numbered(sources: seq<Source>) {
    forall i | 0 <= i < |sources| :: sources[i].id == i + 1 && ExtractSingle(sources[i].url).Some?
  }

  lemma AppendNumbered(sources: seq<Source>, s: Source)
    requires Numbered(sources) && s.id == |sources| + 1 && ExtractSingle(s.url).Some?
    ensures Numbered(sources + [s])
  {
    var r := sources + [s];
    forall i | 0 <= i < |r| ensures r[i].id == i + 1 && ExtractSingle(r[i].url).Some? {
      if i < |sources| { assert r[i] == sources[i]; }
    }
  }

  /** The selection of a valid page always passes the generation gate. */
  lemma SelectedPassesGate(home: Home)
    requires home.Valid() && home.selectedSource.Some?
    ensures GenerationGate(home.selectedSource) == Proceed
  {
    var s := home.selectedSource.value;
    var i :| 0 <= i < |home.sources| && home.sources[i] == s;
    ExtractedUrlNamesHost(s.url);
    assert s.url != "" by {
      var id := ExtractSingle(s.url).value;
      assert |id| == IdLength;
    }
  }
}
