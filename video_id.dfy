/**
 * The two video-ID extractors of the application.
 *
 * `ExtractFive` is `extractVideoId` of the generation and diagnostic routes: five
 * regular expressions tried in order, the first that matches anywhere wins.
 * `ExtractSingle` is `extractVideoId` of the history, chat and notes routes (and
 * the URL check of the page): one regular expression with an alternation.
 *
 * A regular expression is modelled by what `String.prototype.match` does with
 * it: the leftmost start index at which the pattern can match, and at that
 * index the first way to match in backtracking order (greedy runs tried from
 * longest to shortest, alternatives from left to right).
 */
module VideoId {
  import opened Wrappers
  import opened Text

  const IdLength: nat := 11

  /** `[a-zA-Z0-9_-]`, the ID characters of the five-pattern extractor. */
  predicate IsIdChar(c: char) { IsWordChar(c) || c == '-' }

  /** `[^"&?\/\s]`, the ID characters of the single-regex extractor. */
  predicate IsLooseIdChar(c: char) { c != '"' && c != '&' && c != '?' && c != '/' && !IsSpace(c) }

  datatype IdClass = Strict | Loose

  predicate InClass(c: char, cls: IdClass) {
    match cls
    case Strict => IsIdChar(c)
    case Loose => IsLooseIdChar(c)
  }

  /** Eleven characters of class `cls` start at index `k`. */
  predicate IdAt(s: string, k: int, cls: IdClass) {
    0 <= k && k + IdLength <= |s| && forall j | k <= j < k + IdLength :: InClass(s[j], cls)
  }

  /** What a successful extraction returns: eleven characters of the class, taken from `s`. */
  predicate IsCapture(s: string, id: string, cls: IdClass) {
    && |id| == IdLength
    && (forall k | 0 <= k < |id| :: InClass(id[k], cls))
    && exists k | 0 <= k <= |s| :: OccursAt(s, id, k)
  }

  /** The capture group `(...{11})` at index `k`. */
  function IdAfter(s: string, k: int, cls: IdClass): (r: Option<string>)
    ensures r.Some? <==> IdAt(s, k, cls)
    ensures r.Some? ==> r.value == s[k..k + IdLength] && IsCapture(s, r.value, cls)
  {
    if IdAt(s, k, cls) then
      var id := s[k..k + IdLength];
      assert OccursAt(s, id, k);
      Some(id)
    else None
  }

  /** The end of the longest `.*` run from `p`: the first line terminator at or after `p`, or `|s|`. */
  function LineEnd(s: string, p: nat): (e: nat)
    requires p <= |s|
    decreases |s| - p
    ensures p <= e <= |s|
    ensures forall k | p <= k < e :: !IsLineTerminator(s[k])
    ensures e < |s| ==> IsLineTerminator(s[e])
  {
    if p == |s| || IsLineTerminator(s[p]) then p else LineEnd(s, p + 1)
  }

  /** What must follow a greedy run: `[?&]v=` then an ID, or `\/` then an ID. */
  datatype Tail = VParam(cls: IdClass) | SlashId

  function TailLength(t: Tail): nat {
    match t
    case VParam(_) => 3
    case SlashId => 1
  }

  function TailClass(t: Tail): IdClass {
    match t
    case VParam(cls) => cls
    case SlashId => Loose
  }

  predicate TailAt(s: string, j: int, t: Tail) {
    && 0 <= j && j + TailLength(t) <= |s|
    && (match t
        case VParam(_) => (s[j] == '?' || s[j] == '&') && s[j + 1] == 'v' && s[j + 2] == '='
        case SlashId => s[j] == '/')
    && IdAt(s, j + TailLength(t), TailClass(t))
  }

  /**
   * Backtracking out of a greedy run: the largest `j` in `[lo, hi]` at which the
   * tail matches, trying `hi` first.
   */
  function LastTail(s: string, lo: nat, hi: nat, t: Tail): (r: Option<nat>)
    requires lo <= hi
    decreases hi
    ensures r.Some? ==> lo <= r.value <= hi && TailAt(s, r.value, t)
    ensures r.Some? ==> forall j | r.value < j <= hi :: !TailAt(s, j, t)
    ensures r.None? ==> forall j | lo <= j <= hi :: !TailAt(s, j, t)
  {
    if TailAt(s, hi, t) then Some(hi)
    else if hi == lo then None
    else LastTail(s, lo, hi - 1, t)
  }

  /** A greedy `.*` from `p` followed by the tail and its ID. */
  function AfterRun(s: string, p: nat, t: Tail): (r: Option<string>)
    requires p <= |s|
    ensures r.Some? ==> IsCapture(s, r.value, TailClass(t))
  {
    var j := LastTail(s, p, LineEnd(s, p), t);
    if j.Some? then IdAfter(s, j.value + TailLength(t), TailClass(t)) else None
  }

  // ---------------------------------------------------------------------------
  // The five-pattern extractor

  /** The five patterns, in the order the extractor tries them. */
  datatype Pattern = Watch | Embed | Short | LegacyV | QueryV

  const Patterns: seq<Pattern> := [Watch, Embed, Short, LegacyV, QueryV]

  const Host: string := "youtube.com/"
  const ShortHost: string := "youtu.be/"

  /** The literal each pattern starts with (`QueryV` continues with `.*[?&]v=`). */
  function Literal(p: Pattern): (lit: string)
    ensures |lit| > 0 && lit[0] == 'y'
  {
    match p
    case Watch => "youtube.com/watch?v="
    case Embed => "youtube.com/embed/"
    case Short => ShortHost
    case LegacyV => "youtube.com/v/"
    case QueryV => Host
  }

  /** A matcher: one of the five patterns, or the single alternation regex. */
  datatype Matcher = Five(p: Pattern) | Single

  function ClassOf(m: Matcher): IdClass {
    match m
    case Five(_) => Strict
    case Single => Loose
  }

  /** Pattern `p` anchored at index `i`. */
  function FiveAt(p: Pattern, s: string, i: nat): (r: Option<string>)
    ensures r.Some? ==> IsCapture(s, r.value, Strict)
    ensures r.Some? ==> i < |s| && s[i] == 'y'
  {
    var lit := Literal(p);
    if !OccursAt(s, lit, i) then None
    else
      assert s[i] == s[i..i + |lit|][0];
      if p == QueryV then AfterRun(s, i + |lit|, VParam(Strict))
      else IdAfter(s, i + |lit|, Strict)
  }

  // ---------------------------------------------------------------------------
  // The single alternation regex
  //   (?:youtube\.com\/(?:[^\/]+\/.+\/|(?:v|e(?:mbed)?)\/|.*[?&]v=)|youtu\.be\/)([^"&?\/\s]{11})

  /** The first `/` at or after `p`. */
  function FirstSlash(s: string, p: nat): (r: Option<nat>)
    requires p <= |s|
    decreases |s| - p
    ensures r.Some? ==> p <= r.value < |s| && s[r.value] == '/'
    ensures r.Some? ==> forall k | p <= k < r.value :: s[k] != '/'
    ensures r.None? ==> forall k | p <= k < |s| :: s[k] != '/'
  {
    if p == |s| then None else if s[p] == '/' then Some(p) else FirstSlash(s, p + 1)
  }

  /** `[^\/]+\/.+\/` at `p`: a non-empty segment, a slash, a greedy `.+`, a slash. */
  function PathAt(s: string, p: nat): (r: Option<string>)
    requires p <= |s|
    ensures r.Some? ==> IsCapture(s, r.value, Loose)
  {
    match FirstSlash(s, p)
    case None => None
    case Some(q) =>
      var hi := LineEnd(s, q + 1);
      if q == p || hi < q + 2 then None
      else
        var m := LastTail(s, q + 2, hi, SlashId);
        if m.Some? then IdAfter(s, m.value + 1, Loose) else None
  }

  /** `(?:v|e(?:mbed)?)\/` at `p`, each way tried in order with the capture after it. */
  function ShortPathAt(s: string, p: nat): (r: Option<string>)
    ensures r.Some? ==> IsCapture(s, r.value, Loose)
  {
    var v := if OccursAt(s, "v/", p) then IdAfter(s, p + 2, Loose) else None;
    if v.Some? then v
    else
      var embed := if OccursAt(s, "embed/", p) then IdAfter(s, p + 6, Loose) else None;
      if embed.Some? then embed
      else if OccursAt(s, "e/", p) then IdAfter(s, p + 2, Loose) else None
  }

  /** The three alternatives after `youtube\.com\/`, in order. */
  function HostAlternatives(s: string, p: nat): (r: Option<string>)
    requires p <= |s|
    ensures r.Some? ==> IsCapture(s, r.value, Loose)
  {
    var path := PathAt(s, p);
    if path.Some? then path
    else
      var short := ShortPathAt(s, p);
      if short.Some? then short else AfterRun(s, p, VParam(Loose))
  }

  /** The single regex anchored at index `i`. */
  function SingleAt(s: string, i: nat): (r: Option<string>)
    ensures r.Some? ==> IsCapture(s, r.value, Loose)
    ensures r.Some? ==> i < |s| && s[i] == 'y'
  {
    var host := if OccursAt(s, Host, i) then HostAlternatives(s, i + |Host|) else None;
    if host.Some? then
      assert s[i] == s[i..i + |Host|][0];
      host
    else if OccursAt(s, ShortHost, i) then
      assert s[i] == s[i..i + |ShortHost|][0];
      IdAfter(s, i + |ShortHost|, Loose)
    else None
  }

  // ---------------------------------------------------------------------------
  // `String.prototype.match`: the leftmost start index

  function MatchAt(m: Matcher, s: string, i: nat): (r: Option<string>)
    ensures r.Some? ==> IsCapture(s, r.value, ClassOf(m))
    ensures r.Some? ==> i < |s| && s[i] == 'y'
  {
    match m
    case Five(p) => FiveAt(p, s, i)
    case Single => SingleAt(s, i)
  }

  /** The leftmost index in `[i, |s|]` at which `m` matches. */
  function Leftmost(m: Matcher, s: string, i: nat): (r: Option<nat>)
    requires i <= |s|
    decreases |s| - i
    ensures r.Some? ==> i <= r.value <= |s| && MatchAt(m, s, r.value).Some?
    ensures r.Some? ==> forall j | i <= j < r.value :: MatchAt(m, s, j).None?
    ensures r.None? ==> forall j | i <= j <= |s| :: MatchAt(m, s, j).None?
  {
    if MatchAt(m, s, i).Some? then Some(i)
    else if i == |s| then None
    else Leftmost(m, s, i + 1)
  }

  /** `s.match(regex)?.[1]`: the capture of the leftmost match, or null. */
  function Match(m: Matcher, s: string): (r: Option<string>)
    ensures r.Some? ==> IsCapture(s, r.value, ClassOf(m))
  {
    match Leftmost(m, s, 0)
    case Some(k) => MatchAt(m, s, k)
    case None => None
  }

  /** The loop over the pattern list: the first pattern that matches decides. */
  function FirstOf(ps: seq<Pattern>, s: string): (r: Option<string>)
    ensures r.Some? ==> IsCapture(s, r.value, Strict)
  {
    if ps == [] then None
    else
      var hit := Match(Five(ps[0]), s);
      if hit.Some? then hit else FirstOf(ps[1..], s)
  }

  /** `extractVideoId` of app/api/youtube/route.ts and its four copies. */
  function ExtractFive(url: string): (r: Option<string>)
    ensures r.Some? ==> IsCapture(url, r.value, Strict)
  {
    FirstOf(Patterns, url)
  }

  /** `extractVideoId` of app/api/history/route.ts, chat and notes, and the page's URL check. */
  function ExtractSingle(url: string): (r: Option<string>)
    ensures r.Some? ==> IsCapture(url, r.value, Loose)
  {
    Match(Single, url)
  }

  /** The `for (const pattern of patterns)` loop, returning from inside it on the first match. */
  method ExtractVideoId(url: string) returns (r: Option<string>)
    ensures r == ExtractFive(url)
  {
    var n := 0;
    while n < |Patterns|
      invariant 0 <= n <= |Patterns|
      invariant ExtractFive(url) == FirstOf(Patterns[n..], url)
    {
      var hit := Match(Five(Patterns[n]), url);
      if hit.Some? {
        return hit;
      }
      assert Patterns[n..][1..] == Patterns[n + 1..];
      n := n + 1;
    }
    return None;
  }

  // ---------------------------------------------------------------------------
  // Properties

  /** The leftmost match is decided by the first candidate index: every match starts at a `y`. */
  lemma MatchFromCandidate(m: Matcher, s: string, i: nat)
    requires i <= |s|
    requires forall j | 0 <= j < i :: s[j] != 'y'
    ensures MatchAt(m, s, i).Some? ==> Match(m, s) == MatchAt(m, s, i)
    ensures (forall j | i < j < |s| :: s[j] != 'y') ==> Match(m, s) == MatchAt(m, s, i)
  {
    var r := Leftmost(m, s, 0);
    if r.Some? {
      assert r.value >= i;
      if MatchAt(m, s, i).Some? {
        assert r.value == i;
      }
    }
  }

  /** The pattern list yields nothing when no pattern matches. */
  lemma {:induction false} FirstOfNone(ps: seq<Pattern>, s: string)
    requires forall n | 0 <= n < |ps| :: Match(Five(ps[n]), s).None?
    ensures FirstOf(ps, s).None?
    decreases |ps|
  {
    if ps != [] {
      assert Match(Five(ps[0]), s).None?;
      FirstOfNone(ps[1..], s);
    }
  }

  /** Both extractors are case-sensitive: a URL with no lower-case `y` has no ID. */
  lemma NoLowercaseYNoId(url: string)
    requires forall j | 0 <= j < |url| :: url[j] != 'y'
    ensures ExtractFive(url).None? && ExtractSingle(url).None?
  {
    forall n | 0 <= n < |Patterns|
      ensures Match(Five(Patterns[n]), url).None?
    {
      MatchFromCandidate(Five(Patterns[n]), url, 0);
    }
    FirstOfNone(Patterns, url);
    MatchFromCandidate(Single, url, 0);
  }

  /** The upper-case host of `https://www.YouTube.com/watch?v=dQw4w9WgXcQ` is not recognised. */
  lemma MixedCaseHostNotRecognised()
    ensures ExtractFive("https://www.YouTube.com/watch?v=dQw4w9WgXcQ").None?
    ensures ExtractSingle("https://www.YouTube.com/watch?v=dQw4w9WgXcQ").None?
  {
    NoLowercaseYNoId("https://www.YouTube.com/watch?v=dQw4w9WgXcQ");
  }

  predicate IsId(id: string) {
    |id| == IdLength && forall k | 0 <= k < |id| :: IsIdChar(id[k])
  }

  /** A standard watch URL yields its ID, whatever follows the ID. */
  lemma WatchUrl(pre: string, id: string, rest: string)
    requires forall j | 0 <= j < |pre| :: pre[j] != 'y'
    requires IsId(id)
    ensures ExtractFive(pre + "youtube.com/watch?v=" + id + rest) == Some(id)
  {
    var s := pre + "youtube.com/watch?v=" + id + rest;
    var i := |pre|;
    assert OccursAt(s, Literal(Watch), i);
    assert s[i + 20..i + 31] == id;
    assert IdAt(s, i + 20, Strict);
    MatchFromCandidate(Five(Watch), s, i);
  }

  /** The `[^\/]+\/.+\/` alternative needs a slash. */
  lemma PathNeedsSlash(s: string, p: nat)
    requires p <= |s|
    requires forall k | p <= k < |s| :: s[k] != '/'
    ensures PathAt(s, p).None?
  {
  }

  /** Backtracking out of a greedy run stops at the last place the tail matches. */
  lemma LastTailIs(s: string, lo: nat, hi: nat, t: Tail, j: nat)
    requires lo <= j <= hi
    requires TailAt(s, j, t)
    requires forall k | j < k <= hi :: !TailAt(s, k, t)
    ensures LastTail(s, lo, hi, t) == Some(j)
  {
  }

  /** The single regex at the start of `youtube.com/watch?v=` takes the `.*[?&]v=` way. */
  lemma SingleAtWatch(s: string, i: nat, id: string)
    requires i + 31 <= |s|
    requires s[i..i + 20] == "youtube.com/watch?v=" && s[i + 20..i + 31] == id && IsId(id)
    requires forall k | i + 12 <= k < |s| :: s[k] != '/'
    requires forall k | i + 17 < k < |s| :: s[k] != '?' && s[k] != '&'
    ensures SingleAt(s, i) == Some(id)
  {
    var p := i + |Host|;
    assert s[i..i + 12] == s[i..i + 20][..12];
    assert OccursAt(s, Host, i);
    assert s[p..p + 8] == s[i..i + 20][12..];
    WatchQueryChars(s, p);
    assert s[p + 8..p + 19] == id;
    HostAlternativesAtWatch(s, p, id);
  }

  /** The characters of `watch?v=` at `p`, one by one. */
  lemma WatchQueryChars(s: string, p: nat)
    requires p + 8 <= |s| && s[p..p + 8] == "watch?v="
    ensures s[p] == 'w' && s[p + 1] == 'a' && s[p + 2] == 't' && s[p + 3] == 'c' && s[p + 4] == 'h'
    ensures s[p + 5] == '?' && s[p + 6] == 'v' && s[p + 7] == '='
  {
    assert forall j | p <= j < p + 8 :: s[j] == s[p..p + 8][j - p];
  }

  /** After `youtube.com/`, `watch?v=` and an ID with no `/` anywhere after: only `.*[?&]v=` matches. */
  lemma HostAlternativesAtWatch(s: string, p: nat, id: string)
    requires p + 19 <= |s|
    requires s[p] == 'w' && s[p + 1] == 'a' && s[p + 2] == 't' && s[p + 3] == 'c' && s[p + 4] == 'h'
    requires s[p + 5] == '?' && s[p + 6] == 'v' && s[p + 7] == '='
    requires s[p + 8..p + 19] == id && IsId(id)
    requires forall k | p <= k < |s| :: s[k] != '/'
    requires forall k | p + 5 < k < |s| :: s[k] != '?' && s[k] != '&'
    ensures HostAlternatives(s, p) == Some(id)
  {
    PathNeedsSlash(s, p);
    assert ShortPathAt(s, p).None?;
    RunToWatchId(s, p, id);
  }

  /** The greedy `.*` from the `watch` of a watch URL backs off to its `?v=`. */
  lemma RunToWatchId(s: string, p: nat, id: string)
    requires p + 19 <= |s|
    requires s[p] == 'w' && s[p + 1] == 'a' && s[p + 2] == 't' && s[p + 3] == 'c' && s[p + 4] == 'h'
    requires s[p + 5] == '?' && s[p + 6] == 'v' && s[p + 7] == '='
    requires s[p + 8..p + 19] == id && IsId(id)
    requires forall k | p + 5 < k < |s| :: s[k] != '?' && s[k] != '&'
    ensures AfterRun(s, p, VParam(Loose)) == Some(id)
  {
    var e := LineEnd(s, p);
    assert e >= p + 5;
    assert TailAt(s, p + 5, VParam(Loose));
    LastTailIs(s, p, e, VParam(Loose), p + 5);
  }

  /** On a watch URL with no `/`, `?` or `&` after the ID both extractors agree. */
  lemma ExtractorsAgreeOnWatchUrl(pre: string, id: string, rest: string)
    requires forall j | 0 <= j < |pre| :: pre[j] != 'y'
    requires IsId(id)
    requires forall j | 0 <= j < |rest| :: rest[j] != '/' && rest[j] != '?' && rest[j] != '&'
    ensures ExtractFive(pre + "youtube.com/watch?v=" + id + rest) == Some(id)
    ensures ExtractSingle(pre + "youtube.com/watch?v=" + id + rest) == Some(id)
  {
    WatchUrl(pre, id, rest);
    var s := pre + "youtube.com/watch?v=" + id + rest;
    WatchUrlLayout(pre, id, rest);
    SingleAtWatch(s, |pre|, id);
    forall j | 0 <= j < |pre| ensures s[j] != 'y' { assert s[j] == pre[j]; }
    MatchFromCandidate(Single, s, |pre|);
  }

  /** Where the parts of such a watch URL sit, and that no `/`, `?` or `&` follows the path. */
  lemma WatchUrlLayout(pre: string, id: string, rest: string)
    requires IsId(id)
    requires forall j | 0 <= j < |rest| :: rest[j] != '/' && rest[j] != '?' && rest[j] != '&'
    ensures var s := pre + "youtube.com/watch?v=" + id + rest; var i := |pre|;
      && i + 31 <= |s|
      && s[i..i + 20] == "youtube.com/watch?v=" && s[i + 20..i + 31] == id
      && (forall k | i + 12 <= k < |s| :: s[k] != '/')
      && (forall k | i + 17 < k < |s| :: s[k] != '?' && s[k] != '&')
  {
    var s := pre + "youtube.com/watch?v=" + id + rest;
    var i := |pre|;
    assert s[i..i + 20] == "youtube.com/watch?v=";
    assert s[i + 20..i + 31] == id;
    forall k | i + 12 <= k < |s|
      ensures s[k] != '/'
      ensures k > i + 17 ==> s[k] != '?' && s[k] != '&'
    {
      if k >= i + 31 { assert s[k] == rest[k - i - 31]; }
      else if k >= i + 20 { assert s[k] == id[k - i - 20]; }
      else { assert s[k] == s[i..i + 20][k - i]; }
    }
  }

  /** Only the short-link literal can start at 0 in a string whose sixth character is a `.`. */
  lemma OnlyShortLinkAt(s: string, p: Pattern)
    requires |s| > 5 && s[5] == '.'
    requires p != Short
    ensures !OccursAt(s, Literal(p), 0)
  {
    assert Literal(p)[5] == 'b';
  }

  /** No pattern of the five takes an ID holding a `.` after `youtu.be/`. */
  lemma FiveRejectsDot(s: string)
    requires s == "youtu.be/abc.defghij"
    ensures ExtractFive(s).None?
  {
    forall n | 0 <= n < |Patterns|
      ensures Match(Five(Patterns[n]), s).None?
    {
      MatchFromCandidate(Five(Patterns[n]), s, 0);
      if Patterns[n] == Short {
        assert !IsIdChar(s[12]);
        assert !IdAt(s, 9, Strict);
      } else {
        OnlyShortLinkAt(s, Patterns[n]);
      }
    }
    FirstOfNone(Patterns, s);
  }

  /** The single regex takes an ID holding a `.` after `youtu.be/`. */
  lemma SingleAcceptsDot(s: string)
    requires s == "youtu.be/abc.defghij"
    ensures ExtractSingle(s) == Some("abc.defghij")
  {
    OnlyShortLinkAt(s, QueryV);
    assert s[0..9] == ShortHost;
    assert s[9..20] == "abc.defghij";
    assert IdAt(s, 9, Loose);
    assert forall j | 0 < j < |s| :: s[j] != 'y';
    MatchFromCandidate(Single, s, 0);
  }

  /**
   * The extractors disagree on characters outside `[a-zA-Z0-9_-]`: the single
   * regex accepts a short link whose ID holds a `.`, the five patterns do not.
   */
  lemma ExtractorsDisagreeOnDot(url: string)
    requires url == "youtu.be/abc.defghij"
    ensures ExtractFive(url).None? && ExtractSingle(url) == Some("abc.defghij")
  {
    FiveRejectsDot(url);
    SingleAcceptsDot(url);
  }
}
