/**
 * `prepareContentForSpeech`: the chain of regular-expression replacements that
 * turns a markdown summary into text for speech synthesis. The server copy
 * (app/api/audio-podcast/route.ts) ends with white-space collapsing, a
 * character whitelist and sentence spacing; the client copy
 * (components/audio-podcast.tsx) stops after the newline folding. Both trim.
 *
 * Each `replace(/re/g, …)` is a function that scans its input from the left
 * as JavaScript does: at each position the pattern either matches (lazy and
 * greedy quantifiers resolved as the regular-expression engine resolves them,
 * `.` refusing line terminators) and the scan resumes after the match, or the
 * character is kept and the scan moves one place on.
 */
module Speech {
  import opened Wrappers
  import opened Text

  /** The number of leading white-space characters. */
  function SpaceRun(s: string): (n: nat)
    ensures n <= |s|
    ensures forall k | 0 <= k < n :: IsSpace(s[k])
    ensures n < |s| ==> !IsSpace(s[n])
  {
    if |s| > 0 && IsSpace(s[0]) then 1 + SpaceRun(s[1..]) else 0
  }

  /** The number of leading copies of `c`. */
  function RunOf(s: string, c: char): (n: nat)
    ensures n <= |s|
    ensures forall k | 0 <= k < n :: s[k] == c
    ensures n < |s| ==> s[n] != c
  {
    if |s| > 0 && s[0] == c then 1 + RunOf(s[1..], c) else 0
  }

  /** The number of leading decimal digits. */
  function DigitRun(s: string): (n: nat)
    ensures n <= |s|
    ensures forall k | 0 <= k < n :: IsDigit(s[k])
    ensures n < |s| ==> !IsDigit(s[n])
  {
    if |s| > 0 && IsDigit(s[0]) then 1 + DigitRun(s[1..]) else 0
  }

  // ---------------------------------------------------------------- headers

  /** The length of a `#{1,6}\s` match at the start of `s`, or 0. */
  function HeaderAt(s: string): nat {
    var r := RunOf(s, '#');
    if 1 <= r <= 6 && r < |s| && IsSpace(s[r]) then r + 1 else 0
  }

  /** `.replace(/#{1,6}\s/g, '')`. */
  function Headers(s: string): string
    decreases |s|
  {
    if s == [] then []
    else if HeaderAt(s) > 0 then Headers(s[HeaderAt(s)..])
    else [s[0]] + Headers(s[1..])
  }

  // ------------------------------------------------- bold, italic and code

  /**
   * Where the lazy `(.*?)` followed by `d` stops when it starts at `from`: the
   * first occurrence of `d` at or after `from`, provided no line terminator
   * comes before it.
   */
  function CloseAt(s: string, from: nat, d: string): (r: Option<nat>)
    requires d != []
    ensures r.Some? ==> from <= r.value && r.value + |d| <= |s| && s[r.value..r.value + |d|] == d
    ensures r.Some? ==> forall k | from <= k < r.value :: !IsLineTerminator(s[k])
    decreases |s| - from
  {
    if from + |d| <= |s| && s[from..from + |d|] == d then Some(from)
    else if from >= |s| || IsLineTerminator(s[from]) then None
    else CloseAt(s, from + 1, d)
  }

  /**
   * `.replace(/d(.*?)d/g, '$1')` for the delimiter `d`: `**` for bold, `*` for
   * italic and a backquote for code.
   */
  function Unwrap(s: string, d: string): string
    requires d != []
    decreases |s|
  {
    if s == [] then []
    else if |d| <= |s| && s[..|d|] == d && CloseAt(s, |d|, d).Some? then
      var j := CloseAt(s, |d|, d).value;
      s[|d|..j] + Unwrap(s[j + |d|..], d)
    else [s[0]] + Unwrap(s[1..], d)
  }

  // ------------------------------------------------------------------ links

  /**
   * For a `[` at the start of `s`, the match of `\[(.*?)\]\(.*?\)` whose label
   * is `s[1..k]` or longer: where the label ends and where the match ends.
   */
  function LinkFrom(s: string, k: nat): (r: Option<(nat, nat)>)
    requires 1 <= k
    ensures r.Some? ==> k <= r.value.0 && r.value.0 + 2 < r.value.1 <= |s|
    ensures r.Some? ==> s[r.value.0] == ']' && s[r.value.0 + 1] == '(' && s[r.value.1 - 1] == ')'
    decreases |s| - k
  {
    if k + 1 < |s| && s[k] == ']' && s[k + 1] == '(' && CloseAt(s, k + 2, ")").Some? then
      Some((k, CloseAt(s, k + 2, ")").value + 1))
    else if k >= |s| || IsLineTerminator(s[k]) then None
    else LinkFrom(s, k + 1)
  }

  /** `.replace(/\[(.*?)\]\(.*?\)/g, '$1')`. */
  function Links(s: string): string
    decreases |s|
  {
    if s == [] then []
    else if s[0] == '[' && LinkFrom(s, 1).Some? then
      var (labelEnd, matchEnd) := LinkFrom(s, 1).value;
      s[1..labelEnd] + Links(s[matchEnd..])
    else [s[0]] + Links(s[1..])
  }

  // ------------------------------------------------------------ list marks

  /** `[-*+]` and `\d+\.` */
  datatype Marker = Bullet | Numeral

  /** The length of a `^\s*[-*+]\s` or `^\s*\d+\.\s` match at the start of `s`, or 0. */
  function MarkerAt(s: string, m: Marker): nat {
    var w := SpaceRun(s);
    match m
    case Bullet =>
      if w + 1 < |s| && s[w] in "-*+" && IsSpace(s[w + 1]) then w + 2 else 0
    case Numeral =>
      var d := DigitRun(s[w..]);
      if d > 0 && w + d + 1 < |s| && s[w + d] == '.' && IsSpace(s[w + d + 1]) then w + d + 2 else 0
  }

  /**
   * `.replace(/^\s*[-*+]\s/gm, '')` or `.replace(/^\s*\d+\.\s/gm, '')`:
   * `lineStart` says whether `^` holds here, at the start of the text or after
   * a line terminator. The leading `\s*` may run over blank lines.
   */
  function Unlist(s: string, m: Marker, lineStart: bool): string
    decreases |s|
  {
    if s == [] then []
    else if lineStart && MarkerAt(s, m) > 0 then
      var n := MarkerAt(s, m);
      Unlist(s[n..], m, IsLineTerminator(s[n - 1]))
    else [s[0]] + Unlist(s[1..], m, IsLineTerminator(s[0]))
  }

  // --------------------------------------------------------------- newlines

  /** `.replace(/\n{2,}/g, '. ')`. */
  function Paragraphs(s: string): string
    decreases |s|
  {
    if s == [] then []
    else if RunOf(s, '\n') >= 2 then ". " + Paragraphs(s[RunOf(s, '\n')..])
    else [s[0]] + Paragraphs(s[1..])
  }

  /** `.replace(/\n/g, ' ')`. */
  function Newlines(s: string): string {
    if s == [] then [] else (if s[0] == '\n' then " " else [s[0]]) + Newlines(s[1..])
  }

  // ------------------------------------------------- server-only clean-up

  /** `.replace(/\s{2,}/g, ' ')`. */
  function Collapse(s: string): string
    decreases |s|
  {
    if s == [] then []
    else if SpaceRun(s) >= 2 then " " + Collapse(s[SpaceRun(s)..])
    else [s[0]] + Collapse(s[1..])
  }

  /** The characters `[\w\s.,!?;:()\-]` admits. */
  predicate Speakable(c: char) { IsWordChar(c) || IsSpace(c) || c in ".,!?;:()-" }

  /** `.replace(/[^\w\s.,!?;:()\-]/g, '')`. */
  function Filter(s: string): string {
    if s == [] then [] else (if Speakable(s[0]) then [s[0]] else []) + Filter(s[1..])
  }

  predicate IsStop(c: char) { c in ".!?" }

  /** `.replace(/([.!?])\s*([A-Z])/g, '$1 $2')`. */
  function Sentences(s: string): string
    decreases |s|
  {
    if s == [] then []
    else if IsStop(s[0]) && 1 + SpaceRun(s[1..]) < |s| && IsUpper(s[1 + SpaceRun(s[1..])]) then
      var u := 1 + SpaceRun(s[1..]);
      [s[0], ' ', s[u]] + Sentences(s[u + 1..])
    else [s[0]] + Sentences(s[1..])
  }

  // -------------------------------------------------------------- pipelines

  /** The steps both copies share, up to the newline folding. */
  function Markdown(text: string): string {
    var unformatted := Links(Unwrap(Unwrap(Unwrap(Headers(text), "**"), "*"), "`"));
    Newlines(Paragraphs(Unlist(Unlist(unformatted, Bullet, true), Numeral, true)))
  }

  /** The server's `prepareContentForSpeech`. */
  function ServerClean(text: string): string {
    Trim(Sentences(Filter(Collapse(Markdown(text)))))
  }

  /** The client's `prepareContentForSpeech`. */
  function ClientClean(text: string): string {
    Trim(Markdown(text))
  }

  // ------------------------------------------------- what each step keeps

  /** Every character a step emits comes from its input or is a space. */
  predicate FromOrSpace(r: string, s: string) {
    forall c | c in r :: c in s || c == ' '
  }

  lemma {:induction false} NewlinesRemoveNewlines(s: string)
    ensures '\n' !in Newlines(s)
    ensures FromOrSpace(Newlines(s), s)
  {
    if s != [] {
      NewlinesRemoveNewlines(s[1..]);
    }
  }

  lemma {:induction false} CollapseKeeps(s: string)
    ensures FromOrSpace(Collapse(s), s)
    decreases |s|
  {
    if s != [] {
      var n := if SpaceRun(s) >= 2 then SpaceRun(s) else 1;
      CollapseKeeps(s[n..]);
      forall c | c in s[n..] ensures c in s { }
    }
  }

  lemma {:induction false} FilterKeeps(s: string)
    ensures forall c | c in Filter(s) :: c in s && Speakable(c)
  {
    if s != [] {
      FilterKeeps(s[1..]);
    }
  }

  lemma {:induction false} SentencesKeep(s: string)
    ensures FromOrSpace(Sentences(s), s)
    decreases |s|
  {
    if s != [] {
      if IsStop(s[0]) && 1 + SpaceRun(s[1..]) < |s| && IsUpper(s[1 + SpaceRun(s[1..])]) {
        var u := 1 + SpaceRun(s[1..]);
        SentencesKeep(s[u + 1..]);
        forall c | c in s[u + 1..] ensures c in s { }
      } else {
        SentencesKeep(s[1..]);
      }
    }
  }

  /** Sentence spacing keeps the first character. */
  lemma SentencesHead(s: string)
    requires s != []
    ensures Sentences(s) != [] && Sentences(s)[0] == s[0]
  {
  }

  /** After sentence spacing, no `.`, `!` or `?` is directly followed by a capital. */
  lemma {:induction false} SentencesSpaced(s: string)
    ensures Spaced(Sentences(s))
    decreases |s|
  {
    if s != [] {
      var r := Sentences(s);
      if IsStop(s[0]) && 1 + SpaceRun(s[1..]) < |s| && IsUpper(s[1 + SpaceRun(s[1..])]) {
        var u := 1 + SpaceRun(s[1..]);
        var rest := Sentences(s[u + 1..]);
        SentencesSpaced(s[u + 1..]);
        assert r == [s[0], ' ', s[u]] + rest;
        forall i | 0 <= i < |r| - 1 && IsStop(r[i]) ensures !IsUpper(r[i + 1]) {
          if i >= 3 { assert r[i] == rest[i - 3] && r[i + 1] == rest[i - 2]; }
        }
      } else {
        var rest := Sentences(s[1..]);
        SentencesSpaced(s[1..]);
        assert r == [s[0]] + rest;
        if |s| > 1 {
          SentencesHead(s[1..]);
          assert s[1..][0] == s[1];
          assert IsUpper(s[1]) ==> !IsSpace(s[1]);
        }
        forall i | 0 <= i < |r| - 1 && IsStop(r[i]) ensures !IsUpper(r[i + 1]) {
          if i >= 1 { assert r[i] == rest[i - 1] && r[i + 1] == rest[i]; }
          else { assert r[1] == s[1]; }
        }
      }
    }
  }

  /** `trim` keeps characters of its input. */
  lemma TrimKeeps(s: string)
    ensures forall c | c in Trim(s) :: c in s
  {
    var r := Trim(s);
    var a :| OccursAt(s, r, a);
    forall c | c in r ensures c in s {
      var i :| 0 <= i < |r| && r[i] == c;
      assert s[a..a + |r|][i] == s[a + i];
    }
  }

  /** No stop directly before a capital. */
  predicate Spaced(r: string) {
    forall i | 0 <= i < |r| - 1 :: IsStop(r[i]) ==> !IsUpper(r[i + 1])
  }

  /** `trim` keeps a contiguous piece, so it creates no new neighbours. */
  lemma TrimSpaced(s: string)
    requires Spaced(s)
    ensures Spaced(Trim(s))
  {
    var r := Trim(s);
    var a :| OccursAt(s, r, a);
    forall i | 0 <= i < |r| - 1 && IsStop(r[i]) ensures !IsUpper(r[i + 1]) {
      assert r[i] == s[a + i] && r[i + 1] == s[a + i + 1];
    }
  }

  // ------------------------------------------------------------ the promises

  /**
   * The server's output has no newline, only word characters, white space and
   * `.,!?;:()-`, no `.`, `!` or `?` directly before a capital, and no white
   * space at either end.
   */
  lemma ServerCleanShape(text: string)
    ensures var r := ServerClean(text);
      && '\n' !in r
      && (forall c | c in r :: Speakable(c))
      && Spaced(r)
      && (r == [] || (!IsSpace(r[0]) && !IsSpace(r[|r| - 1])))
  {
    var p := Paragraphs(Unlist(Unlist(Links(Unwrap(Unwrap(Unwrap(Headers(text), "**"), "*"), "`")), Bullet, true),
                                Numeral, true));
    var m := Newlines(p);
    assert Markdown(text) == m;
    NewlinesRemoveNewlines(p);
    CollapseKeeps(m);
    var f := Filter(Collapse(m));
    FilterKeeps(Collapse(m));
    SentencesKeep(f);
    SentencesSpaced(f);
    TrimKeeps(Sentences(f));
    TrimSpaced(Sentences(f));
  }

  /** The client's output has no newline and no white space at either end; nothing else is filtered. */
  lemma ClientCleanShape(text: string)
    ensures var r := ClientClean(text);
      && '\n' !in r
      && (r == [] || (!IsSpace(r[0]) && !IsSpace(r[|r| - 1])))
  {
    var p := Paragraphs(Unlist(Unlist(Links(Unwrap(Unwrap(Unwrap(Headers(text), "**"), "*"), "`")), Bullet, true),
                                Numeral, true));
    NewlinesRemoveNewlines(p);
    TrimKeeps(Markdown(text));
  }

  // ------------------------------------------------ plain text passes through

  /** Words separated by single spaces, with nothing else. */
  predicate Plain(x: string) {
    && x != []
    && (forall k | 0 <= k < |x| :: IsWordChar(x[k]) || x[k] == ' ')
    && x[0] != ' ' && x[|x| - 1] != ' '
    && (forall k | 0 <= k < |x| - 1 :: x[k] != ' ' || x[k + 1] != ' ')
  }

  lemma {:induction false} HeadersIdentity(s: string)
    requires '#' !in s
    ensures Headers(s) == s
  {
    if s != [] { HeadersIdentity(s[1..]); }
  }

  lemma {:induction false} UnwrapIdentity(s: string, d: string)
    requires d != [] && d[0] !in s
    ensures Unwrap(s, d) == s
  {
    if s != [] { UnwrapIdentity(s[1..], d); }
  }

  lemma {:induction false} LinksIdentity(s: string)
    requires '[' !in s
    ensures Links(s) == s
  {
    if s != [] { LinksIdentity(s[1..]); }
  }

  lemma {:induction false} UnlistIdentity(s: string, m: Marker, lineStart: bool)
    requires forall k | 0 <= k < |s| :: IsWordChar(s[k]) || s[k] == ' '
    requires lineStart && s != [] ==> s[0] != ' '
    ensures Unlist(s, m, lineStart) == s
  {
    if s != [] {
      if lineStart {
        assert SpaceRun(s) == 0;
        assert MarkerAt(s, m) == 0 by {
          if m == Numeral { assert DigitRun(s) < |s| ==> s[DigitRun(s)] != '.'; }
        }
      }
      UnlistIdentity(s[1..], m, IsLineTerminator(s[0]));
    }
  }

  lemma {:induction false} ParagraphsIdentity(s: string)
    requires '\n' !in s
    ensures Paragraphs(s) == s
  {
    if s != [] { ParagraphsIdentity(s[1..]); }
  }

  lemma {:induction false} NewlinesIdentity(s: string)
    requires '\n' !in s
    ensures Newlines(s) == s
  {
    if s != [] { NewlinesIdentity(s[1..]); }
  }

  lemma {:induction false} CollapseIdentity(s: string)
    requires forall k | 0 <= k < |s| :: IsWordChar(s[k]) || s[k] == ' '
    requires forall k | 0 <= k < |s| - 1 :: s[k] != ' ' || s[k + 1] != ' '
    ensures Collapse(s) == s
  {
    if s != [] {
      assert SpaceRun(s) < 2 by {
        if |s| >= 2 && IsSpace(s[0]) { assert s[0] == ' ' && s[1] != ' '; }
      }
      CollapseIdentity(s[1..]);
    }
  }

  lemma {:induction false} FilterIdentity(s: string)
    requires forall k | 0 <= k < |s| :: IsWordChar(s[k]) || s[k] == ' '
    ensures Filter(s) == s
  {
    if s != [] { FilterIdentity(s[1..]); }
  }

  lemma {:induction false} SentencesIdentity(s: string)
    requires forall k | 0 <= k < |s| :: IsWordChar(s[k]) || s[k] == ' '
    ensures Sentences(s) == s
  {
    if s != [] { SentencesIdentity(s[1..]); }
  }

  /** Plain text goes through every list and newline step unchanged. */
  lemma PlainLayoutUnchanged(x: string)
    requires Plain(x)
    ensures Newlines(Paragraphs(Unlist(Unlist(x, Bullet, true), Numeral, true))) == x
  {
    PlainListsUnchanged(x);
    PlainLinesUnchanged(x);
  }

  lemma PlainListsUnchanged(x: string)
    requires Plain(x)
    ensures Unlist(Unlist(x, Bullet, true), Numeral, true) == x
  {
    UnlistIdentity(x, Bullet, true);
    UnlistIdentity(x, Numeral, true);
  }

  lemma PlainLinesUnchanged(x: string)
    requires Plain(x)
    ensures Newlines(Paragraphs(x)) == x
  {
    assert '\n' !in x;
    ParagraphsIdentity(x);
    NewlinesIdentity(x);
  }

  /** Plain text goes through the server's final steps unchanged. */
  lemma PlainTailUnchanged(x: string)
    requires Plain(x)
    ensures Trim(Sentences(Filter(Collapse(x)))) == x
    ensures Trim(x) == x
  {
    CollapseIdentity(x);
    FilterIdentity(x);
    SentencesIdentity(x);
    assert !IsSpace(x[0]) && !IsSpace(x[|x| - 1]);
  }

  /** Plain text goes through every step of both copies unchanged. */
  lemma PlainUnchanged(x: string)
    requires Plain(x)
    ensures ServerClean(x) == x && ClientClean(x) == x
  {
    assert '#' !in x && '*' !in x && '`' !in x && '[' !in x;
    HeadersIdentity(x);
    UnwrapIdentity(x, "**");
    UnwrapIdentity(x, "*");
    UnwrapIdentity(x, "`");
    LinksIdentity(x);
    PlainLayoutUnchanged(x);
    assert Markdown(x) == x;
    PlainTailUnchanged(x);
  }

  /** The closing delimiter found is the first one on the line. */
  lemma {:induction false} CloseAtFirst(s: string, from: nat, j: nat, d: string)
    requires d != [] && from <= j && j + |d| <= |s| && s[j..j + |d|] == d
    requires forall k | from <= k < j :: s[k] != d[0] && !IsLineTerminator(s[k])
    ensures CloseAt(s, from, d) == Some(j)
    decreases j - from
  {
    if from < j {
      assert s[from..from + |d|] != d by { assert s[from] != d[0]; }
      CloseAtFirst(s, from + 1, j, d);
    }
  }

  /** A one-line `**x**` loses its asterisks in the bold step. */
  lemma BoldUnwrapped(x: string)
    requires Plain(x)
    ensures Unwrap(Headers("**" + x + "**"), "**") == x
  {
    var s := "**" + x + "**";
    BoldLayout(x);
    HeadersIdentity(s);
    CloseAtFirst(s, 2, 2 + |x|, "**");
    UnwrapWhole(s, "**", 2 + |x|);
  }

  /** Where the parts of `**x**` sit, and that `x` holds no asterisk, hash or line break. */
  lemma BoldLayout(x: string)
    requires Plain(x)
    ensures var s := "**" + x + "**"; var j := 2 + |x|;
      && '#' !in s && s[..2] == "**" && s[j..j + 2] == "**" && s[2..j] == x
      && forall k | 2 <= k < j :: s[k] != '*' && !IsLineTerminator(s[k])
  {
    var s := "**" + x + "**";
    var j := 2 + |x|;
    assert s[..2] == "**" && s[j..j + 2] == "**" && s[2..j] == x;
    forall k | 2 <= k < j ensures s[k] != '*' && !IsLineTerminator(s[k]) {
      assert s[k] == x[k - 2];
    }
  }

  /** A string that is one delimited span, `d` + body + `d`, unwraps to its body. */
  lemma UnwrapWhole(s: string, d: string, j: nat)
    requires d != [] && |d| <= j && j + |d| == |s|
    requires s[..|d|] == d && CloseAt(s, |d|, d) == Some(j)
    ensures Unwrap(s, d) == s[|d|..j]
  {
    assert s[j + |d|..] == [];
    assert s[|d|..j] + [] == s[|d|..j];
  }

  /** A one-line `**x**` is read as `x`. */
  lemma BoldIsRead(x: string)
    requires Plain(x)
    ensures ServerClean("**" + x + "**") == x
    ensures ClientClean("**" + x + "**") == x
  {
    BoldUnwrapped(x);
    assert '*' !in x && '`' !in x && '[' !in x;
    UnwrapIdentity(x, "*");
    UnwrapIdentity(x, "`");
    LinksIdentity(x);
    PlainLayoutUnchanged(x);
    assert Markdown("**" + x + "**") == x;
    PlainTailUnchanged(x);
  }

  /** The label found ends at the first `](` on the line. */
  lemma {:induction false} LinkFromFirst(s: string, k: nat, labelEnd: nat, matchEnd: nat)
    requires 1 <= k <= labelEnd && labelEnd + 2 < matchEnd <= |s|
    requires s[labelEnd] == ']' && s[labelEnd + 1] == '(' && CloseAt(s, labelEnd + 2, ")") == Some(matchEnd - 1)
    requires forall i | k <= i < labelEnd :: s[i] != ']' && !IsLineTerminator(s[i])
    ensures LinkFrom(s, k) == Some((labelEnd, matchEnd))
    decreases labelEnd - k
  {
    if k < labelEnd {
      LinkFromFirst(s, k + 1, labelEnd, matchEnd);
    }
  }

  /** A link to a URL without markup characters passes the header, bold, italic and code steps unchanged. */
  lemma LinkFormattingUntouched(t: string, u: string)
    requires Plain(t)
    requires forall k | 0 <= k < |u| :: u[k] !in "#*`[]()" && !IsLineTerminator(u[k])
    ensures var s := "[" + t + "](" + u + ")";
      Unwrap(Unwrap(Unwrap(Headers(s), "**"), "*"), "`") == s
  {
    var s := "[" + t + "](" + u + ")";
    forall k | 0 <= k < |s| ensures s[k] !in "#*`" {
      if 1 <= k < 1 + |t| { assert s[k] == t[k - 1]; }
      else if 3 + |t| <= k < 3 + |t| + |u| { assert s[k] == u[k - 3 - |t|]; }
    }
    HeadersIdentity(s);
    UnwrapIdentity(s, "**");
    UnwrapIdentity(s, "*");
    UnwrapIdentity(s, "`");
  }

  lemma PrefixSlice(a: string, b: string, i: nat, j: nat)
    requires i <= j <= |a|
    ensures (a + b)[i..j] == a[i..j]
  {
  }

  /** A line that is one whole link is read as its label. */
  lemma WholeLinkRead(s: string, labelEnd: nat)
    requires 1 <= labelEnd && labelEnd + 2 < |s| && s[0] == '['
    requires s[labelEnd] == ']' && s[labelEnd + 1] == '(' && CloseAt(s, labelEnd + 2, ")") == Some(|s| - 1)
    requires forall i | 1 <= i < labelEnd :: s[i] != ']' && !IsLineTerminator(s[i])
    ensures Links(s) == s[1..labelEnd]
  {
    LinkFromFirst(s, 1, labelEnd, |s|);
    assert s[|s|..] == [];
  }

  /**
   * A line laid out as `[`, a label `t`, `](`, a target `u` and `)` is read as
   * `t` when the label holds no `]`, the target no `)`, and neither a line break.
   */
  lemma LinkShapeRead(s: string, t: string, u: string)
    requires |s| == |t| + |u| + 4 && s[0] == '[' && s[|s| - 1] == ')'
    requires s[1..1 + |t|] == t && s[1 + |t|] == ']' && s[2 + |t|] == '(' && s[3 + |t|..3 + |t| + |u|] == u
    requires forall k | 0 <= k < |t| :: t[k] != ']' && !IsLineTerminator(t[k])
    requires forall k | 0 <= k < |u| :: u[k] != ')' && !IsLineTerminator(u[k])
    ensures Links(s) == t
  {
    var labelEnd := 1 + |t|;
    TargetCloses(s, labelEnd + 2, u);
    forall k | 1 <= k < labelEnd ensures s[k] != ']' && !IsLineTerminator(s[k]) {
      assert s[k] == s[1..1 + |t|][k - 1];
    }
    WholeLinkRead(s, labelEnd);
  }

  /** A target free of `)` and line breaks, followed by `)` at the end, is closed by that `)`. */
  lemma TargetCloses(s: string, from: nat, u: string)
    requires from + |u| + 1 == |s| && s[from..from + |u|] == u && s[|s| - 1] == ')'
    requires forall k | 0 <= k < |u| :: u[k] != ')' && !IsLineTerminator(u[k])
    ensures CloseAt(s, from, ")") == Some(|s| - 1)
  {
    forall k | from <= k < |s| - 1 ensures s[k] != ')' && !IsLineTerminator(s[k]) {
      assert s[k] == s[from..from + |u|][k - from];
    }
    assert s[|s| - 1..|s|] == ")";
    CloseAtFirst(s, from, |s| - 1, ")");
  }

  lemma LabelSlice(t: string, u: string)
    ensures ("[" + t + "](" + u + ")")[1..1 + |t|] == t
  {
    var p := "[" + t + "](";
    PrefixSlice("[" + t, "](", 1, 1 + |t|);
    PrefixSlice(p, u, 1, 1 + |t|);
    PrefixSlice(p + u, ")", 1, 1 + |t|);
    assert ("[" + t)[1..1 + |t|] == t;
  }

  lemma TargetSlice(t: string, u: string)
    ensures ("[" + t + "](" + u + ")")[3 + |t|..3 + |t| + |u|] == u
  {
    var p := "[" + t + "](";
    PrefixSlice(p + u, ")", |p|, |p| + |u|);
    assert (p + u)[|p|..|p| + |u|] == u;
  }

  /** The link step reduces a one-line `[t](u)` to `t`. */
  lemma LinkUnwrapped(t: string, u: string)
    requires forall k | 0 <= k < |t| :: t[k] != ']' && !IsLineTerminator(t[k])
    requires forall k | 0 <= k < |u| :: u[k] != ')' && !IsLineTerminator(u[k])
    ensures Links("[" + t + "](" + u + ")") == t
  {
    var s := "[" + t + "](" + u + ")";
    LabelSlice(t, u);
    TargetSlice(t, u);
    assert s[1 + |t|] == ']' && s[2 + |t|] == '(';
    LinkShapeRead(s, t, u);
  }

  /** A one-line link `[t](u)` is read as its text `t`. */
  lemma LinkIsRead(t: string, u: string)
    requires Plain(t)
    requires forall k | 0 <= k < |u| :: u[k] !in "#*`[]()" && !IsLineTerminator(u[k])
    ensures ServerClean("[" + t + "](" + u + ")") == t
    ensures ClientClean("[" + t + "](" + u + ")") == t
  {
    LinkFormattingUntouched(t, u);
    assert forall k | 0 <= k < |t| :: t[k] != ']' && !IsLineTerminator(t[k]);
    LinkUnwrapped(t, u);
    PlainLayoutUnchanged(t);
    assert Markdown("[" + t + "](" + u + ")") == t;
    PlainTailUnchanged(t);
  }

  // ------------------------------------------------------------ word counts

  /** The length of the leading run of non-space characters. */
  function WordRun(s: string): (n: nat)
    ensures n <= |s|
    ensures forall k | 0 <= k < n :: !IsSpace(s[k])
    ensures n < |s| ==> IsSpace(s[n])
  {
    if |s| > 0 && !IsSpace(s[0]) then 1 + WordRun(s[1..]) else 0
  }

  /** `text.split(/\s+/)`: the pieces between maximal runs of white space. */
  function SplitOnSpace(s: string): (pieces: seq<string>)
    ensures |pieces| >= 1
    ensures forall p | p in pieces :: NoSpace(p)
    decreases |s|
  {
    var p := WordRun(s);
    if p == |s| then [s]
    else [s[..p]] + SplitOnSpace(AfterGap(s))
  }

  /** What follows the first word and the white-space run after it. */
  function AfterGap(s: string): (rest: string)
    requires WordRun(s) < |s|
    ensures |rest| < |s|
  {
    var p := WordRun(s);
    s[p + SpaceRun(s[p..])..]
  }

  /** The number of maximal runs of white space. */
  function SpaceRuns(s: string): nat
    decreases |s|
  {
    if s == [] then 0
    else if IsSpace(s[0]) then 1 + SpaceRuns(s[SpaceRun(s)..])
    else SpaceRuns(s[1..])
  }

  lemma {:induction false} SpaceRunsSkipWord(s: string, p: nat)
    requires p <= |s| && forall k | 0 <= k < p :: !IsSpace(s[k])
    ensures SpaceRuns(s) == SpaceRuns(s[p..])
    decreases p
  {
    if p > 0 {
      assert s[1..][p - 1..] == s[p..];
      SpaceRunsSkipWord(s[1..], p - 1);
    }
  }

  /**
   * The server's word count is one more than the number of white-space runs,
   * counting runs at either end, so an empty text has one word.
   */
  lemma {:induction false} WordCountIsRunsPlusOne(s: string)
    ensures |SplitOnSpace(s)| == SpaceRuns(s) + 1
    decreases |s|
  {
    var p := WordRun(s);
    SpaceRunsSkipWord(s, p);
    if p < |s| {
      var rest := SplitStep(s);
      WordCountIsRunsPlusOne(rest);
    } else {
      assert s[p..] == [];
    }
  }

  /**
   * One step of both counts past the first word and the white-space run after
   * it: one more piece, and one more run.
   */
  lemma SplitStep(s: string) returns (rest: string)
    requires WordRun(s) < |s|
    ensures |rest| < |s|
    ensures |SplitOnSpace(s)| == 1 + |SplitOnSpace(rest)|
    ensures SpaceRuns(s[WordRun(s)..]) == 1 + SpaceRuns(rest)
  {
    rest := AfterGap(s);
    var t := s[WordRun(s)..];
    assert t[SpaceRun(t)..] == rest;
    assert IsSpace(t[0]);
  }

  /** `text.split(' ')`, as the client counts words. */
  function SplitOnBlank(s: string): (pieces: seq<string>)
    ensures |pieces| >= 1
  {
    if s == [] then [""]
    else
      var rest := SplitOnBlank(s[..|s| - 1]);
      if s[|s| - 1] == ' ' then rest + [""] else rest[..|rest| - 1] + [rest[|rest| - 1] + [s[|s| - 1]]]
  }

  /** The client's word count is the number of single spaces plus one. */
  lemma {:induction false} BlankCount(s: string)
    ensures |SplitOnBlank(s)| == CountOf(s, ' ') + 1
  {
    if s != [] { BlankCount(s[..|s| - 1]); }
  }
}
