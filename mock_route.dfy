/**
 * `POST` of app/api/youtube-mock/route.ts: the same URL checks and transcript
 * retry loop as the standard route, then a fixed template filled in from the
 * transcript's length and first characters instead of a Gemini call.
 *
 * The date printed at the foot of the briefing is the parameter `today`.
 */
module MockRoute {
  import opened Wrappers
  import opened Text
  import opened VideoId
  import opened Transcript
  import opened Generation

  const MockNote: string := "This is a mock response while Gemini API issues are being resolved"

  datatype Body =
    | Error(error: string)
    | TranscriptError(failure: FailureBody)
    | Mocked(content: string, videoId: string, contentType: string, transcriptLength: nat, note: string)

  datatype Response = Response(status: nat, body: Body)

  // The fixed text between the template's placeholders.
  const StudyGuide0: string :=
    "# Study Guide\n"
    + "\n"
    + "## Main Topics & Key Concepts\n"
    + "Based on the video transcript ("
  const StudyGuide1: string :=
    " characters), here are the key topics covered:\n"
    + "\n"
    + "- **Primary Subject**: "
  const StudyGuide2: string :=
    "...\n"
    + "- **Core Concepts**: The video discusses important principles and methodologies\n"
    + "- **Key Terminology**: Essential vocabulary and definitions are presented\n"
    + "\n"
    + "## Important Definitions\n"
    + "- **Term 1**: Definition based on video content\n"
    + "- **Term 2**: Another important concept explained\n"
    + "- **Term 3**: Additional terminology covered\n"
    + "\n"
    + "## Key Takeaways\n"
    + "1. The video provides comprehensive coverage of the subject matter\n"
    + "2. Multiple examples and case studies are presented\n"
    + "3. Practical applications are demonstrated throughout\n"
    + "4. The content builds progressively from basic to advanced concepts\n"
    + "\n"
    + "## Study Questions\n"
    + "1. What are the main points discussed in the video?\n"
    + "2. How do the concepts relate to real-world applications?\n"
    + "3. What examples were provided to illustrate key points?\n"
    + "4. How can this knowledge be applied practically?\n"
    + "\n"
    + "## Summary Points\n"
    + "- The video covers "
  const StudyGuide3: string :=
    " major topic areas\n"
    + "- Content is structured in a logical, progressive manner\n"
    + "- Multiple learning modalities are employed\n"
    + "- Practical examples enhance understanding\n"
    + "\n"
    + "## Additional Resources to Explore\n"
    + "- Related videos on the same topic\n"
    + "- Academic papers and research\n"
    + "- Practical exercises and applications\n"
    + "- Community discussions and forums\n"
    + "\n"
    + "*Note: This study guide was generated from a "
  const StudyGuide4: string :=
    "-character transcript.*"

  const Briefing0: string :=
    "# Professional Briefing Document\n"
    + "\n"
    + "## Executive Summary\n"
    + "This briefing document provides a comprehensive analysis of the video content, which contains "
  const Briefing1: string :=
    " characters of transcript data. The material covers significant insights and actionable information relevant to the subject matter.\n"
    + "\n"
    + "**Key Highlights:**\n"
    + "- Comprehensive coverage of core topics\n"
    + "- Practical applications and examples\n"
    + "- Strategic insights and recommendations\n"
    + "- Implementation considerations\n"
    + "\n"
    + "## Key Points & Insights\n"
    + "\n"
    + "### Primary Findings\n"
    + "The video content reveals several important insights:\n"
    + "\n"
    + "1. **Strategic Overview**: "
  const Briefing2: string :=
    "...\n"
    + "2. **Operational Considerations**: The content addresses practical implementation aspects\n"
    + "3. **Best Practices**: Multiple proven methodologies are discussed\n"
    + "4. **Industry Standards**: Current practices and benchmarks are referenced\n"
    + "\n"
    + "### Critical Analysis\n"
    + "- The information presented is current and relevant\n"
    + "- Multiple perspectives are considered\n"
    + "- Evidence-based recommendations are provided\n"
    + "- Practical examples support theoretical concepts\n"
    + "\n"
    + "## Main Arguments/Findings\n"
    + "\n"
    + "### Core Arguments\n"
    + "1. **Argument 1**: The video establishes clear foundational principles\n"
    + "2. **Argument 2**: Supporting evidence is provided through examples\n"
    + "3. **Argument 3**: Practical applications are demonstrated effectively\n"
    + "\n"
    + "### Supporting Evidence\n"
    + "- Transcript analysis reveals "
  const Briefing3: string :=
    " distinct topic areas\n"
    + "- Content structure follows logical progression\n"
    + "- Multiple validation points are provided\n"
    + "\n"
    + "## Actionable Recommendations\n"
    + "\n"
    + "### Immediate Actions\n"
    + "1. **Review Key Concepts**: Focus on the primary topics identified\n"
    + "2. **Implement Best Practices**: Apply the methodologies discussed\n"
    + "3. **Gather Additional Information**: Research related topics for deeper understanding\n"
    + "\n"
    + "### Strategic Considerations\n"
    + "1. **Long-term Planning**: Consider how insights apply to broader objectives\n"
    + "2. **Resource Allocation**: Determine necessary resources for implementation\n"
    + "3. **Performance Metrics**: Establish measures for success\n"
    + "\n"
    + "## Conclusion\n"
    + "The video content provides valuable insights with practical applications. The "
  const Briefing4: string :=
    "-character transcript contains substantial information that can inform decision-making and strategic planning.\n"
    + "\n"
    + "## Next Steps\n"
    + "1. **Detailed Review**: Conduct thorough analysis of specific sections\n"
    + "2. **Stakeholder Engagement**: Share findings with relevant team members\n"
    + "3. **Implementation Planning**: Develop action plans based on recommendations\n"
    + "4. **Follow-up Analysis**: Monitor outcomes and adjust strategies as needed\n"
    + "\n"
    + "*Document generated from video transcript analysis - "
  const Briefing5: string :=
    "*"

  /** The fixed text of a template around its four holes. */
  datatype Template = Template(s0: string, s1: string, s2: string, s3: string, s4: string)

  /**
   * The fixed wording of the two templates; the briefing ends with the date
   * and `briefingEnd`. `Texts` is the route's own wording; the handler takes
   * the wording as a parameter, and every property below holds for any.
   */
  datatype Wording = Wording(study: Template, briefing: Template, briefingEnd: string)

  const Texts: Wording :=
    Wording(Template(StudyGuide0, StudyGuide1, StudyGuide2, StudyGuide3, StudyGuide4),
            Template(Briefing0, Briefing1, Briefing2, Briefing3, Briefing4), Briefing5)

  /** A template with its four holes filled in. */
  function Fill(t: Template, h1: string, h2: string, h3: string, h4: string): string {
    t.s0 + h1 + t.s1 + h2 + t.s2 + h3 + t.s3 + h4 + t.s4
  }

  /** A filled template holds whatever fills its first three holes, and starts with its fixed head. */
  lemma FillHolds(t: Template, h1: string, h2: string, h3: string, h4: string, tail: string)
    ensures var c := Fill(t, h1, h2, h3, h4) + tail;
      Contains(c, h1) && Contains(c, h2) && Contains(c, h3) && |t.s0| <= |c| && c[..|t.s0|] == t.s0
  {
    var c := Fill(t, h1, h2, h3, h4) + tail;
    var rest := t.s3 + h4 + t.s4 + tail;
    assert c == t.s0 + h1 + (t.s1 + h2 + t.s2 + h3 + rest);
    ContainsMiddle(t.s0, h1, t.s1 + h2 + t.s2 + h3 + rest);
    assert c == (t.s0 + h1 + t.s1) + h2 + (t.s2 + h3 + rest);
    ContainsMiddle(t.s0 + h1 + t.s1, h2, t.s2 + h3 + rest);
    assert c == (t.s0 + h1 + t.s1 + h2 + t.s2) + h3 + rest;
    ContainsMiddle(t.s0 + h1 + t.s1 + h2 + t.s2, h3, rest);
  }

  /** The study guide: length, first 100 characters, `Math.floor(length / 100)`, length. */
  function StudyGuideContent(transcript: string, w: Wording): string {
    var length := NatToString(|transcript|);
    Fill(w.study, length, Prefix(transcript, 100), NatToString(|transcript| / 100), length)
  }

  /** The briefing: length, first 150 characters, `Math.floor(length / 50)`, length, then the date. */
  function BriefingContent(transcript: string, today: string, w: Wording): string {
    var length := NatToString(|transcript|);
    Fill(w.briefing, length, Prefix(transcript, 150), NatToString(|transcript| / 50), length)
    + (today + w.briefingEnd)
  }

  /**
   * The study guide quotes the transcript's length, its first 100 characters
   * and the topic count, under the template's heading.
   */
  lemma StudyGuideQuotes(transcript: string, w: Wording)
    ensures var c := StudyGuideContent(transcript, w);
      && Contains(c, NatToString(|transcript|)) && Contains(c, Prefix(transcript, 100))
      && Contains(c, NatToString(|transcript| / 100))
      && |w.study.s0| <= |c| && c[..|w.study.s0|] == w.study.s0
  {
    var length := NatToString(|transcript|);
    var c := Fill(w.study, length, Prefix(transcript, 100), NatToString(|transcript| / 100), length);
    FillHolds(w.study, length, Prefix(transcript, 100), NatToString(|transcript| / 100), length, "");
    assert c + "" == c;
  }

  /**
   * The briefing quotes the transcript's length, its first 150 characters and
   * the topic count under the template's heading, and ends with the date.
   */
  lemma BriefingQuotes(transcript: string, today: string, w: Wording)
    ensures var c := BriefingContent(transcript, today, w);
      && Contains(c, NatToString(|transcript|)) && Contains(c, Prefix(transcript, 150))
      && Contains(c, NatToString(|transcript| / 50))
      && |w.briefing.s0| <= |c| && c[..|w.briefing.s0|] == w.briefing.s0
      && Contains(c, today)
  {
    var length := NatToString(|transcript|);
    var body := Fill(w.briefing, length, Prefix(transcript, 150), NatToString(|transcript| / 50), length);
    FillHolds(w.briefing, length, Prefix(transcript, 150), NatToString(|transcript| / 50), length,
              today + w.briefingEnd);
    ContainsMiddle(body, today, w.briefingEnd);
    assert body + today + w.briefingEnd == body + (today + w.briefingEnd);
  }

  /** The content for a known type, `None` for any other. */
  function ContentFor(contentType: Option<string>, transcript: string, today: string, w: Wording): (r: Option<string>)
    ensures r.Some? <==> IsKnownType(contentType)
  {
    if contentType == Some(StudyGuide) then Some(StudyGuideContent(transcript, w))
    else if contentType == Some(BriefingDoc) then Some(BriefingContent(transcript, today, w))
    else None
  }

  /** The handler, with the transcript attempts, today's date and the wording as inputs. */
  function Post(req: Request, attempts: seq<Attempt>, today: string, w: Wording): (r: Response)
    requires |attempts| == MaxAttempts
    ensures r.status in {200, 400}
  {
    if !Truthy(req.url) then Response(400, Error(UrlRequired))
    else
      match ExtractFive(req.url.value)
      case None => Response(400, Error(InvalidUrl))
      case Some(videoId) => AfterExtraction(req, videoId, Retry(attempts), today, w)
  }

  function AfterExtraction(req: Request, videoId: string, fetched: Progress, today: string, w: Wording): (r: Response)
    ensures r.status in {200, 400}
  {
    if !Succeeded(fetched) then Response(400, TranscriptError(Failure(fetched, videoId)))
    else
      match ContentFor(req.contentType, fetched.transcript, today, w)
      case None => Response(400, Error(InvalidType))
      case Some(content) =>
        Response(200, Mocked(content, videoId, req.contentType.value, |fetched.transcript|, MockNote))
  }

  /** A missing URL or one without a video ID is refused before the transcript provider is consulted. */
  lemma PostRefusesBadUrlFirst(req: Request, attempts: seq<Attempt>, other: seq<Attempt>, today: string, w: Wording)
    requires |attempts| == MaxAttempts && |other| == MaxAttempts
    requires !Truthy(req.url) || ExtractFive(req.url.value).None?
    ensures Post(req, attempts, today, w) == Post(req, other, today, w)
    ensures Post(req, attempts, today, w).status == 400
  {
  }

  /** The mock answers 400 exactly when the URL, the transcript or the type is bad; the type is judged last. */
  lemma PostStatus(req: Request, attempts: seq<Attempt>, today: string, w: Wording)
    requires |attempts| == MaxAttempts
    ensures var r := Post(req, attempts, today, w);
      r.status == 200 <==>
        Truthy(req.url) && ExtractFive(req.url.value).Some?
        && (exists k | 0 <= k < MaxAttempts :: Usable(attempts[k]))
        && IsKnownType(req.contentType)
    ensures var r := Post(req, attempts, today, w);
      r.body == Error(InvalidType) ==> exists k | 0 <= k < MaxAttempts :: Usable(attempts[k])
  {
    var r := Post(req, attempts, today, w);
    if Truthy(req.url) && ExtractFive(req.url.value).Some? {
      assert r == AfterExtraction(req, ExtractFive(req.url.value).value, Retry(attempts), today, w);
    }
    RetrySucceedsIff(attempts);
  }

  /**
   * A 200 reports the first usable transcript's length (at least 50) and a
   * template built from that transcript for the requested type.
   */
  lemma PostSuccess(req: Request, attempts: seq<Attempt>, today: string, w: Wording)
    requires |attempts| == MaxAttempts
    requires Post(req, attempts, today, w).status == 200
    ensures var r := Post(req, attempts, today, w);
      && r.body.Mocked?
      && Some(r.body.videoId) == ExtractFive(req.url.value)
      && var k := Retry(attempts).calls - 1;
         && 0 <= k < MaxAttempts && Usable(attempts[k])
         && var t := TextOf(attempts[k].segments);
            && r.body.transcriptLength == |t| >= MinLength
            && (req.contentType == Some(StudyGuide) ==> r.body.content == StudyGuideContent(t, w))
            && (req.contentType == Some(BriefingDoc) ==> r.body.content == BriefingContent(t, today, w))
  {
    RetryOutcome(attempts);
  }
}
