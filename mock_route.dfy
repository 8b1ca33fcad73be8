/** The earlier, offline `POST` handler of the blog generator, kept beside
    the routed one but not served by Next.js: it fills a fixed
    markdown outline from the request, with an introduction and a conclusion
    chosen by tone, a main part that grows past 500 requested words, and a
    bullet list of key points that gains one point per keyword. */
module MockRoute {
  import opened Wrappers
  import opened Strings
  import opened Api

  const FailureMessage: string := "Failed to generate " + "blog post"

  // ---------------------------------------------------------------------
  // Tone tables

  /** A table entry: text around the one interpolated topic, which is
      lower-cased in every entry but two. */
  datatype Entry = Entry(before: string, lowered: bool, after: string)

  /** The topic as the entry shows it. */
  function Shown(e: Entry, topic: string): string
  {
    if e.lowered then Lower(topic) else topic
  }

  function Fill(e: Entry, topic: string): (s: string)
    ensures Contains(s, Shown(e, topic))
  {
    ContainsInfix(e.before, Shown(e, topic), e.after);
    e.before + Shown(e, topic) + e.after
  }

  /** The tones both tables have entries for. */
  predicate KnownTone(tone: string)
  {
    tone in {"professional", "casual", "friendly", "authoritative", "conversational"}
  }

  /** The `intros` table. */
  function IntroEntry(tone: string): Option<Entry>
  {
    if tone == "professional" then
      Some(Entry("In today's rapidly " + "evolving landscape, " + "understanding ", true,
        " has become " + "increasingly important " + "for businesses and "
        + "professionals alike."))
    else if tone == "casual" then
      Some(Entry("Hey there! Let's dive " + "into ", true,
        " and explore why it's " + "such a hot topic right " + "now."))
    else if tone == "friendly" then
      Some(Entry("Welcome! Today we're " + "going to explore ", true,
        " in a way that's easy " + "to understand and apply."))
    else if tone == "authoritative" then
      Some(Entry("", false,
        " represents a critical " + "aspect of modern " + "business strategy that "
        + "demands careful " + "consideration and " + "expert analysis."))
    else if tone == "conversational" then
      Some(Entry("Have you ever wondered " + "about ", true,
        "? Well, you're in the " + "right place to learn " + "all about it!"))
    else None
  }

  /** The `conclusions` table. */
  function ConclusionEntry(tone: string): Option<Entry>
  {
    if tone == "professional" then
      Some(Entry("In conclusion, ", true,
        " represents a " + "significant opportunity " + "for growth and " + "improvement. "
        + "Organizations that " + "embrace this approach " + "position themselves for "
        + "sustained success."))
    else if tone == "casual" then
      Some(Entry("So there you have it! ", false,
        " is definitely worth " + "your attention, and now " + "you've got the basics "
        + "to get started."))
    else if tone == "friendly" then
      Some(Entry("I hope this exploration " + "of ", true,
        " has been helpful! " + "Remember, the key is to " + "start small and build "
        + "from there."))
    else if tone == "authoritative" then
      Some(Entry("The evidence clearly " + "demonstrates that ", true,
        " is not merely a trend " + "but a fundamental shift " + "that requires immediate "
        + "attention and strategic " + "implementation."))
    else if tone == "conversational" then
      Some(Entry("What do you think about ", true,
        "? I'd love to hear your " + "thoughts and " + "experiences with this " + "topic!"))
    else None
  }

  /** Both tables have an entry for exactly the known tones. */
  lemma TablesCoverKnownTones(tone: string)
    ensures IntroEntry(tone).Some? <==> KnownTone(tone)
    ensures ConclusionEntry(tone).Some? <==> KnownTone(tone)
  {
  }

  /** `getIntroduction`: the tone's entry, or the professional one. It names
      the topic, as written only in the authoritative one and lower-cased in
      the others. */
  function Introduction(topic: string, tone: string): (s: string)
    ensures Contains(s, if tone == "authoritative" then topic else Lower(topic))
  {
    TablesCoverKnownTones(tone);
    Fill(IntroEntry(tone).GetOr(IntroEntry("professional").value), topic)
  }

  /** `getConclusion`: the tone's entry, or the professional one. It names
      the topic, as written only in the casual one and lower-cased in the
      others. */
  function Conclusion(topic: string, tone: string): (s: string)
    ensures Contains(s, if tone == "casual" then topic else Lower(topic))
  {
    TablesCoverKnownTones(tone);
    Fill(ConclusionEntry(tone).GetOr(ConclusionEntry("professional").value), topic)
  }

  /** An unknown tone reads as professional. */
  lemma UnknownToneIsProfessional(topic: string, tone: string)
    requires !KnownTone(tone)
    ensures Introduction(topic, tone) == Introduction(topic, "professional")
    ensures Conclusion(topic, tone) == Conclusion(topic, "professional")
  {
    TablesCoverKnownTones(tone);
  }

  // ---------------------------------------------------------------------
  // Main content

  /** `for ${audience}`, or "in today's context" for an empty audience. */
  function AudiencePhrase(audience: string): string
  {
    if audience == "" then "in today's " + "context" else "for " + audience
  }

  function BaseContent(topic: string, audience: string): seq<string>
  {
    [ "When we examine ",
      Lower(topic),
      ", several key factors " + "emerge that are " + "particularly relevant ",
      AudiencePhrase(audience),
      ".\n\n"
      + "First, it's important " + "to understand the " + "fundamental principles "
      + "that govern this area. " + "These principles have " + "evolved significantly "
      + "over time and continue " + "to shape how we " + "approach related " + "challenges.\n\n"
      + "Second, the practical " + "applications are vast " + "and varied. From " + "small-scale "
      + "implementations to " + "enterprise-level " + "solutions, the " + "versatility of this "
      + "approach makes it " + "valuable across " + "different contexts.\n\n"
      + "Third, the benefits " + "extend beyond immediate " + "results. Long-term "
      + "strategic advantages " + "include improved " + "efficiency, better "
      + "outcomes, and enhanced " + "competitive positioning." ]
  }

  function Extension(topic: string): seq<string>
  {
    [ "\n\n"
      + "## Deep Dive Analysis\n\n"
      + "Taking a deeper look at " + "the implications, we " + "can see how ",
      Lower(topic),
      " intersects with " + "various other important " + "considerations. This "
      + "interconnected nature " + "means that " + "understanding one " + "aspect often leads to "
      + "insights in related " + "areas.\n\n"
      + "The implementation " + "process typically " + "involves several "
      + "phases, each with its " + "own considerations and " + "best practices. Success "
      + "in this area often " + "depends on careful " + "planning, stakeholder "
      + "engagement, and " + "iterative improvement.\n\n"
      + "## Real-World " + "Applications\n\n"
      + "In practice, we see ",
      Lower(topic),
      " being applied across " + "various industries and " + "contexts. The "
      + "versatility of this " + "approach makes it " + "particularly valuable "
      + "for organizations " + "looking to improve " + "their operations and " + "outcomes." ]
  }

  /** `wordCount > 500` on the parsed count; NaN compares false. */
  predicate Extended(targetWords: Option<int>)
  {
    targetWords.Some? && targetWords.value > 500
  }

  /** `getMainContent`: the base text, followed by the deep dive and the
      applications above 500 words. */
  function MainContent(topic: string, audience: string, targetWords: Option<int>): (m: string)
    ensures Contains(m, Lower(topic)) && Contains(m, AudiencePhrase(audience))
    ensures Extended(targetWords) ==> Contains(m, Concat(Extension(topic)))
    ensures !Extended(targetWords) ==> m == Concat(BaseContent(topic, audience))
  {
    var base := Concat(BaseContent(topic, audience));
    var ext := Concat(Extension(topic));
    BaseContentMentions(topic, audience);
    ContainsAppend(base, ext, Lower(topic));
    ContainsAppend(base, ext, AudiencePhrase(audience));
    ContainsHalves(base, ext);
    if Extended(targetWords) then base + ext else base
  }

  lemma BaseContentMentions(topic: string, audience: string)
    ensures Contains(Concat(BaseContent(topic, audience)), Lower(topic))
    ensures Contains(Concat(BaseContent(topic, audience)), AudiencePhrase(audience))
  {
    ConcatContains(BaseContent(topic, audience), 1);
    ConcatContains(BaseContent(topic, audience), 3);
  }

  /** Of the create form's word counts, the two above 500 get the longer text. */
  lemma PresetsExtended()
    ensures !Extended(ParseInt("300")) && !Extended(ParseInt("500"))
    ensures Extended(ParseInt("800")) && Extended(ParseInt("1200"))
  {
    PresetNumbers();
  }

  // ---------------------------------------------------------------------
  // Key points

  /** `keywords ? keywords.split(',').map(k => k.trim()) : []`; `None` where
      `split` throws because the value is not a string (a list). */
  function KeywordList(v: KeywordsValue): (r: Option<seq<string>>)
    ensures r.None? <==> v.KeywordList?
    ensures v.KeywordString? && v.text != "" ==> r == Some(SplitAndTrim(v.text, ','))
    ensures v.KeywordsAbsent? || v == KeywordString("") ==> r == Some([])
  {
    match v
    case KeywordList(_) => None
    case KeywordString(text) => Some(if text == "" then [] else SplitAndTrim(text, ','))
    case KeywordsAbsent => Some([])
  }

  /** A non-empty keyword string gives one keyword more than it has commas. */
  lemma KeywordListCount(text: string)
    requires text != ""
    ensures KeywordList(KeywordString(text)) == Some(SplitAndTrim(text, ','))
    ensures |KeywordList(KeywordString(text)).value| == multiset(text)[','] + 1
  {
  }

  const PlanningPoint: string :=
    "Implementation requires " + "careful planning and " + "consideration"
  const BenefitsPoint: string :=
    "Benefits extend beyond " + "immediate improvements"
  const AdaptabilityPoint: string :=
    "Adaptability is key to " + "long-term success"

  function FixedPoints(topic: string): seq<string>
  {
    [ "Understanding " + Lower(topic) + " is essential " + "for modern success",
      PlanningPoint, BenefitsPoint, AdaptabilityPoint ]
  }

  /** The point added for a keyword, with its first letter capitalised. */
  function KeywordPoint(keyword: string): string
  {
    Capitalize(keyword) + " plays a crucial " + "role in the overall " + "strategy"
  }

  /** The four fixed points, then one per keyword. */
  function Points(topic: string, keywords: seq<string>): (r: seq<string>)
    ensures |r| == 4 + |keywords|
    ensures r[..4] == FixedPoints(topic)
    ensures forall i :: 0 <= i < |keywords| ==> r[4 + i] == KeywordPoint(keywords[i])
  {
    FixedPoints(topic) + seq(|keywords|, i requires 0 <= i < |keywords| => KeywordPoint(keywords[i]))
  }

  /** The bullet as the source file spells it: the bytes of "•" read as
      Windows-1252 text, then a space. */
  const BulletMark: string := "\U{00E2}\U{20AC}\U{00A2} "

  function Bullets(points: seq<string>): (r: seq<string>)
    ensures |r| == |points|
    ensures forall i :: 0 <= i < |points| ==> r[i] == BulletMark + points[i]
  {
    seq(|points|, i requires 0 <= i < |points| => BulletMark + points[i])
  }

  /** `getKeyPoints`: the points as bullets, one per line. */
  function KeyPoints(topic: string, keywords: seq<string>): (k: string)
    ensures forall i :: 0 <= i < |keywords| ==> Contains(k, Capitalize(keywords[i]))
  {
    BulletsMentionKeywords(topic, keywords);
    Join(Bullets(Points(topic, keywords)), "\n")
  }

  /** Read line by line, the key points are the bullets: four fixed ones and
      one per keyword, each line starting with the bullet mark. */
  lemma KeyPointLines(topic: string, keywords: seq<string>)
    requires '\n' !in topic
    requires forall i :: 0 <= i < |keywords| ==> '\n' !in keywords[i]
    ensures Split(KeyPoints(topic, keywords), '\n') == Bullets(Points(topic, keywords))
    ensures |Split(KeyPoints(topic, keywords), '\n')| == 4 + |keywords|
    ensures forall i :: 0 <= i < 4 + |keywords| ==>
              Split(KeyPoints(topic, keywords), '\n')[i][..|BulletMark|] == BulletMark
  {
    var ps := Points(topic, keywords);
    var bs := Bullets(ps);
    forall i | 0 <= i < |bs| ensures '\n' !in bs[i] {
      PointIsOneLine(topic, keywords, i);
      assert '\n' !in BulletMark;
    }
    SplitJoin(bs, '\n');
  }

  lemma PointIsOneLine(topic: string, keywords: seq<string>, i: int)
    requires '\n' !in topic
    requires forall i :: 0 <= i < |keywords| ==> '\n' !in keywords[i]
    requires 0 <= i < 4 + |keywords|
    ensures '\n' !in Points(topic, keywords)[i]
  {
    var ps := Points(topic, keywords);
    if i < 4 {
      FixedPointsOneLine(topic);
      assert ps[i] == ps[..4][i];
    } else {
      CapitalizeKeepsLines(keywords[i - 4]);
    }
  }

  lemma FixedPointsOneLine(topic: string)
    requires '\n' !in topic
    ensures forall i :: 0 <= i < 4 ==> '\n' !in FixedPoints(topic)[i]
  {
    LowerKeepsLines(topic);
    ConstantPointsOneLine();
  }

  lemma ConstantPointsOneLine()
    ensures '\n' !in PlanningPoint && '\n' !in BenefitsPoint && '\n' !in AdaptabilityPoint
  {
    assert forall i :: 0 <= i < |PlanningPoint| ==> PlanningPoint[i] != '\n';
    assert forall i :: 0 <= i < |BenefitsPoint| ==> BenefitsPoint[i] != '\n';
    assert forall i :: 0 <= i < |AdaptabilityPoint| ==> AdaptabilityPoint[i] != '\n';
  }

  /** Every keyword shows in the bullets, capitalised. */
  lemma BulletsMentionKeywords(topic: string, keywords: seq<string>)
    ensures forall i :: 0 <= i < |keywords| ==>
      Contains(Join(Bullets(Points(topic, keywords)), "\n"), Capitalize(keywords[i]))
  {
    forall i | 0 <= i < |keywords|
      ensures Contains(Join(Bullets(Points(topic, keywords)), "\n"), Capitalize(keywords[i])) {
      BulletMentionsKeyword(topic, keywords, i);
    }
  }

  lemma BulletMentionsKeyword(topic: string, keywords: seq<string>, i: int)
    requires 0 <= i < |keywords|
    ensures Contains(Join(Bullets(Points(topic, keywords)), "\n"), Capitalize(keywords[i]))
  {
    var ps := Points(topic, keywords);
    var bs := Bullets(ps);
    var tail := " plays a crucial " + "role in the overall " + "strategy";
    ContainsInfix(BulletMark, Capitalize(keywords[i]), tail);
    assert bs[4 + i] == BulletMark + Capitalize(keywords[i]) + tail;
    JoinContainsVia(bs, "\n", 4 + i, Capitalize(keywords[i]));
  }

  // ---------------------------------------------------------------------
  // The document and the endpoint

  function Footer(wordCount: string): string
  {
    "*This blog post was " + "generated using AI and " + "contains approximately "
    + wordCount + " words.*"
  }

  /** The four generated sections of the document. */
  datatype Sections = Sections(intro: string, main: string, keyPoints: string, conclusion: string)

  function SectionsFor(r: Request, keywords: seq<string>): Sections
  {
    Sections(Introduction(r.topic, r.tone),
             MainContent(r.topic, r.targetAudience, ParseInt(r.wordCount)),
             KeyPoints(r.topic, keywords),
             Conclusion(r.topic, r.tone))
  }

  /** The paragraphs of `generateMockBlogPost`'s template, which separates
      them by blank lines. */
  function Paragraphs(topic: string, s: Sections, wordCount: string): seq<string>
  {
    [ "# " + topic,
      "## Introduction", s.intro,
      "## Main Content", s.main,
      "## Key Points", s.keyPoints,
      "## Conclusion", s.conclusion,
      "---", Footer(wordCount) ]
  }

  function Layout(topic: string, s: Sections, wordCount: string): string
  {
    Join(Paragraphs(topic, s, wordCount), "\n\n")
  }

  /** The outline: the title, then the four sections under their headings
      in order, then the footer with the requested word count as sent. */
  lemma LayoutOutline(topic: string, s: Sections, wordCount: string)
    ensures InOrder(Layout(topic, s, wordCount),
                    [ "# " + topic, "## Introduction", s.intro, "## Main Content", s.main,
                      "## Key Points", s.keyPoints, "## Conclusion", s.conclusion,
                      "---", Footer(wordCount) ])
  {
    JoinInOrder(Paragraphs(topic, s, wordCount), "\n\n");
  }

  /** The first line is the topic as a level-one heading. */
  lemma LayoutTitle(topic: string, s: Sections, wordCount: string)
    requires '\n' !in topic
    ensures Split(Layout(topic, s, wordCount), '\n')[0] == "# " + topic
  {
    JoinFirstLine(Paragraphs(topic, s, wordCount));
  }

  /** What the main part or the key points contain, the document contains. */
  lemma LayoutContainsMain(topic: string, s: Sections, wordCount: string, x: string)
    requires Contains(s.main, x)
    ensures Contains(Layout(topic, s, wordCount), x)
  {
    JoinContainsVia(Paragraphs(topic, s, wordCount), "\n\n", 4, x);
  }

  lemma LayoutContainsKeyPoints(topic: string, s: Sections, wordCount: string, x: string)
    requires Contains(s.keyPoints, x)
    ensures Contains(Layout(topic, s, wordCount), x)
  {
    JoinContainsVia(Paragraphs(topic, s, wordCount), "\n\n", 6, x);
  }

  /** `generateMockBlogPost`, or `None` where it throws. */
  function Document(r: Request): (d: Option<string>)
    ensures d.Some? <==> !r.keywords.KeywordList?
  {
    match KeywordList(r.keywords)
    case None => None
    case Some(keywords) => Some(Layout(r.topic, SectionsFor(r, keywords), r.wordCount))
  }

  /** Above 500 requested words the document carries the deep dive, whatever
      the other sections say. */
  lemma LongLayoutExtended(topic: string, audience: string, targetWords: Option<int>,
                           s: Sections, wordCount: string)
    requires s.main == MainContent(topic, audience, targetWords) && Extended(targetWords)
    ensures Contains(Layout(topic, s, wordCount), Concat(Extension(topic)))
  {
    LayoutContainsMain(topic, s, wordCount, Concat(Extension(topic)));
  }

  /** Every keyword of the list the key points are built from appears in the
      document, capitalised. */
  lemma LayoutMentionsKeyword(topic: string, keywords: seq<string>, s: Sections,
                              wordCount: string, i: int)
    requires s.keyPoints == KeyPoints(topic, keywords) && 0 <= i < |keywords|
    ensures Contains(Layout(topic, s, wordCount), Capitalize(keywords[i]))
  {
    LayoutContainsKeyPoints(topic, s, wordCount, Capitalize(keywords[i]));
  }

  /** The response to a document, or to its absence. */
  function Respond(document: Option<string>): (resp: Response)
    ensures Uniform(resp) && resp.isDemo.None?
    ensures resp.success <==> document.Some?
    ensures resp.success ==> resp.content == document
    ensures !resp.success ==> resp.error == Some(FailureMessage)
  {
    match document
    case None => Failed(FailureMessage)
    case Some(d) => Succeeded(d, None)
  }

  /** `POST`: the document, or the fixed failure message where reading the
      body or building the document throws. */
  function Post(body: Body): (resp: Response)
    ensures Uniform(resp) && resp.isDemo.None?
    ensures resp.success <==> body.Parsed? && !body.request.keywords.KeywordList?
    ensures resp.success ==> resp.content == Document(body.request)
    ensures !resp.success ==> resp.error == Some(FailureMessage)
  {
    match body
    case Unparsable(_) => Failed(FailureMessage)
    case Parsed(r) => Respond(Document(r))
  }
}
