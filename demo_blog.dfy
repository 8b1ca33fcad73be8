/** The demo generator: three tone templates filled in from the request and
    laid out as a long guide or a short overview. */
module DemoBlog {
  import opened Wrappers
  import opened Strings
  import opened Api

  /** The values the templates interpolate. */
  datatype Values = Values(topic: string, audience: string, keywordText: string)

  /** A tone's introduction, body and conclusion. */
  datatype Template = Template(intro: string, body: string, conclusion: string)

  // ---------------------------------------------------------------------
  // The professional template

  function ProfessionalIntro(v: Values): seq<string>
  {
    [ "In today's rapidly " + "evolving landscape, " + "understanding ",
      v.topic,
      " has become " + "increasingly important " + "for ",
      v.audience,
      ". This comprehensive " + "guide will explore the " + "key aspects and "
      + "practical applications " + "that matter most." ]
  }

  function ProfessionalUnderstanding(v: Values): seq<string>
  {
    [ "## Understanding ",
      v.topic,
      "\n\n",
      v.topic,
      " represents a " + "significant opportunity " + "for ",
      v.audience,
      " looking to stay ahead " + "of the curve. By " + "focusing on ",
      v.keywordText,
      ", we can develop a " + "deeper understanding of " + "the core principles." ]
  }

  function ProfessionalBenefits(v: Values): seq<string>
  {
    [ "## Key Benefits and " + "Applications\n\n"
      + "When implementing " + "strategies around ",
      v.topic,
      ", consider these " + "essential factors:\n\n"
      + "1. **Strategic " + "Planning**: Develop a " + "comprehensive approach "
      + "that aligns with your " + "objectives\n"
      + "2. **Implementation**: " + "Focus on practical " + "steps that deliver "
      + "measurable results\n"
      + "3. **Optimization**: " + "Continuously refine " + "your approach based on "
      + "performance data" ]
  }

  function ProfessionalPractices(v: Values): seq<string>
  {
    [ "## Best Practices\n\n"
      + "To maximize the impact " + "of ",
      v.topic,
      " in your context, " + "consider these proven " + "strategies:\n\n"
      + "- Prioritize user " + "experience and " + "engagement\n"
      + "- Leverage data-driven " + "insights for decision " + "making\n"
      + "- Maintain consistency " + "across all touchpoints\n"
      + "- Monitor performance " + "metrics regularly" ]
  }

  function ProfessionalOutlook(v: Values): seq<string>
  {
    [ "## Looking Forward\n\n"
      + "The future of ",
      v.topic,
      " holds exciting " + "possibilities. By " + "staying informed about "
      + "emerging trends and " + "maintaining a " + "commitment to " + "excellence, ",
      v.audience,
      " can position " + "themselves for " + "long-term success." ]
  }

  function ProfessionalConclusion(v: Values): seq<string>
  {
    [ "Understanding ",
      v.topic,
      " is essential for any ",
      v.audience,
      " looking to thrive in " + "today's competitive " + "environment. By "
      + "implementing these " + "strategies and focusing " + "on continuous "
      + "improvement, you'll be " + "well-positioned to " + "achieve your goals." ]
  }

  /** The four sections of the professional body. */
  function ProfessionalSections(v: Values): seq<string>
  {
    [ Concat(ProfessionalUnderstanding(v)), Concat(ProfessionalBenefits(v)), Concat(ProfessionalPractices(v)), Concat(ProfessionalOutlook(v)) ]
  }

  /** The professional template; its body is its sections separated by blank lines. */
  function Professional(v: Values): Template
  {
    Template(Concat(ProfessionalIntro(v)), Join(ProfessionalSections(v), "\n\n"), Concat(ProfessionalConclusion(v)))
  }

  // ---------------------------------------------------------------------
  // The casual template

  function CasualIntro(v: Values): seq<string>
  {
    [ "Hey there! Let's talk " + "about ",
      v.topic,
      " - something that's " + "been buzzing around " + "lately and is super " + "relevant for ",
      v.audience,
      ". I'm excited to dive " + "into this with you!" ]
  }

  function CasualDeal(v: Values): seq<string>
  {
    [ "## What's the Deal with ",
      v.topic,
      "?\n\n"
      + "So, ",
      v.topic,
      " is actually pretty " + "cool when you think " + "about it. For ",
      v.audience,
      ", it's becoming one of " + "those things you just " + "can't ignore anymore. "
      + "The whole ",
      v.keywordText,
      " scene is really taking " + "off." ]
  }

  function CasualWhyCare(v: Values): seq<string>
  {
    [ "## Why Should You " + "Care?\n\n"
      + "Here's the thing - ",
      v.topic,
      " isn't just another " + "trend. It's actually " + "changing how we think " + "about:\n\n"
      + "- Making things easier " + "and more efficient\n"
      + "- Getting better " + "results with less " + "effort\n"
      + "- Staying ahead of " + "what's coming next" ]
  }

  function CasualGettingStarted(v: Values): seq<string>
  {
    [ "## Getting Started\n\n"
      + "Don't worry, you don't " + "need to be an expert to " + "begin with ",
      v.topic,
      ". Here are some simple " + "steps:\n\n"
      + "1. Start with the " + "basics and build from " + "there\n"
      + "2. Try things out and " + "see what works for you\n"
      + "3. Learn from others " + "who are doing it well\n"
      + "4. Keep experimenting " + "and improving" ]
  }

  function CasualRealTalk(v: Values): seq<string>
  {
    [ "## Real Talk\n\n"
      + "Look, ",
      v.topic,
      " might seem " + "overwhelming at first, " + "but once you get the "
      + "hang of it, it becomes " + "second nature. The key " + "is to start small and "
      + "grow from there." ]
  }

  function CasualConclusion(v: Values): seq<string>
  {
    [ "That's a wrap on ",
      v.topic,
      "! Remember, the best " + "way to get good at this " + "stuff is to just start "
      + "doing it. Don't " + "overthink it - jump in " + "and see what happens. "
      + "You've got this!" ]
  }

  /** The four sections of the casual body. */
  function CasualSections(v: Values): seq<string>
  {
    [ Concat(CasualDeal(v)), Concat(CasualWhyCare(v)), Concat(CasualGettingStarted(v)), Concat(CasualRealTalk(v)) ]
  }

  /** The casual template; its body is its sections separated by blank lines. */
  function Casual(v: Values): Template
  {
    Template(Concat(CasualIntro(v)), Join(CasualSections(v), "\n\n"), Concat(CasualConclusion(v)))
  }

  // ---------------------------------------------------------------------
  // The technical template

  function TechnicalIntro(v: Values): seq<string>
  {
    [ "This technical analysis " + "examines ",
      v.topic,
      " from an implementation " + "perspective, providing ",
      v.audience,
      " with actionable " + "insights and " + "methodological " + "approaches." ]
  }

  function TechnicalOverview(v: Values): seq<string>
  {
    [ "## Technical Overview\n\n",
      v.topic,
      " encompasses several " + "key components that " + "require careful "
      + "consideration during " + "implementation. The " + "integration of ",
      v.keywordText,
      " forms the foundation " + "of any robust solution." ]
  }

  function TechnicalArchitecture(v: Values): seq<string>
  {
    [ "## Architecture and " + "Implementation\n\n"
      + "### Core Components\n\n"
      + "The fundamental " + "architecture consists " + "of:\n\n"
      + "```\n"
      + "Component A → " + "Processing Layer → " + "Component B\n     " + "↓              "
      + "↓              ↓\n"
      + "Data Input → " + "Transformation → Output " + "Generation\n"
      + "```\n\n"
      + "### Technical " + "Specifications\n\n"
      + "When designing systems " + "around ",
      v.topic,
      ", consider these " + "parameters:\n\n"
      + "- **Scalability**: " + "Ensure the system can " + "handle increased load\n"
      + "- **Performance**: " + "Optimize for response " + "times and throughput  \n"
      + "- **Security**: " + "Implement proper " + "authentication and " + "authorization\n"
      + "- **Maintainability**: " + "Design for long-term " + "sustainability" ]
  }

  function TechnicalPractices(v: Values): seq<string>
  {
    [ "## Best Practices and " + "Patterns\n\n"
      + "### Design Patterns\n"
      + "- Implement modular " + "architecture for " + "flexibility\n"
      + "- Use dependency " + "injection for " + "testability\n"
      + "- Apply SOLID " + "principles throughout " + "development\n\n"
      + "### Performance " + "Optimization\n"
      + "- Cache frequently " + "accessed data\n"
      + "- Implement efficient " + "algorithms\n"
      + "- Monitor system " + "metrics continuously" ]
  }

  function TechnicalRoadmap(v: Values): seq<string>
  {
    [ "## Implementation " + "Roadmap\n\n"
      + "1. **Phase 1**: Core " + "infrastructure setup\n"
      + "2. **Phase 2**: Feature " + "development and testing\n"
      + "3. **Phase 3**: " + "Optimization and " + "scaling\n"
      + "4. **Phase 4**: " + "Monitoring and " + "maintenance" ]
  }

  function TechnicalConclusion(v: Values): seq<string>
  {
    [ "Successful " + "implementation of ",
      v.topic,
      " requires careful " + "planning, proper " + "architecture, and "
      + "ongoing optimization. " + "By following these " + "technical guidelines, ",
      v.audience,
      " can build robust, " + "scalable solutions." ]
  }

  /** The four sections of the technical body. */
  function TechnicalSections(v: Values): seq<string>
  {
    [ Concat(TechnicalOverview(v)), Concat(TechnicalArchitecture(v)), Concat(TechnicalPractices(v)), Concat(TechnicalRoadmap(v)) ]
  }

  /** The technical template; its body is its sections separated by blank lines. */
  function Technical(v: Values): Template
  {
    Template(Concat(TechnicalIntro(v)), Join(TechnicalSections(v), "\n\n"), Concat(TechnicalConclusion(v)))
  }

  /** `templates[tone] || templates.professional`: a tone without a template
      of its own, among them the form's friendly, authoritative and
      conversational, gets the professional one. Whatever the tone, the
      template chosen mentions every value. */
  function TemplateFor(tone: string, v: Values): (t: Template)
    ensures Mentions(t, v)
  {
    if tone == "casual" then
      CasualMentions(v);
      Casual(v)
    else if tone == "technical" then
      TechnicalMentions(v);
      Technical(v)
    else
      ProfessionalMentions(v);
      Professional(v)
  }

  // ---------------------------------------------------------------------
  // What the templates mention

  /** A template's introduction names the topic and the audience, its body
      the keyword text, and its conclusion the topic again. */
  predicate Mentions(t: Template, v: Values)
  {
    && Contains(t.intro, v.topic) && Contains(t.intro, v.audience)
    && Contains(t.body, v.keywordText)
    && Contains(t.conclusion, v.topic)
  }

  lemma ProfessionalIntroMentions(v: Values)
    ensures Contains(Concat(ProfessionalIntro(v)), v.topic)
    ensures Contains(Concat(ProfessionalIntro(v)), v.audience)
  {
    ConcatContains(ProfessionalIntro(v), 1);
    ConcatContains(ProfessionalIntro(v), 3);
  }

  lemma ProfessionalUnderstandingMentions(v: Values)
    ensures Contains(Concat(ProfessionalUnderstanding(v)), v.keywordText)
  {
    ConcatContains(ProfessionalUnderstanding(v), 7);
  }

  lemma ProfessionalConclusionMentions(v: Values)
    ensures Contains(Concat(ProfessionalConclusion(v)), v.topic)
  {
    ConcatContains(ProfessionalConclusion(v), 1);
  }

  /** The professional template mentions every value. */
  lemma ProfessionalMentions(v: Values)
    ensures Mentions(Professional(v), v)
  {
    ProfessionalIntroMentions(v);
    ProfessionalConclusionMentions(v);
    ProfessionalBodyMentions(v);
  }

  lemma ProfessionalBodyMentions(v: Values)
    ensures Contains(Join(ProfessionalSections(v), "\n\n"), v.keywordText)
  {
    ProfessionalUnderstandingMentions(v);
    JoinContainsVia(ProfessionalSections(v), "\n\n", 0, v.keywordText);
  }

  lemma CasualIntroMentions(v: Values)
    ensures Contains(Concat(CasualIntro(v)), v.topic)
    ensures Contains(Concat(CasualIntro(v)), v.audience)
  {
    ConcatContains(CasualIntro(v), 1);
    ConcatContains(CasualIntro(v), 3);
  }

  lemma CasualDealMentions(v: Values)
    ensures Contains(Concat(CasualDeal(v)), v.keywordText)
  {
    ConcatContains(CasualDeal(v), 7);
  }

  lemma CasualConclusionMentions(v: Values)
    ensures Contains(Concat(CasualConclusion(v)), v.topic)
  {
    ConcatContains(CasualConclusion(v), 1);
  }

  /** The casual template mentions every value. */
  lemma CasualMentions(v: Values)
    ensures Mentions(Casual(v), v)
  {
    CasualIntroMentions(v);
    CasualConclusionMentions(v);
    CasualBodyMentions(v);
  }

  lemma CasualBodyMentions(v: Values)
    ensures Contains(Join(CasualSections(v), "\n\n"), v.keywordText)
  {
    CasualDealMentions(v);
    JoinContainsVia(CasualSections(v), "\n\n", 0, v.keywordText);
  }

  lemma TechnicalIntroMentions(v: Values)
    ensures Contains(Concat(TechnicalIntro(v)), v.topic)
    ensures Contains(Concat(TechnicalIntro(v)), v.audience)
  {
    ConcatContains(TechnicalIntro(v), 1);
    ConcatContains(TechnicalIntro(v), 3);
  }

  lemma TechnicalOverviewMentions(v: Values)
    ensures Contains(Concat(TechnicalOverview(v)), v.keywordText)
  {
    ConcatContains(TechnicalOverview(v), 3);
  }

  lemma TechnicalConclusionMentions(v: Values)
    ensures Contains(Concat(TechnicalConclusion(v)), v.topic)
  {
    ConcatContains(TechnicalConclusion(v), 1);
  }

  /** The technical template mentions every value. */
  lemma TechnicalMentions(v: Values)
    ensures Mentions(Technical(v), v)
  {
    TechnicalIntroMentions(v);
    TechnicalConclusionMentions(v);
    TechnicalBodyMentions(v);
  }

  lemma TechnicalBodyMentions(v: Values)
    ensures Contains(Join(TechnicalSections(v), "\n\n"), v.keywordText)
  {
    TechnicalOverviewMentions(v);
    JoinContainsVia(TechnicalSections(v), "\n\n", 0, v.keywordText);
  }

  const DefaultKeywordText := "relevant keywords"

  /** The keyword text as the route computes it. A non-empty string has a
      length but no `join` method, so the route throws on it (None). */
  function KeywordTextAsWritten(v: KeywordsValue): (r: Option<string>)
    ensures r.None? <==> v.KeywordString? && v.text != ""
  {
    match v
    case KeywordList(items) => Some(if items == [] then DefaultKeywordText else Join(items, ", "))
    case KeywordString(text) => if text == "" then Some(DefaultKeywordText) else None
    case KeywordsAbsent => Some(DefaultKeywordText)
  }

  /** The keyword text with a comma-separated string read as its trimmed
      pieces, the way the create page's save handler reads the same field. */
  function KeywordText(v: KeywordsValue): (r: string)
    ensures KeywordTextAsWritten(v).Some? ==> r == KeywordTextAsWritten(v).value
  {
    if v.KeywordString? && v.text != "" then Join(SplitAndTrim(v.text, ','), ", ")
    else KeywordTextAsWritten(v).value
  }

  /** The keyword text names every keyword sent, and falls back to
      "relevant keywords" exactly when none was. */
  lemma KeywordTextMentions(v: KeywordsValue)
    ensures v.KeywordList? ==>
              forall i :: 0 <= i < |v.items| ==> Contains(KeywordText(v), v.items[i])
    ensures v.KeywordString? ==>
              forall i :: 0 <= i < |Split(v.text, ',')| && v.text != "" ==>
                Contains(KeywordText(v), Trim(Split(v.text, ',')[i]))
    ensures v == KeywordList([]) || v == KeywordString("") || v == KeywordsAbsent ==>
              KeywordText(v) == DefaultKeywordText
  {
    match v
    case KeywordList(items) =>
      forall i | 0 <= i < |items| ensures Contains(KeywordText(v), items[i]) {
        JoinContains(items, ", ", i);
      }
    case KeywordString(text) =>
      if text != "" {
        var pieces := SplitAndTrim(text, ',');
        forall i | 0 <= i < |Split(text, ',')| ensures Contains(KeywordText(v), Trim(Split(text, ',')[i])) {
          JoinContains(pieces, ", ", i);
        }
      }
    case KeywordsAbsent =>
  }

  /** `wordCount < 500` on the text the form sends: JavaScript converts the
      text to a number, and text that is not a number compares false. */
  predicate IsShort(wordCount: string)
  {
    match ToNumber(wordCount)
    case Some(n) => n < 500
    case None => false
  }

  /** Of the form's four word counts, only 300 gets the short document. */
  lemma WordCountPresets()
    ensures IsShort("300") && !IsShort("500") && !IsShort("800") && !IsShort("1200")
  {
    PresetNumbers();
  }

  // ---------------------------------------------------------------------
  // The two documents

  /** The benefit lead-in of the short document. */
  function BenefitsLead(v: Values): seq<string>
  {
    [ v.topic, " is essential for ", v.audience, ". Here are the main benefits:" ]
  }

  /** The benefit list of the short document. */
  function BenefitList(v: Values): seq<string>
  {
    [ "- Improved efficiency and results\n- Better understanding of ",
      v.keywordText,
      "\n- Competitive advantage in your field" ]
  }

  const GettingStarted :=
    "The best approach is to " + "start with the " + "fundamentals and build "
    + "your knowledge " + "gradually. Focus on " + "practical applications "
    + "that deliver immediate " + "value."

  const ShortFooter :=
    "*Demo content - Connect " + "your OpenAI API for " + "personalized "
    + "AI-generated blogs.*"

  const LongFooter :=
    "*This is a demo blog " + "post generated for " + "preview purposes. For "
    + "AI-powered content, " + "please ensure your " + "OpenAI API is properly "
    + "configured with " + "sufficient credits.*"

  /** The paragraphs of the short overview filled from template `t`. */
  function ShortParagraphs(v: Values, t: Template): seq<string>
  {
    [ "# " + Capitalize(v.topic), t.intro,
      "## Key Points", Concat(BenefitsLead(v)), Concat(BenefitList(v)),
      "## Getting Started", GettingStarted,
      t.conclusion, "---", ShortFooter ]
  }

  /** The paragraphs of the comprehensive guide filled from template `t`. */
  function LongParagraphs(v: Values, t: Template): seq<string>
  {
    [ "# " + Capitalize(v.topic) + ": A Comprehensive Guide", t.intro,
      t.body,
      "## Conclusion", t.conclusion, "---", LongFooter ]
  }

  /** The short overview below 500 words, the comprehensive guide otherwise,
      with paragraphs separated by blank lines. */
  function Layout(v: Values, wordCount: string, t: Template): string
  {
    if IsShort(wordCount) then Join(ShortParagraphs(v, t), "\n\n")
    else Join(LongParagraphs(v, t), "\n\n")
  }

  /** The document for a request and a keyword text. */
  function Document(r: Request, keywordText: string): string
  {
    var v := Values(r.topic, r.targetAudience, keywordText);
    Layout(v, r.wordCount, TemplateFor(r.tone, v))
  }

  /** `generateDemoBlogPost` as written: None where it throws, which is
      exactly for a keyword string that is not empty; wherever it returns,
      the post is the corrected one. */
  function GenerateAsWritten(r: Request): (o: Option<string>)
    ensures o.None? <==> r.keywords.KeywordString? && r.keywords.text != ""
    ensures o.Some? ==> o.value == Generate(r)
  {
    match KeywordTextAsWritten(r.keywords)
    case Some(keywordText) => Some(Document(r, keywordText))
    case None => None
  }

  /** `generateDemoBlogPost` with the keyword text corrected: the post names
      the topic, the audience and the keyword text. */
  function Generate(r: Request): (d: string)
    ensures Contains(d, r.topic) && Contains(d, r.targetAudience)
    ensures Contains(d, KeywordText(r.keywords))
  {
    DocumentMentions(r, KeywordText(r.keywords));
    Document(r, KeywordText(r.keywords))
  }

  const FailureMessage :=
    "Failed to generate demo " + "blog post. Please try " + "again."

  /** The POST handler as written. */
  function PostAsWritten(body: Body): (resp: Response)
    ensures Uniform(resp)
    ensures resp.success <==> body.Parsed? && GenerateAsWritten(body.request).Some?
    ensures resp.success ==> resp.content == GenerateAsWritten(body.request) && resp.isDemo == Some(true)
    ensures !resp.success ==> resp.error == Some(FailureMessage)
  {
    match body
    case Unparsable(_) => Failed(FailureMessage)
    case Parsed(r) =>
      match GenerateAsWritten(r)
      case Some(content) => Succeeded(content, Some(true))
      case None => Failed(FailureMessage)
  }

  /** The POST handler over the corrected generator: every parsed body
      succeeds, and where the handler as written succeeds the two agree. */
  function Post(body: Body): (resp: Response)
    ensures Uniform(resp)
    ensures resp.success <==> body.Parsed?
    ensures resp.success ==> resp.content == Some(Generate(body.request)) && resp.isDemo == Some(true)
    ensures !resp.success ==> resp.error == Some(FailureMessage)
    ensures PostAsWritten(body).success ==> resp == PostAsWritten(body)
  {
    match body
    case Unparsable(_) => Failed(FailureMessage)
    case Parsed(r) => Succeeded(Generate(r), Some(true))
  }

  /** The first line is the title: the capitalised topic, followed by
      ": A Comprehensive Guide" in the long document only. */
  lemma LayoutTitle(v: Values, wordCount: string, t: Template)
    requires '\n' !in v.topic
    ensures Split(Layout(v, wordCount, t), '\n')[0] ==
              "# " + Capitalize(v.topic) + (if IsShort(wordCount) then "" else ": A Comprehensive Guide")
  {
    if IsShort(wordCount) {
      ShortTitle(v, t);
    } else {
      LongTitle(v, t);
    }
  }

  lemma ShortTitle(v: Values, t: Template)
    requires '\n' !in v.topic
    ensures Split(Join(ShortParagraphs(v, t), "\n\n"), '\n')[0] == "# " + Capitalize(v.topic)
  {
    CapitalizeKeepsLines(v.topic);
    JoinFirstLine(ShortParagraphs(v, t));
  }

  lemma LongTitle(v: Values, t: Template)
    requires '\n' !in v.topic
    ensures Split(Join(LongParagraphs(v, t), "\n\n"), '\n')[0]
              == "# " + Capitalize(v.topic) + ": A Comprehensive Guide"
  {
    CapitalizeKeepsLines(v.topic);
    assert forall i :: 0 <= i < |": A Comprehensive Guide"| ==> ": A Comprehensive Guide"[i] != '\n';
    JoinFirstLine(LongParagraphs(v, t));
  }

  /** The document lays out its sections in order: title, introduction,
      then the key points, the advice on getting started and the conclusion
      (short) or the body and conclusion (long), then the footer. */
  lemma LayoutOutline(v: Values, wordCount: string, t: Template)
    ensures IsShort(wordCount) ==> InOrder(Layout(v, wordCount, t), ShortParagraphs(v, t))
    ensures !IsShort(wordCount) ==> InOrder(Layout(v, wordCount, t), LongParagraphs(v, t))
  {
    if IsShort(wordCount) {
      JoinInOrder(ShortParagraphs(v, t), "\n\n");
    } else {
      JoinInOrder(LongParagraphs(v, t), "\n\n");
    }
  }

  /** The short overview leaves the template body out: replacing the body
      changes nothing in it. */
  lemma ShortIgnoresBody(v: Values, wordCount: string, t: Template, body: string)
    requires IsShort(wordCount)
    ensures Layout(v, wordCount, t) == Layout(v, wordCount, t.(body := body))
  {
    assert ShortParagraphs(v, t) == ShortParagraphs(v, t.(body := body));
  }

  /** A template that mentions every value gives a document, long or short,
      that names the topic, the audience and the keyword text. */
  lemma LayoutMentions(v: Values, wordCount: string, t: Template)
    requires Mentions(t, v)
    ensures Contains(Layout(v, wordCount, t), v.topic)
    ensures Contains(Layout(v, wordCount, t), v.audience)
    ensures Contains(Layout(v, wordCount, t), v.keywordText)
  {
    if IsShort(wordCount) {
      ShortMentions(v, t);
    } else {
      LongMentions(v, t);
    }
  }

  lemma ShortMentions(v: Values, t: Template)
    requires Mentions(t, v)
    ensures Contains(Join(ShortParagraphs(v, t), "\n\n"), v.topic)
    ensures Contains(Join(ShortParagraphs(v, t), "\n\n"), v.audience)
    ensures Contains(Join(ShortParagraphs(v, t), "\n\n"), v.keywordText)
  {
    var ps := ShortParagraphs(v, t);
    JoinContainsVia(ps, "\n\n", 1, v.topic);
    JoinContainsVia(ps, "\n\n", 1, v.audience);
    ConcatContains(BenefitList(v), 1);
    JoinContainsVia(ps, "\n\n", 4, v.keywordText);
  }

  lemma LongMentions(v: Values, t: Template)
    requires Mentions(t, v)
    ensures Contains(Join(LongParagraphs(v, t), "\n\n"), v.topic)
    ensures Contains(Join(LongParagraphs(v, t), "\n\n"), v.audience)
    ensures Contains(Join(LongParagraphs(v, t), "\n\n"), v.keywordText)
  {
    var ps := LongParagraphs(v, t);
    JoinContainsVia(ps, "\n\n", 1, v.topic);
    JoinContainsVia(ps, "\n\n", 1, v.audience);
    JoinContainsVia(ps, "\n\n", 2, v.keywordText);
  }

  /** A tone without a template of its own, among them the form's friendly,
      authoritative and conversational, gets the professional template. */
  lemma TemplateFallback(tone: string, v: Values)
    requires tone != "casual" && tone != "technical"
    ensures TemplateFor(tone, v) == Professional(v)
  {
  }

  /** Both documents name the topic, the audience and the keyword text. */
  lemma DocumentMentions(r: Request, keywordText: string)
    ensures Contains(Document(r, keywordText), r.topic)
    ensures Contains(Document(r, keywordText), r.targetAudience)
    ensures Contains(Document(r, keywordText), keywordText)
  {
    var v := Values(r.topic, r.targetAudience, keywordText);
    LayoutMentions(v, r.wordCount, TemplateFor(r.tone, v));
  }

  /** With the corrected keyword text, every request the create page can
      send succeeds, and the demo post names each keyword typed. */
  lemma DemoPostNamesKeywords(r: Request)
    ensures Post(Parsed(r)).success
    ensures r.keywords.KeywordList? ==>
              forall i :: 0 <= i < |r.keywords.items| ==> Contains(Generate(r), r.keywords.items[i])
    ensures r.keywords.KeywordString? ==>
              forall i :: 0 <= i < |Split(r.keywords.text, ',')| && r.keywords.text != "" ==>
                Contains(Generate(r), Trim(Split(r.keywords.text, ',')[i]))
  {
    var kt := KeywordText(r.keywords);
    DocumentMentions(r, kt);
    KeywordTextMentions(r.keywords);
    if r.keywords.KeywordList? {
      forall i | 0 <= i < |r.keywords.items| ensures Contains(Generate(r), r.keywords.items[i]) {
        ContainsTrans(Generate(r), kt, r.keywords.items[i]);
      }
    } else if r.keywords.KeywordString? && r.keywords.text != "" {
      var sp := Split(r.keywords.text, ',');
      forall i | 0 <= i < |sp| ensures Contains(Generate(r), Trim(sp[i])) {
        ContainsTrans(Generate(r), kt, Trim(sp[i]));
      }
    }
  }

  /** As written, the route fails on every request whose keywords arrive
      as a non-empty string, which is how the create page sends them. */
  lemma KeywordStringFailsAsWritten(r: Request)
    requires r.keywords.KeywordString? && r.keywords.text != ""
    ensures PostAsWritten(Parsed(r)) == Failed(FailureMessage)
    ensures Post(Parsed(r)).success
  {
  }
}
