/** The JSON request body the generation handlers read, the response
    envelope they answer with, and the specification block the two
    provider-backed handlers put in their prompts. */
module Api {
  import opened Wrappers
  import opened Strings

  /** The `keywords` field of a request body as JavaScript sees it: the create
      page sends the text of its input box, other callers may send a list. */
  datatype KeywordsValue =
    | KeywordList(items: seq<string>)
    | KeywordString(text: string)
    | KeywordsAbsent

  /** The fields every generation endpoint destructures from the body. */
  datatype Request = Request(
    topic: string,
    targetAudience: string,
    tone: string,
    wordCount: string,
    keywords: KeywordsValue)

  /** A value caught by a `catch` block: an `Error` (or any object with a
      `message` property) or something without a message. */
  datatype Thrown = ThrownError(message: string) | ThrownOther

  /** How a JavaScript call completed: with a value, or by throwing. */
  datatype Outcome<T> = Returned(value: T) | Threw(thrown: Thrown)

  /** The outcome of `await request.json()`: a parsed body, or the value it threw. */
  datatype Body = Parsed(request: Request) | Unparsable(thrown: Thrown)

  /** A JSON response: the HTTP status and the fields of the object sent. */
  datatype Response = Response(
    status: nat,
    success: bool,
    content: Option<string>,
    error: Option<string>,
    isDemo: Option<bool>)

  /** `NextResponse.json({ content, success: true })`, with `isDemo` when given. */
  function Succeeded(content: string, isDemo: Option<bool>): (r: Response)
    ensures Uniform(r) && r.success
    ensures r.content == Some(content) && r.isDemo == isDemo
  {
    Response(200, true, Some(content), None, isDemo)
  }

  /** `NextResponse.json({ error, success: false }, { status: 500 })`. */
  function Failed(error: string): (r: Response)
    ensures Uniform(r) && !r.success
    ensures r.error == Some(error) && r.isDemo.None?
  {
    Response(500, false, None, Some(error), None)
  }

  /** The envelope every endpoint keeps: a success carries content and
      status 200, a failure carries an error message and status 500. */
  predicate Uniform(r: Response)
  {
    || (r.success && r.status == 200 && r.content.Some? && r.error.None?)
    || (!r.success && r.status == 500 && r.content.None? && r.error.Some? && r.isDemo.None?)
  }

  /** The generic failure message of the provider-backed endpoints. */
  const RetryMessage: string :=
    "Failed to generate blog " + "post. Please try again."

  /** What the provider-backed generators return when the model's answer is empty. */
  const Placeholder: string := "Failed to " + "generate content"

  /** The message of the error those generators throw in place of any provider error. */
  const Unavailable: string :=
    "AI service temporarily " + "unavailable"

  /** An environment variable such as `GEMINI_API_KEY` is set and not empty. */
  predicate Configured(apiKey: Option<string>)
  {
    apiKey.Some? && apiKey.value != ""
  }

  /** `${keywords || 'N/A'}`: an absent or empty keyword string reads as
      "N/A"; a list (truthy even when empty) prints as its elements joined
      with commas. */
  function PromptKeywords(v: KeywordsValue): (r: string)
    ensures v.KeywordList? ==> forall i :: 0 <= i < |v.items| ==> Contains(r, v.items[i])
    ensures v.KeywordString? && v.text != "" ==> r == v.text
    ensures v.KeywordsAbsent? || v == KeywordString("") ==> r == "N/A"
  {
    match v
    case KeywordList(items) =>
      forall i | 0 <= i < |items| ensures Contains(Join(items, ","), items[i]) {
        JoinContains(items, ",", i);
      }
      Join(items, ",")
    case KeywordString(text) => if text == "" then "N/A" else text
    case KeywordsAbsent => "N/A"
  }

  const DefaultAudience: string := "General audience"

  /** `${audience || 'General audience'}`. */
  function PromptAudience(audience: string): string
  {
    if audience == "" then DefaultAudience else audience
  }

  const TopicLabel: string := "**Topic:** "
  const AudienceLabel: string := "**Target Audience:** "
  const ToneLabel: string := "**Tone:** "
  const WordCountLabel: string := "**Word Count:** " + "Approximately "
  const WordsSuffix: string := " words"
  const KeywordsLabel: string := "**SEO Keywords to " + "include:** "

  /** The five specification lines, one per request field. */
  function SpecificationLines(r: Request): seq<string>
  {
    [ TopicLabel + r.topic,
      AudienceLabel + PromptAudience(r.targetAudience),
      ToneLabel + r.tone,
      WordCountLabel + r.wordCount + WordsSuffix,
      KeywordsLabel + PromptKeywords(r.keywords) ]
  }

  /** The specification block of both prompt templates: the five lines,
      one under the other. */
  function SpecificationBlock(r: Request): string
  {
    Join(SpecificationLines(r), "\n")
  }

  /** The requirement and structure lists both prompt templates share. */
  const Requirements: string :=
    "**Requirements:**\n"
    + "1. Create an engaging " + "title\n"
    + "2. Write a compelling " + "introduction that hooks " + "the reader\n"
    + "3. Use clear headings " + "and subheadings for " + "better readability\n"
    + "4. Include practical " + "examples, tips, or " + "actionable advice\n"
    + "5. Maintain the " + "specified tone " + "throughout\n"
    + "6. Naturally " + "incorporate the SEO " + "keywords (if provided)\n"
    + "7. End with a strong " + "conclusion that " + "summarizes key points\n"
    + "8. Format the content " + "in markdown for easy " + "reading\n"
    + "\n"
    + "**Structure:**\n"
    + "- Title (H1)\n"
    + "- Introduction\n"
    + "- Main content sections " + "with appropriate " + "headings (H2, H3)\n"
    + "- Conclusion\n"
    + "- Optional " + "call-to-action"

  /** The prompt of a provider-backed endpoint: an opening sentence, the
      specification block, the requirements and a closing sentence,
      separated by blank lines. */
  function ProviderPrompt(opening: string, r: Request, closing: string): string
  {
    Join([opening, SpecificationBlock(r), Requirements, closing], "\n\n")
  }

  /** The prompt names every field of the request, and carries the
      requirements. */
  lemma ProviderPromptMentions(opening: string, r: Request, closing: string)
    ensures Contains(ProviderPrompt(opening, r, closing), r.topic)
    ensures Contains(ProviderPrompt(opening, r, closing), r.tone)
    ensures Contains(ProviderPrompt(opening, r, closing), r.wordCount)
    ensures Contains(ProviderPrompt(opening, r, closing), PromptAudience(r.targetAudience))
    ensures Contains(ProviderPrompt(opening, r, closing), PromptKeywords(r.keywords))
    ensures Contains(ProviderPrompt(opening, r, closing), Requirements)
    ensures Contains(ProviderPrompt(opening, r, closing), opening)
    ensures Contains(ProviderPrompt(opening, r, closing), closing)
  {
    var parts := [opening, SpecificationBlock(r), Requirements, closing];
    SpecificationBlockMentions(r);
    JoinContainsVia(parts, "\n\n", 1, r.topic);
    JoinContainsVia(parts, "\n\n", 1, r.tone);
    JoinContainsVia(parts, "\n\n", 1, r.wordCount);
    JoinContainsVia(parts, "\n\n", 1, PromptAudience(r.targetAudience));
    JoinContainsVia(parts, "\n\n", 1, PromptKeywords(r.keywords));
    JoinContains(parts, "\n\n", 2);
    JoinContains(parts, "\n\n", 0);
    JoinContains(parts, "\n\n", 3);
  }

  /** No request field spans a line break. */
  predicate SingleLineFields(r: Request)
  {
    '\n' !in r.topic && '\n' !in r.targetAudience && '\n' !in r.tone
    && '\n' !in r.wordCount && '\n' !in PromptKeywords(r.keywords)
  }

  /** Read line by line, the specification block gives each request field
      its own labelled line, in order, and nothing else. */
  lemma SpecificationBlockLines(r: Request)
    requires SingleLineFields(r)
    ensures Split(SpecificationBlock(r), '\n') == SpecificationLines(r)
  {
    LinesAreSingle(r);
    SplitJoin(SpecificationLines(r), '\n');
  }

  /** The block names every field: the topic, tone and word count verbatim,
      the audience and keywords with their defaults. */
  lemma SpecificationBlockMentions(r: Request)
    ensures forall i :: 0 <= i < 5 ==> Contains(SpecificationBlock(r), SpecificationLines(r)[i])
    ensures Contains(SpecificationBlock(r), r.topic) && Contains(SpecificationBlock(r), r.tone)
    ensures Contains(SpecificationBlock(r), r.wordCount)
    ensures Contains(SpecificationBlock(r), PromptAudience(r.targetAudience))
    ensures Contains(SpecificationBlock(r), PromptKeywords(r.keywords))
  {
    var ls := SpecificationLines(r);
    forall i | 0 <= i < 5 ensures Contains(SpecificationBlock(r), ls[i]) {
      JoinContains(ls, "\n", i);
    }
    ContainsInfix(TopicLabel, r.topic, "");
    assert ls[0] == TopicLabel + r.topic + "";
    ContainsTrans(SpecificationBlock(r), ls[0], r.topic);
    ContainsInfix(AudienceLabel, PromptAudience(r.targetAudience), "");
    assert ls[1] == AudienceLabel + PromptAudience(r.targetAudience) + "";
    ContainsTrans(SpecificationBlock(r), ls[1], PromptAudience(r.targetAudience));
    ContainsInfix(ToneLabel, r.tone, "");
    assert ls[2] == ToneLabel + r.tone + "";
    ContainsTrans(SpecificationBlock(r), ls[2], r.tone);
    ContainsInfix(WordCountLabel, r.wordCount, WordsSuffix);
    ContainsTrans(SpecificationBlock(r), ls[3], r.wordCount);
    ContainsInfix(KeywordsLabel, PromptKeywords(r.keywords), "");
    assert ls[4] == KeywordsLabel + PromptKeywords(r.keywords) + "";
    ContainsTrans(SpecificationBlock(r), ls[4], PromptKeywords(r.keywords));
  }

  lemma LinesAreSingle(r: Request)
    requires SingleLineFields(r)
    ensures forall i :: 0 <= i < |SpecificationLines(r)| ==> '\n' !in SpecificationLines(r)[i]
  {
    LabelsAreSingle();
    NoBreakAppend(TopicLabel, r.topic);
    NoBreakAppend(AudienceLabel, PromptAudience(r.targetAudience));
    NoBreakAppend(ToneLabel, r.tone);
    NoBreakAppend(WordCountLabel, r.wordCount);
    NoBreakAppend(WordCountLabel + r.wordCount, WordsSuffix);
    NoBreakAppend(KeywordsLabel, PromptKeywords(r.keywords));
  }

  /** The labels and fixed texts of the specification lines hold no line break. */
  lemma LabelsAreSingle()
    ensures '\n' !in DefaultAudience && '\n' !in TopicLabel && '\n' !in AudienceLabel
    ensures '\n' !in ToneLabel && '\n' !in WordCountLabel && '\n' !in WordsSuffix
    ensures '\n' !in KeywordsLabel
  {
    assert forall i :: 0 <= i < |DefaultAudience| ==> DefaultAudience[i] != '\n';
    assert forall i :: 0 <= i < |TopicLabel| ==> TopicLabel[i] != '\n';
    assert forall i :: 0 <= i < |AudienceLabel| ==> AudienceLabel[i] != '\n';
    assert forall i :: 0 <= i < |ToneLabel| ==> ToneLabel[i] != '\n';
    assert forall i :: 0 <= i < |WordCountLabel| ==> WordCountLabel[i] != '\n';
    assert forall i :: 0 <= i < |WordsSuffix| ==> WordsSuffix[i] != '\n';
    assert forall i :: 0 <= i < |KeywordsLabel| ==> KeywordsLabel[i] != '\n';
  }

  lemma NoBreakAppend(a: string, b: string)
    requires '\n' !in a && '\n' !in b
    ensures '\n' !in a + b
  {
  }
}
