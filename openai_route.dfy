/** An alternative `POST` handler for the blog generator, backed by OpenAI
    chat completions; its file is not named `route.ts`, so Next.js does not
    serve it. It checks that an API key is configured, asks the model for
    the post with a token budget derived from the requested word count, and
    answers every failure with one generic message. */
module OpenAiRoute {
  import opened Wrappers
  import opened Strings
  import opened Api

  const ConfigMessage: string :=
    "OpenAI API key not " + "configured. Please add " + "OPENAI_API_KEY to your "
    + "environment variables."

  const Model: string := "gpt-3.5-turbo"

  /** The system message sent ahead of the prompt. */
  const SystemMessage: string :=
    "You are a professional " + "blog writer and content " + "creator. Write " + "engaging, "
    + "well-structured blog " + "posts that are " + "informative, readable, "
    + "and optimized for the " + "target audience."

  const Opening: string :=
    "Write a comprehensive " + "blog post with the " + "following " + "specifications:"
  const Closing: string :=
    "Please ensure the " + "content is original, " + "informative, and "
    + "valuable to the target " + "audience."

  /** `createBlogPrompt`: the opening sentence, the specification block, the
      shared requirements and the closing sentence, separated by blank lines. */
  function Prompt(r: Request): string
  {
    ProviderPrompt(Opening, r, Closing)
  }

  /** The prompt carries its opening and closing sentences, the requirements
      and every field of the request, with the defaults for an empty
      audience and missing keywords. */
  lemma PromptMentions(r: Request)
    ensures Contains(Prompt(r), Opening) && Contains(Prompt(r), Closing)
    ensures Contains(Prompt(r), Requirements)
    ensures Contains(Prompt(r), r.topic) && Contains(Prompt(r), r.tone)
    ensures Contains(Prompt(r), r.wordCount)
    ensures Contains(Prompt(r), PromptAudience(r.targetAudience))
    ensures Contains(Prompt(r), PromptKeywords(r.keywords))
  {
    ProviderPromptMentions(Opening, r, Closing);
  }

  /** `Math.min(parseInt(wordCount) * 2, 4000)`: two tokens per requested
      word, capped at 4000; a word count that does not parse gives NaN. */
  function MaxTokens(wordCount: string): (t: Option<int>)
    ensures t.Some? <==> ParseInt(wordCount).Some?
    ensures t.Some? ==> t.value <= 4000 && t.value <= 2 * ParseInt(wordCount).value
    ensures t.Some? ==> t.value == 2 * ParseInt(wordCount).value || t.value == 4000
  {
    match ParseInt(wordCount)
    case None => None
    case Some(n) => Some(if n * 2 < 4000 then n * 2 else 4000)
  }

  /** Up to 2000 words the budget is exactly two tokens a word; from there on
      it stays at the cap. */
  lemma MaxTokensScale(wordCount: string)
    requires ParseInt(wordCount).Some?
    ensures ParseInt(wordCount).value <= 2000 ==> MaxTokens(wordCount) == Some(2 * ParseInt(wordCount).value)
    ensures ParseInt(wordCount).value >= 2000 ==> MaxTokens(wordCount) == Some(4000)
  {
  }

  /** The budgets the create form's four word counts lead to. */
  lemma MaxTokensPresets()
    ensures MaxTokens("300") == Some(600) && MaxTokens("500") == Some(1000)
    ensures MaxTokens("800") == Some(1600) && MaxTokens("1200") == Some(2400)
  {
    PresetNumbers();
  }

  /** The request sent to `openai.chat.completions.create`. */
  datatype ChatCall = ChatCall(
    model: string,
    system: string,
    user: string,
    maxTokens: Option<int>,
    temperature: real)

  function Call(r: Request): (c: ChatCall)
    ensures c.user == Prompt(r) && c.maxTokens == MaxTokens(r.wordCount)
  {
    ChatCall(Model, SystemMessage, Prompt(r), MaxTokens(r.wordCount), 0.7)
  }

  /** A completion as far as the route reads it: the message content of each
      choice, `None` where the message or its content is missing. */
  datatype Completion = Completion(choices: seq<Option<string>>)

  /** What the call came to: a completion, or the value it threw. */
  datatype OpenAiReply = Answered(completion: Completion) | CallThrew(thrown: Thrown)

  /** `completion.choices[0]?.message?.content || "Failed to generate content"`. */
  function FirstContent(c: Completion): (s: string)
    ensures s != ""
    ensures |c.choices| > 0 && c.choices[0].Some? && c.choices[0].value != "" ==> s == c.choices[0].value
    ensures |c.choices| == 0 || c.choices[0].None? || c.choices[0].value == "" ==> s == Placeholder
  {
    if |c.choices| > 0 && c.choices[0].Some? && c.choices[0].value != "" then c.choices[0].value
    else Placeholder
  }

  /** `generateAIBlogPost`: the first choice's content, or the error it
      throws in place of the provider's. */
  function Generate(reply: OpenAiReply): (o: Outcome<string>)
    ensures o.Returned? <==> reply.Answered?
    ensures o.Returned? ==> o.value == FirstContent(reply.completion)
    ensures o.Threw? ==> o.thrown == ThrownError(Unavailable)
  {
    match reply
    case Answered(c) => Returned(FirstContent(c))
    case CallThrew(_) => Threw(ThrownError(Unavailable))
  }

  /** One request: the response, and the call made to the model if any. */
  datatype Exchange = Exchange(response: Response, call: Option<ChatCall>)

  /** `POST`: the model is called only once the body has parsed and the key
      is set; whatever fails after that, the user sees the generic message. */
  function Post(body: Body, apiKey: Option<string>, reply: OpenAiReply): (x: Exchange)
    ensures Uniform(x.response) && x.response.isDemo.None?
    ensures x.call.Some? <==> body.Parsed? && Configured(apiKey)
    ensures x.call.Some? ==> x.call.value == Call(body.request)
    ensures x.response.success <==> x.call.Some? && reply.Answered?
    ensures x.response.success ==> x.response.content == Some(FirstContent(reply.completion))
    ensures !x.response.success ==>
      x.response.error == Some(if body.Parsed? && !Configured(apiKey) then ConfigMessage else RetryMessage)
  {
    match body
    case Unparsable(_) => Exchange(Failed(RetryMessage), None)
    case Parsed(r) =>
      if !Configured(apiKey) then Exchange(Failed(ConfigMessage), None)
      else
        match Generate(reply)
        case Returned(content) => Exchange(Succeeded(content, None), Some(Call(r)))
        case Threw(_) => Exchange(Failed(RetryMessage), Some(Call(r)))
  }
}
