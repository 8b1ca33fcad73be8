/** `POST /api/generate-blog` backed by Google Gemini: checks that an API key
    is configured, sends a prompt built from the request to the model, and
    turns thrown errors into user-facing messages by matching words in them. */
module GeminiRoute {
  import opened Wrappers
  import opened Strings
  import opened Api

  // ---------------------------------------------------------------------
  // Messages

  const ConfigMessage: string :=
    "Gemini API key not " + "configured. Please add " + "GEMINI_API_KEY to your "
    + "environment variables."
  const QuotaMessage: string :=
    "Gemini quota exceeded. " + "Please check your API " + "quota or use the demo "
    + "content option."
  const RateLimitMessage: string :=
    "Rate limit exceeded. " + "Please wait a moment " + "and try again."
  const InvalidKeyMessage: string :=
    "Invalid Gemini API key. " + "Please check your API " + "key configuration."
  const SafetyMessage: string :=
    "Content blocked by " + "safety filters. Please " + "try a different topic " + "or tone."


  // ---------------------------------------------------------------------
  // The prompt

  const Opening: string :=
    "You are a professional " + "blog writer and content " + "creator. Write a "
    + "comprehensive blog post " + "with the following " + "specifications:"
  const Closing: string :=
    "Please ensure the " + "content is original, " + "informative, and "
    + "valuable to the target " + "audience. Write " + "engaging, " + "well-structured content "
    + "that is optimized for " + "the specified audience."

  /** `createBlogPrompt`: the opening sentence, the specification block, the
      shared requirements and the closing sentence, separated by blank lines. */
  function Prompt(r: Request): string
  {
    ProviderPrompt(Opening, r, Closing)
  }

  /** The prompt carries its opening and closing sentences, the requirements
      and every field of the request, with the defaults for an empty
      audience and missing keywords. */
  lemma PromptMentions(r: Request)
    ensures Contains(Prompt(r), Opening) && Contains(Prompt(r), Closing)
    ensures Contains(Prompt(r), Requirements)
    ensures Contains(Prompt(r), r.topic) && Contains(Prompt(r), r.tone)
    ensures Contains(Prompt(r), r.wordCount)
    ensures Contains(Prompt(r), PromptAudience(r.targetAudience))
    ensures Contains(Prompt(r), PromptKeywords(r.keywords))
  {
    ProviderPromptMentions(Opening, r, Closing);
  }

  // ---------------------------------------------------------------------
  // Classifying errors

  /** The message words the handler looks for. */
  predicate MentionsQuota(m: string) { Contains(m, "quota") || Contains(m, "QUOTA_EXCEEDED") }
  predicate MentionsRate(m: string) { Contains(m, "rate") || Contains(m, "RATE_LIMIT") }
  predicate MentionsKey(m: string) { Contains(m, "API_KEY") || Contains(m, "authentication") }
  predicate MentionsSafety(m: string) { Contains(m, "SAFETY") }

  /** The `catch` block of `POST`: the first check that matches the error's
      message picks the answer; a value without a message, or a message that
      matches nothing, gets the generic one. */
  function Classify(t: Thrown): (m: string)
    ensures m in {RetryMessage, QuotaMessage, RateLimitMessage, InvalidKeyMessage, SafetyMessage}
    ensures t.ThrownOther? ==> m == RetryMessage
  {
    match t
    case ThrownOther => RetryMessage
    case ThrownError(msg) =>
      if MentionsQuota(msg) then QuotaMessage
      else if MentionsRate(msg) then RateLimitMessage
      else if MentionsKey(msg) then InvalidKeyMessage
      else if MentionsSafety(msg) then SafetyMessage
      else RetryMessage
  }

  /** A rule of the handler: the words that trigger it and the answer it gives. */
  datatype Rule = Rule(words: seq<string>, answer: string)

  /** The rules in the order the handler tries them. */
  function Rules(): seq<Rule>
  {
    [ Rule(["quota", "QUOTA_EXCEEDED"], QuotaMessage),
      Rule(["rate", "RATE_LIMIT"], RateLimitMessage),
      Rule(["API_KEY", "authentication"], InvalidKeyMessage),
      Rule(["SAFETY"], SafetyMessage) ]
  }

  predicate MatchesAny(m: string, words: seq<string>)
  {
    exists i :: 0 <= i < |words| && Contains(m, words[i])
  }

  /** The answer of the first rule one of whose words occurs in `m`. */
  function FirstMatch(rules: seq<Rule>, m: string, otherwise: string): string
    decreases |rules|
  {
    if rules == [] then otherwise
    else if MatchesAny(m, rules[0].words) then rules[0].answer
    else FirstMatch(rules[1..], m, otherwise)
  }

  /** The chain of checks is the rule table read top to bottom. */
  lemma ClassifyIsFirstMatch(m: string)
    ensures Classify(ThrownError(m)) == FirstMatch(Rules(), m, RetryMessage)
  {
    var rs := Rules();
    assert MatchesAny(m, rs[0].words) <==> MentionsQuota(m) by {
      if MentionsQuota(m) {
        if Contains(m, "quota") { assert rs[0].words[0] == "quota"; }
        else { assert rs[0].words[1] == "QUOTA_EXCEEDED"; }
      }
    }
    assert MatchesAny(m, rs[1].words) <==> MentionsRate(m) by {
      if MentionsRate(m) {
        if Contains(m, "rate") { assert rs[1].words[0] == "rate"; }
        else { assert rs[1].words[1] == "RATE_LIMIT"; }
      }
    }
    assert MatchesAny(m, rs[2].words) <==> MentionsKey(m) by {
      if MentionsKey(m) {
        if Contains(m, "API_KEY") { assert rs[2].words[0] == "API_KEY"; }
        else { assert rs[2].words[1] == "authentication"; }
      }
    }
    assert MatchesAny(m, rs[3].words) <==> MentionsSafety(m) by {
      if MentionsSafety(m) { assert rs[3].words[0] == "SAFETY"; }
    }
    assert rs[1..][1..][1..][1..] == [];
  }

  /** The generic answer comes back exactly when no checked word occurs. */
  lemma ClassifyDefaultIff(m: string)
    ensures Classify(ThrownError(m)) == RetryMessage
        <==> !MentionsQuota(m) && !MentionsRate(m) && !MentionsKey(m) && !MentionsSafety(m)
  {
    assert QuotaMessage[0] != RetryMessage[0];
    assert RateLimitMessage[0] != RetryMessage[0];
    assert InvalidKeyMessage[0] != RetryMessage[0];
    assert SafetyMessage[0] != RetryMessage[0];
  }

  /** The rate check matches the letters "rate" anywhere, so a message that
      says "generate" (without mentioning the quota) is reported as a rate limit. */
  lemma GenerateReadsAsRateLimit(m: string)
    requires Contains(m, "generate") && !MentionsQuota(m)
    ensures Classify(ThrownError(m)) == RateLimitMessage
  {
    ContainsInfix("gene", "rate", "");
    assert "gene" + "rate" + "" == "generate";
    ContainsTrans(m, "generate", "rate");
  }

  /** The generator's own error message matches none of the checks. */
  lemma UnavailableIsDefault()
    ensures Classify(ThrownError(Unavailable)) == RetryMessage
  {
    UnavailableLacksQuota();
    UnavailableLacksRate();
    UnavailableLacksKey();
    UnavailableLacksSafety();
  }

  /** None of the letters the patterns below turn on occurs in the message. */
  lemma UnavailableLacksLetters()
    ensures forall i :: 0 <= i < |Unavailable| ==> Unavailable[i] !in "qQR_hS"
  {
  }

  /** The positions that split the message into pieces too short to hold "rate". */
  lemma UnavailableRateCuts()
    ensures |Unavailable| == 34
    ensures forall i :: i in {3, 7, 10, 14, 15, 19, 23, 26, 29, 32} ==> Unavailable[i] !in "rate"
  {
  }

  lemma UnavailableLacksQuota()
    ensures !MentionsQuota(Unavailable)
  {
    UnavailableLacksLetters();
    NotContainsAbsent(Unavailable, "quota", 'q');
    NotContainsAbsent(Unavailable, "QUOTA_EXCEEDED", 'Q');
  }

  lemma UnavailableLacksRate()
    ensures !MentionsRate(Unavailable)
  {
    UnavailableLacksLetters();
    UnavailableRateCuts();
    NotContainsCuts(Unavailable, "rate", [3, 7, 10, 14, 15, 19, 23, 26, 29, 32]);
    NotContainsAbsent(Unavailable, "RATE_LIMIT", 'R');
  }

  lemma UnavailableLacksKey()
    ensures !MentionsKey(Unavailable)
  {
    UnavailableLacksLetters();
    NotContainsAbsent(Unavailable, "API_KEY", '_');
    NotContainsAbsent(Unavailable, "authentication", 'h');
  }

  lemma UnavailableLacksSafety()
    ensures !MentionsSafety(Unavailable)
  {
    UnavailableLacksLetters();
    NotContainsAbsent(Unavailable, "SAFETY", 'S');
  }

  // ---------------------------------------------------------------------
  // Calling the model and answering the request

  /** What `model.generateContent(prompt)` and `response.text()` came to:
      the text of the answer, or the value one of them threw. */
  datatype GeminiReply = ReplyText(text: string) | ReplyThrew(thrown: Thrown)

  /** `generateGeminiBlogPost` as written: empty text is replaced by the
      placeholder, and whatever the provider threw is replaced by an error
      of its own. */
  function GenerateAsWritten(reply: GeminiReply): (o: Outcome<string>)
    ensures o.Returned? <==> reply.ReplyText?
    ensures reply.ReplyText? ==> o == Returned(if reply.text == "" then Placeholder else reply.text)
    ensures o.Returned? ==> o.value != ""
    ensures o.Threw? ==> o.thrown == ThrownError(Unavailable)
  {
    match reply
    case ReplyText(text) => Returned(if text == "" then Placeholder else text)
    case ReplyThrew(_) => Threw(ThrownError(Unavailable))
  }

  /** The generator with the provider's error passed on, so that the
      handler's checks see the provider's message. */
  function Generate(reply: GeminiReply): (o: Outcome<string>)
    ensures o.Returned? <==> reply.ReplyText?
    ensures reply.ReplyText? ==> o == Returned(if reply.text == "" then Placeholder else reply.text)
    ensures o.Returned? ==> o.value != ""
    ensures o.Threw? ==> o.thrown == reply.thrown
  {
    match reply
    case ReplyText(text) => Returned(if text == "" then Placeholder else text)
    case ReplyThrew(thrown) => Threw(thrown)
  }

  /** One request: the response, and the prompt when the model was called. */
  datatype Exchange = Exchange(response: Response, prompt: Option<string>)

  /** The body of `POST`, given the body, the key and what the generator
      would come to. */
  function Handle(body: Body, apiKey: Option<string>, generated: Outcome<string>): (x: Exchange)
    ensures Uniform(x.response) && x.response.isDemo.None?
    ensures x.prompt.Some? <==> body.Parsed? && Configured(apiKey)
    ensures x.prompt.Some? ==> x.prompt.value == Prompt(body.request)
    ensures x.response.success <==> x.prompt.Some? && generated.Returned?
    ensures x.response.success ==> x.response.content == Some(generated.value)
    ensures body.Unparsable? ==> x.response.error == Some(Classify(body.thrown))
    ensures body.Parsed? && !Configured(apiKey) ==> x.response.error == Some(ConfigMessage)
    ensures x.prompt.Some? && generated.Threw? ==> x.response.error == Some(Classify(generated.thrown))
  {
    match body
    case Unparsable(thrown) => Exchange(Failed(Classify(thrown)), None)
    case Parsed(r) =>
      if !Configured(apiKey) then Exchange(Failed(ConfigMessage), None)
      else
        match generated
        case Returned(content) => Exchange(Succeeded(content, None), Some(Prompt(r)))
        case Threw(thrown) => Exchange(Failed(Classify(thrown)), Some(Prompt(r)))
  }

  /** `POST` as written: every failure of the provider reaches the user as
      the generic message, whatever the provider said. */
  function PostAsWritten(body: Body, apiKey: Option<string>, reply: GeminiReply): (x: Exchange)
    ensures Uniform(x.response) && x.response.isDemo.None?
    ensures x.prompt.Some? <==> body.Parsed? && Configured(apiKey)
    ensures x.prompt.Some? ==> x.prompt.value == Prompt(body.request)
    ensures x.response.success <==> x.prompt.Some? && reply.ReplyText?
    ensures x.response.success ==> x.response.content.value != ""
    ensures x.response.success
        ==> x.response.content == Some(if reply.text == "" then Placeholder else reply.text)
    ensures body.Unparsable? ==> x.response.error == Some(Classify(body.thrown))
    ensures body.Parsed? && !Configured(apiKey) ==> x.response.error == Some(ConfigMessage)
    ensures x.prompt.Some? && reply.ReplyThrew? ==> x.response.error == Some(RetryMessage)
  {
    UnavailableIsDefault();
    Handle(body, apiKey, GenerateAsWritten(reply))
  }

  /** `POST` with the provider's error passed on to the checks. */
  function Post(body: Body, apiKey: Option<string>, reply: GeminiReply): (x: Exchange)
    ensures Uniform(x.response) && x.response.isDemo.None?
    ensures x.prompt.Some? <==> body.Parsed? && Configured(apiKey)
    ensures x.prompt.Some? ==> x.prompt.value == Prompt(body.request)
    ensures x.response.success <==> x.prompt.Some? && reply.ReplyText?
    ensures x.response.success ==> x.response.content.value != ""
    ensures x.response.success
        ==> x.response.content == Some(if reply.text == "" then Placeholder else reply.text)
    ensures body.Unparsable? ==> x.response.error == Some(Classify(body.thrown))
    ensures body.Parsed? && !Configured(apiKey) ==> x.response.error == Some(ConfigMessage)
    ensures x.prompt.Some? && reply.ReplyThrew? ==> x.response.error == Some(Classify(reply.thrown))
  {
    Handle(body, apiKey, Generate(reply))
  }

  /** A provider error about the quota: the handler as written answers with
      the generic message, the corrected one with the quota message. */
  lemma QuotaErrorHidden(r: Request, key: string, m: string)
    requires key != "" && Contains(m, "quota")
    ensures PostAsWritten(Parsed(r), Some(key), ReplyThrew(ThrownError(m))).response.error
        == Some(RetryMessage)
    ensures Post(Parsed(r), Some(key), ReplyThrew(ThrownError(m))).response.error
        == Some(QuotaMessage)
    ensures RetryMessage != QuotaMessage
  {
    assert QuotaMessage[0] != RetryMessage[0];
  }
}
