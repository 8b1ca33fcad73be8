/** The create page: a form that asks one of the generation routes for a post,
    shows what came back (the draft, or an error with hints on how to fix it),
    and saves the draft for the signed-in user. */
module CreatePage {
  import opened Wrappers
  import opened Strings
  import opened Api
  import opened Posts
  import GeminiRoute

  /** The form fields, all kept as the text the inputs hold. */
  datatype FormData = FormData(
    topic: string,
    targetAudience: string,
    tone: string,
    wordCount: string,
    keywords: string)

  const InitialForm := FormData("", "", "professional", "500", "")

  /** The options of the tone and word-count selects. */
  const FormTones: seq<string> :=
    ["professional", "casual", "technical", "friendly", "authoritative", "conversational"]
  const WordCountOptions: seq<string> := ["300", "500", "800", "1200"]

  /** What `fetch` followed by `response.json()` came to: the parsed result,
      or the value one of them threw. */
  datatype Reply = Answered(result: Response) | RequestThrew(thrown: Thrown)

  /** The messages shown when the failure carries no message of its own. */
  const GenerateFallback := "Failed to generate blog post"
  const DemoFallback := "Failed to generate demo blog post"

  /** What the page shows once a generation attempt is over. */
  datatype Display = Display(content: string, error: string)

  /** The outcome of `handleGenerate` (with `GenerateFallback`) and of
      `handleDemoGenerate` (with `DemoFallback`): a successful result shows its
      content; a failed one is rethrown as `new Error(result.error)`, whose
      message is the empty string when the result has no error; a thrown
      `Error` shows its message and any other thrown value the fallback. */
  function Displayed(reply: Reply, fallback: string): (d: Display)
    ensures d.content == "" || d.error == ""
    ensures reply.Answered? && reply.result.success ==> d == Display(reply.result.content.GetOr(""), "")
    ensures reply.Answered? && !reply.result.success ==> d == Display("", reply.result.error.GetOr(""))
    ensures reply.RequestThrew? ==> d.content == ""
    ensures reply == RequestThrew(ThrownOther) ==> d.error == fallback
    ensures reply.RequestThrew? && reply.thrown.ThrownError? ==> d.error == reply.thrown.message
  {
    match reply
    case Answered(result) =>
      if result.success then Display(result.content.GetOr(""), "")
      else Display("", result.error.GetOr(""))
    case RequestThrew(ThrownError(message)) => Display("", message)
    case RequestThrew(ThrownOther) => Display("", fallback)
  }

  /** A failed result without an error text leaves the page showing neither
      a draft nor an error. */
  lemma SilentFailure(result: Response, fallback: string)
    requires !result.success && result.error.GetOr("") == ""
    ensures Displayed(Answered(result), fallback) == Display("", "")
  {
  }

  // ---------------------------------------------------------------------
  // Hints under the error

  /** The three hint blocks, in page order. */
  datatype Hint = KeyHint | QuotaHint | RateLimitHint

  /** Whether the page as written shows a hint: each looks for a phrase in the
      error, case-sensitively. */
  predicate ShowsAsWritten(error: string, h: Hint)
  {
    error != "" &&
    match h
    case KeyHint => Contains(error, "Gemini API key")
    case QuotaHint => Contains(error, "quota")
    case RateLimitHint => Contains(error, "rate limit")
  }

  /** The hints with the rate-limit phrase looked for regardless of case, so
      that the route's own rate-limit message, which starts with a capital
      letter, finds its hint. */
  predicate Shows(error: string, h: Hint)
  {
    error != "" &&
    match h
    case KeyHint => Contains(error, "Gemini API key")
    case QuotaHint => Contains(error, "quota")
    case RateLimitHint => Contains(Lower(error), "rate limit")
  }

  /** The hint blocks the page as written shows under an error, in page order. */
  function HintsForAsWritten(error: string): (r: seq<Hint>)
    ensures forall h :: h in r <==> ShowsAsWritten(error, h)
    ensures |r| <= 3
  {
    (if ShowsAsWritten(error, KeyHint) then [KeyHint] else [])
    + (if ShowsAsWritten(error, QuotaHint) then [QuotaHint] else [])
    + (if ShowsAsWritten(error, RateLimitHint) then [RateLimitHint] else [])
  }

  /** The hint blocks shown under an error with the corrected rate-limit
      check, in page order. */
  function HintsFor(error: string): (r: seq<Hint>)
    ensures forall h :: h in r <==> Shows(error, h)
    ensures |r| <= 3
  {
    (if Shows(error, KeyHint) then [KeyHint] else [])
    + (if Shows(error, QuotaHint) then [QuotaHint] else [])
    + (if Shows(error, RateLimitHint) then [RateLimitHint] else [])
  }

  /** The corrected check finds whatever the written one finds. */
  lemma ShowsExtends(error: string, h: Hint)
    requires ShowsAsWritten(error, h)
    ensures Shows(error, h)
  {
    if h == RateLimitHint {
      ContainsLower(error, "rate limit");
      assert Lower("rate limit") == "rate limit";
    }
  }

  /** The messages a failed answer of the Gemini route can carry. */
  predicate IsGeminiMessage(m: string)
  {
    m in {GeminiRoute.ConfigMessage, RetryMessage, GeminiRoute.QuotaMessage,
          GeminiRoute.RateLimitMessage, GeminiRoute.InvalidKeyMessage, GeminiRoute.SafetyMessage}
  }

  /** Every failed answer of the Gemini route, as written or corrected,
      carries one of its messages. */
  lemma GeminiFailureMessage(body: Body, apiKey: Option<string>, reply: GeminiRoute.GeminiReply)
    requires !GeminiRoute.Post(body, apiKey, reply).response.success
    ensures GeminiRoute.Post(body, apiKey, reply).response.error.Some?
    ensures IsGeminiMessage(GeminiRoute.Post(body, apiKey, reply).response.error.value)
    ensures !GeminiRoute.PostAsWritten(body, apiKey, reply).response.success
    ensures GeminiRoute.PostAsWritten(body, apiKey, reply).response.error.Some?
    ensures IsGeminiMessage(GeminiRoute.PostAsWritten(body, apiKey, reply).response.error.value)
  {
  }

  /** The rate-limit phrase in lower case is in the route's rate-limit
      message only: the other messages have no window that could hold it. */
  lemma RateLimitPhraseOnlyInRateLimitMessage(m: string)
    requires IsGeminiMessage(m)
    ensures Contains(Lower(m), "rate limit") <==> m == GeminiRoute.RateLimitMessage
  {
    RateLimitMessageLowered();
    OtherMessagesLackPhrase();
  }

  lemma RateLimitMessageLowered()
    ensures Contains(Lower(GeminiRoute.RateLimitMessage), "rate limit")
  {
    var s := Lower(GeminiRoute.RateLimitMessage);
    assert GeminiRoute.RateLimitMessage[..10] == "Rate limit";
    assert s[..10] == "rate limit";
    ContainsAt(s, "rate limit", 0);
  }

  lemma OtherMessagesLackPhrase()
    ensures !Contains(Lower(GeminiRoute.ConfigMessage), "rate limit")
    ensures !Contains(Lower(GeminiRoute.QuotaMessage), "rate limit")
    ensures !Contains(Lower(GeminiRoute.InvalidKeyMessage), "rate limit")
    ensures !Contains(Lower(RetryMessage), "rate limit")
    ensures !Contains(Lower(GeminiRoute.SafetyMessage), "rate limit")
  {
    ConfigLacksPhrase();
    QuotaLacksPhrase();
    InvalidKeyLacksPhrase();
    RetryLacksM();
    LacksPhraseWithoutM(RetryMessage);
    SafetyLacksM();
    LacksPhraseWithoutM(GeminiRoute.SafetyMessage);
  }

  /** A character that is none of the phrase's letters in either case, nor a space. */
  predicate ClearOfPhrase(c: char)
  {
    c !in "ratelimRATELIM "
  }

  /** No window of the lowered `s` holds the phrase when the positions `cuts`,
      close enough together, hold characters clear of it. */
  lemma LoweredCuts(s: string, cuts: seq<int>)
    requires |cuts| > 0
    requires forall i :: 0 <= i < |cuts| ==> 0 <= cuts[i] < |s| && ClearOfPhrase(s[cuts[i]])
    requires forall i :: 0 <= i < |cuts| - 1 ==> cuts[i] < cuts[i + 1] <= cuts[i] + 10
    requires cuts[0] < 10 && |s| - 1 - cuts[|cuts| - 1] < 10
    ensures !Contains(Lower(s), "rate limit")
  {
    forall i | 0 <= i < |cuts| ensures Lower(s)[cuts[i]] !in "rate limit" {
      assert Lower(s)[cuts[i]] == LowerChar(s[cuts[i]]);
    }
    NotContainsCuts(Lower(s), "rate limit", cuts);
  }

  /** A message with no `m` of either case has none once lowered. */
  lemma LacksPhraseWithoutM(m: string)
    requires forall i :: 0 <= i < |m| ==> m[i] != 'm' && m[i] != 'M'
    ensures !Contains(Lower(m), "rate limit")
  {
    assert "rate limit"[7] == 'm';
    NotContainsAbsent(Lower(m), "rate limit", 'm');
  }

  lemma RetryLacksM()
    ensures forall i :: 0 <= i < |RetryMessage| ==> RetryMessage[i] != 'm' && RetryMessage[i] != 'M'
  {
  }

  lemma SafetyLacksM()
    ensures forall i :: 0 <= i < |GeminiRoute.SafetyMessage| ==>
      GeminiRoute.SafetyMessage[i] != 'm' && GeminiRoute.SafetyMessage[i] != 'M'
  {
    SafetyStartLacksM();
  }

  lemma SafetyStartLacksM()
    ensures |GeminiRoute.SafetyMessage| == 72
    ensures forall i :: 0 <= i < 36 ==> GeminiRoute.SafetyMessage[i] != 'm' && GeminiRoute.SafetyMessage[i] != 'M'
  {
  }

  lemma ConfigCutChars()
    ensures |GeminiRoute.ConfigMessage| == 87
    ensures forall i :: i in {8, 16, 25, 35} ==> ClearOfPhrase(GeminiRoute.ConfigMessage[i])
  {
  }

  lemma ConfigLaterCutChars()
    ensures |GeminiRoute.ConfigMessage| == 87
    ensures forall i :: i in {42, 52, 62, 71, 77} ==> ClearOfPhrase(GeminiRoute.ConfigMessage[i])
  {
  }

  lemma ConfigLacksPhrase()
    ensures !Contains(Lower(GeminiRoute.ConfigMessage), "rate limit")
  {
    ConfigCutChars();
    ConfigLaterCutChars();
    LoweredCuts(GeminiRoute.ConfigMessage, [8, 16, 25, 35, 42, 52, 62, 71, 77]);
  }

  lemma QuotaCutChars()
    ensures |GeminiRoute.QuotaMessage| == 82
    ensures forall i :: i in {9, 18, 27, 37} ==> ClearOfPhrase(GeminiRoute.QuotaMessage[i])
  {
    assert GeminiRoute.QuotaMessage[9] == 'o' && GeminiRoute.QuotaMessage[18] == 'd';
  }

  lemma QuotaLaterCutChars()
    ensures |GeminiRoute.QuotaMessage| == 82
    ensures forall i :: i in {47, 55, 65, 75} ==> ClearOfPhrase(GeminiRoute.QuotaMessage[i])
  {
  }

  lemma QuotaLacksPhrase()
    ensures !Contains(Lower(GeminiRoute.QuotaMessage), "rate limit")
  {
    QuotaCutChars();
    QuotaLaterCutChars();
    LoweredCuts(GeminiRoute.QuotaMessage, [9, 18, 27, 37, 47, 55, 65, 75]);
  }

  lemma InvalidKeyCutChars()
    ensures |GeminiRoute.InvalidKeyMessage| == 64
    ensures forall i :: i in {8, 16, 24, 34} ==> ClearOfPhrase(GeminiRoute.InvalidKeyMessage[i])
  {
  }

  lemma InvalidKeyLaterCutChars()
    ensures |GeminiRoute.InvalidKeyMessage| == 64
    ensures forall i :: i in {43, 53, 63} ==> ClearOfPhrase(GeminiRoute.InvalidKeyMessage[i])
  {
  }

  lemma InvalidKeyLacksPhrase()
    ensures !Contains(Lower(GeminiRoute.InvalidKeyMessage), "rate limit")
  {
    InvalidKeyCutChars();
    InvalidKeyLaterCutChars();
    LoweredCuts(GeminiRoute.InvalidKeyMessage, [8, 16, 24, 34, 43, 53, 63]);
  }

  /** The page as written never shows the rate-limit hint for the route's
      rate-limit message: the message says "Rate limit" with a capital R. */
  lemma RateLimitHintHiddenAsWritten()
    ensures !ShowsAsWritten(GeminiRoute.RateLimitMessage, RateLimitHint)
    ensures Shows(GeminiRoute.RateLimitMessage, RateLimitHint)
  {
    var m := GeminiRoute.RateLimitMessage;
    assert |m| == 56;
    assert forall i :: 0 <= i < 47 ==> m[i] != 'r';
    assert m[0..|m| - 10 + 1] == m[..47];
    NotContainsWindow(m, "rate limit", 0);
    RateLimitMessageLowered();
  }

  /** After any failed call of the Gemini route as written, and of the
      corrected route too, the page as written shows no rate-limit hint: the
      case-sensitive phrase is in none of the route's messages. */
  lemma GeminiRateLimitHintNeverShownAsWritten(body: Body, apiKey: Option<string>, reply: GeminiRoute.GeminiReply)
    requires !GeminiRoute.PostAsWritten(body, apiKey, reply).response.success
    ensures RateLimitHint !in HintsForAsWritten(
      Displayed(Answered(GeminiRoute.PostAsWritten(body, apiKey, reply).response), GenerateFallback).error)
    ensures RateLimitHint !in HintsForAsWritten(
      Displayed(Answered(GeminiRoute.Post(body, apiKey, reply).response), GenerateFallback).error)
  {
    GeminiFailureMessage(body, apiKey, reply);
    NoRateLimitHintAsWritten(GeminiRoute.PostAsWritten(body, apiKey, reply).response.error.value);
    NoRateLimitHintAsWritten(GeminiRoute.Post(body, apiKey, reply).response.error.value);
  }

  /** None of the Gemini route's messages holds the case-sensitive phrase. */
  lemma NoRateLimitHintAsWritten(m: string)
    requires IsGeminiMessage(m)
    ensures !ShowsAsWritten(m, RateLimitHint)
  {
    if m == GeminiRoute.RateLimitMessage {
      RateLimitHintHiddenAsWritten();
    } else {
      RateLimitPhraseOnlyInRateLimitMessage(m);
      if ShowsAsWritten(m, RateLimitHint) {
        ShowsExtends(m, RateLimitHint);
      }
    }
  }

  /** With the corrected check the rate-limit hint shows after a failed call
      of the Gemini route exactly when the route answered with its rate-limit
      message. */
  lemma GeminiRateLimitHint(body: Body, apiKey: Option<string>, reply: GeminiRoute.GeminiReply)
    requires !GeminiRoute.Post(body, apiKey, reply).response.success
    ensures var e := Displayed(Answered(GeminiRoute.Post(body, apiKey, reply).response), GenerateFallback).error;
      Shows(e, RateLimitHint) <==> e == GeminiRoute.RateLimitMessage
  {
    GeminiFailureMessage(body, apiKey, reply);
    RateLimitPhraseOnlyInRateLimitMessage(GeminiRoute.Post(body, apiKey, reply).response.error.value);
  }

  /** The key hint shows for the route's missing-key and invalid-key
      messages, the quota hint for its quota message. */
  lemma GeminiKeyAndQuotaHints()
    ensures Shows(GeminiRoute.ConfigMessage, KeyHint)
    ensures Shows(GeminiRoute.InvalidKeyMessage, KeyHint)
    ensures Shows(GeminiRoute.QuotaMessage, QuotaHint)
  {
    ConfigNamesKey();
    InvalidKeyNamesKey();
    QuotaNamesQuota();
  }

  lemma ConfigNamesKey()
    ensures Contains(GeminiRoute.ConfigMessage, "Gemini API key")
  {
    assert GeminiRoute.ConfigMessage[0..14] == "Gemini API key";
    ContainsAt(GeminiRoute.ConfigMessage, "Gemini API key", 0);
  }

  lemma InvalidKeyNamesKey()
    ensures Contains(GeminiRoute.InvalidKeyMessage, "Gemini API key")
  {
    assert GeminiRoute.InvalidKeyMessage[8..22] == "Gemini API key";
    ContainsAt(GeminiRoute.InvalidKeyMessage, "Gemini API key", 8);
  }

  lemma QuotaNamesQuota()
    ensures Contains(GeminiRoute.QuotaMessage, "quota")
  {
    assert GeminiRoute.QuotaMessage[7..12] == "quota";
    ContainsAt(GeminiRoute.QuotaMessage, "quota", 7);
  }

  // ---------------------------------------------------------------------
  // Saving

  /** The row `handleSave` inserts into `blog_posts`. */
  datatype NewPost = NewPost(
    userId: string,
    title: string,
    content: string,
    status: Status,
    topic: string,
    targetAudience: string,
    tone: string,
    wordCount: Option<int>,
    seoKeywords: seq<string>)

  /** The saved keywords: one per comma plus one, none holding a comma or
      starting or ending with white space; an empty field saves one empty
      keyword. */
  lemma SavedKeywords(keywords: string)
    ensures |SplitAndTrim(keywords, ',')| == multiset(keywords)[','] + 1
    ensures forall i :: 0 <= i < |SplitAndTrim(keywords, ',')| ==>
      var k := SplitAndTrim(keywords, ',')[i];
      ',' !in k && (k == [] || (!IsJsWhitespace(k[0]) && !IsJsWhitespace(k[|k| - 1])))
    ensures keywords == "" ==> SplitAndTrim(keywords, ',') == [""]
  {
    var pieces := Split(keywords, ',');
    forall i | 0 <= i < |pieces| ensures ',' !in Trim(pieces[i])
      && (Trim(pieces[i]) == [] || (!IsJsWhitespace(Trim(pieces[i])[0])
          && !IsJsWhitespace(Trim(pieces[i])[|Trim(pieces[i])| - 1]))) {
      TrimShape(pieces[i], ',');
    }
    if keywords == "" {
      assert Trim("") == "";
    }
  }

  /** Every word-count option of the form is saved as its number. */
  lemma SavedPresetWordCounts()
    ensures ParseInt(WordCountOptions[0]) == Some(300)
    ensures ParseInt(WordCountOptions[1]) == Some(500)
    ensures ParseInt(WordCountOptions[2]) == Some(800)
    ensures ParseInt(WordCountOptions[3]) == Some(1200)
  {
    assert WordCountOptions[0] == "300" && WordCountOptions[1] == "500";
    assert WordCountOptions[2] == "800" && WordCountOptions[3] == "1200";
    PresetNumbers();
  }

  // ---------------------------------------------------------------------
  // The page

  class CreatePost {
    var loading: bool
    var form: FormData
    var generatedContent: string
    var error: string

    /** The initial state: idle, the default form, nothing shown. */
    constructor()
      ensures !loading && form == InitialForm && generatedContent == "" && error == ""
    {
      loading := false;
      form := InitialForm;
      generatedContent := "";
      error := "";
    }

    /** Both generate buttons are enabled only when idle with a topic. */
    predicate CanGenerate()
      reads this
    {
      !loading && form.topic != ""
    }

    /** The save controls appear only above a non-empty draft. */
    predicate ShowsSaveControls()
      reads this
    {
      generatedContent != ""
    }

    /** The hint blocks the page as written shows under the error. */
    function HintsAsWritten(): (r: seq<Hint>)
      reads this
      ensures forall h :: h in r <==> ShowsAsWritten(error, h)
      ensures error == "" ==> r == []
    {
      HintsForAsWritten(error)
    }

    /** The hint blocks under the error, with the corrected rate-limit check. */
    function Hints(): (r: seq<Hint>)
      reads this
      ensures forall h :: h in r <==> Shows(error, h)
      ensures error == "" ==> r == []
    {
      HintsFor(error)
    }

    /** The `onChange` handlers: one field of the form changes. */
    method SetForm(f: FormData)
      modifies this
      ensures form == f
      ensures loading == old(loading) && generatedContent == old(generatedContent) && error == old(error)
    {
      form := f;
    }

    /** The start of both handlers: loading, nothing shown, buttons disabled. */
    method Start()
      modifies this
      ensures loading && error == "" && generatedContent == "" && form == old(form)
      ensures !CanGenerate() && !ShowsSaveControls() && Hints() == [] && HintsAsWritten() == []
    {
      loading := true;
      error := "";
      generatedContent := "";
    }

    /** The rest of a handler once the request has come back. */
    method Finish(reply: Reply, fallback: string)
      requires loading && error == "" && generatedContent == ""
      modifies this
      ensures !loading && Display(generatedContent, error) == Displayed(reply, fallback)
      ensures form == old(form)
    {
      var d := Displayed(reply, fallback);
      generatedContent := d.content;
      error := d.error;
      loading := false;
    }

    /** `handleGenerate` against `/api/generate-blog`. */
    method HandleGenerate(reply: Reply)
      modifies this
      ensures !loading && Display(generatedContent, error) == Displayed(reply, GenerateFallback)
      ensures form == old(form)
      ensures !ShowsSaveControls() || Hints() == []
    {
      Start();
      Finish(reply, GenerateFallback);
    }

    /** `handleDemoGenerate` against `/api/demo-blog`. */
    method HandleDemoGenerate(reply: Reply)
      modifies this
      ensures !loading && Display(generatedContent, error) == Displayed(reply, DemoFallback)
      ensures form == old(form)
      ensures !ShowsSaveControls() || Hints() == []
    {
      Start();
      Finish(reply, DemoFallback);
    }

    /** `handleSave`: nothing without a signed-in user; otherwise the row to
      insert, built from the form and the draft. The page itself does not
      change; leaving for the dashboard is not modelled. */
    method Save(status: Status, userId: Option<string>) returns (row: Option<NewPost>)
      ensures row.Some? <==> userId.Some?
      ensures row.Some? ==> row.value.userId == userId.value
      ensures row.Some? ==> row.value.title == "Blog Post: " + form.topic && row.value.content == generatedContent
      ensures row.Some? ==> row.value.status == status && row.value.topic == form.topic
      ensures row.Some? ==> row.value.targetAudience == form.targetAudience && row.value.tone == form.tone
      ensures row.Some? ==> row.value.wordCount == ParseInt(form.wordCount)
      ensures row.Some? ==> row.value.seoKeywords == SplitAndTrim(form.keywords, ',')
    {
      if userId.None? {
        return None;
      }
      row := Some(NewPost(userId.value, "Blog Post: " + form.topic, generatedContent, status,
                          form.topic, form.targetAudience, form.tone, ParseInt(form.wordCount),
                          SplitAndTrim(form.keywords, ',')));
    }
  }
}
