# Blog-Gen: a verified model of the generation endpoints and pages

Blog-Gen is a Next.js application. It writes blog posts from a topic, an audience, a tone, a word count and SEO keywords. It serves two generation endpoints, and keeps two more handlers beside the first:

- `POST /api/generate-blog`, backed by Gemini (`generate-blog/route.ts`);
- `POST /api/demo-blog`, an offline template generator;
- two alternative handlers in the `generate-blog` directory that Next.js does not route, because their files are not named `route.ts`: one backed by OpenAI (`route-ai.ts`) and an earlier offline mock (`route-old.ts`).

Four pages sit on top of them:

- the create page, which calls the endpoints, shows the result or the error, with remediation hints, and saves the post;
- the dashboard, which searches and filters the user's posts and deletes them;
- the analytics page, with totals, averages, the per-tone tally and recent activity;
- the sign-in and sign-up pages, which turn the auth service's answers into a message for the user.

The project models that logic in Dafny, one module per source file:

| file | module | models |
|---|---|---|
| `wrappers.dfy` | `Wrappers` | `Option` |
| `strings.dfy` | `Strings` | the JavaScript string operations the code uses (`includes`, `split`, `join`, `trim`, ASCII case, `parseInt`, `Number`), with lemmas about them |
| `api.dfy` | `Api` | the request body, thrown values, the JSON response envelope, and the prompt specification block both provider-backed handlers share |
| `demo_blog.dfy` | `DemoBlog` | `src/app/api/demo-blog/route.ts` |
| `gemini_route.dfy` | `GeminiRoute` | `src/app/api/generate-blog/route.ts` |
| `openai_route.dfy` | `OpenAiRoute` | `src/app/api/generate-blog/route-ai.ts` |
| `mock_route.dfy` | `MockRoute` | `src/app/api/generate-blog/route-old.ts` |
| `create_page.dfy` | `CreatePage` | `src/app/create/page.tsx`; the component state is the class `CreatePost` |
| `posts.dfy` | `Posts` | the saved post row, and the filter and sum operations the two list pages share |
| `dashboard.dfy` | `Dashboard` | `src/app/dashboard/page-old.tsx`; the class `EnhancedDashboard` |
| `analytics.dfy` | `Analytics` | `src/app/analytics/page.tsx`; the `postsByTone` fold is a method with a loop |
| `validations.dfy` | `Validations` | `src/lib/validations/blog.ts` |
| `auth.dfy` | `Auth` | `src/app/auth/signin/page.tsx` and `src/app/auth/signup/page.tsx`; the classes `SignIn` and `SignUp` |

## Remote calls as inputs

Every remote call is an input to the model:

- the parsed or unparsable request body (`Api.Body`);
- the provider's answer or the value it threw (`GeminiReply`, `OpenAiReply`);
- the environment variable holding the API key (`Option<string>`);
- the result of the page's `fetch` (`CreatePage.Reply`);
- the auth service's answer (`Auth.AuthReply`, `Auth.OAuthReply`);
- the outcome of the database fetch and delete (`Dashboard.FetchOutcome`, `Dashboard.DeleteOutcome`);
- the current user;
- the seven-days-ago cutoff, a number that orders instants.

## Modelling choices

- **Form values are strings.** The create page posts its form with `JSON.stringify`, so `wordCount` arrives as text such as `"500"` and `keywords` as the raw text of the input box. `Api.KeywordsValue` also admits a list and an absent field.
- **Numeric conversion.** `wordCount < 500` on text is JavaScript's `Number` conversion (`Strings.ToNumber`). `parseInt` is `Strings.ParseInt`. A result that is not a number is `None`.
- **Auth page messages.** The pages keep one `message` string. The model keeps it as a `Notice`: the text, plus whether it reports a failure. The second half is what the corrected styling (finding 4) needs.

## Model

| member | source | states |
|---|---|---|
| Api.Succeeded | src/app/api/generate-blog/route.ts:22-25 | a success response keeps the uniform envelope (status 200), carries the content, and carries `isDemo` exactly as given |
| Api.Failed | src/app/api/generate-blog/route.ts:46-49 | a failure response keeps the uniform envelope (status 500), carries the error message, and has no `isDemo` |
| Api.PromptKeywords | src/app/api/generate-blog/route.ts:89 | a missing or empty keyword string reads as "N/A"; a non-empty string is used as given; a list names every element |
| Api.ProviderPromptMentions | src/app/api/generate-blog/route.ts:76-109 | the provider prompt contains the topic, tone and word count verbatim, the audience with its "General audience" default, the keywords with their "N/A" default, the requirements, and the given opening and closing sentences |
| Api.SpecificationBlockLines | src/app/api/generate-blog/route.ts:85-89 | for request fields without line breaks: read line by line, the specification block is exactly the five labelled lines (topic, audience, tone, word count, keywords), in order |
| GeminiRoute.Prompt | src/app/api/generate-blog/route.ts:76-109 | `createBlogPrompt`: the opening sentence, the specification block, the requirements and the closing sentence, separated by blank lines |
| GeminiRoute.PromptMentions | src/app/api/generate-blog/route.ts:76-109 | the Gemini prompt contains its opening and closing sentences, the requirements, the topic, tone and word count verbatim, the audience with its default and the keywords with their default |
| GeminiRoute.Classify | src/app/api/generate-blog/route.ts:30-44 | the user message is one of the five fixed messages; a thrown value without a message gives the generic one |
| GeminiRoute.ClassifyIsFirstMatch | src/app/api/generate-blog/route.ts:35-44 | the classifier is the first-match reading of the ordered rule table quota, rate, key, safety, with case-sensitive substring tests |
| GeminiRoute.ClassifyDefaultIff | src/app/api/generate-blog/route.ts:30-44 | the generic message comes back exactly when none of the seven checked words occurs |
| GeminiRoute.GenerateReadsAsRateLimit | src/app/api/generate-blog/route.ts:37-38 | a provider message containing "generate" but not mentioning the quota is reported as a rate limit, because "rate" matches inside the word |
| GeminiRoute.UnavailableIsDefault | src/app/api/generate-blog/route.ts:70-73 | the generator's own "AI service temporarily unavailable" error matches no check, so it maps to the generic message |
| GeminiRoute.GenerateAsWritten | src/app/api/generate-blog/route.ts:53-74 | the generator returns exactly when the provider answered, and then with the provider text, or with the placeholder "Failed to generate content" when the text is empty; every provider error becomes the "unavailable" error |
| GeminiRoute.Generate | src/app/api/generate-blog/route.ts:53-74 | the same on an answer (the text, or the placeholder for an empty text), but a provider error is passed on unchanged |
| GeminiRoute.PostAsWritten | src/app/api/generate-blog/route.ts:10-51 | the envelope is uniform with no `isDemo` field; the provider is prompted exactly when the body parsed and the key is set; the response succeeds exactly when it then answered, and carries the provider text or, for an empty text, the placeholder; a missing key gives the configuration message; an unparsable body is classified; every provider failure gives the generic message |
| GeminiRoute.Post | src/app/api/generate-blog/route.ts:10-51 | the same, success content included, but a provider failure is answered with the classification of the provider's own error |
| GeminiRoute.Handle | src/app/api/generate-blog/route.ts:10-51 | the handler body for any generator outcome: prompted exactly when the body parsed and the key is set; success exactly when the generator then returned, with its value as the content; the classified parse error, the configuration message, or the classified generator error otherwise |
| GeminiRoute.QuotaErrorHidden | src/app/api/generate-blog/route.ts:35-36 | a provider quota error reaches the user as the generic message as written, and as the quota message once corrected |
| OpenAiRoute.Prompt | src/app/api/generate-blog/route-ai.ts:70-103 | `createBlogPrompt` of this handler: the same layout, with its own opening and closing sentences |
| OpenAiRoute.PromptMentions | src/app/api/generate-blog/route-ai.ts:70-103 | the OpenAI prompt contains its own opening and closing sentences, the requirements, and every request field, with the same defaults |
| OpenAiRoute.MaxTokens | src/app/api/generate-blog/route-ai.ts:59 | the token budget is defined exactly when the word count parses; it is twice the parsed count or the cap 4000, whichever is smaller |
| OpenAiRoute.MaxTokensScale | src/app/api/generate-blog/route-ai.ts:59 | up to 2000 words the budget is exactly two tokens per word; from 2000 on it is 4000 |
| OpenAiRoute.MaxTokensPresets | src/app/api/generate-blog/route-ai.ts:59 | the form's word counts 300, 500, 800 and 1200 give budgets of 600, 1000, 1600 and 2400 |
| OpenAiRoute.Call | src/app/api/generate-blog/route-ai.ts:47-61 | the completion request carries the prompt and the word-count budget |
| OpenAiRoute.FirstContent | src/app/api/generate-blog/route-ai.ts:63 | the content is never empty: it is the first choice's content when that is present and non-empty, else the placeholder |
| OpenAiRoute.Generate | src/app/api/generate-blog/route-ai.ts:37-68 | the generator returns exactly when the model answered; every call failure becomes the "unavailable" error |
| OpenAiRoute.Post | src/app/api/generate-blog/route-ai.ts:9-35 | the call is made exactly when the body parsed and the key is set; the response succeeds exactly when the call was answered; every failure is the configuration message (body parsed, no key) or else the one generic message |
| DemoBlog.KeywordTextAsWritten | src/app/api/demo-blog/route.ts:31 | as written, the keyword text is undefined (the route throws) exactly for a non-empty keyword string |
| DemoBlog.KeywordText | src/app/api/demo-blog/route.ts:31 | the corrected keyword text agrees with the source wherever the source does not throw |
| DemoBlog.KeywordTextMentions | src/app/api/demo-blog/route.ts:31 | the keyword text names every listed keyword, or every trimmed comma-separated piece of a string; it is exactly "relevant keywords" when no keyword was sent |
| DemoBlog.TemplateFallback | src/app/api/demo-blog/route.ts:139 | every tone other than casual and technical uses the professional template |
| DemoBlog.TemplateFor | src/app/api/demo-blog/route.ts:33-139 | the template chosen for any tone names the topic and the audience in its introduction and the keyword text in its body |
| DemoBlog.WordCountPresets | src/app/api/demo-blog/route.ts:156 | of the form's word counts only 300 is short; 500, 800 and 1200 get the full document |
| DemoBlog.LayoutTitle | src/app/api/demo-blog/route.ts:141-158 | for a topic without line breaks: the first line is "# " and the capitalised topic, followed by ": A Comprehensive Guide" exactly for the full document |
| DemoBlog.LayoutOutline | src/app/api/demo-blog/route.ts:141-181 | the short document has its paragraphs in order: title, introduction, "## Key Points" with the benefits lead and list, "## Getting Started" with its advice paragraph, conclusion, rule and footer; the full one has title, introduction, body sections, "## Conclusion", conclusion, rule and footer, in order |
| DemoBlog.ShortIgnoresBody | src/app/api/demo-blog/route.ts:156-179 | the short overview leaves the template body out: replacing the body gives the same document |
| DemoBlog.LayoutMentions | src/app/api/demo-blog/route.ts:141-181 | either length tier contains the topic, the audience and the keyword text |
| DemoBlog.GenerateAsWritten | src/app/api/demo-blog/route.ts:24-182 | `generateDemoBlogPost` as written throws exactly for a non-empty keyword string; wherever it returns, its post is the corrected one |
| DemoBlog.Generate | src/app/api/demo-blog/route.ts:24-182 | the corrected post names the topic, the audience and the keyword text |
| DemoBlog.PostAsWritten | src/app/api/demo-blog/route.ts:3-22 | the envelope is uniform; it succeeds, carrying `isDemo`, exactly when the body parsed and generation did not throw; a failure carries the fixed demo message |
| DemoBlog.Post | src/app/api/demo-blog/route.ts:3-22 | with the corrected keyword text every parsed body succeeds, and every response the route as written gives on success is unchanged |
| DemoBlog.DemoPostNamesKeywords | src/app/api/demo-blog/route.ts:24-182 | every request succeeds, and the post names each keyword sent, listed or typed |
| DemoBlog.KeywordStringFailsAsWritten | src/app/api/demo-blog/route.ts:31 | as written, every request whose keywords are a non-empty string fails with the demo error message |
| Strings.Capitalize | src/app/api/demo-blog/route.ts:141 | only the first character changes, to upper case; the empty topic stays empty |
| Strings.Lower | src/app/dashboard/page-old.tsx:95-96 | `toLowerCase` on ASCII: same length, each character lowered, no upper-case letter left, every other character kept |
| Strings.Split | src/app/create/page.tsx:89 | `split` on one character: at least one piece, and no piece holds the separator |
| Strings.SplitCount | src/app/create/page.tsx:89 | there is one piece more than there are separators |
| Strings.JoinSplit | src/app/create/page.tsx:89 | joining the pieces with the separator gives the string back |
| Strings.Trim | src/app/create/page.tsx:89 | `trim`: blank exactly for a string of white space, and otherwise starting and ending with a character that is not white space |
| Strings.ParseInt | src/app/create/page.tsx:88 | `parseInt` reads a digit string as its decimal value, and a blank string as NaN |
| Strings.ToNumber | src/app/api/demo-blog/route.ts:156 | `Number` reads a digit string as its decimal value, and a blank string as 0 |
| Strings.NumberAgreesWithParseInt | src/app/api/demo-blog/route.ts:156 | wherever `Number` reads a string that is not blank as an integer, `parseInt` reads the same integer |
| Strings.Utf16Length | src/lib/validations/blog.ts:6-7 | `length` counts UTF-16 code units: at least the number of characters and at most twice it, and equal to it exactly when no character lies beyond the Basic Multilingual Plane |
| MockRoute.TablesCoverKnownTones | src/app/api/generate-blog/route-old.ts:51-117 | both tone tables have entries for exactly professional, casual, friendly, authoritative and conversational |
| MockRoute.UnknownToneIsProfessional | src/app/api/generate-blog/route-old.ts:59-117 | any other tone, technical included, gets the professional introduction and conclusion |
| MockRoute.Introduction | src/app/api/generate-blog/route-old.ts:50-60 | the introduction names the topic, as written for authoritative and lower-cased otherwise |
| MockRoute.Conclusion | src/app/api/generate-blog/route-old.ts:108-118 | the conclusion names the topic, as written for casual and lower-cased otherwise |
| MockRoute.MainContent | src/app/api/generate-blog/route-old.ts:62-87 | the main part names the lower-cased topic, and the audience phrase: "for" and the audience, or "in today's context" when it is empty; above 500 parsed words it carries the deep dive and the applications, otherwise it is the base text alone |
| MockRoute.PresetsExtended | src/app/api/generate-blog/route-old.ts:72 | the deep-dive extension is added for 800 and 1200 words and not for 300 or 500 |
| MockRoute.LongLayoutExtended | src/app/api/generate-blog/route-old.ts:72-84 | above 500 requested words the document carries the deep dive and the applications sections |
| MockRoute.KeywordList | src/app/api/generate-blog/route-old.ts:90 | the keyword list is empty for a missing or empty string, the trimmed comma-separated pieces of a non-empty string, and a throw for a list |
| MockRoute.KeywordListCount | src/app/api/generate-blog/route-old.ts:90 | a non-empty keyword string gives one keyword more than it has commas; empty pieces count |
| MockRoute.Points | src/app/api/generate-blog/route-old.ts:92-103 | four fixed points, then exactly one point per keyword, in order |
| MockRoute.KeyPointLines | src/app/api/generate-blog/route-old.ts:105 | for a topic and keywords without line breaks: read line by line, the key points are 4 plus one line per keyword, each starting with the bullet mark |
| MockRoute.KeyPoints | src/app/api/generate-blog/route-old.ts:89-106 | every keyword shows in the key points, capitalised, followed by " plays a crucial role in the overall strategy" |
| MockRoute.LayoutOutline | src/app/api/generate-blog/route-old.ts:27-47 | the document has the title, the four headed sections in order and the footer, which holds the word count as sent |
| MockRoute.LayoutTitle | src/app/api/generate-blog/route-old.ts:27 | for a topic without line breaks: the first line is "# " followed by the topic |
| MockRoute.LayoutMentionsKeyword | src/app/api/generate-blog/route-old.ts:89-106 | every keyword of the key-point list appears in the document, capitalised |
| MockRoute.Document | src/app/api/generate-blog/route-old.ts:24-48 | a document is produced exactly when the keywords are not a list |
| MockRoute.Respond | src/app/api/generate-blog/route-old.ts:11-21 | the envelope is uniform; success carries the document; failure carries the fixed message |
| MockRoute.Post | src/app/api/generate-blog/route-old.ts:3-22 | the handler succeeds exactly when the body parses and its keywords are not a list, and then answers with the document |
| CreatePage.Displayed | src/app/create/page.tsx:34-70 | content and error are never both shown; success shows the content; a failed result shows its error; a throw shows its message, or the fallback text for a value without one |
| CreatePage.SilentFailure | src/app/create/page.tsx:34-36 | a failed result without error text shows neither content nor an error |
| CreatePage.ShowsAsWritten | src/app/create/page.tsx:211-241 | the page as written: a hint shows for a non-empty error containing "Gemini API key", "quota" or "rate limit", each compared case-sensitively |
| CreatePage.Shows | src/app/create/page.tsx:211-241 | the corrected rule: the same, except that "rate limit" is looked for in the lower-cased error |
| CreatePage.HintsForAsWritten | src/app/create/page.tsx:211-241 | the page as written: a hint is shown exactly when its case-sensitive rule matches the error text; at most three hints |
| CreatePage.HintsFor | src/app/create/page.tsx:211-241 | with the corrected rate-limit check (case ignored): a hint is shown exactly when its rule matches the error text; at most three hints |
| CreatePage.ShowsExtends | src/app/create/page.tsx:211-241 | every hint the page as written shows, the corrected rules still show |
| CreatePage.GeminiFailureMessage | src/app/create/page.tsx:34-36 | every failed response of the Gemini route, as written or corrected, carries an error, which is one of the route's six fixed messages |
| CreatePage.RateLimitPhraseOnlyInRateLimitMessage | src/app/create/page.tsx:233 | among the Gemini route's messages, only the rate-limit message contains "rate limit" when compared ignoring case |
| CreatePage.RateLimitHintHiddenAsWritten | src/app/create/page.tsx:233 | the Gemini rate-limit message does not show the rate-limit hint as written, and does with the corrected rule |
| CreatePage.GeminiRateLimitHintNeverShownAsWritten | src/app/create/page.tsx:233 | as written, no failure of the Gemini route as written, nor of the corrected one, shows the rate-limit hint |
| CreatePage.GeminiRateLimitHint | src/app/create/page.tsx:233 | with the corrected rule, a Gemini failure shows the rate-limit hint exactly when it is a rate limit |
| CreatePage.GeminiKeyAndQuotaHints | src/app/create/page.tsx:211-231 | the missing-key and invalid-key messages show the key hint, and the quota message shows the quota hint |
| CreatePage.SavedKeywords | src/app/create/page.tsx:89 | the saved keywords are one more than the commas; no piece holds a comma or starts or ends with white space; an empty field gives `[""]` |
| CreatePage.SavedPresetWordCounts | src/app/create/page.tsx:161-164 | the four word-count options parse to 300, 500, 800 and 1200 |
| CreatePage.CreatePost.constructor | src/app/create/page.tsx:7-16 | the initial state: not loading, the initial form (professional, 500 words), no content, no error |
| CreatePage.CreatePost.Hints | src/app/create/page.tsx:206-243 | with the corrected rate-limit check: the hints of the current error; none without an error |
| CreatePage.CreatePost.HintsAsWritten | src/app/create/page.tsx:206-243 | the hints the page as written shows for the current error; none without an error |
| CreatePage.CreatePost.CanGenerate | src/app/create/page.tsx:183-192 | both generate buttons are enabled exactly when the page is not loading and the topic is not empty |
| CreatePage.CreatePost.ShowsSaveControls | src/app/create/page.tsx:246 | the draft and its save controls show exactly when the generated content is not empty |
| CreatePage.CreatePost.SetForm | src/app/create/page.tsx:114-175 | the form changes and nothing else does |
| CreatePage.CreatePost.Start | src/app/create/page.tsx:21-51 | loading is on; error and content are cleared; the buttons are disabled; no save controls and no hints, as written or corrected |
| CreatePage.CreatePost.HandleGenerate | src/app/create/page.tsx:19-46 | loading ends; the page shows what `Displayed` gives for the reply with the generic fallback; the save controls and the hints never show together |
| CreatePage.CreatePost.HandleDemoGenerate | src/app/create/page.tsx:48-73 | the same, with the demo fallback |
| CreatePage.CreatePost.Save | src/app/create/page.tsx:75-98 | a row is built exactly when there is a user; it has title "Blog Post: " plus the topic, the chosen status, the current content, the form's fields, the parsed word count and the split, trimmed keywords |
| Dashboard.Matching | src/app/dashboard/page-old.tsx:94-99 | a post is listed exactly when its title or topic contains the search term, ignoring case, and the filter is "all" or its status; every copy of a listed post is kept; the list is an order-preserving subsequence |
| Dashboard.Keeps | src/app/dashboard/page-old.tsx:94-99 | a post is kept when its lower-cased title or topic contains the lower-cased term, and the filter is "all" or names its status |
| Dashboard.NoCriteriaKeepsAll | src/app/dashboard/page-old.tsx:95-97 | no term and filter "all" list every post, in order |
| Dashboard.WithoutId | src/app/dashboard/page-old.tsx:87 | exactly the posts with another id remain, every copy of each, in their order |
| Dashboard.StatsOf | src/app/dashboard/page-old.tsx:101-106 | published plus drafts is the total; the total words are the sum of the word counts |
| Dashboard.EnhancedDashboard.constructor | src/app/dashboard/page-old.tsx:38-41 | the initial state: no posts, loading, no term, filter "all" |
| Dashboard.EnhancedDashboard.FilteredPosts | src/app/dashboard/page-old.tsx:94-99 | the listed posts are the matching ones of the state, in order |
| Dashboard.EnhancedDashboard.Stats | src/app/dashboard/page-old.tsx:101-106 | the stats are over all posts, whatever the search and the filter |
| Dashboard.EnhancedDashboard.EmptyStateHeading | src/app/dashboard/page-old.tsx:238 | "No posts found" exactly when a term or a filter is active, else "No blog posts yet" |
| Dashboard.EnhancedDashboard.NoPostsHeadingMeansEmpty | src/app/dashboard/page-old.tsx:238 | an empty list under "No blog posts yet" means the user has no posts |
| Dashboard.EnhancedDashboard.FetchBlogPosts | src/app/dashboard/page-old.tsx:48-70 | loading ends on every path; the posts are replaced only by data that came without an error |
| Dashboard.EnhancedDashboard.HandleDelete | src/app/dashboard/page-old.tsx:77-92 | after a confirmed, successful delete exactly the posts with that id leave the list; otherwise nothing changes |
| Dashboard.EnhancedDashboard.SetSearchTerm | src/app/dashboard/page-old.tsx:207 | only the search term changes |
| Dashboard.EnhancedDashboard.SetFilterStatus | src/app/dashboard/page-old.tsx:214 | only the status filter changes |
| Posts.Filter | src/app/dashboard/page-old.tsx:94 | the result holds exactly the elements that pass, and no more than the input |
| Posts.FilterIsSubseq | src/app/dashboard/page-old.tsx:94 | filtering keeps the order of what it keeps |
| Posts.FilterCount | src/app/dashboard/page-old.tsx:94-99 | filtering keeps every copy of a passing element and no copy of any other |
| Posts.StatusPartition | src/app/analytics/page.tsx:66-67 | every post is a draft or published, so the two counts add up to the total |
| Posts.TotalWordsBounds | src/app/analytics/page.tsx:68 | with no negative word counts, the sum over a filtered list lies between zero and the sum over all posts |
| Analytics.RoundDiv | src/app/analytics/page.tsx:69 | `Math.round(a / b)` on exact quotients: the nearest integer, halves rounded up |
| Analytics.StatsOf | src/app/analytics/page.tsx:64-70 | published plus drafts is the total; total words is the sum; the average is 0 for no posts, else the half-up rounding of total words over the total |
| Analytics.PublishedRate | src/app/analytics/page.tsx:292 | the rate is 0 for no posts, else the half-up rounding of 100 times published over the total, and lies in 0..100 |
| Analytics.RecentPosts | src/app/analytics/page.tsx:91 | exactly the posts created after the cutoff, every copy of each, in order |
| Analytics.ShownRecent | src/app/analytics/page.tsx:252 | the first six recent posts, or all of them when there are no more than six |
| Analytics.AvgWordsPerWeek | src/app/analytics/page.tsx:306 | 0 when there are no posts or no recent ones, else the half-up rounding of the recent posts' words over their number |
| Analytics.PostsByTone | src/app/analytics/page.tsx:83-86 | the loop over the posts builds the tally `ToneTally` defines |
| Analytics.ToneTally | src/app/analytics/page.tsx:83-86 | the reduction as a definition, one post at a time, which the loop is proved against; `ToneTallyKeys` and `ToneTallyCounts` state its meaning |
| Analytics.ToneTallyKeys | src/app/analytics/page.tsx:83-86 | the tally's keys are exactly the tones the posts use, each once, and its counts sum to the number of posts |
| Analytics.ToneTallyCounts | src/app/analytics/page.tsx:84 | a tone's count is the number of posts with that tone |
| Analytics.SortByCount | src/app/analytics/page.tsx:221 | the sorted entries are in non-increasing count order and are a permutation of the input |
| Analytics.Distribution | src/app/analytics/page.tsx:220-221 | the tone distribution lists the tally's entries, largest count first |
| Validations.GenerationMessage | src/lib/validations/blog.ts:6-9 | the two topic bounds carry the schema's own messages; the tone and length enums carry none of the schema's |
| Validations.GenerationIssues | src/lib/validations/blog.ts:4-12 | an issue is reported exactly when its check fails |
| Validations.GenerationIssuesInOrder | src/lib/validations/blog.ts:4-12 | the issues come in the order of the fields, topic bounds first, each at most once |
| Validations.GenerationIssuesValid | src/lib/validations/blog.ts:4-12 | a generation request passes exactly when no issue is reported: topic 10 to 200 UTF-16 code units, tone among the four, length among the three |
| Validations.GenerationEdges | src/lib/validations/blog.ts:5-8 | 10 and 200 code units pass, 9 and 201 fail; the form's technical and conversational tones fail |
| Validations.TopicCountsCodeUnits | src/lib/validations/blog.ts:6-7 | the bound counts code units, not characters: five characters beyond the Basic Multilingual Plane pass the minimum of 10, four do not |
| Validations.PostMessage | src/lib/validations/blog.ts:16-22 | every check except the status enum carries the schema's own message |
| Validations.PostIssues | src/lib/validations/blog.ts:15-23 | an issue is reported exactly when its check fails |
| Validations.PostIssuesInOrder | src/lib/validations/blog.ts:15-23 | the issues come in the order of the fields, title first and SEO description last, each at most once |
| Validations.PostIssuesValid | src/lib/validations/blog.ts:15-23 | a post passes exactly when no issue is reported: title 1 to 200 UTF-16 code units, non-empty content, draft or published, SEO title up to 60 and description up to 160 code units when present |
| Validations.PostIgnoresExcerptAndTags | src/lib/validations/blog.ts:18-20 | the excerpt and the tags take part in no check |
| Auth.SignInErrorText | src/app/auth/signin/page.tsx:29-37 | a message naming wrong credentials or an unconfirmed email is replaced by a text naming neither; any other message is shown unchanged |
| Auth.StyledAsErrorAsWritten | src/app/auth/signin/page.tsx:141 | the styling as written: a message is shown as an error exactly when it contains "error" or "Error" |
| Auth.StyledAsError | src/app/auth/signin/page.tsx:141 | the corrected styling: a message is shown as an error exactly when it has a text and reports a failure |
| Auth.SignInNotice | src/app/auth/signin/page.tsx:29-47 | the notice is a failure exactly when the service did not answer with data; data with a user gives the success text, without one an empty message; an error gives its mapped text; a throw gives the unexpected-error text |
| Auth.GoogleNotice | src/app/auth/signin/page.tsx:53-68 | an error shows its own text, a throw the Google failure text; a started sign-in leaves the message as it was |
| Auth.SignUpNotice | src/app/auth/signup/page.tsx:18-49 | a password shorter than 6 UTF-16 code units gives the length text as a failure; otherwise an error is shown as sent, a confirmed user gets "created successfully", an unconfirmed one the check-your-email text, no user an empty message, and a throw the unexpected-error text |
| Auth.InvalidCredentialsStyledAsSuccess | src/app/auth/signin/page.tsx:141 | a wrong-credentials failure is not styled as an error as written, and is once corrected |
| Auth.ShortPasswordStyledAsSuccess | src/app/auth/signup/page.tsx:104 | the short-password failure is not styled as an error as written, and is once corrected |
| Auth.SignInStyling | src/app/auth/signin/page.tsx:141 | with the corrected styling, a sign-in success is never styled as an error, and every failure with a text is |
| Auth.SignUpStyling | src/app/auth/signup/page.tsx:104 | the same for sign-up, the short-password refusal included |
| Auth.UnexpectedStyledAsError | src/app/auth/signin/page.tsx:141 | the unexpected-error text is styled as an error as written |
| Auth.SignIn.constructor | src/app/auth/signin/page.tsx:8-11 | empty fields, not loading, no message |
| Auth.SignIn.ShowsError | src/app/auth/signin/page.tsx:141 | with the corrected styling: the message box is error-styled exactly when the notice has a text and reports a failure |
| Auth.SignIn.ShowsErrorAsWritten | src/app/auth/signin/page.tsx:141 | the box styling as written: error-styled exactly when the message text contains "error" or "Error" |
| Auth.SignIn.HandleSignIn | src/app/auth/signin/page.tsx:14-51 | loading ends on every path; the notice is `SignInNotice` of the reply; the page redirects exactly when a user signed in, and then shows no error |
| Auth.SignIn.HandleGoogleSignIn | src/app/auth/signin/page.tsx:53-68 | the notice becomes `GoogleNotice` of the reply and the previous notice; nothing else changes |
| Auth.SignUp.constructor | src/app/auth/signup/page.tsx:7-10 | empty fields, not loading, no message |
| Auth.SignUp.ShowsError | src/app/auth/signup/page.tsx:104 | with the corrected styling, as on the sign-in page |
| Auth.SignUp.ShowsErrorAsWritten | src/app/auth/signup/page.tsx:104 | the box styling as written, as on the sign-in page |
| Auth.SignUp.HandleSignUp | src/app/auth/signup/page.tsx:12-53 | the service is asked exactly when the password has at least 6 UTF-16 code units; loading ends on every path; the notice is `SignUpNotice` |

## Left out

- Remote calls are inputs, not implementations: the Gemini and OpenAI SDKs, Supabase auth, select, insert and delete, `fetch` and `request.json`. Logging with `console` is left out.
- Rendering, routing, `router.push`, the one-second `setTimeout` before the sign-in redirect, and the `confirm()` dialog are left out. The dialog's answer is a parameter of `HandleDelete`.
- The save handler's insert, its redirect to the dashboard and its error log are left out. `Save` returns the row it would insert.
- Dates and clocks:
  - the posts-by-month grouping uses locale date formatting, so it is left out;
  - the seven-days-ago cutoff is a parameter.
- The analytics page's `fetchBlogPosts` does the same as the dashboard's. It is modelled once, as `Dashboard.EnhancedDashboard.FetchBlogPosts`. The analytics computations take the post list as a value.
- Floating point:
  - the temperature 0.7 is carried as a real and reasoned about no further;
  - the percentage bar widths are left out;
  - `Math.round` of a float quotient is modelled as exact half-up rounding of the rational quotient.
- `toLowerCase` and `toUpperCase` are modelled on ASCII letters only.
- ParseInt: reads white space, an optional sign and the leading run of decimal digits, as `parseInt` does with radix 10. A fraction such as "12.5" gives its integer part, 12, as in JavaScript. A hexadecimal prefix is not modelled: "0x1A" gives 0, where `parseInt` reads 26.
- ToNumber: reads only an optionally signed decimal integer between white space. Fractions, exponents, the `0x`, `0b` and `0o` prefixes and `Infinity` give `None`, where `Number` gives a number. So `DemoBlog.IsShort` is false for them, although in JavaScript `"-Infinity" < 500` and `"12.5" < 500` hold.
- Object key order and integer-like keys:
  - the model reads the key order of `postsByTone` as insertion order;
  - JavaScript's reordering of integer-like keys is not modelled.
- Tones that name a property every JavaScript object inherits (`constructor`, `toString`, `__proto__` and the other `Object.prototype` names) are not modelled. The source looks tones up on plain object literals, so for those tones it finds the inherited property. The lines below name the members this affects.
- ToneTallyKeys: does not hold for a post with tone `__proto__`. In the source, `acc.__proto__ || 0` is `Object.prototype`, so the value assigned to that key is the string "[object Object]1". Assigning a string to `__proto__` is ignored, so the tone never becomes a key.
- ToneTallyCounts: does not hold for inherited property names such as `constructor`. In the source, `acc[tone] || 0` finds the inherited function, so the count becomes a string, not the number of posts.
- ToneTally: counts every tone as a plain key of a map, and so do `Lookup` and `Bump`, which it is built on; inherited property names get no special treatment.
- TemplateFallback: does not hold for inherited property names. For a tone such as `toString`, `templates[tone]` is a function, which is truthy, so the document shows "undefined" where the intro, body and conclusion go.
- TemplateFor: the model gives the professional template for every tone other than casual and technical, inherited property names included.
- UnknownToneIsProfessional: does not hold for inherited property names. For a tone such as `constructor`, `intros[tone]` is the `Object` function, and its source text becomes the introduction and the conclusion.
- Introduction: models the tone lookup for table tones and other plain names only, as `UnknownToneIsProfessional` says.
- Conclusion: the same as `Introduction`.
- SortByCount: stability (entries with equal counts keep their tally order) is not stated. Only the order by count and the permutation are proved.
- The zod messages for a failed enum come from the library. `GenerationMessage` and `PostMessage` give `None` for them.
- Request fields other than keywords are strings. A caller sending a number or leaving a field out is not modelled; `undefined` content in a success reply shows as empty text, which `Displayed`'s `GetOr("")` stands for.
- The create page's `fetch` is abstract. Each handler takes the reply of the endpoint it calls, and `CreatePage.GeminiFailureMessage` connects the page to `GeminiRoute.Post`.

## Findings

| source | as written | input that shows it | evidently intended | confidence | as-written member | corrected member |
|---|---|---|---|---|---|---|
| src/app/api/demo-blog/route.ts:31 | `keywords.join(', ')` is called on whatever the body holds | the create page's demo request with keywords typed, e.g. `"seo, ai"`: a string has a length but no `join`, so the route throws and answers with the demo error | the keyword text names the comma-separated keywords | high (not executed) | DemoBlog.KeywordTextAsWritten, DemoBlog.PostAsWritten, DemoBlog.KeywordStringFailsAsWritten | DemoBlog.KeywordText, DemoBlog.Post, DemoBlog.DemoPostNamesKeywords |
| src/app/api/generate-blog/route.ts:70-73 | the generator replaces every provider error with "AI service temporarily unavailable" before the handler classifies it | a provider error "quota exceeded": the handler sees only the replacement, which matches no check, and answers with the generic message | provider errors reach the quota, rate-limit, key and safety checks | high (not executed) | GeminiRoute.GenerateAsWritten, GeminiRoute.PostAsWritten, GeminiRoute.QuotaErrorHidden | GeminiRoute.Generate, GeminiRoute.Post |
| src/app/create/page.tsx:233 | the rate-limit hint tests `error.includes('rate limit')`, case-sensitively | the Gemini route's message "Rate limit exceeded. Please wait a moment and try again." (route.ts:38) has a capital R, so the hint never shows | the hint shows for the rate-limit message | high (not executed) | CreatePage.ShowsAsWritten, CreatePage.RateLimitHintHiddenAsWritten, CreatePage.GeminiRateLimitHintNeverShownAsWritten | CreatePage.Shows, CreatePage.GeminiRateLimitHint |
| src/app/auth/signin/page.tsx:141; src/app/auth/signup/page.tsx:104 | a message gets the error style only when its text contains "error" or "Error" | a wrong password (signin) or a five-character password (signup): both failure texts lack the word, so they are styled as success | failures are styled as errors | high (not executed) | Auth.StyledAsErrorAsWritten, Auth.InvalidCredentialsStyledAsSuccess, Auth.ShortPasswordStyledAsSuccess | Auth.StyledAsError, Auth.SignInStyling, Auth.SignUpStyling |
