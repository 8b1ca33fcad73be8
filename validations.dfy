/** The two input schemas: what a generation request and a saved post must
    satisfy, as predicates, and the failures a schema reports, in field order. */
module Validations {
  import opened Wrappers
  import opened Strings

  // ---------------------------------------------------------------------
  // The generation schema

  /** The fields the generation schema reads; an optional field may be absent. */
  datatype GenerationData = GenerationData(
    topic: string,
    tone: string,
    length: string,
    keywords: Option<string>,
    targetAudience: Option<string>)

  const GenerationTones: set<string> := {"professional", "casual", "friendly", "authoritative"}
  const Lengths: set<string> := {"short", "medium", "long"}

  const TopicMin := 10
  const TopicMax := 200

  /** A failure the generation schema reports. */
  datatype GenerationIssue = TopicTooShort | TopicTooLong | ToneNotListed | LengthNotListed

  /** The message the schema attaches to a failure; an enum failure carries
      the validator library's own text, which is not part of this model. */
  function GenerationMessage(i: GenerationIssue): (m: Option<string>)
    ensures m.None? <==> i.ToneNotListed? || i.LengthNotListed?
  {
    match i
    case TopicTooShort => Some("Topic must be at least 10 characters")
    case TopicTooLong => Some("Topic must be less than 200 characters")
    case ToneNotListed => None
    case LengthNotListed => None
  }

  predicate ValidGeneration(d: GenerationData)
  {
    TopicMin <= Utf16Length(d.topic) <= TopicMax && d.tone in GenerationTones && d.length in Lengths
  }

  /** The position of an issue's field in the schema. */
  function GenerationRank(i: GenerationIssue): nat
  {
    match i
    case TopicTooShort => 0
    case TopicTooLong => 1
    case ToneNotListed => 2
    case LengthNotListed => 3
  }

  /** Whether a request fails the check behind an issue. */
  predicate GenerationFails(d: GenerationData, i: GenerationIssue)
  {
    match i
    case TopicTooShort => Utf16Length(d.topic) < 10
    case TopicTooLong => Utf16Length(d.topic) > 200
    case ToneNotListed => d.tone !in {"professional", "casual", "friendly", "authoritative"}
    case LengthNotListed => d.length !in {"short", "medium", "long"}
  }

  /** The failures of `blogGenerationSchema`: an issue is reported exactly
      when its check fails, in the order of the fields
      (`GenerationIssuesInOrder`). */
  function GenerationIssues(d: GenerationData): (r: seq<GenerationIssue>)
    ensures forall i :: i in r <==> GenerationFails(d, i)
  {
    Check(TopicMin <= Utf16Length(d.topic), TopicTooShort)
    + Check(Utf16Length(d.topic) <= TopicMax, TopicTooLong)
    + Check(d.tone in GenerationTones, ToneNotListed)
    + Check(d.length in Lengths, LengthNotListed)
  }

  /** The issues come in the order of the fields, each at most once. */
  lemma GenerationIssuesInOrder(d: GenerationData)
    ensures var r := GenerationIssues(d);
      forall j, k :: 0 <= j < k < |r| ==> GenerationRank(r[j]) < GenerationRank(r[k])
  {
    GenerationChecksRanked(TopicMin <= Utf16Length(d.topic), Utf16Length(d.topic) <= TopicMax,
      d.tone in GenerationTones, d.length in Lengths);
  }

  /** The four checks of the generation schema, whatever their outcomes, report in field order. */
  lemma GenerationChecksRanked(p0: bool, p1: bool, p2: bool, p3: bool)
    ensures Ranked(
      Check(p0, TopicTooShort) + Check(p1, TopicTooLong)
      + Check(p2, ToneNotListed) + Check(p3, LengthNotListed), GenerationRank, 0, 4)
  {
    CheckRanked(p0, TopicTooShort, GenerationRank, 0, 1);
    CheckRanked(p1, TopicTooLong, GenerationRank, 1, 2);
    CheckRanked(p2, ToneNotListed, GenerationRank, 2, 3);
    CheckRanked(p3, LengthNotListed, GenerationRank, 3, 4);
    var topic := Check(p0, TopicTooShort) + Check(p1, TopicTooLong);
    RankedAppend(Check(p0, TopicTooShort), Check(p1, TopicTooLong), GenerationRank, 0, 1, 2);
    RankedAppend(topic, Check(p2, ToneNotListed), GenerationRank, 0, 2, 3);
    RankedAppend(topic + Check(p2, ToneNotListed), Check(p3, LengthNotListed), GenerationRank, 0, 3, 4);
  }

  /** A request passes exactly when no issue is reported. */
  lemma GenerationIssuesValid(d: GenerationData)
    ensures GenerationIssues(d) == [] <==> ValidGeneration(d)
  {
    if GenerationIssues(d) == [] {
      assert !GenerationFails(d, TopicTooShort) && !GenerationFails(d, TopicTooLong);
      assert !GenerationFails(d, ToneNotListed) && !GenerationFails(d, LengthNotListed);
    } else {
      assert GenerationFails(d, GenerationIssues(d)[0]);
    }
  }

  /** Issues in strictly increasing field order, each with a rank in `lo..hi`. */
  predicate Ranked<T>(r: seq<T>, rank: T -> nat, lo: nat, hi: nat)
  {
    && (forall j :: 0 <= j < |r| ==> lo <= rank(r[j]) < hi)
    && (forall j, k :: 0 <= j < k < |r| ==> rank(r[j]) < rank(r[k]))
  }

  /** The issues of earlier fields followed by those of later fields stay in order. */
  lemma RankedAppend<T>(a: seq<T>, b: seq<T>, rank: T -> nat, lo: nat, mid: nat, hi: nat)
    requires lo <= mid <= hi && Ranked(a, rank, lo, mid) && Ranked(b, rank, mid, hi)
    ensures Ranked(a + b, rank, lo, hi)
  {
    var r := a + b;
    forall j, k | 0 <= j < k < |r| ensures rank(r[j]) < rank(r[k]) {
      if k < |a| {
        assert r[j] == a[j] && r[k] == a[k];
      } else if j < |a| {
        assert r[j] == a[j] && r[k] == b[k - |a|];
      } else {
        assert r[j] == b[j - |a|] && r[k] == b[k - |a|];
      }
    }
    forall j | 0 <= j < |r| ensures lo <= rank(r[j]) < hi {
      if j < |a| {
        assert r[j] == a[j];
      } else {
        assert r[j] == b[j - |a|];
      }
    }
  }

  /** A single check's issue list is ranked within its field. */
  lemma CheckRanked<T(!new)>(passes: bool, issue: T, rank: T -> nat, lo: nat, hi: nat)
    requires lo <= rank(issue) < hi
    ensures Ranked(Check(passes, issue), rank, lo, hi)
  {
  }

  /** One check of a schema: no issue when it passes. */
  function Check<T(!new)>(passes: bool, issue: T): (r: seq<T>)
    ensures forall i :: i in r <==> !passes && i == issue
  {
    if passes then [] else [issue]
  }

  /** The bounds are inclusive: 200 code units pass although the message
      says "less than 200"; the create form's technical and conversational
      tones fail. */
  lemma GenerationEdges(d: GenerationData)
    requires d.tone == "professional" && d.length == "medium"
    ensures Utf16Length(d.topic) == 200 ==> ValidGeneration(d)
    ensures Utf16Length(d.topic) == 10 ==> ValidGeneration(d)
    ensures Utf16Length(d.topic) == 9 || Utf16Length(d.topic) == 201 ==> !ValidGeneration(d)
    ensures !ValidGeneration(d.(tone := "technical")) && !ValidGeneration(d.(tone := "conversational"))
  {
    assert "technical" !in GenerationTones;
    assert "conversational" !in GenerationTones;
  }

  /** The bounds count UTF-16 code units: a topic of five characters beyond
      the Basic Multilingual Plane (five emoji, say) is ten units long and
      passes the minimum, and one of four such characters does not. */
  lemma TopicCountsCodeUnits(d: GenerationData)
    requires d.tone == "professional" && d.length == "medium"
    requires forall i :: 0 <= i < |d.topic| ==> d.topic[i] as int >= 0x1_0000
    ensures |d.topic| == 5 ==> ValidGeneration(d)
    ensures |d.topic| == 4 ==> !ValidGeneration(d)
  {
    Utf16LengthAstral(d.topic);
  }

  // ---------------------------------------------------------------------
  // The post schema

  datatype PostData = PostData(
    title: string,
    content: string,
    excerpt: Option<string>,
    status: string,
    tags: Option<seq<string>>,
    seoTitle: Option<string>,
    seoDescription: Option<string>)

  const Statuses: set<string> := {"draft", "published"}

  datatype PostIssue = TitleMissing | TitleTooLong | ContentMissing | StatusNotListed
                     | SeoTitleTooLong | SeoDescriptionTooLong

  function PostMessage(i: PostIssue): (m: Option<string>)
    ensures m.None? <==> i.StatusNotListed?
  {
    match i
    case TitleMissing => Some("Title is required")
    case TitleTooLong => Some("Title too long")
    case ContentMissing => Some("Content is required")
    case StatusNotListed => None
    case SeoTitleTooLong => Some("SEO title should be under 60 characters")
    case SeoDescriptionTooLong => Some("SEO description should be under 160 characters")
  }

  /** An optional text is absent or at most `max` UTF-16 code units long. */
  predicate AtMost(t: Option<string>, max: nat)
  {
    t.None? || Utf16Length(t.value) <= max
  }

  predicate ValidPost(d: PostData)
  {
    && 1 <= Utf16Length(d.title) <= 200
    && Utf16Length(d.content) >= 1
    && d.status in Statuses
    && AtMost(d.seoTitle, 60)
    && AtMost(d.seoDescription, 160)
  }

  /** The position of an issue's field in the schema. */
  function PostRank(i: PostIssue): nat
  {
    match i
    case TitleMissing => 0
    case TitleTooLong => 1
    case ContentMissing => 2
    case StatusNotListed => 3
    case SeoTitleTooLong => 4
    case SeoDescriptionTooLong => 5
  }

  /** Whether a post fails the check behind an issue. */
  predicate PostFails(d: PostData, i: PostIssue)
  {
    match i
    case TitleMissing => d.title == ""
    case TitleTooLong => Utf16Length(d.title) > 200
    case ContentMissing => d.content == ""
    case StatusNotListed => d.status !in {"draft", "published"}
    case SeoTitleTooLong => d.seoTitle.Some? && Utf16Length(d.seoTitle.value) > 60
    case SeoDescriptionTooLong => d.seoDescription.Some? && Utf16Length(d.seoDescription.value) > 160
  }

  /** The failures of `blogPostSchema`: an issue is reported exactly when its
      check fails, in the order of the fields (`PostIssuesInOrder`). */
  function PostIssues(d: PostData): (r: seq<PostIssue>)
    ensures forall i :: i in r <==> PostFails(d, i)
  {
    var title := Check(1 <= Utf16Length(d.title), TitleMissing)
      + Check(Utf16Length(d.title) <= 200, TitleTooLong);
    var body := Check(1 <= Utf16Length(d.content), ContentMissing)
      + Check(d.status in Statuses, StatusNotListed);
    var seo := Check(AtMost(d.seoTitle, 60), SeoTitleTooLong)
      + Check(AtMost(d.seoDescription, 160), SeoDescriptionTooLong);
    assert forall i :: i in title <==> PostFails(d, i) && (i.TitleMissing? || i.TitleTooLong?);
    assert forall i :: i in body <==> PostFails(d, i) && (i.ContentMissing? || i.StatusNotListed?);
    assert forall i :: i in seo <==> PostFails(d, i) && (i.SeoTitleTooLong? || i.SeoDescriptionTooLong?);
    title + body + seo
  }

  /** The issues come in the order of the fields, each at most once. */
  lemma PostIssuesInOrder(d: PostData)
    ensures var r := PostIssues(d);
      forall j, k :: 0 <= j < k < |r| ==> PostRank(r[j]) < PostRank(r[k])
  {
    PostChecksRanked(1 <= Utf16Length(d.title), Utf16Length(d.title) <= 200,
      1 <= Utf16Length(d.content), d.status in Statuses,
      AtMost(d.seoTitle, 60), AtMost(d.seoDescription, 160));
  }

  /** The six checks of the post schema, whatever their outcomes, report in field order. */
  lemma PostChecksRanked(p0: bool, p1: bool, p2: bool, p3: bool, p4: bool, p5: bool)
    ensures Ranked(
      Check(p0, TitleMissing) + Check(p1, TitleTooLong)
      + (Check(p2, ContentMissing) + Check(p3, StatusNotListed))
      + (Check(p4, SeoTitleTooLong) + Check(p5, SeoDescriptionTooLong)), PostRank, 0, 6)
  {
    CheckRanked(p0, TitleMissing, PostRank, 0, 1);
    CheckRanked(p1, TitleTooLong, PostRank, 1, 2);
    CheckRanked(p2, ContentMissing, PostRank, 2, 3);
    CheckRanked(p3, StatusNotListed, PostRank, 3, 4);
    CheckRanked(p4, SeoTitleTooLong, PostRank, 4, 5);
    CheckRanked(p5, SeoDescriptionTooLong, PostRank, 5, 6);
    var title := Check(p0, TitleMissing) + Check(p1, TitleTooLong);
    var body := Check(p2, ContentMissing) + Check(p3, StatusNotListed);
    var seo := Check(p4, SeoTitleTooLong) + Check(p5, SeoDescriptionTooLong);
    RankedAppend(Check(p0, TitleMissing), Check(p1, TitleTooLong), PostRank, 0, 1, 2);
    RankedAppend(Check(p2, ContentMissing), Check(p3, StatusNotListed), PostRank, 2, 3, 4);
    RankedAppend(Check(p4, SeoTitleTooLong), Check(p5, SeoDescriptionTooLong), PostRank, 4, 5, 6);
    RankedAppend(title, body, PostRank, 0, 2, 4);
    RankedAppend(title + body, seo, PostRank, 0, 4, 6);
  }

  /** A post passes exactly when no issue is reported. */
  lemma PostIssuesValid(d: PostData)
    ensures PostIssues(d) == [] <==> ValidPost(d)
  {
    if PostIssues(d) == [] {
      assert !PostFails(d, TitleMissing) && !PostFails(d, TitleTooLong);
      assert !PostFails(d, ContentMissing) && !PostFails(d, StatusNotListed);
      assert !PostFails(d, SeoTitleTooLong) && !PostFails(d, SeoDescriptionTooLong);
    } else {
      assert PostFails(d, PostIssues(d)[0]);
    }
  }

  /** The excerpt and the tags take part in no check. */
  lemma PostIgnoresExcerptAndTags(d: PostData, excerpt: Option<string>, tags: Option<seq<string>>)
    ensures ValidPost(d.(excerpt := excerpt, tags := tags)) <==> ValidPost(d)
  {
  }
}
