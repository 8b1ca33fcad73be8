/** A saved blog post as the dashboard and the analytics page read it, and
    the list operations both pages build on: filtering, counting and summing. */
module Posts {

  datatype Status = Draft | Published

  /** A row of the `blog_posts` table; `createdAt` is the creation time as
      a number that orders instants. */
  datatype BlogPost = BlogPost(
    id: string,
    title: string,
    content: string,
    status: Status,
    topic: string,
    targetAudience: string,
    tone: string,
    wordCount: int,
    seoKeywords: seq<string>,
    createdAt: int)

  // ---------------------------------------------------------------------
  // Filtering

  /** `s.filter(p)`: the elements that satisfy `p`, in their order. */
  function Filter<T(!new)>(s: seq<T>, p: T -> bool): (r: seq<T>)
    ensures |r| <= |s|
    ensures forall x :: x in r <==> x in s && p(x)
    ensures forall i :: 0 <= i < |r| ==> p(r[i])
    decreases |s|
  {
    if s == [] then []
    else (if p(s[0]) then [s[0]] else []) + Filter(s[1..], p)
  }

  /** Filtering keeps every copy of a passing element and no copy of any other. */
  lemma {:induction false} FilterCount<T(!new)>(s: seq<T>, p: T -> bool)
    ensures forall x :: multiset(Filter(s, p))[x] == if p(x) then multiset(s)[x] else 0
    decreases |s|
  {
    if s != [] {
      FilterCount(s[1..], p);
      var head := if p(s[0]) then [s[0]] else [];
      assert s == [s[0]] + s[1..];
      assert multiset(s) == multiset{s[0]} + multiset(s[1..]);
      assert Filter(s, p) == head + Filter(s[1..], p);
      assert multiset(Filter(s, p)) == multiset(head) + multiset(Filter(s[1..], p));
    }
  }

  /** `a` is `b` with some elements left out, the rest in the same order. */
  predicate IsSubseq<T(==)>(a: seq<T>, b: seq<T>)
    decreases |b|
  {
    if b == [] then a == []
    else (a != [] && a[0] == b[0] && IsSubseq(a[1..], b[1..])) || IsSubseq(a, b[1..])
  }

  /** Filtering keeps the order of what it keeps. */
  lemma {:induction false} FilterIsSubseq<T(!new)>(s: seq<T>, p: T -> bool)
    ensures IsSubseq(Filter(s, p), s)
    decreases |s|
  {
    if s != [] {
      FilterIsSubseq(s[1..], p);
      var rest := Filter(s[1..], p);
      if p(s[0]) {
        assert Filter(s, p) == [s[0]] + rest;
        assert ([s[0]] + rest)[1..] == rest;
      } else {
        assert Filter(s, p) == rest;
      }
    }
  }

  /** A filter every element passes keeps the whole list. */
  lemma {:induction false} FilterKeepsAll<T(!new)>(s: seq<T>, p: T -> bool)
    requires forall i :: 0 <= i < |s| ==> p(s[i])
    ensures Filter(s, p) == s
    decreases |s|
  {
    if s != [] {
      FilterKeepsAll(s[1..], p);
      assert [s[0]] + s[1..] == s;
    }
  }

  /** Filtering a concatenation filters each part. */
  lemma {:induction false} FilterAppend<T(!new)>(a: seq<T>, b: seq<T>, p: T -> bool)
    ensures Filter(a + b, p) == Filter(a, p) + Filter(b, p)
    decreases |a|
  {
    if a != [] {
      FilterAppend(a[1..], b, p);
      assert (a + b)[1..] == a[1..] + b;
    } else {
      assert a + b == b;
    }
  }

  // ---------------------------------------------------------------------
  // Counting by status and summing word counts

  predicate IsPublished(p: BlogPost) { p.status == Published }
  predicate IsDraft(p: BlogPost) { p.status == Draft }

  /** `posts.filter(p => p.status === 'published').length`. */
  function PublishedCount(posts: seq<BlogPost>): nat
  {
    |Filter(posts, IsPublished)|
  }

  /** `posts.filter(p => p.status === 'draft').length`. */
  function DraftCount(posts: seq<BlogPost>): nat
  {
    |Filter(posts, IsDraft)|
  }

  /** Every post is a draft or published, so the two counts add up to the total. */
  lemma {:induction false} StatusPartition(posts: seq<BlogPost>)
    ensures PublishedCount(posts) + DraftCount(posts) == |posts|
    decreases |posts|
  {
    if posts != [] {
      StatusPartition(posts[1..]);
      assert Filter(posts, IsPublished)
        == (if IsPublished(posts[0]) then [posts[0]] else []) + Filter(posts[1..], IsPublished);
      assert Filter(posts, IsDraft)
        == (if IsDraft(posts[0]) then [posts[0]] else []) + Filter(posts[1..], IsDraft);
    }
  }

  /** `posts.reduce((sum, p) => sum + p.word_count, 0)`. */
  function TotalWords(posts: seq<BlogPost>): int
    decreases |posts|
  {
    if posts == [] then 0 else posts[0].wordCount + TotalWords(posts[1..])
  }

  /** The sum over a concatenation is the sum of the sums. */
  lemma {:induction false} TotalWordsAppend(a: seq<BlogPost>, b: seq<BlogPost>)
    ensures TotalWords(a + b) == TotalWords(a) + TotalWords(b)
    decreases |a|
  {
    if a != [] {
      TotalWordsAppend(a[1..], b);
      assert (a + b)[1..] == a[1..] + b;
    } else {
      assert a + b == b;
    }
  }

  /** With no negative word counts, the sum over a filtered list lies between
      zero and the sum over the whole list. */
  lemma {:induction false} TotalWordsBounds(posts: seq<BlogPost>, p: BlogPost -> bool)
    requires forall i :: 0 <= i < |posts| ==> posts[i].wordCount >= 0
    ensures 0 <= TotalWords(Filter(posts, p)) <= TotalWords(posts)
    decreases |posts|
  {
    if posts != [] {
      TotalWordsBounds(posts[1..], p);
      var rest := Filter(posts[1..], p);
      if p(posts[0]) {
        assert Filter(posts, p) == [posts[0]] + rest;
        assert ([posts[0]] + rest)[1..] == rest;
      } else {
        assert Filter(posts, p) == rest;
      }
    }
  }
}
