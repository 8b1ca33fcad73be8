/** The analytics page: totals and averages over the user's posts, the
    per-tone tally and its distribution by count, the recent posts after a
    cutoff, and the publishing insights. */
module Analytics {
  import opened Posts

  // ---------------------------------------------------------------------
  // Rounding

  /** `Math.round(a / b)` for a positive divisor, on exact quotients: the
      nearest integer, halves rounded up. */
  function RoundDiv(a: int, b: int): (r: int)
    requires b > 0
    ensures 2 * b * r - b <= 2 * a < 2 * b * r + b
  {
    var r := (2 * a + b) / (2 * b);
    assert 2 * b * r <= 2 * a + b < 2 * b * r + 2 * b by {
      DivBounds(2 * a + b, 2 * b);
    }
    r
  }

  /** Euclidean division of `n` by a positive `d` lies within one step of `n`. */
  lemma DivBounds(n: int, d: int)
    requires d > 0
    ensures d * (n / d) <= n < d * (n / d) + d
  {
    assert n == d * (n / d) + n % d;
  }

  /** A rounded quotient of a value between 0 and the divisor times `k` lies
      between 0 and `k`. */
  lemma RoundDivRange(a: int, b: int, k: nat)
    requires b > 0 && 0 <= a <= k * b
    ensures 0 <= RoundDiv(a, b) <= k
  {
    var r := RoundDiv(a, b);
    assert b * (2 * r + 1) > 0;
    PositiveFactor(b, 2 * r + 1);
    assert b * (2 * k + 1 - 2 * r) >= 0;
    PositiveFactor(b, 2 * k + 2 - 2 * r);
  }

  /** With `b` positive, `b * x > -b` holds only for `x` of 0 or more. */
  lemma PositiveFactor(b: int, x: int)
    requires b > 0 && b * x > -b
    ensures x > -1
  {
  }

  // ---------------------------------------------------------------------
  // The stats

  datatype Stats = Stats(total: nat, published: nat, drafts: nat, totalWords: int, avgWords: int)

  /** `stats`: the counts, the word total, and the mean word count rounded
      to the nearest integer (0 for no posts). */
  function StatsOf(posts: seq<BlogPost>): (st: Stats)
    ensures st.total == |posts| && st.published + st.drafts == st.total
    ensures st.published == |Filter(posts, IsPublished)| && st.drafts == |Filter(posts, IsDraft)|
    ensures st.totalWords == TotalWords(posts)
    ensures st.total == 0 ==> st.avgWords == 0
    ensures st.total > 0 ==>
              2 * st.total * st.avgWords - st.total <= 2 * st.totalWords < 2 * st.total * st.avgWords + st.total
  {
    StatusPartition(posts);
    var total := |posts|;
    var words := TotalWords(posts);
    Stats(total, PublishedCount(posts), DraftCount(posts), words,
          if total > 0 then RoundDiv(words, total) else 0)
  }

  /** The published rate: `Math.round(published / total * 100)`, 0 for no
      posts, always a percentage. */
  function PublishedRate(st: Stats): (r: int)
    requires st.published <= st.total
    ensures 0 <= r <= 100
    ensures st.total == 0 ==> r == 0
    ensures st.total > 0 ==>
              2 * st.total * r - st.total <= 200 * st.published < 2 * st.total * r + st.total
  {
    if st.total > 0 then
      RoundDivRange(100 * st.published, st.total, 100);
      RoundDiv(100 * st.published, st.total)
    else 0
  }

  // ---------------------------------------------------------------------
  // Recent posts

  /** `recentPosts`: the posts created strictly after the cutoff, in order. */
  function RecentPosts(posts: seq<BlogPost>, cutoff: int): (r: seq<BlogPost>)
    ensures forall p :: p in r <==> p in posts && p.createdAt > cutoff
    ensures forall p :: multiset(r)[p] == if p.createdAt > cutoff then multiset(posts)[p] else 0
    ensures IsSubseq(r, posts)
  {
    var recent := (p: BlogPost) => p.createdAt > cutoff;
    FilterIsSubseq(posts, recent);
    FilterCount(posts, recent);
    Filter(posts, recent)
  }

  /** `recentPosts.slice(0, 6)`: the first six recent posts. */
  function ShownRecent(recent: seq<BlogPost>): (r: seq<BlogPost>)
    ensures |r| <= 6 && |r| <= |recent| && r == recent[..|r|]
    ensures |recent| <= 6 ==> r == recent
    ensures |recent| > 6 ==> |r| == 6
  {
    if |recent| <= 6 then recent else recent[..6]
  }

  /** "Avg Words/Week": the recent posts' word total over their number (at
      least 1), rounded; 0 when there are no posts at all. */
  function AvgWordsPerWeek(posts: seq<BlogPost>, cutoff: int): (r: int)
    ensures posts == [] || RecentPosts(posts, cutoff) == [] ==> r == 0
    ensures RecentPosts(posts, cutoff) != [] ==>
              var n := |RecentPosts(posts, cutoff)|;
              var w := TotalWords(RecentPosts(posts, cutoff));
              2 * n * r - n <= 2 * w < 2 * n * r + n
  {
    var recent := RecentPosts(posts, cutoff);
    if |posts| > 0 then RoundDiv(TotalWords(recent), if |recent| > 0 then |recent| else 1)
    else
      assert recent == [];
      0
  }

  // ---------------------------------------------------------------------
  // Posts by tone

  /** An entry of the `postsByTone` object: a tone and its number of posts. */
  datatype ToneCount = ToneCount(tone: string, count: nat)

  /** `acc[tone] || 0`. */
  function Lookup(acc: seq<ToneCount>, tone: string): nat
    decreases |acc|
  {
    if acc == [] then 0
    else if acc[0].tone == tone then acc[0].count
    else Lookup(acc[1..], tone)
  }

  /** `acc[tone] = (acc[tone] || 0) + 1`: the tone's entry goes up by one
      where it has one; otherwise a new entry, with count 1, goes last. */
  function Bump(acc: seq<ToneCount>, tone: string): (r: seq<ToneCount>)
    decreases |acc|
  {
    if acc == [] then [ToneCount(tone, 1)]
    else if acc[0].tone == tone then [ToneCount(tone, acc[0].count + 1)] + acc[1..]
    else [acc[0]] + Bump(acc[1..], tone)
  }

  /** The tally the reduction builds, in the order tones are first met. */
  function ToneTally(posts: seq<BlogPost>): seq<ToneCount>
    decreases |posts|
  {
    if posts == [] then []
    else Bump(ToneTally(posts[..|posts| - 1]), posts[|posts| - 1].tone)
  }

  /** `postsByTone`: the reduction over the posts, one at a time. */
  method PostsByTone(posts: seq<BlogPost>) returns (acc: seq<ToneCount>)
    ensures acc == ToneTally(posts)
  {
    acc := [];
    var i := 0;
    while i < |posts|
      invariant 0 <= i <= |posts|
      invariant acc == ToneTally(posts[..i])
    {
      assert posts[..i + 1][..i] == posts[..i];
      acc := Bump(acc, posts[i].tone);
      i := i + 1;
    }
    assert posts[..|posts|] == posts;
  }

  function Tones(acc: seq<ToneCount>): set<string>
  {
    set i | 0 <= i < |acc| :: acc[i].tone
  }

  predicate DistinctTones(acc: seq<ToneCount>)
  {
    forall i, j :: 0 <= i < j < |acc| ==> acc[i].tone != acc[j].tone
  }

  function SumCounts(acc: seq<ToneCount>): nat
    decreases |acc|
  {
    if acc == [] then 0 else acc[0].count + SumCounts(acc[1..])
  }

  lemma {:induction false} LookupBump(acc: seq<ToneCount>, tone: string, other: string)
    ensures Lookup(Bump(acc, tone), tone) == Lookup(acc, tone) + 1
    ensures other != tone ==> Lookup(Bump(acc, tone), other) == Lookup(acc, other)
    decreases |acc|
  {
    if acc != [] && acc[0].tone != tone {
      LookupBump(acc[1..], tone, other);
      assert Bump(acc, tone)[1..] == Bump(acc[1..], tone);
    }
  }

  lemma {:induction false} TonesBump(acc: seq<ToneCount>, tone: string)
    ensures Tones(Bump(acc, tone)) == Tones(acc) + {tone}
    decreases |acc|
  {
    var b := Bump(acc, tone);
    if acc == [] {
      assert b[0].tone == tone;
    } else if acc[0].tone == tone {
      assert |b| == |acc|;
      assert forall i :: 0 <= i < |acc| ==> b[i].tone == acc[i].tone;
      assert acc[0].tone == tone;
    } else {
      TonesBump(acc[1..], tone);
      TonesCons(acc[0], Bump(acc[1..], tone));
      TonesCons(acc[0], acc[1..]);
      assert [acc[0]] + acc[1..] == acc;
    }
  }

  lemma {:induction false} SumBump(acc: seq<ToneCount>, tone: string)
    ensures SumCounts(Bump(acc, tone)) == SumCounts(acc) + 1
    decreases |acc|
  {
    if acc != [] && acc[0].tone != tone {
      SumBump(acc[1..], tone);
      assert Bump(acc, tone)[1..] == Bump(acc[1..], tone);
    }
  }

  lemma DistinctTail(acc: seq<ToneCount>)
    requires acc != [] && DistinctTones(acc)
    ensures DistinctTones(acc[1..])
  {
    forall i, j | 0 <= i < j < |acc| - 1 ensures acc[1..][i].tone != acc[1..][j].tone {
      assert acc[1..][i] == acc[i + 1] && acc[1..][j] == acc[j + 1];
    }
  }

  lemma HeadNotInTail(acc: seq<ToneCount>)
    requires acc != [] && DistinctTones(acc)
    ensures acc[0].tone !in Tones(acc[1..])
  {
    forall t | t in Tones(acc[1..]) ensures t != acc[0].tone {
      var j :| 0 <= j < |acc[1..]| && acc[1..][j].tone == t;
      assert acc[j + 1].tone == t;
    }
  }

  lemma {:induction false} DistinctBump(acc: seq<ToneCount>, tone: string)
    requires DistinctTones(acc)
    ensures DistinctTones(Bump(acc, tone))
    decreases |acc|
  {
    var b := Bump(acc, tone);
    if acc != [] && acc[0].tone == tone {
      assert forall i :: 0 <= i < |acc| ==> b[i].tone == acc[i].tone;
    } else if acc != [] {
      var rest := Bump(acc[1..], tone);
      DistinctTail(acc);
      DistinctBump(acc[1..], tone);
      TonesBump(acc[1..], tone);
      HeadNotInTail(acc);
      forall i, j | 0 <= i < j < |b| ensures b[i].tone != b[j].tone {
        assert b[j] == rest[j - 1];
        if i == 0 {
          assert rest[j - 1].tone in Tones(rest);
        } else {
          assert b[i] == rest[i - 1];
        }
      }
    }
  }

  lemma TonesCons(e: ToneCount, rest: seq<ToneCount>)
    ensures Tones([e] + rest) == {e.tone} + Tones(rest)
  {
    var s := [e] + rest;
    forall t | t in Tones(s) ensures t in {e.tone} + Tones(rest) {
      var i :| 0 <= i < |s| && s[i].tone == t;
      if i > 0 { assert s[i] == rest[i - 1]; }
    }
    forall t | t in Tones(rest) ensures t in Tones(s) {
      var i :| 0 <= i < |rest| && rest[i].tone == t;
      assert s[i + 1] == rest[i];
    }
    assert s[0] == e;
  }

  /** Whether a post has a given tone. */
  function ToneIs(tone: string): BlogPost -> bool
  {
    (p: BlogPost) => p.tone == tone
  }

  /** The tones the posts use. */
  function UsedTones(posts: seq<BlogPost>): set<string>
  {
    set i | 0 <= i < |posts| :: posts[i].tone
  }

  /** The tally names each tone the posts use exactly once, and its counts
      add up to the number of posts. */
  lemma {:induction false} ToneTallyKeys(posts: seq<BlogPost>)
    ensures Tones(ToneTally(posts)) == UsedTones(posts)
    ensures DistinctTones(ToneTally(posts))
    ensures SumCounts(ToneTally(posts)) == |posts|
    decreases |posts|
  {
    if posts != [] {
      var n := |posts| - 1;
      var init, last := posts[..n], posts[n];
      ToneTallyKeys(init);
      TonesBump(ToneTally(init), last.tone);
      SumBump(ToneTally(init), last.tone);
      DistinctBump(ToneTally(init), last.tone);
      UsedTonesSnoc(init, last);
      assert init + [last] == posts;
    }
  }

  lemma UsedTonesSnoc(init: seq<BlogPost>, last: BlogPost)
    ensures UsedTones(init + [last]) == UsedTones(init) + {last.tone}
  {
    var posts := init + [last];
    forall t | t in UsedTones(posts) ensures t in UsedTones(init) + {last.tone} {
      var i :| 0 <= i < |posts| && posts[i].tone == t;
      if i < |init| { assert init[i] == posts[i]; }
    }
    forall t | t in UsedTones(init) ensures t in UsedTones(posts) {
      var i :| 0 <= i < |init| && init[i].tone == t;
      assert posts[i] == init[i];
    }
    assert posts[|init|] == last;
  }

  /** The tally's count for a tone is the number of posts with that tone
      (0 for a tone no post uses). */
  lemma {:induction false} ToneTallyCounts(posts: seq<BlogPost>, t: string)
    ensures Lookup(ToneTally(posts), t) == |Filter(posts, ToneIs(t))|
    decreases |posts|
  {
    if posts != [] {
      var n := |posts| - 1;
      var init, last := posts[..n], posts[n];
      ToneTallyCounts(init, t);
      LookupBump(ToneTally(init), last.tone, t);
      FilterAppend(init, [last], ToneIs(t));
      assert [last][1..] == [];
      assert init + [last] == posts;
    }
  }

  // ---------------------------------------------------------------------
  // The tone distribution

  predicate ByCountDescending(acc: seq<ToneCount>)
  {
    forall i, j :: 0 <= i < j < |acc| ==> acc[i].count >= acc[j].count
  }

  /** Puts an entry after every entry with at least its count. */
  function Insert(sorted: seq<ToneCount>, e: ToneCount): seq<ToneCount>
    decreases |sorted|
  {
    if sorted == [] then [e]
    else if sorted[0].count >= e.count then [sorted[0]] + Insert(sorted[1..], e)
    else [e] + sorted
  }

  lemma {:induction false} InsertPermutes(sorted: seq<ToneCount>, e: ToneCount)
    ensures multiset(Insert(sorted, e)) == multiset(sorted) + multiset{e}
    decreases |sorted|
  {
    if sorted != [] && sorted[0].count >= e.count {
      InsertPermutes(sorted[1..], e);
      assert sorted == [sorted[0]] + sorted[1..];
    }
  }

  /** Insertion keeps a list ordered by count, and adds no entry but the new one. */
  lemma {:induction false} InsertSorted(sorted: seq<ToneCount>, e: ToneCount)
    requires ByCountDescending(sorted)
    ensures ByCountDescending(Insert(sorted, e))
    ensures forall i :: 0 <= i < |Insert(sorted, e)| ==>
              Insert(sorted, e)[i] == e || Insert(sorted, e)[i] in sorted
    decreases |sorted|
  {
    if sorted != [] && sorted[0].count >= e.count {
      var rest := Insert(sorted[1..], e);
      InsertSorted(sorted[1..], e);
      forall j | 0 <= j < |rest| ensures sorted[0].count >= rest[j].count {
        if rest[j] != e {
          var k :| 0 <= k < |sorted[1..]| && sorted[1..][k] == rest[j];
          assert sorted[k + 1] == rest[j];
        }
      }
    }
  }

  /** `Object.entries(postsByTone).sort(([, a], [, b]) => b - a)`: entries
      with larger counts first, entries with equal counts in tally order. */
  function SortByCount(acc: seq<ToneCount>): (r: seq<ToneCount>)
    ensures ByCountDescending(r)
    ensures multiset(r) == multiset(acc)
    decreases |acc|
  {
    if acc == [] then []
    else
      var n := |acc| - 1;
      var sorted := SortByCount(acc[..n]);
      InsertSorted(sorted, acc[n]);
      InsertPermutes(sorted, acc[n]);
      LastSplit(acc);
      Insert(sorted, acc[n])
  }

  /** A list's elements are those before its last one and the last one. */
  lemma LastSplit(acc: seq<ToneCount>)
    requires acc != []
    ensures multiset(acc) == multiset(acc[..|acc| - 1]) + multiset{acc[|acc| - 1]}
  {
    assert acc == acc[..|acc| - 1] + [acc[|acc| - 1]];
  }

  /** The distribution lists the tally's entries, each once, largest count first. */
  function Distribution(posts: seq<BlogPost>): (r: seq<ToneCount>)
    ensures ByCountDescending(r)
    ensures multiset(r) == multiset(ToneTally(posts))
  {
    SortByCount(ToneTally(posts))
  }
}
