/** The JavaScript string operations the application relies on: `includes`,
    `split`, `join`, `trim`, ASCII case mapping, `parseInt` and `Number`.
    Each is given as a function together with the property its callers use. */
module Strings {
  import opened Wrappers

  // ---------------------------------------------------------------------
  // Substrings: `s.includes(t)`

  /** `t` occurs in `s` starting at index `k`. */
  predicate OccursAt(s: string, t: string, k: int)
  {
    0 <= k && k + |t| <= |s| && s[k..k + |t|] == t
  }

  /** `s.includes(t)`: case-sensitive substring test; the empty string is in every string. */
  function Contains(s: string, t: string): bool
    decreases |s|
  {
    if |t| > |s| then false
    else if s[..|t|] == t then true
    else Contains(s[1..], t)
  }

  /** The scan agrees with the positional definition of a substring. */
  lemma {:induction false} ContainsIff(s: string, t: string)
    ensures Contains(s, t) <==> exists k :: OccursAt(s, t, k)
    decreases |s|
  {
    if |t| > |s| {
    } else if s[..|t|] == t {
      assert OccursAt(s, t, 0);
    } else {
      ContainsIff(s[1..], t);
      if Contains(s[1..], t) {
        var k :| OccursAt(s[1..], t, k);
        assert s[k + 1..k + 1 + |t|] == s[1..][k..k + |t|];
        assert OccursAt(s, t, k + 1);
      } else {
        forall k | 0 < k && k + |t| <= |s| ensures !OccursAt(s, t, k) {
          ShiftSlice(s, k, |t|);
          assert !OccursAt(s[1..], t, k - 1);
        }
        assert !OccursAt(s, t, 0);
      }
    }
  }

  lemma ShiftSlice(s: string, k: int, n: int)
    requires 0 < k && 0 <= n && k + n <= |s|
    ensures s[1..][k - 1..k - 1 + n] == s[k..k + n]
  {
  }

  lemma ContainsAt(s: string, t: string, k: int)
    requires OccursAt(s, t, k)
    ensures Contains(s, t)
  {
    ContainsIff(s, t);
  }

  /** Whatever is spliced between two strings is contained in the result. */
  lemma ContainsInfix(a: string, t: string, b: string)
    ensures Contains(a + t + b, t)
  {
    assert (a + t + b)[|a|..|a| + |t|] == t;
    ContainsAt(a + t + b, t, |a|);
  }

  /** Containment survives extending the string on either side. */
  lemma ContainsExtend(a: string, s: string, b: string, t: string)
    requires Contains(s, t)
    ensures Contains(a + s + b, t)
  {
    ContainsIff(s, t);
    var k :| OccursAt(s, t, k);
    assert (a + s + b)[|a| + k..|a| + k + |t|] == s[k..k + |t|];
    ContainsAt(a + s + b, t, |a| + k);
  }

  /** What either half contains, the concatenation contains. */
  lemma ContainsAppend(a: string, b: string, t: string)
    requires Contains(a, t) || Contains(b, t)
    ensures Contains(a + b, t)
  {
    if Contains(a, t) {
      ContainsExtend("", a, b, t);
      assert "" + a + b == a + b;
    } else {
      ContainsExtend(a, b, "", t);
      assert a + b + "" == a + b;
    }
  }

  /** A string contains both halves of any split of it. */
  lemma ContainsHalves(a: string, b: string)
    ensures Contains(a + b, a) && Contains(a + b, b)
  {
    ContainsAt(a + b, a, 0);
    assert (a + b)[|a|..|a| + |b|] == b;
    ContainsAt(a + b, b, |a|);
  }

  /** To refute an occurrence it is enough that the pattern's `i`-th character
      appears nowhere an occurrence could put it. */
  lemma NotContainsWindow(s: string, t: string, i: int)
    requires 0 <= i < |t|
    requires |t| <= |s| ==> t[i] !in s[i..|s| - |t| + i + 1]
    ensures !Contains(s, t)
  {
    forall k ensures !OccursAt(s, t, k) {
      if 0 <= k && k + |t| <= |s| {
        assert s[i..|s| - |t| + i + 1][k] == s[k + i];
        assert s[k..k + |t|][i] == s[k + i];
      }
    }
    ContainsIff(s, t);
  }

  /** A pattern that lacks the character `c` cannot straddle an occurrence of `c`. */
  lemma NotContainsAround(a: string, c: char, b: string, t: string)
    requires c !in t
    requires !Contains(a, t) && !Contains(b, t)
    ensures !Contains(a + [c] + b, t)
  {
    var s := a + [c] + b;
    ContainsIff(a, t);
    ContainsIff(b, t);
    forall k ensures !OccursAt(s, t, k) {
      if 0 <= k && k + |t| <= |s| {
        NoStraddle(a, c, b, t, k);
      }
    }
    ContainsIff(s, t);
  }

  lemma NoStraddle(a: string, c: char, b: string, t: string, k: int)
    requires c !in t
    requires !OccursAt(a, t, k) && !OccursAt(b, t, k - |a| - 1)
    requires 0 <= k && k + |t| <= |a| + 1 + |b|
    ensures (a + [c] + b)[k..k + |t|] != t
  {
    var s := a + [c] + b;
    if k + |t| <= |a| {
      assert s[k..k + |t|] == a[k..k + |t|];
    } else if k > |a| {
      assert s[k..k + |t|] == b[k - |a| - 1..k - |a| - 1 + |t|];
    } else {
      assert s[k..k + |t|][|a| - k] == c;
    }
  }

  /** A pattern with a character the string lacks does not occur in it. */
  lemma NotContainsAbsent(s: string, t: string, c: char)
    requires c in t && c !in s
    ensures !Contains(s, t)
  {
    var i :| 0 <= i < |t| && t[i] == c;
    if |t| <= |s| {
      assert forall j :: i <= j < |s| - |t| + i + 1 ==> s[i..|s| - |t| + i + 1][j - i] == s[j];
    }
    NotContainsWindow(s, t, i);
  }

  /** A pattern with two adjacent characters that are nowhere adjacent in
      `s` does not occur in it. */
  lemma NotContainsPair(s: string, t: string, i: int)
    requires 0 <= i && i + 1 < |t|
    requires forall j :: 0 <= j < |s| - 1 ==> !(s[j] == t[i] && s[j + 1] == t[i + 1])
    ensures !Contains(s, t)
  {
    forall k | 0 <= k && k + |t| <= |s| ensures !OccursAt(s, t, k) {
      assert s[k..k + |t|][i] == s[k + i];
      assert s[k..k + |t|][i + 1] == s[k + i + 1];
    }
    ContainsIff(s, t);
  }

  /** Positions of `s` holding characters the pattern lacks, close enough
      together that every window of the pattern's length covers one of them,
      rule out an occurrence. */
  lemma NotContainsCuts(s: string, t: string, cuts: seq<int>)
    requires |t| > 0 && |cuts| > 0
    requires forall i :: 0 <= i < |cuts| ==> 0 <= cuts[i] < |s| && s[cuts[i]] !in t
    requires forall i :: 0 <= i < |cuts| - 1 ==> cuts[i] < cuts[i + 1] <= cuts[i] + |t|
    requires cuts[0] < |t| && |s| - 1 - cuts[|cuts| - 1] < |t|
    ensures !Contains(s, t)
  {
    forall k | 0 <= k && k + |t| <= |s| ensures !OccursAt(s, t, k) {
      var i := CutInWindow(cuts, |t|, |s|, k);
      assert s[k..k + |t|][cuts[i] - k] !in t;
    }
    ContainsIff(s, t);
  }

  /** Every window of length `n` inside `[0, len)` covers one of the cuts. */
  lemma CutInWindow(cuts: seq<int>, n: int, len: int, k: int) returns (i: int)
    requires n > 0 && |cuts| > 0
    requires forall j :: 0 <= j < |cuts| - 1 ==> cuts[j] < cuts[j + 1] <= cuts[j] + n
    requires cuts[0] < n && len - 1 - cuts[|cuts| - 1] < n
    requires 0 <= k && k + n <= len
    ensures 0 <= i < |cuts| && k <= cuts[i] < k + n
  {
    i := 0;
    while cuts[i] < k
      invariant 0 <= i < |cuts| && (i > 0 ==> cuts[i - 1] < k)
      decreases |cuts| - i
    {
      if i == |cuts| - 1 {
        assert false;
      }
      i := i + 1;
    }
    if i > 0 {
      assert cuts[i] <= cuts[i - 1] + n;
    }
  }

  // ---------------------------------------------------------------------
  // Sections appearing in order

  /** The `parts` occur in `s` one after another, without overlapping. */
  ghost predicate InOrder(s: string, parts: seq<string>)
    decreases |parts|
  {
    parts == [] ||
    exists k :: OccursAt(s, parts[0], k) && InOrder(s[k + |parts[0]|..], parts[1..])
  }

  lemma InOrderCons(gap: string, p: string, rest: string, parts: seq<string>)
    requires InOrder(rest, parts)
    ensures InOrder(gap + p + rest, [p] + parts)
  {
    var s := gap + p + rest;
    assert s[|gap|..|gap| + |p|] == p;
    assert s[|gap| + |p|..] == rest;
    assert ([p] + parts)[0] == p;
    assert ([p] + parts)[1..] == parts;
    assert OccursAt(s, p, |gap|) && InOrder(s[|gap| + |p|..], ([p] + parts)[1..]);
  }

  /** Every part of an ordered layout is contained in the string. */
  lemma {:induction false} InOrderContains(s: string, parts: seq<string>, i: int)
    requires InOrder(s, parts) && 0 <= i < |parts|
    ensures Contains(s, parts[i])
    decreases |parts|
  {
    var k :| OccursAt(s, parts[0], k) && InOrder(s[k + |parts[0]|..], parts[1..]);
    if i == 0 {
      ContainsAt(s, parts[0], k);
    } else {
      var rest := s[k + |parts[0]|..];
      InOrderContains(rest, parts[1..], i - 1);
      assert parts[1..][i - 1] == parts[i];
      assert s == s[..k + |parts[0]|] + rest + "";
      ContainsExtend(s[..k + |parts[0]|], rest, "", parts[i]);
    }
  }

  /** A gap in front of an ordered layout keeps it ordered. */
  lemma InOrderPrepend(gap: string, s: string, parts: seq<string>)
    requires InOrder(s, parts)
    ensures InOrder(gap + s, parts)
  {
    if parts != [] {
      var k :| OccursAt(s, parts[0], k) && InOrder(s[k + |parts[0]|..], parts[1..]);
      var g := gap + s;
      assert g[|gap| + k..|gap| + k + |parts[0]|] == s[k..k + |parts[0]|];
      assert g[|gap| + k + |parts[0]|..] == s[k + |parts[0]|..];
      assert OccursAt(g, parts[0], |gap| + k);
    }
  }

  // ---------------------------------------------------------------------
  // Template literals

  /** A template literal, given as its text segments and interpolated
      values in the order they are written. */
  function Concat(segments: seq<string>): string
    decreases |segments|
  {
    if segments == [] then "" else segments[0] + Concat(segments[1..])
  }

  /** Every segment of a template literal appears in its value. */
  lemma {:induction false} ConcatContains(segments: seq<string>, i: int)
    requires 0 <= i < |segments|
    ensures Contains(Concat(segments), segments[i])
    decreases |segments|
  {
    var rest := Concat(segments[1..]);
    if i == 0 {
      ContainsInfix("", segments[0], rest);
      assert "" + segments[0] + rest == Concat(segments);
    } else {
      ConcatContains(segments[1..], i - 1);
      assert segments[1..][i - 1] == segments[i];
      ContainsExtend(segments[0], rest, "", segments[i]);
      assert segments[0] + rest + "" == Concat(segments);
    }
  }

  // ---------------------------------------------------------------------
  // `parts.join(sep)` and `s.split(c)`

  function Join(parts: seq<string>, sep: string): string
    decreases |parts|
  {
    if |parts| == 0 then ""
    else if |parts| == 1 then parts[0]
    else parts[0] + sep + Join(parts[1..], sep)
  }

  /** Every joined part is contained in the joined string. */
  lemma {:induction false} JoinContains(parts: seq<string>, sep: string, i: int)
    requires 0 <= i < |parts|
    ensures Contains(Join(parts, sep), parts[i])
    decreases |parts|
  {
    if |parts| == 1 {
      assert Join(parts, sep) == "" + parts[0] + "";
      ContainsInfix("", parts[0], "");
    } else if i == 0 {
      assert Join(parts, sep) == "" + parts[0] + (sep + Join(parts[1..], sep));
      ContainsInfix("", parts[0], sep + Join(parts[1..], sep));
    } else {
      JoinContains(parts[1..], sep, i - 1);
      assert Join(parts, sep) == (parts[0] + sep) + Join(parts[1..], sep) + "";
      ContainsExtend(parts[0] + sep, Join(parts[1..], sep), "", parts[i]);
    }
  }

  /** What a joined part contains, the joined string contains. */
  lemma JoinContainsVia(parts: seq<string>, sep: string, i: int, x: string)
    requires 0 <= i < |parts| && Contains(parts[i], x)
    ensures Contains(Join(parts, sep), x)
  {
    JoinContains(parts, sep, i);
    ContainsTrans(Join(parts, sep), parts[i], x);
  }

  /** Joined parts appear in the joined string in their order. */
  lemma {:induction false} JoinInOrder(parts: seq<string>, sep: string)
    ensures InOrder(Join(parts, sep), parts)
    decreases |parts|
  {
    if |parts| == 1 {
      InOrderSingle(parts[0]);
      assert [parts[0]] == parts;
    } else if |parts| > 1 {
      JoinInOrder(parts[1..], sep);
      InOrderJoinStep(parts[0], sep, Join(parts[1..], sep), parts[1..]);
      assert [parts[0]] + parts[1..] == parts;
    }
  }

  lemma InOrderSingle(p: string)
    ensures InOrder(p, [p])
  {
    assert InOrder("", []);
    InOrderCons("", p, "", []);
    assert "" + p + "" == p && [p] + [] == [p];
  }

  lemma InOrderJoinStep(p: string, sep: string, rest: string, parts: seq<string>)
    requires InOrder(rest, parts)
    ensures InOrder(p + sep + rest, [p] + parts)
  {
    InOrderPrepend(sep, rest, parts);
    InOrderCons("", p, sep + rest, parts);
    assert "" + p + (sep + rest) == p + sep + rest;
  }

  /** In paragraphs joined by blank lines, the first line is the first
      paragraph when that paragraph is a single line. */
  lemma JoinFirstLine(parts: seq<string>)
    requires |parts| >= 2 && '\n' !in parts[0]
    ensures Split(Join(parts, "\n\n"), '\n')[0] == parts[0]
  {
    JoinCons(parts, "\n\n");
    BreakFirst("\n\n", Join(parts[1..], "\n\n"));
    FirstLine(parts[0], "\n\n" + Join(parts[1..], "\n\n"));
  }

  lemma JoinCons(parts: seq<string>, sep: string)
    requires |parts| >= 2
    ensures Join(parts, sep) == parts[0] + (sep + Join(parts[1..], sep))
  {
    assert parts[0] + sep + Join(parts[1..], sep) == parts[0] + (sep + Join(parts[1..], sep));
  }

  lemma BreakFirst(sep: string, rest: string)
    requires |sep| > 0 && sep[0] == '\n'
    ensures |sep + rest| > 0 && (sep + rest)[0] == '\n'
  {
  }

  lemma ContainsTrans(s: string, t: string, u: string)
    requires Contains(s, t) && Contains(t, u)
    ensures Contains(s, u)
  {
    ContainsIff(s, t);
    ContainsIff(t, u);
    var k :| OccursAt(s, t, k);
    var m :| OccursAt(t, u, m);
    assert t == s[k..k + |t|];
    forall i | 0 <= i < |u| ensures s[k + m..k + m + |u|][i] == u[i] {
      assert u[i] == t[m + i] == s[k + m + i];
    }
    assert OccursAt(s, u, k + m);
    ContainsAt(s, u, k + m);
  }


  /** `s.split(c)` for a one-character separator: the pieces between the
      separators, none holding the separator; never empty (`"".split(',')`
      is `[""]`). */
  function Split(s: string, c: char): (r: seq<string>)
    ensures |r| >= 1
    ensures forall i :: 0 <= i < |r| ==> c !in r[i]
    decreases |s|
  {
    if s == [] then [""]
    else
      var rest := Split(s[1..], c);
      if s[0] == c then [""] + rest else [[s[0]] + rest[0]] + rest[1..]
  }

  /** There is one more piece than there are separators. */
  lemma {:induction false} SplitCount(s: string, c: char)
    ensures |Split(s, c)| == multiset(s)[c] + 1
    decreases |s|
  {
    if s != [] {
      SplitCount(s[1..], c);
      assert s == [s[0]] + s[1..];
      assert multiset(s) == multiset{s[0]} + multiset(s[1..]);
    }
  }

  /** Joining the pieces with the separator gives the string back. */
  lemma {:induction false} JoinSplit(s: string, c: char)
    ensures Join(Split(s, c), [c]) == s
    decreases |s|
  {
    if s != [] {
      var rest := Split(s[1..], c);
      JoinSplit(s[1..], c);
      assert s == [s[0]] + s[1..];
      var r := Split(s, c);
      if s[0] == c {
        assert r == [""] + rest;
        assert r[1..] == rest;
        assert Join(r, [c]) == "" + [c] + Join(rest, [c]);
      } else if |rest| == 1 {
        assert r == [[s[0]] + rest[0]];
      } else {
        assert r == [[s[0]] + rest[0]] + rest[1..];
        assert r[1..] == rest[1..];
        assert Join(r, [c]) == [s[0]] + (rest[0] + [c] + Join(rest[1..], [c]));
      }
    }
  }

  /** A separator-free prefix is glued to the first piece of what follows. */
  lemma {:induction false} SplitFreePrefix(w: string, u: string, c: char)
    requires c !in w
    ensures Split(w + u, c) == [w + Split(u, c)[0]] + Split(u, c)[1..]
    decreases |w|
  {
    if w == [] {
      assert w + u == u;
      assert w + Split(u, c)[0] == Split(u, c)[0];
      assert [Split(u, c)[0]] + Split(u, c)[1..] == Split(u, c);
    } else {
      assert w[0] in w;
      var v := w + u;
      var su := Split(u, c);
      SplitFreePrefix(w[1..], u, c);
      assert v[0] == w[0] && v[1..] == w[1..] + u;
      var rest := Split(v[1..], c);
      assert rest[0] == w[1..] + su[0] && rest[1..] == su[1..];
      assert Split(v, c) == [[w[0]] + rest[0]] + rest[1..];
      assert [w[0]] + (w[1..] + su[0]) == w + su[0];
    }
  }

  /** Splitting a join of separator-free parts gives the parts back. */
  lemma {:induction false} SplitJoin(parts: seq<string>, c: char)
    requires |parts| >= 1
    requires forall i :: 0 <= i < |parts| ==> c !in parts[i]
    ensures Split(Join(parts, [c]), c) == parts
    decreases |parts|
  {
    if |parts| == 1 {
      SplitFreePrefix(parts[0], "", c);
      assert parts[0] + "" == parts[0];
    } else {
      var tail := Join(parts[1..], [c]);
      SplitJoin(parts[1..], c);
      assert Join(parts, [c]) == parts[0] + ([c] + tail);
      SplitFreePrefix(parts[0], [c] + tail, c);
      assert ([c] + tail)[0] == c;
      assert ([c] + tail)[1..] == tail;
      var sp := Split([c] + tail, c);
      assert sp == [""] + parts[1..];
      assert sp[0] == "" && sp[1..] == parts[1..];
      assert parts[0] + "" == parts[0];
      assert [parts[0]] + parts[1..] == parts;
    }
  }

  /** The first line of `a + b` is `a` when `a` has no line break and `b` starts with one. */
  lemma FirstLine(a: string, b: string)
    requires '\n' !in a && |b| > 0 && b[0] == '\n'
    ensures Split(a + b, '\n')[0] == a
  {
    SplitFreePrefix(a, b, '\n');
    assert Split(b, '\n') == [""] + Split(b[1..], '\n');
    assert a + "" == a;
  }

  // ---------------------------------------------------------------------
  // `s.trim()`

  /** The characters `String.prototype.trim` removes: white space and line terminators. */
  predicate IsJsWhitespace(ch: char)
  {
    ch == ' ' || ch == '\t' || ch == '\n' || ch == '\r' || ch == '\U{000B}' || ch == '\U{000C}'
    || ch == '\U{00A0}' || ch == '\U{1680}' || ('\U{2000}' <= ch <= '\U{200A}')
    || ch == '\U{2028}' || ch == '\U{2029}' || ch == '\U{202F}' || ch == '\U{205F}'
    || ch == '\U{3000}' || ch == '\U{FEFF}'
  }

  /** Drops leading white space: the result is a suffix of `s` and does not start with white space. */
  function TrimStart(s: string): (r: string)
    ensures |r| <= |s| && r == s[|s| - |r|..]
    ensures r == [] || !IsJsWhitespace(r[0])
    ensures forall k :: 0 <= k < |s| - |r| ==> IsJsWhitespace(s[k])
    decreases |s|
  {
    if s != [] && IsJsWhitespace(s[0]) then
      var r := TrimStart(s[1..]);
      assert forall k :: 1 <= k < |s| - |r| ==> s[k] == s[1..][k - 1];
      r
    else s
  }

  /** Drops trailing white space: the result is a prefix of `s` and does not end with white space. */
  function TrimEnd(s: string): (r: string)
    ensures |r| <= |s| && r == s[..|r|]
    ensures r == [] || !IsJsWhitespace(r[|r| - 1])
    ensures forall k :: |r| <= k < |s| ==> IsJsWhitespace(s[k])
    decreases |s|
  {
    if s != [] && IsJsWhitespace(s[|s| - 1]) then
      var r := TrimEnd(s[..|s| - 1]);
      assert forall k :: |r| <= k < |s| - 1 ==> s[k] == s[..|s| - 1][k];
      r
    else s
  }

  /** `s.trim()`: drops white space at both ends. The result is blank only
      for a string of white space, and otherwise starts and ends with a
      character that is not white space. */
  function Trim(s: string): (r: string)
    ensures r == [] <==> forall k :: 0 <= k < |s| ==> IsJsWhitespace(s[k])
    ensures r == [] || (!IsJsWhitespace(r[0]) && !IsJsWhitespace(r[|r| - 1]))
  {
    TrimBlank(s);
    TrimEnd(TrimStart(s))
  }

  lemma TrimBlank(s: string)
    ensures var r := TrimEnd(TrimStart(s));
      (r == [] <==> forall k :: 0 <= k < |s| ==> IsJsWhitespace(s[k]))
      && (r == [] || (!IsJsWhitespace(r[0]) && !IsJsWhitespace(r[|r| - 1])))
  {
    var u := TrimStart(s);
    var r := TrimEnd(u);
    if r != [] {
      assert r[0] == u[0] && u[0] == s[|s| - |u|];
    } else {
      forall k | 0 <= k < |s| ensures IsJsWhitespace(s[k]) {
        if k >= |s| - |u| {
          assert s[k] == u[k - (|s| - |u|)];
        }
      }
    }
  }

  /** Trimming keeps a middle part of `s`: it adds no character and leaves no
      white space at either end. */
  lemma TrimShape(s: string, c: char)
    requires c !in s
    ensures c !in Trim(s)
    ensures Trim(s) == [] || (!IsJsWhitespace(Trim(s)[0]) && !IsJsWhitespace(Trim(s)[|Trim(s)| - 1]))
  {
    TrimLacks(s, c);
  }

  lemma TrimLacks(s: string, c: char)
    requires c !in s
    ensures c !in Trim(s)
  {
    var u := TrimStart(s);
    SuffixLacks(s, |s| - |u|, c);
    PrefixLacks(u, |TrimEnd(u)|, c);
  }

  lemma SuffixLacks(s: string, k: nat, c: char)
    requires k <= |s| && c !in s
    ensures c !in s[k..]
  {
    forall j | 0 <= j < |s| - k ensures s[k..][j] != c {
      assert s[k..][j] == s[k + j];
    }
  }

  lemma PrefixLacks(s: string, k: nat, c: char)
    requires k <= |s| && c !in s
    ensures c !in s[..k]
  {
    forall j | 0 <= j < k ensures s[..k][j] != c {
      assert s[..k][j] == s[j];
    }
  }

  /** `s.split(c).map(k => k.trim())`: the trimmed pieces, one per separator plus one. */
  function SplitAndTrim(s: string, c: char): (r: seq<string>)
    ensures |r| == |Split(s, c)| == multiset(s)[c] + 1
    ensures forall i :: 0 <= i < |r| ==> r[i] == Trim(Split(s, c)[i])
  {
    var pieces := Split(s, c);
    SplitCount(s, c);
    seq(|pieces|, i requires 0 <= i < |pieces| => Trim(pieces[i]))
  }

  // ---------------------------------------------------------------------
  // ASCII case mapping (`toLowerCase`, `toUpperCase`)

  function LowerChar(ch: char): char
  {
    if 'A' <= ch <= 'Z' then (ch as int + 32) as char else ch
  }

  function UpperChar(ch: char): char
  {
    if 'a' <= ch <= 'z' then (ch as int - 32) as char else ch
  }

  /** `s.toLowerCase()` on ASCII letters: character by character, with no
      upper-case letter left and every other character kept. */
  function Lower(s: string): (r: string)
    ensures |r| == |s|
    ensures forall i :: 0 <= i < |s| ==> r[i] == LowerChar(s[i])
    ensures forall i :: 0 <= i < |r| ==> !('A' <= r[i] <= 'Z')
    ensures forall i :: 0 <= i < |s| && !('A' <= s[i] <= 'Z') ==> r[i] == s[i]
  {
    seq(|s|, i requires 0 <= i < |s| => LowerChar(s[i]))
  }

  /** `s.charAt(0).toUpperCase() + s.slice(1)`: only the first character changes. */
  function Capitalize(s: string): (r: string)
    ensures |r| == |s|
    ensures s == [] ==> r == []
    ensures s != [] ==> r[0] == UpperChar(s[0]) && r[1..] == s[1..]
  {
    if s == [] then [] else [UpperChar(s[0])] + s[1..]
  }

  /** Whatever `s` contains, its lower-case form contains in lower case. */
  lemma ContainsLower(s: string, t: string)
    requires Contains(s, t)
    ensures Contains(Lower(s), Lower(t))
  {
    ContainsIff(s, t);
    var k :| OccursAt(s, t, k);
    forall j | 0 <= j < |t| ensures Lower(s)[k..k + |t|][j] == Lower(t)[j] {
      assert s[k..k + |t|][j] == t[j];
    }
    assert Lower(s)[k..k + |t|] == Lower(t);
    ContainsAt(Lower(s), Lower(t), k);
  }

  /** Neither case change introduces a line break. */
  lemma LowerKeepsLines(s: string)
    requires '\n' !in s
    ensures '\n' !in Lower(s)
  {
    forall i | 0 <= i < |s| ensures Lower(s)[i] != '\n' {
      assert s[i] != '\n';
    }
  }

  lemma CapitalizeKeepsLines(s: string)
    requires '\n' !in s
    ensures '\n' !in Capitalize(s)
  {
    forall i | 0 <= i < |s| ensures Capitalize(s)[i] != '\n' {
      if i > 0 {
        assert Capitalize(s)[i] == Capitalize(s)[1..][i - 1] == s[i];
      } else {
        assert s[0] != '\n';
      }
    }
  }

  // ---------------------------------------------------------------------
  // `s.length`: UTF-16 code units

  /** A character outside the Basic Multilingual Plane takes two UTF-16 code
      units (a surrogate pair); every other character takes one. */
  function Utf16Units(ch: char): nat
  {
    if ch as int >= 0x1_0000 then 2 else 1
  }

  /** `s.length` in JavaScript: the number of UTF-16 code units, which is
      the number of characters plus one for each character beyond the Basic
      Multilingual Plane. */
  function Utf16Length(s: string): (n: nat)
    ensures |s| <= n <= 2 * |s|
    ensures n == |s| <==> forall i :: 0 <= i < |s| ==> s[i] as int < 0x1_0000
    decreases |s|
  {
    if s == [] then 0
    else
      var n := Utf16Units(s[0]) + Utf16Length(s[1..]);
      assert forall i :: 1 <= i < |s| ==> s[i] == s[1..][i - 1];
      n
  }

  /** A string made only of characters beyond the Basic Multilingual Plane
      has twice as many code units as characters. */
  lemma {:induction false} Utf16LengthAstral(s: string)
    requires forall i :: 0 <= i < |s| ==> s[i] as int >= 0x1_0000
    ensures Utf16Length(s) == 2 * |s|
    decreases |s|
  {
    if s != [] {
      assert forall i :: 0 <= i < |s[1..]| ==> s[1..][i] == s[i + 1];
      Utf16LengthAstral(s[1..]);
    }
  }

  // ---------------------------------------------------------------------
  // `parseInt(s)` and `Number(s)` for decimal integers; `None` is NaN

  predicate IsDigit(ch: char)
  {
    '0' <= ch <= '9'
  }

  predicate AllDigits(s: string)
  {
    forall i :: 0 <= i < |s| ==> IsDigit(s[i])
  }

  /** The length of the run of decimal digits at the start of `s`. */
  function LeadingDigits(s: string): (n: nat)
    ensures n <= |s| && AllDigits(s[..n])
    ensures n < |s| ==> !IsDigit(s[n])
    decreases |s|
  {
    if s != [] && IsDigit(s[0]) then
      var n := 1 + LeadingDigits(s[1..]);
      assert s[..n] == [s[0]] + s[1..][..n - 1];
      n
    else 0
  }

  /** The value of a string of decimal digits, most significant first. */
  function DecimalValue(ds: string): nat
    requires AllDigits(ds)
    decreases |ds|
  {
    if ds == [] then 0
    else 10 * DecimalValue(ds[..|ds| - 1]) + (ds[|ds| - 1] as int - '0' as int)
  }

  /** Splits an optional leading sign off: whether it was `-`, and the rest. */
  function SignAndBody(t: string): (bool, string)
  {
    if t != [] && (t[0] == '-' || t[0] == '+') then (t[0] == '-', t[1..]) else (false, t)
  }

  /** `parseInt(s)` (radix 10): after leading white space and an optional sign,
      the longest run of digits; NaN when there is none. */
  function ParseInt(s: string): (r: Option<int>)
    ensures s != [] && AllDigits(s) ==> r == Some(DecimalValue(s))
    ensures (forall k :: 0 <= k < |s| ==> IsJsWhitespace(s[k])) ==> r.None?
  {
    var (negative, body) := SignAndBody(TrimStart(s));
    var n := LeadingDigits(body);
    DigitsUntrimmed(s);
    assert s != [] && AllDigits(s) ==> LeadingDigits(s) == |s| && s[..|s|] == s;
    assert TrimStart(s) != [] ==> TrimStart(s)[0] == s[|s| - |TrimStart(s)|];
    if n == 0 then None else Some(Signed(negative, DecimalValue(body[..n])))
  }

  /** A magnitude with its sign applied. */
  function Signed(negative: bool, v: nat): int
  {
    if negative then -(v as int) else v
  }

  /** `Number(s)` for strings denoting integers: white space around an optional
      sign and digits; the blank string is 0; anything else is NaN. */
  function ToNumber(s: string): (r: Option<int>)
    ensures s != [] && AllDigits(s) ==> r == Some(DecimalValue(s))
    ensures (forall k :: 0 <= k < |s| ==> IsJsWhitespace(s[k])) ==> r == Some(0)
  {
    DigitsUntrimmed(s);
    var t := Trim(s);
    if t == [] then Some(0)
    else
      var (negative, body) := SignAndBody(t);
      if body == [] || !AllDigits(body) then None
      else Some(Signed(negative, DecimalValue(body)))
  }

  /** Trimming leaves a digit string as it is, and it has no sign. */
  lemma DigitsUntrimmed(s: string)
    ensures s != [] && AllDigits(s) ==>
      TrimStart(s) == s && TrimEnd(s) == s && Trim(s) == s && SignAndBody(s) == (false, s)
  {
    if s != [] && AllDigits(s) {
      assert IsDigit(s[0]) && IsDigit(s[|s| - 1]);
    }
  }

  /** Where `Number` reads a string that is not blank as an integer,
      `parseInt` reads the same integer: the two differ only on the blank
      string (0 against NaN) and on text after the digits (NaN against the
      leading number). */
  lemma NumberAgreesWithParseInt(s: string)
    requires Trim(s) != [] && ToNumber(s).Some?
    ensures ParseInt(s) == ToNumber(s)
  {
    var u := TrimStart(s);
    var t := TrimEnd(u);
    var (neg, bt) := SignAndBody(t);
    NumberOf(s, neg, bt);
    forall k | |t| <= k < |u| ensures !IsDigit(u[k]) {
      assert IsJsWhitespace(u[k]);
    }
    SignedDigitsPrefix(u, t);
    var (nu, bu) := SignAndBody(u);
    ParseIntOf(s, nu, bu, |bt|);
  }

  /** `Number` on a string that is not blank, from its sign and body. */
  lemma NumberOf(s: string, negative: bool, body: string)
    requires Trim(s) != [] && SignAndBody(Trim(s)) == (negative, body)
    ensures ToNumber(s).Some? <==> body != [] && AllDigits(body)
    ensures ToNumber(s).Some? ==> ToNumber(s) == Some(Signed(negative, DecimalValue(body)))
  {
  }

  /** `parseInt` from the sign and body after the leading white space and
      the length of the run of digits. */
  lemma ParseIntOf(s: string, negative: bool, body: string, n: nat)
    requires SignAndBody(TrimStart(s)) == (negative, body) && LeadingDigits(body) == n > 0
    ensures ParseInt(s) == Some(Signed(negative, DecimalValue(body[..n])))
  {
  }

  /** A sign and digits followed by characters that are not digits: the sign
      and the run of digits are those of the prefix. */
  lemma SignedDigitsPrefix(u: string, t: string)
    requires 0 < |t| <= |u| && t == u[..|t|]
    requires forall k :: |t| <= k < |u| ==> !IsDigit(u[k])
    requires SignAndBody(t).1 != [] && AllDigits(SignAndBody(t).1)
    ensures SignAndBody(u).0 == SignAndBody(t).0
    ensures LeadingDigits(SignAndBody(u).1) == |SignAndBody(t).1|
    ensures SignAndBody(u).1[..|SignAndBody(t).1|] == SignAndBody(t).1
  {
    assert u[0] == t[0];
    var off := if t[0] == '-' || t[0] == '+' then 1 else 0;
    var bu := SignAndBody(u).1;
    var bt := SignAndBody(t).1;
    assert bu == u[off..] && bt == t[off..];
    assert bt == bu[..|bt|];
    assert |bt| == |bu| || !IsDigit(bu[|bt|]) by {
      if |bt| < |bu| {
        assert bu[|bt|] == u[|t|];
      }
    }
    LeadingDigitsIs(bu, |bt|);
  }

  /** The run of digits is exactly `m` long when the first `m` characters are
      digits and the next one, if any, is not. */
  lemma {:induction false} LeadingDigitsIs(b: string, m: nat)
    requires m <= |b| && AllDigits(b[..m]) && (m == |b| || !IsDigit(b[m]))
    ensures LeadingDigits(b) == m
    decreases m
  {
    if m > 0 {
      assert IsDigit(b[..m][0]);
      assert b[1..][..m - 1] == b[..m][1..];
      assert m - 1 == |b[1..]| || b[1..][m - 1] == b[m];
      LeadingDigitsIs(b[1..], m - 1);
    }
  }

  /** The decimal value of the word-count presets of the create form. */
  lemma PresetValues()
    ensures AllDigits("300") && DecimalValue("300") == 300
    ensures AllDigits("500") && DecimalValue("500") == 500
    ensures AllDigits("800") && DecimalValue("800") == 800
    ensures AllDigits("1200") && DecimalValue("1200") == 1200
  {
    assert "300"[..2] == "30" && "30"[..1] == "3" && "3"[..0] == "";
    assert "500"[..2] == "50" && "50"[..1] == "5" && "5"[..0] == "";
    assert "800"[..2] == "80" && "80"[..1] == "8" && "8"[..0] == "";
    assert "1200"[..3] == "120" && "120"[..2] == "12" && "12"[..1] == "1" && "1"[..0] == "";
  }

  /** Both conversions read the four presets as 300, 500, 800 and 1200. */
  lemma PresetNumbers()
    ensures ParseInt("300") == Some(300) && ToNumber("300") == Some(300)
    ensures ParseInt("500") == Some(500) && ToNumber("500") == Some(500)
    ensures ParseInt("800") == Some(800) && ToNumber("800") == Some(800)
    ensures ParseInt("1200") == Some(1200) && ToNumber("1200") == Some(1200)
  {
    PresetValues();
    DigitStringIs("300", 300);
    DigitStringIs("500", 500);
    DigitStringIs("800", 800);
    DigitStringIs("1200", 1200);
  }

  lemma DigitStringIs(ds: string, n: int)
    requires ds != [] && AllDigits(ds) && DecimalValue(ds) == n
    ensures ParseInt(ds) == Some(n) && ToNumber(ds) == Some(n)
  {
  }
}
