/** Greedy line wrapping, and why no other way of breaking the same words uses fewer lines. */
module Wrapping {

  type Widths = char -> nat

  function Width(w: Widths, s: string): nat {
    if s == "" then 0 else Width(w, s[..|s| - 1]) + w(s[|s| - 1])
  }

  function Join(words: seq<string>): string {
    if words == [] then ""
    else if |words| == 1 then words[0]
    else Join(words[..|words| - 1]) + " " + words[|words| - 1]
  }

  /** The words fit on one line. */
  predicate FitsOn(w: Widths, max: nat, words: seq<string>) {
    Width(w, Join(words)) <= max
  }

  /** How far a line that already holds the first n words goes on. */
  function Extend(w: Widths, max: nat, words: seq<string>, n: nat): (k: nat)
    requires 0 < n <= |words|
    ensures n <= k <= |words|
    decreases |words| - n
  {
    if n < |words| && FitsOn(w, max, words[..n + 1]) then Extend(w, max, words, n + 1) else n
  }

  /** Fill a line as far as it goes, then start the next. */
  function Fill(w: Widths, max: nat, words: seq<string>): seq<seq<string>> {
    if words == [] then []
    else
      var k := Extend(w, max, words, 1);
      [words[..k]] + Fill(w, max, words[k..])
  }

  function Lines(groups: seq<seq<string>>): (lines: seq<string>)
    ensures |lines| == |groups|
  {
    seq(|groups|, i requires 0 <= i < |groups| => Join(groups[i]))
  }

  /* ---- the loop ---- */

  predicate AreFields(words: seq<string>) {
    forall word | word in words :: word != ""
  }

  lemma JoinEmpty(words: seq<string>)
    requires AreFields(words)
    ensures Join(words) == "" <==> words == []
  {
    if |words| == 1 {
      assert words[0] in words;
    }
  }

  lemma JoinAppend(words: seq<string>, word: string)
    ensures Join(words + [word]) == if words == [] then word else Join(words) + " " + word
  {
    assert (words + [word])[..|words|] == words;
  }

  lemma ExtendStep(w: Widths, max: nat, words: seq<string>, n: nat)
    requires 0 < n < |words|
    ensures Extend(w, max, words, n) == if FitsOn(w, max, words[..n + 1]) then Extend(w, max, words, n + 1) else n
  {
  }

  /** The loop's place: done holds the finished lines' words, the current line those from start to i. */
  ghost predicate Midway(w: Widths, max: nat, words: seq<string>, start: nat, i: nat, done: seq<seq<string>>) {
    && start <= i <= |words| && (start == i ==> i == 0)
    && Fill(w, max, words) == done + Fill(w, max, words[start..])
    && (start < i ==> Extend(w, max, words[start..], 1) == Extend(w, max, words[start..], i - start))
  }

  lemma GoesOn(w: Widths, max: nat, words: seq<string>, start: nat, i: nat, done: seq<seq<string>>)
    requires Midway(w, max, words, start, i, done) && i < |words|
    requires start < i ==> FitsOn(w, max, words[start..i + 1])
    ensures Midway(w, max, words, start, i + 1, done)
  {
    if start < i {
      assert words[start..][..i - start + 1] == words[start..i + 1];
      ExtendStep(w, max, words[start..], i - start);
    }
  }

  lemma Breaks(w: Widths, max: nat, words: seq<string>, start: nat, i: nat, done: seq<seq<string>>)
    requires Midway(w, max, words, start, i, done) && start < i
    requires i < |words| ==> !FitsOn(w, max, words[start..i + 1])
    ensures Fill(w, max, words) == done + [words[start..i]] + Fill(w, max, words[i..])
  {
    var rest := words[start..];
    if i < |words| {
      assert rest[..i - start + 1] == words[start..i + 1];
      ExtendStep(w, max, rest, i - start);
    }
    assert Extend(w, max, rest, 1) == i - start;
    assert rest[..i - start] == words[start..i] && rest[i - start..] == words[i..];
    assert Fill(w, max, rest) == [words[start..i]] + Fill(w, max, words[i..]);
  }

  lemma LinesAppend(groups: seq<seq<string>>, g: seq<string>)
    ensures Lines(groups + [g]) == Lines(groups) + [Join(g)]
  {
  }

  lemma JoinSlice(words: seq<string>, start: nat, i: nat)
    requires AreFields(words) && start <= i <= |words|
    ensures Join(words[start..i]) == "" <==> start == i
    ensures i < |words| ==>
              Join(words[start..i + 1]) == if start == i then words[i] else Join(words[start..i]) + " " + words[i]
  {
    assert AreFields(words[start..i]) by {
      forall word | word in words[start..i] ensures word in words { }
    }
    JoinEmpty(words[start..i]);
    if i < |words| {
      JoinAppend(words[start..i], words[i]);
      assert words[start..i + 1] == words[start..i] + [words[i]];
    }
  }

  /** Words come from splitting at white space, so none is empty. */
  method Wrap(w: Widths, max: nat, words: seq<string>) returns (lines: seq<string>)
    requires AreFields(words)
    ensures lines == Lines(Fill(w, max, words))
  {
    lines := [];
    var line := "";
    ghost var start: nat, done := 0, [];
    assert words[0..] == words;
    hide Fill, Extend, Join, Lines, AreFields;
    for i := 0 to |words|
      invariant Midway(w, max, words, start, i, done)
      invariant lines == Lines(done) && line == Join(words[start..i])
    {
      var word := words[i];
      JoinSlice(words, start, i);
      var candidate := if line != "" then line + " " + word else word;
      if Width(w, candidate) > max && line != "" {
        Breaks(w, max, words, start, i, done);
        LinesAppend(done, words[start..i]);
        JoinSlice(words, i, i);
        lines, done := lines + [line], done + [words[start..i]];
        start, line := i, word;
        NextLine(w, max, words, i, done);
      } else {
        GoesOn(w, max, words, start, i, done);
        line := candidate;
      }
    }
    JoinSlice(words, start, |words|);
    if line != "" {
      Breaks(w, max, words, start, |words|, done);
      LinesAppend(done, words[start..|words|]);
      lines, done := lines + [line], done + [words[start..|words|]];
    }
    FillNothing(w, max, words, done);
  }

  lemma NextLine(w: Widths, max: nat, words: seq<string>, i: nat, done: seq<seq<string>>)
    requires i < |words| && Fill(w, max, words) == done + Fill(w, max, words[i..])
    ensures Midway(w, max, words, i, i + 1, done)
  {
  }

  lemma FillNothing(w: Widths, max: nat, words: seq<string>, done: seq<seq<string>>)
    requires Fill(w, max, words) == done + Fill(w, max, words[|words|..]) || (words == [] && done == [])
    ensures Fill(w, max, words) == done
  {
  }

  /* ---- valid and optimal ---- */

  function Flatten(groups: seq<seq<string>>): seq<string> {
    if groups == [] then [] else groups[0] + Flatten(groups[1..])
  }

  /** The words in order, no line empty, each line within the width or a single word. */
  ghost predicate IsWrap(w: Widths, max: nat, words: seq<string>, groups: seq<seq<string>>) {
    && Flatten(groups) == words
    && forall g | g in groups :: g != [] && (FitsOn(w, max, g) || |g| == 1)
  }

  lemma {:induction false} ExtendFits(w: Widths, max: nat, words: seq<string>, n: nat)
    requires 0 < n <= |words| && (FitsOn(w, max, words[..n]) || n == 1)
    ensures var k := Extend(w, max, words, n); FitsOn(w, max, words[..k]) || k == 1
    decreases |words| - n
  {
    if n < |words| && FitsOn(w, max, words[..n + 1]) {
      ExtendFits(w, max, words, n + 1);
    }
  }

  lemma ConsIsWrap(w: Widths, max: nat, words: seq<string>, k: nat, rest: seq<seq<string>>)
    requires 0 < k <= |words| && (FitsOn(w, max, words[..k]) || k == 1) && IsWrap(w, max, words[k..], rest)
    ensures IsWrap(w, max, words, [words[..k]] + rest)
  {
    hide FitsOn;
    var all := [words[..k]] + rest;
    assert all[1..] == rest;
    assert words[..k] + words[k..] == words;
    forall g | g in all ensures g != [] && (FitsOn(w, max, g) || |g| == 1) {
      assert g == words[..k] || g in rest;
    }
  }

  lemma {:induction false} FillIsWrap(w: Widths, max: nat, words: seq<string>)
    ensures IsWrap(w, max, words, Fill(w, max, words))
    decreases |words|
  {
    if words == [] {
      assert Flatten([]) == words;
    } else {
      hide FitsOn, IsWrap;
      var k := Extend(w, max, words, 1);
      ExtendFits(w, max, words, 1);
      FillIsWrap(w, max, words[k..]);
      ConsIsWrap(w, max, words, k, Fill(w, max, words[k..]));
      assert Fill(w, max, words) == [words[..k]] + Fill(w, max, words[k..]);
    }
  }

  lemma {:induction false} WidthConcat(w: Widths, a: string, b: string)
    ensures Width(w, a + b) == Width(w, a) + Width(w, b)
  {
    if b == "" {
      assert a + b == a;
    } else {
      assert (a + b)[..|a + b| - 1] == a + b[..|b| - 1];
      WidthConcat(w, a, b[..|b| - 1]);
    }
  }

  lemma {:induction false} JoinConcat(a: seq<string>, b: seq<string>)
    requires a != [] && b != []
    ensures Join(a + b) == Join(a) + " " + Join(b)
  {
    var n := |b| - 1;
    if n == 0 {
      assert a + b == a + [b[0]];
      JoinAppend(a, b[0]);
    } else {
      assert a + b == (a + b[..n]) + [b[n]] && b == b[..n] + [b[n]];
      JoinAppend(a + b[..n], b[n]);
      JoinAppend(b[..n], b[n]);
      JoinConcat(a, b[..n]);
    }
  }

  /** A run within a line is no wider than the line. */
  lemma RunFits(w: Widths, max: nat, words: seq<string>, p: nat, e: nat)
    requires p < e <= |words| && FitsOn(w, max, words)
    ensures FitsOn(w, max, words[p..e])
  {
    if e < |words| {
      assert words == words[..e] + words[e..];
      JoinConcat(words[..e], words[e..]);
      WidthConcat(w, Join(words[..e]) + " ", Join(words[e..]));
      WidthConcat(w, Join(words[..e]), " ");
    } else {
      assert words[..e] == words;
    }
    if 0 < p {
      assert words[..e] == words[..p] + words[p..e];
      JoinConcat(words[..p], words[p..e]);
      WidthConcat(w, Join(words[..p]) + " ", Join(words[p..e]));
    } else {
      assert words[p..e] == words[..e];
    }
  }

  /** A line goes on past every run of words that would still fit. */
  lemma {:induction false} ExtendReaches(w: Widths, max: nat, words: seq<string>, n: nat, e: nat)
    requires 0 < n <= e <= |words| && (FitsOn(w, max, words[..e]) || e == n)
    ensures e <= Extend(w, max, words, n)
    decreases e - n
  {
    if n < e {
      RunFits(w, max, words[..e], 0, n + 1);
      assert words[..e][0..n + 1] == words[..n + 1];
      ExtendReaches(w, max, words, n + 1, e);
    }
  }

  /** Dropping the first line of a wrap wraps the rest. */
  lemma RestIsWrap(w: Widths, max: nat, words: seq<string>, groups: seq<seq<string>>)
    requires IsWrap(w, max, words, groups) && words != []
    ensures groups != [] && |groups[0]| <= |words| && words[..|groups[0]|] == groups[0] && groups[0] != []
    ensures FitsOn(w, max, groups[0]) || |groups[0]| == 1
    ensures IsWrap(w, max, words[|groups[0]|..], groups[1..])
  {
    assert groups[0] in groups;
    assert words == groups[0] + Flatten(groups[1..]);
    assert words[|groups[0]|..] == Flatten(groups[1..]);
    assert forall g | g in groups[1..] :: g in groups;
  }

  lemma FillNext(w: Widths, max: nat, words: seq<string>, p: nat)
    requires p < |words|
    ensures var k := Extend(w, max, words[p..], 1);
            |Fill(w, max, words[p..])| == 1 + |Fill(w, max, words[p + k..])|
  {
    var k := Extend(w, max, words[p..], 1);
    assert words[p..][k..] == words[p + k..];
  }

  lemma FillEnd(w: Widths, max: nat, words: seq<string>, p: nat)
    requires p == |words|
    ensures |Fill(w, max, words[p..])| == 0
  {
  }

  /** Starting no earlier than some other wrap of the words, filling needs no more lines. */
  lemma {:induction false} FillStaysAhead(w: Widths, max: nat, words: seq<string>, p: nat, groups: seq<seq<string>>)
    requires p <= |words| && IsWrap(w, max, words, groups)
    ensures |Fill(w, max, words[p..])| <= |groups|
    decreases |groups|
  {
    hide *;
    if p == |words| {
      FillEnd(w, max, words, p);
    } else {
      RestIsWrap(w, max, words, groups);
      var m := |groups[0]|;
      var rest := words[m..];
      if m <= p {
        FillStaysAhead(w, max, rest, p - m, groups[1..]);
        assert rest[p - m..] == words[p..];
      } else {
        var k := Extend(w, max, words[p..], 1);
        FirstLineReaches(w, max, words, p, groups[0]);
        FillNext(w, max, words, p);
        FillStaysAhead(w, max, rest, p + k - m, groups[1..]);
        assert rest[p + k - m..] == words[p + k..];
      }
    }
  }

  lemma FirstLineReaches(w: Widths, max: nat, words: seq<string>, p: nat, g: seq<string>)
    requires p < |g| <= |words| && words[..|g|] == g && (FitsOn(w, max, g) || |g| == 1)
    ensures |g| - p <= Extend(w, max, words[p..], 1)
  {
    if FitsOn(w, max, g) {
      RunFits(w, max, g, p, |g|);
      assert words[p..][..|g| - p] == g[p..|g|];
      ExtendReaches(w, max, words[p..], 1, |g| - p);
    }
  }

  /** Greedy wrapping keeps the words in order, overflows only with a single word, and no valid
      way of breaking the words has fewer lines. */
  lemma WrapIsOptimal(w: Widths, max: nat, words: seq<string>, groups: seq<seq<string>>)
    requires IsWrap(w, max, words, groups)
    ensures IsWrap(w, max, words, Fill(w, max, words))
    ensures |Lines(Fill(w, max, words))| <= |groups|
  {
    FillIsWrap(w, max, words);
    FillStaysAhead(w, max, words, 0, groups);
    assert words[0..] == words;
  }

  /* ---- truncation ---- */

  /** Cuts from the end until the text with its ellipsis fits; text that fits is left alone. */
  method Truncate(w: Widths, max: nat, s: string, ellipsis: char) returns (r: string)
    ensures Width(w, s) <= max ==> r == s
    ensures Width(w, s) > max ==> exists n: nat {:trigger s[..n]} :: n <= |s| && r == s[..n] + [ellipsis]
                                    && (n == 0 || Width(w, r) <= max)
                                    && forall m: nat {:trigger s[..m]} | n < m <= |s| ::
                                        Width(w, s[..m] + [ellipsis]) > max
  {
    if Width(w, s) <= max { return s; }
    var n := |s|;
    while 0 < n && Width(w, s[..n] + [ellipsis]) > max
      invariant 0 <= n <= |s|
      invariant forall m: nat {:trigger s[..m]} | n < m <= |s| :: Width(w, s[..m] + [ellipsis]) > max
    {
      n := n - 1;
    }
    r := s[..n] + [ellipsis];
  }
}
