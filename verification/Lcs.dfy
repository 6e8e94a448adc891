/** The rolling-row dynamic program `_lcs_length` of poc/sapi/fuzzy-match/match_cases.py. */
module Lcs {
  import opened Subsequence

  ghost predicate IsCommon(c: string, a: string, b: string) {
    IsSubsequenceOf(c, a) && IsSubsequenceOf(c, b)
  }

  /** `n` is the greatest length of any common subsequence. */
  ghost predicate IsLcsLength(n: nat, a: string, b: string) {
    && (exists c :: IsCommon(c, a, b) && |c| == n)
    && (forall c :: IsCommon(c, a, b) ==> |c| <= n)
  }

  /** The recurrence the table is filled by. */
  function LcsLength(a: string, b: string): nat
    decreases |a| + |b|
  {
    if a == [] || b == [] then 0
    else
      var a', b' := a[..|a| - 1], b[..|b| - 1];
      if a[|a| - 1] == b[|b| - 1] then LcsLength(a', b') + 1
      else if LcsLength(a', b) >= LcsLength(a, b') then LcsLength(a', b)
      else LcsLength(a, b')
  }

  /** `_lcs_length`: after each character of `a`, the row of lengths against every prefix of `b`. */
  method ComputeLcsLength(a: string, b: string) returns (n: nat)
    ensures n == LcsLength(a, b)
    ensures IsLcsLength(n, a, b)
  {
    hide IsLcsLength;
    var prev := seq(|b| + 1, _ => 0);
    for i := 0 to |a|
      invariant |prev| == |b| + 1
      invariant forall j :: 0 <= j <= |b| ==> prev[j] == LcsLength(a[..i], b[..j])
    {
      var cur := [0];
      for j := 0 to |b|
        invariant |cur| == j + 1
        invariant forall k :: 0 <= k <= j ==> cur[k] == LcsLength(a[..i + 1], b[..k])
      {
        CellFromNeighbours(a, b, i, j);
        cur := cur + [if a[i] == b[j] then prev[j] + 1 else if prev[j + 1] >= cur[j] then prev[j + 1] else cur[j]];
      }
      prev := cur;
    }
    assert a[..|a|] == a && b[..|b|] == b;
    n := prev[|b|];
    LcsLengthIsGreatest(a, b);
  }

  lemma CellFromNeighbours(a: string, b: string, i: nat, j: nat)
    requires i < |a| && j < |b|
    ensures LcsLength(a[..i + 1], b[..j + 1]) ==
            if a[i] == b[j] then LcsLength(a[..i], b[..j]) + 1
            else if LcsLength(a[..i], b[..j + 1]) >= LcsLength(a[..i + 1], b[..j]) then LcsLength(a[..i], b[..j + 1])
            else LcsLength(a[..i + 1], b[..j])
  {
    assert a[..i + 1][..i] == a[..i] && b[..j + 1][..j] == b[..j];
  }

  lemma LcsLengthIsGreatest(a: string, b: string)
    ensures IsLcsLength(LcsLength(a, b), a, b)
  {
    var c := Longest(a, b);
    forall d | IsCommon(d, a, b) ensures |d| <= LcsLength(a, b) {
      NoneLonger(a, b, d);
    }
  }

  lemma Longest(a: string, b: string) returns (c: string)
    ensures IsCommon(c, a, b) && |c| == LcsLength(a, b)
    decreases |a| + |b|
  {
    hide IsSubsequenceOf;
    if a == [] || b == [] {
      c := [];
      EmptyIsSubsequence(a);
      EmptyIsSubsequence(b);
    } else {
      var a', b' := a[..|a| - 1], b[..|b| - 1];
      if a[|a| - 1] == b[|b| - 1] {
        c := Longest(a', b');
        ExtendBoth(c, a);
        ExtendBoth(c, b);
        c := c + [a[|a| - 1]];
      } else if LcsLength(a', b) >= LcsLength(a, b') {
        c := Longest(a', b);
        ExtendLong(c, a);
      } else {
        c := Longest(a, b');
        ExtendLong(c, b);
      }
    }
  }

  lemma {:induction false} NoneLonger(a: string, b: string, c: string)
    requires IsCommon(c, a, b)
    ensures |c| <= LcsLength(a, b)
    decreases |a| + |b|
  {
    hide IsSubsequenceOf;
    if c == [] {
    } else {
      SubsequenceOfNothing(c, a);
      SubsequenceOfNothing(c, b);
      var a', b', c' := a[..|a| - 1], b[..|b| - 1], c[..|c| - 1];
      DropLast(c, a);
      DropLast(c, b);
      if a[|a| - 1] == b[|b| - 1] {
        NoneLonger(a', b', c');
      } else if c[|c| - 1] != a[|a| - 1] {
        NoneLonger(a', b, c);
      } else {
        NoneLonger(a, b', c);
      }
    }
  }

  lemma EmptyIsSubsequence(a: string)
    ensures IsSubsequenceOf("", a)
  {
    assert Embeds("", a, []);
  }

  lemma SubsequenceOfNothing(c: string, a: string)
    requires IsSubsequenceOf(c, a) && c != []
    ensures a != []
  {
    var at :| Embeds(c, a, at);
    assert at[0] < |a|;
  }

  lemma ExtendLong(c: string, a: string)
    requires a != [] && IsSubsequenceOf(c, a[..|a| - 1])
    ensures IsSubsequenceOf(c, a)
  {
    var at :| Embeds(c, a[..|a| - 1], at);
    assert Embeds(c, a, at);
  }

  lemma ExtendBoth(c: string, a: string)
    requires a != [] && IsSubsequenceOf(c, a[..|a| - 1])
    ensures IsSubsequenceOf(c + [a[|a| - 1]], a)
  {
    var last: nat := |a| - 1;
    var at: seq<nat> :| Embeds(c, a[..last], at);
    assert Embeds(c + [a[last]], a, at + [last]);
  }

  /** The rest of a subsequence needs no last character, and all of it does only for its own last one. */
  lemma DropLast(c: string, a: string)
    requires c != [] && a != [] && IsSubsequenceOf(c, a)
    ensures IsSubsequenceOf(c[..|c| - 1], a[..|a| - 1])
    ensures c[|c| - 1] != a[|a| - 1] ==> IsSubsequenceOf(c, a[..|a| - 1])
  {
    var at :| Embeds(c, a, at);
    var n := |c| - 1;
    assert forall k :: 0 <= k < n ==> at[k] < at[n];
    assert Embeds(c[..n], a[..|a| - 1], at[..n]);
    if c[n] != a[|a| - 1] {
      assert Embeds(c, a[..|a| - 1], at);
    }
  }
}
