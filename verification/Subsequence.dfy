/**
 Ordered-subsequence matching of names: `_is_subsequence` and `_subsequence_span` of
 app/common/hk_stock_list.py, proved against the embeddings of one string in another.
 */
module Subsequence {
  import opened Common

  /** `at` places the first |at| characters of `short`, in order, at positions of `long` before `bound`. */
  ghost predicate Places(short: string, long: string, at: seq<nat>, bound: nat) {
    && |at| <= |short| && bound <= |long|
    && (forall k :: 0 <= k < |at| ==> at[k] < bound && long[at[k]] == short[k])
    && (forall k, m :: 0 <= k < m < |at| ==> at[k] < at[m])
  }

  /** An embedding of all of `short`. */
  ghost predicate Embeds(short: string, long: string, at: seq<nat>) {
    |at| == |short| && Places(short, long, at, |long|)
  }

  ghost predicate IsSubsequenceOf(short: string, long: string) {
    exists at :: Embeds(short, long, at)
  }

  datatype Span = Span(start: nat, end: nat)

  /** The end of an embedding of a non-empty string, one past its last position. */
  ghost function EndOf(at: seq<nat>): nat
    requires at != []
  {
    at[|at| - 1] + 1
  }

  /** No embedding ends before `s`, one starts and ends with it, and none that ends with it starts later. */
  ghost predicate Tightest(short: string, long: string, s: Span) {
    && short != []
    && (exists at :: Embeds(short, long, at) && at[0] == s.start && EndOf(at) == s.end)
    && (forall at :: Embeds(short, long, at) ==> s.end <= EndOf(at))
    && (forall at :: Embeds(short, long, at) && EndOf(at) == s.end ==> at[0] <= s.start)
  }

  /** Increasing positions below `bound` are no more than `bound`. */
  lemma {:induction false} PositionsFit(short: string, long: string, at: seq<nat>, bound: nat)
    requires Places(short, long, at, bound)
    ensures |at| <= bound
  {
    if at == [] {
    } else {
      var n := |at| - 1;
      assert forall k :: 0 <= k < n ==> at[k] < at[n];
      PositionsFit(short, long, at[..n], at[n]);
    }
  }

  lemma PlacesBeforeItsEnd(short: string, long: string, at: seq<nat>, bound: nat, pos: nat)
    requires Places(short, long, at, bound) && pos <= bound
    ensures at != [] && EndOf(at) <= pos ==> Places(short, long, at, pos)
  {
    assert forall k :: 0 <= k < |at| - 1 ==> at[k] < at[|at| - 1];
  }

  /** Scanning one more character places at most the next character of `short`. */
  lemma OneMoreAtMost(short: string, long: string, at: seq<nat>, i: nat, pos: nat)
    requires Places(short, long, at, pos + 1) && i < |short| && pos < |long|
    requires forall b :: Places(short, long, b, pos) ==> |b| <= i
    ensures |at| <= i || (|at| == i + 1 && long[pos] == short[i])
  {
    if |at| > i {
      var shorter := at[..|at| - 1];
      assert forall k :: 0 <= k < |shorter| ==> at[k] < at[|at| - 1];
      assert Places(short, long, shorter, pos);
      PlacesBeforeItsEnd(short, long, at, pos + 1, pos);
    }
  }

  /** The state of the first loop: `first` places as many characters of `short` as the first `pos` of `long` allow. */
  ghost predicate Greedy(short: string, long: string, first: seq<nat>, pos: nat) {
    && Places(short, long, first, pos)
    && (forall b :: Places(short, long, b, pos) ==> |b| <= |first|)
  }

  lemma GreedyStart(short: string, long: string)
    ensures Greedy(short, long, [], 0)
  {
    forall b | Places(short, long, b, 0) ensures |b| <= 0 { PositionsFit(short, long, b, 0); }
  }

  /** One more character of `long` is used exactly if it is the next one of `short`. */
  lemma GreedyStep(short: string, long: string, first: seq<nat>, pos: nat)
    requires Greedy(short, long, first, pos) && |first| < |short| && pos < |long|
    ensures Greedy(short, long, if long[pos] == short[|first|] then first + [pos] else first, pos + 1)
  {
    forall b | Places(short, long, b, pos + 1)
      ensures |b| <= |first| || (|b| == |first| + 1 && long[pos] == short[|first|])
    {
      OneMoreAtMost(short, long, b, |first|, pos);
    }
  }

  /** Where the whole of `short` is placed for the first time, no embedding ends earlier. */
  lemma GreedyEnds(short: string, long: string, first: seq<nat>, pos: nat)
    requires Greedy(short, long, first, pos) && |first| == |short| - 1 && pos < |long| && long[pos] == short[|first|]
    ensures EndsAt(short, long, first + [pos], pos + 1)
    ensures forall b :: Embeds(short, long, b) ==> pos + 1 <= EndOf(b)
  {
    forall b | Embeds(short, long, b) ensures pos + 1 <= EndOf(b) {
      PlacesBeforeItsEnd(short, long, b, |long|, pos);
    }
  }

  /** At the end of `long` with characters of `short` left over, there is no embedding. */
  lemma GreedyFails(short: string, long: string, first: seq<nat>)
    requires Greedy(short, long, first, |long|) && |first| < |short|
    ensures !IsSubsequenceOf(short, long)
  {
  }

  /** `_subsequence_span`. */
  method SubsequenceSpan(short: string, long: string) returns (span: Option<Span>)
    requires short != []
    ensures span.None? <==> !IsSubsequenceOf(short, long)
    ensures span.Some? ==> Tightest(short, long, span.value)
    ensures span.Some? ==> span.value.start + |short| <= span.value.end <= |long|
  {
    hide Places, Greedy;
    var i := 0;
    var end: Option<nat> := None;
    ghost var first: seq<nat> := [];
    var pos: nat := 0;
    GreedyStart(short, long);
    while pos < |long| && end.None?
      invariant pos <= |long| && |first| == i
      invariant end.None? ==> i < |short| && Greedy(short, long, first, pos)
      invariant end.Some? ==>
                  EndsAt(short, long, first, end.value) && forall b :: Embeds(short, long, b) ==> end.value <= EndOf(b)
      decreases |long| - pos, end.None?
    {
      GreedyStep(short, long, first, pos);
      if long[pos] == short[i] {
        if i + 1 == |short| {
          GreedyEnds(short, long, first, pos);
          end := Some(pos + 1);
        }
        first := first + [pos];
        i := i + 1;
      }
      pos := pos + 1;
    }
    if end.None? {
      GreedyFails(short, long, first);
      return None;
    }
    var start := LatestStart(short, long, end.value, first);
    AtTheEnd(short, long, end.value, first);
    span := Some(Span(start, end.value));
  }

  ghost predicate EndsAt(short: string, long: string, at: seq<nat>, end: nat) {
    short != [] && Embeds(short, long, at) && EndOf(at) == end
  }

  /**
   Every embedding that ends at `end` has its j-th position at `k` or before, and the later ones at `at`'s or before.
   */
  ghost predicate NoneLater(short: string, long: string, end: nat, at: seq<nat>, j: int, k: int)
    requires |at| == |short| && -1 <= j < |short|
  {
    && (forall b :: EndsAt(short, long, b, end) && j >= 0 ==> b[j] <= k)
    && (forall b, m :: EndsAt(short, long, b, end) && j < m < |short| ==> b[m] <= at[m])
  }

  lemma MovedBackStillEmbeds(short: string, long: string, end: nat, at: seq<nat>, j: nat, k: nat)
    requires EndsAt(short, long, at, end) && j < |short|
    requires k < end && long[k] == short[j] && at[j] <= k
    requires if j + 1 < |short| then k < at[j + 1] else k == end - 1
    ensures EndsAt(short, long, at[j := k], end)
  {
    var at' := at[j := k];
    forall m, n | 0 <= m < n < |at'| ensures at'[m] < at'[n] {
      assert at[m] < at[n];
      assert m < j ==> at[m] < at[j];
      assert n > j + 1 ==> at[j + 1] < at[n];
    }
  }

  lemma PositionsIncrease(short: string, long: string, end: nat, at: seq<nat>)
    requires EndsAt(short, long, at, end)
    ensures |at| == |short| && forall j :: 0 < j < |short| ==> at[j - 1] < at[j]
  {
  }

  lemma MatchedBack(short: string, long: string, end: nat, at: seq<nat>, j: nat, k: nat)
    requires EndsAt(short, long, at, end) && j < |short| && NoneLater(short, long, end, at, j, k)
    requires k < end && long[k] == short[j]
    requires if j + 1 < |short| then k < at[j + 1] else k == end - 1
    ensures EndsAt(short, long, at[j := k], end) && NoneLater(short, long, end, at[j := k], j - 1, k - 1)
  {
    assert at[j] <= k;
    MovedBackStillEmbeds(short, long, end, at, j, k);
    hide EndsAt;
    forall b | EndsAt(short, long, b, end) ensures |b| == |short| && (j - 1 >= 0 ==> b[j - 1] <= k - 1) {
      PositionsIncrease(short, long, end, b);
      assert b[j] <= k;
    }
  }

  /** The second loop: back from the end found, to the latest start it allows. */
  method LatestStart(short: string, long: string, end: nat, ghost first: seq<nat>) returns (start: nat)
    requires EndsAt(short, long, first, end)
    ensures exists at :: EndsAt(short, long, at, end) && at[0] == start
    ensures forall at :: EndsAt(short, long, at, end) ==> at[0] <= start
    ensures start + |short| <= end
  {
    hide EndsAt, NoneLater;
    AtTheEnd(short, long, end, first);
    var j: int, k: int := |short| - 1, end - 1;
    ghost var at: seq<nat> := first;
    while j >= 0
      invariant -1 <= j < |short| && |at| == |short| > 0
      invariant EndsAt(short, long, at, end) && NoneLater(short, long, end, at, j, k)
      invariant -1 <= k < end <= |long| && (j == |short| - 1 ==> k == end - 1)
      invariant j + 1 < |short| ==> k < at[j + 1]
      invariant j == -1 ==> at[0] == k + 1
      decreases k + 1
    {
      BackInBounds(short, long, end, at, j, k);
      if long[k] == short[j] {
        MatchedBack(short, long, end, at, j, k);
        at := at[j := k];
        j := j - 1;
      }
      k := k - 1;
    }
    start := k + 1;
    AtTheStart(short, long, end, at, k);
  }

  lemma AtTheEnd(short: string, long: string, end: nat, at: seq<nat>)
    requires EndsAt(short, long, at, end)
    ensures short != [] && |at| == |short| && at[|short| - 1] == end - 1 && end <= |long|
    ensures NoneLater(short, long, end, at, |short| - 1, end - 1)
  {
  }

  /** The loop finds every character before it runs out of positions; a mismatch rules its position out. */
  lemma BackInBounds(short: string, long: string, end: nat, at: seq<nat>, j: nat, k: int)
    requires EndsAt(short, long, at, end) && j < |short| && NoneLater(short, long, end, at, j, k) && k < end
    requires j == |short| - 1 ==> k == end - 1
    ensures 0 <= k && end <= |long|
    ensures long[k] != short[j] ==> j < |short| - 1 && NoneLater(short, long, end, at, j, k - 1)
  {
    assert at[j] <= k;
  }

  lemma AtTheStart(short: string, long: string, end: nat, at: seq<nat>, k: int)
    requires EndsAt(short, long, at, end) && at[0] == k + 1 && NoneLater(short, long, end, at, -1, k)
    ensures forall b :: EndsAt(short, long, b, end) ==> b[0] <= k + 1
    ensures k + 1 + |short| <= end
  {
    StartLeavesRoom(short, long, at, |short|);
  }

  lemma {:induction false} StartLeavesRoom(short: string, long: string, at: seq<nat>, n: nat)
    requires Embeds(short, long, at) && 0 < n <= |short|
    ensures at[0] + n <= at[n - 1] + 1
  {
    if n == 1 {
    } else {
      StartLeavesRoom(short, long, at, n - 1);
    }
  }

  /** `_is_subsequence`: each character consumes the iterator over `long` up to its next occurrence. */
  method IsSubsequence(short: string, long: string) returns (found: bool)
    ensures found <==> IsSubsequenceOf(short, long)
  {
    var pos: nat := 0;
    ghost var at: seq<nat> := [];
    for i := 0 to |short|
      invariant pos <= |long| && |at| == i && Places(short, long, at, pos)
      invariant forall b :: Embeds(short, long, b) ==> i > 0 ==> at[i - 1] <= b[i - 1]
      invariant pos == if i == 0 then 0 else at[i - 1] + 1
    {
      ghost var from := pos;
      while pos < |long| && long[pos] != short[i]
        invariant from <= pos <= |long|
        invariant forall p :: from <= p < pos ==> long[p] != short[i]
      {
        pos := pos + 1;
      }
      forall b | Embeds(short, long, b) ensures pos <= b[i] {
        assert i > 0 ==> b[i - 1] < b[i];
        assert long[b[i]] == short[i];
      }
      if pos == |long| {
        return false;
      }
      at := at + [pos];
      pos := pos + 1;
    }
    assert Embeds(short, long, at);
    found := true;
  }

  /** Only a string whose characters all occur in `long` can be an ordered subsequence of it. */
  lemma SubsequenceUsesItsCharacters(short: string, long: string)
    requires IsSubsequenceOf(short, long)
    ensures (set c | c in short) <= (set c | c in long) && |short| <= |long|
  {
    var at :| Embeds(short, long, at);
    forall c | c in short ensures c in long {
      var k :| 0 <= k < |short| && short[k] == c;
      assert long[at[k]] == c;
    }
    PositionsFit(short, long, at, |long|);
  }

  /** The tightest span is one: no other span of the same strings is tightest. */
  lemma TightestIsUnique(short: string, long: string, s: Span, t: Span)
    requires Tightest(short, long, s) && Tightest(short, long, t)
    ensures s == t
  {
  }

  /** A string embeds in itself over its whole length only. */
  lemma SelfEmbedding(s: string, at: seq<nat>)
    requires s != [] && Embeds(s, s, at)
    ensures at[0] == 0 && EndOf(at) == |s|
  {
    StartLeavesRoom(s, s, at, |s|);
  }

  lemma SpanOfItself(s: string, t: Span)
    requires Tightest(s, s, t)
    ensures t == Span(0, |s|)
  {
    hide Places;
    var at :| Embeds(s, s, at) && at[0] == t.start && EndOf(at) == t.end;
    SelfEmbedding(s, at);
  }
}
