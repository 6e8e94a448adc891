/** Ranks with ties averaged: `_ranks` of poc/sapi/scoring-skills/rounds.py. */
module Ranks {
  import opened Common

  /** How many values are below `v`, and how many equal it. */
  function Smaller(xs: seq<real>, v: real): nat {
    |set k | 0 <= k < |xs| && xs[k] < v|
  }

  function Equal(xs: seq<real>, v: real): nat {
    |set k | 0 <= k < |xs| && xs[k] == v|
  }

  /** The rank of a listed value: the mean of the places its equals take. */
  function RankOf(xs: seq<real>, v: real): real {
    Smaller(xs, v) as real + (Equal(xs, v) as real - 1.0) / 2.0
  }

  /** The indices of `xs`, each once. */
  predicate IsPermutation(order: seq<nat>, n: nat) {
    && |order| == n && Distinct(order)
    && (forall k :: 0 <= k < |order| ==> order[k] < n)
    && (forall p: nat :: p < n ==> p in order)
  }

  predicate SortedBy(order: seq<nat>, xs: seq<real>) {
    && (forall k :: 0 <= k < |order| ==> order[k] < |xs|)
    && (forall i, j :: 0 <= i < j < |order| ==> xs[order[i]] <= xs[order[j]])
  }

  /** sorted(range(len(xs)), key=...). */
  method SortedIndices(xs: seq<real>) returns (order: seq<nat>)
    ensures IsPermutation(order, |xs|) && SortedBy(order, xs)
  {
    order := [];
    for n := 0 to |xs|
      invariant IsPermutation(order, n) && SortedBy(order, xs)
    {
      var k := n;
      while k > 0 && xs[n] < xs[order[k - 1]]
        invariant 0 <= k <= n
        invariant forall i :: k <= i < n ==> xs[n] < xs[order[i]]
      {
        k := k - 1;
      }
      PlaceKeepsPermutation(order, n, k);
      order := order[..k] + [n] + order[k..];
    }
  }

  lemma PlaceKeepsPermutation(order: seq<nat>, n: nat, k: nat)
    requires IsPermutation(order, n) && k <= n
    ensures IsPermutation(order[..k] + [n] + order[k..], n + 1)
  {
    var longer := order[..k] + [n] + order[k..];
    forall p: nat | p < n ensures p in longer {
      assert p in order;
      var i :| 0 <= i < n && order[i] == p;
      assert longer[if i < k then i else i + 1] == p;
    }
    assert longer[k] == n;
  }

  /** `_ranks`. */
  method ComputeRanks(xs: seq<real>) returns (ranks: array<real>)
    ensures fresh(ranks) && ranks.Length == |xs|
    ensures forall p :: 0 <= p < |xs| ==> ranks[p] == RankOf(xs, xs[p])
  {
    var order := SortedIndices(xs);
    ranks := new real[|xs|](_ => 0.0);
    var i := 0;
    while i < |order|
      invariant 0 <= i <= |order|
      invariant 0 < i < |order| ==> xs[order[i - 1]] < xs[order[i]]
      invariant forall k :: 0 <= k < i ==> ranks[order[k]] == RankOf(xs, xs[order[k]])
    {
      var j := i;
      while j + 1 < |order| && xs[order[j + 1]] == xs[order[i]]
        invariant i <= j < |order|
        invariant forall k :: i <= k <= j ==> xs[order[k]] == xs[order[i]]
      {
        j := j + 1;
      }
      RunDecidesRank(xs, order, i, j);
      for k := i to j + 1
        invariant forall m :: 0 <= m < k ==> ranks[order[m]] == RankOf(xs, xs[order[m]])
      {
        ranks[order[k]] := (i + j) as real / 2.0;
      }
      i := j + 1;
    }
    forall p: nat | p < |xs| ensures ranks[p] == RankOf(xs, xs[p]) {
      assert p in order;
      var k :| 0 <= k < |order| && order[k] == p;
    }
  }

  /** A maximal run of equal values takes the places `i` to `j`. */
  lemma RunDecidesRank(xs: seq<real>, order: seq<nat>, i: nat, j: nat)
    requires IsPermutation(order, |xs|) && SortedBy(order, xs) && i <= j < |order|
    requires forall k :: i <= k <= j ==> xs[order[k]] == xs[order[i]]
    requires i > 0 ==> xs[order[i - 1]] < xs[order[i]]
    requires j + 1 < |order| ==> xs[order[j + 1]] != xs[order[i]]
    ensures RankOf(xs, xs[order[i]]) == (i + j) as real / 2.0
  {
    var v := xs[order[i]];
    var below := set k | 0 <= k < |xs| && xs[k] < v;
    var same := set k | 0 <= k < |xs| && xs[k] == v;
    PlacesCount(order, 0, i);
    PlacesCount(order, i, j + 1);
    forall p ensures (p in below <==> p in Places(order, 0, i)) && (p in same <==> p in Places(order, i, j + 1)) {
      if 0 <= p < |xs| {
        var place: nat := p;
        assert place in order;
        var k :| 0 <= k < |order| && order[k] == place;
        RunSeparates(xs, order, i, j, k);
      }
    }
    assert below == Places(order, 0, i) && same == Places(order, i, j + 1);
  }

  lemma RunSeparates(xs: seq<real>, order: seq<nat>, i: nat, j: nat, k: nat)
    requires IsPermutation(order, |xs|) && SortedBy(order, xs) && i <= j < |order| && k < |order|
    requires forall k :: i <= k <= j ==> xs[order[k]] == xs[order[i]]
    requires i > 0 ==> xs[order[i - 1]] < xs[order[i]]
    requires j + 1 < |order| ==> xs[order[j + 1]] != xs[order[i]]
    ensures xs[order[k]] < xs[order[i]] <==> k < i
    ensures xs[order[k]] == xs[order[i]] <==> i <= k <= j
    ensures order[k] in Places(order, 0, i) <==> k < i
    ensures order[k] in Places(order, i, j + 1) <==> i <= k <= j
  {
    if k < i { assert xs[order[k]] <= xs[order[i - 1]]; }
    if k > j { assert xs[order[j + 1]] <= xs[order[k]]; }
  }

  function Places(order: seq<nat>, lo: nat, hi: nat): set<int>
    requires lo <= hi <= |order|
  {
    set k | lo <= k < hi :: order[k] as int
  }

  lemma {:induction false} PlacesCount(order: seq<nat>, lo: nat, hi: nat)
    requires Distinct(order) && lo <= hi <= |order|
    ensures |Places(order, lo, hi)| == hi - lo
    decreases hi
  {
    if lo == hi {
    } else {
      PlacesCount(order, lo, hi - 1);
      assert Places(order, lo, hi) == Places(order, lo, hi - 1) + {order[hi - 1] as int};
    }
  }

  /** Equal values share a rank, and a larger value ranks higher. */
  lemma RanksKeepOrder(xs: seq<real>, p: nat, q: nat)
    requires p < |xs| && q < |xs|
    ensures xs[p] < xs[q] <==> RankOf(xs, xs[p]) < RankOf(xs, xs[q])
  {
    if xs[p] < xs[q] { LargerRanksHigher(xs, p, q); }
    if xs[q] < xs[p] { LargerRanksHigher(xs, q, p); }
  }

  lemma LargerRanksHigher(xs: seq<real>, p: nat, q: nat)
    requires p < |xs| && q < |xs| && xs[p] < xs[q]
    ensures RankOf(xs, xs[p]) < RankOf(xs, xs[q])
  {
    var below := set k | 0 <= k < |xs| && xs[k] < xs[p];
    var same := set k | 0 <= k < |xs| && xs[k] == xs[p];
    var belowQ := set k | 0 <= k < |xs| && xs[k] < xs[q];
    assert below !! same && below + same <= belowQ;
    SubsetIsSmaller(below + same, belowQ);
    assert p in same && q in set k | 0 <= k < |xs| && xs[k] == xs[q];
  }

  lemma SubsetIsSmaller(a: set<int>, b: set<int>)
    requires a <= b
    ensures |a| <= |b|
  {
    assert b == a + (b - a);
  }

  // ----- The ranks add up -----

  function Sum(s: seq<real>): real {
    if s == [] then 0.0 else Sum(s[..|s| - 1]) + s[|s| - 1]
  }

  function AllRanks(xs: seq<real>): seq<real> {
    seq(|xs|, p requires 0 <= p < |xs| => RankOf(xs, xs[p]))
  }

  /** What `x` adds to the rank of `v`. */
  function Adds(x: real, v: real): real {
    if x < v then 1.0 else if x == v then 0.5 else 0.0
  }

  /** One more value adds one place to its own rank or another's for every value there is. */
  lemma RankWithOneMore(xs: seq<real>, y: real, v: real)
    ensures RankOf(xs + [y], v) == RankOf(xs, v) + Adds(y, v)
  {
    var ys := xs + [y];
    var below := set k | 0 <= k < |xs| && xs[k] < v;
    var same := set k | 0 <= k < |xs| && xs[k] == v;
    assert (set k | 0 <= k < |ys| && ys[k] < v) == if y < v then below + {|xs|} else below;
    assert (set k | 0 <= k < |ys| && ys[k] == v) == if y == v then same + {|xs|} else same;
  }

  /** The ranks add up to n (n - 1) / 2. */
  lemma {:induction false} RanksSum(xs: seq<real>)
    ensures Sum(AllRanks(xs)) == HalfProduct(|xs|)
  {
    hide RankOf;
    if xs == [] {
    } else {
      var n := |xs| - 1;
      var ys, y := xs[..n], xs[n];
      assert xs == ys + [y];
      RanksSum(ys);
      PairsAddOne(ys, y, n);
      RankWithOneMore(ys, y, y);
      assert ys[..n] == ys && AllRanks(ys)[..n] == AllRanks(ys);
      HalfProductGrows(n);
    }
  }

  function HalfProduct(n: nat): real {
    n as real * (n as real - 1.0) / 2.0
  }

  lemma HalfProductGrows(n: nat)
    ensures HalfProduct(n + 1) == HalfProduct(n) + n as real
  {
    var x := n as real;
    assert (n + 1) as real == x + 1.0;
    assert (x + 1.0) * x == x * (x - 1.0) + 2.0 * x;
  }

  lemma {:induction false} PairsAddOne(ys: seq<real>, y: real, n: nat)
    requires n <= |ys|
    ensures Sum(AllRanks(ys + [y])[..n]) == Sum(AllRanks(ys)[..n]) + n as real - RankOf(ys[..n], y) - 0.5
  {
    hide RankOf;
    if n == 0 {
      RankInNothing(ys[..0], y);
      assert ys[..0] == [];
    } else {
      PairsAddOne(ys, y, n - 1);
      var x := ys[n - 1];
      var all, more := AllRanks(ys), AllRanks(ys + [y]);
      assert all[..n][..n - 1] == all[..n - 1] && more[..n][..n - 1] == more[..n - 1];
      RankWithOneMore(ys, y, x);
      RankWithOneMore(ys[..n - 1], x, y);
      assert ys[..n] == ys[..n - 1] + [x];
    }
  }

  lemma RankInNothing(xs: seq<real>, v: real)
    ensures xs == [] ==> RankOf(xs, v) == -0.5
  {
    var below := set k | 0 <= k < |xs| && xs[k] < v;
    var same := set k | 0 <= k < |xs| && xs[k] == v;
    if xs == [] { assert below == {} && same == {}; }
  }
}
