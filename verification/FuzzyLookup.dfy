/**
 The two name matchers of poc/sapi/fuzzy-match/match_revised.py: `lookup` with every fix on, which
 normalizes each listed name as it goes, and `lookup_indexed` over names normalized once. In exact
 arithmetic. Normalizing is a parameter, and so is reading a query as a stock code.
 */
module FuzzyLookup {
  import opened Common
  import opened Lcs
  import opened NameScore
  import opened Subsequence

  datatype Names = Names(zh: string, en: string)

  /** The list, the codes that are RMB counters, and the normalizer that drops white space among others. */
  datatype StockList = StockList(entries: map<string, Names>, rmb: set<string>)

  datatype Query = Query(asCode: Option<string>, text: string)

  /** The sort key of a match. */
  datatype Key = Key(overlap: int, lcs: int, contiguous: int, negLength: int)

  predicate Lower(a: Key, b: Key) {
    || a.overlap < b.overlap
    || (a.overlap == b.overlap && a.lcs < b.lcs)
    || (a.overlap == b.overlap && a.lcs == b.lcs && a.contiguous < b.contiguous)
    || (a.overlap == b.overlap && a.lcs == b.lcs && a.contiguous == b.contiguous && a.negLength < b.negLength)
  }

  predicate IsAt(text: string, part: string, k: nat) {
    k + |part| <= |text| && text[k..k + |part|] == part
  }

  predicate Contains(text: string, part: string) {
    exists k :: 0 <= k <= |text| && IsAt(text, part, k)
  }

  function Overlap(q: string, name: string): nat {
    |multiset(q) * multiset(name)|
  }

  function Higher(best: Option<Key>, key: Option<Key>): Option<Key> {
    if key.None? then best
    else if best.None? || Lower(best.value, key.value) then key
    else best
  }

  /** How a normalized name matches: a Latin query must be inside it, any other reach a share `ratio` of its letters. */
  function Match(q: string, ratio: real, name: string): Option<Key> {
    if IsAscii(q) then
      if Contains(name, q) then Some(Key(|q|, |q|, 1, -|name|)) else None
    else if Overlap(q, name) as real / |q| as real < ratio then None
    else Some(Key(Overlap(q, name), LcsLength(q, name), if Contains(name, q) then 1 else 0, -|name|))
  }

  /** Every listed stock with a matching name, at the best of its two names. */
  function Matches(list: StockList, norm: string -> string, q: string, ratio: real): map<string, Key> {
    map c | c in list.entries && c !in list.rmb && BestMatch(list, norm, q, ratio, c).Some?
      :: BestMatch(list, norm, q, ratio, c).value
  }

  function BestMatch(list: StockList, norm: string -> string, q: string, ratio: real, c: string): Option<Key>
    requires c in list.entries
  {
    Higher(Match(q, ratio, norm(list.entries[c].zh)), Match(q, ratio, norm(list.entries[c].en)))
  }

  /** `c` is the one stock whose match is above all others'. */
  predicate IsTop(matches: map<string, Key>, c: string) {
    c in matches && forall d :: d in matches && d != c ==> Lower(matches[d], matches[c])
  }

  // ----- Ranking -----

  type Ranked = seq<(Key, string)>

  function Insert(x: (Key, string), s: Ranked): (r: Ranked)
    ensures (forall y :: y in r <==> y == x || y in s) && |r| == |s| + 1
  {
    if s != [] && Lower(x.0, s[0].0) then
      assert forall y :: y in s <==> y == s[0] || y in s[1..];
      [s[0]] + Insert(x, s[1..])
    else
      [x] + s
  }

  lemma {:induction false} InsertKeepsOrder(x: (Key, string), s: Ranked)
    requires Sorted(s)
    ensures Sorted(Insert(x, s))
  {
    if s != [] && Lower(x.0, s[0].0) {
      InsertKeepsOrder(x, s[1..]);
      var rest := Insert(x, s[1..]);
      forall j | 0 <= j < |rest| ensures !Lower(s[0].0, rest[j].0) {
        assert rest[j] in rest;
      }
    }
  }

  lemma {:induction false} InsertKeepsDistinct(x: (Key, string), s: Ranked)
    requires DistinctCodes(s) && forall y :: y in s ==> y.1 != x.1
    ensures DistinctCodes(Insert(x, s))
  {
    if s != [] && Lower(x.0, s[0].0) {
      InsertKeepsDistinct(x, s[1..]);
      var rest := Insert(x, s[1..]);
      forall j | 0 <= j < |rest| ensures s[0].1 != rest[j].1 {
        assert rest[j] in rest;
      }
    }
  }

  /** sort(reverse=True): highest first, equals in their order. */
  function SortDescending(s: Ranked): (r: Ranked)
    ensures (forall y :: y in r <==> y in s) && |r| == |s|
  {
    if s == [] then []
    else
      assert forall y :: y in s <==> y == s[0] || y in s[1..];
      Insert(s[0], SortDescending(s[1..]))
  }

  lemma {:induction false} SortDescendingSorts(s: Ranked)
    requires DistinctCodes(s)
    ensures Sorted(SortDescending(s)) && DistinctCodes(SortDescending(s))
  {
    if s == [] {
    } else {
      SortDescendingSorts(s[1..]);
      InsertKeepsOrder(s[0], SortDescending(s[1..]));
      InsertKeepsDistinct(s[0], SortDescending(s[1..]));
    }
  }

  predicate Sorted(s: Ranked) {
    forall i, j :: 0 <= i < j < |s| ==> !Lower(s[i].0, s[j].0)
  }

  predicate DistinctCodes(s: Ranked) {
    forall i, j :: 0 <= i < j < |s| ==> s[i].1 != s[j].1
  }

  /** `scored` lists the stocks of `matches`, each once. */
  ghost predicate ListsMatches(scored: Ranked, matches: map<string, Key>) {
    && DistinctCodes(scored)
    && forall k, c :: (k, c) in scored <==> c in matches && matches[c] == k
  }

  /** Sort, miss on a tie at the top, else take the first. */
  method TakeTop(scored: Ranked, ghost matches: map<string, Key>) returns (found: Option<string>)
    requires ListsMatches(scored, matches)
    ensures forall c :: found == Some(c) <==> IsTop(matches, c)
  {
    forall c | c in matches ensures (matches[c], c) in scored { }
    if scored == [] {
      return None;
    }
    var ranked := SortDescending(scored);
    SortDescendingSorts(scored);
    FirstIsHighest(ranked, matches);
    if |ranked| > 1 && ranked[0].0 == ranked[1].0 {
      return None;
    }
    found := Some(ranked[0].1);
  }

  lemma FirstIsHighest(ranked: Ranked, matches: map<string, Key>)
    requires ranked != [] && Sorted(ranked) && ListsMatches(ranked, matches)
    ensures |ranked| > 1 && ranked[0].0 == ranked[1].0 ==> forall c :: !IsTop(matches, c)
    ensures !(|ranked| > 1 && ranked[0].0 == ranked[1].0) ==> forall c :: c == ranked[0].1 <==> IsTop(matches, c)
  {
    var first := ranked[0];
    assert first in ranked && matches[first.1] == first.0;
    if |ranked| > 1 {
      var second := ranked[1];
      assert second in ranked && matches[second.1] == second.0;
    }
    forall c | c in matches && c != first.1
      ensures !Lower(first.0, matches[c])
      ensures matches[c] == first.0 ==> |ranked| > 1 && ranked[1].0 == first.0
    {
      assert (matches[c], c) in ranked;
      var i :| 0 <= i < |ranked| && ranked[i] == (matches[c], c);
      assert !Lower(ranked[0].0, ranked[i].0);
      if i > 1 { assert !Lower(ranked[1].0, ranked[i].0) && !Lower(ranked[0].0, ranked[1].0); }
    }
  }

  // ----- lookup, every fix on -----

  /** `lookup`: scans the list and normalizes both names of every stock. */
  method Lookup(list: StockList, norm: string -> string, query: Query, ratio: real) returns (found: Option<string>)
    ensures query.asCode.Some? ==> found == if query.asCode.value in list.entries then query.asCode else None
    ensures query.asCode.None? ==> forall c :: found == Some(c) <==>
      IsTop(Matches(list, norm, norm(query.text), ratio), c)
  {
    if query.asCode.Some? {
      return if query.asCode.value in list.entries then query.asCode else None;
    }
    var q := norm(query.text);
    var scored: Ranked := [];
    var rest := list.entries.Keys;
    while rest != {}
      invariant rest <= list.entries.Keys && DistinctCodes(scored)
      invariant forall k, c :: (k, c) in scored <==>
                  c in list.entries && c !in rest && c !in list.rmb && BestMatch(list, norm, q, ratio, c) == Some(k)
      decreases |rest|
    {
      hide Match, Lower, BestMatch;
      var code :| code in rest;
      assert forall y :: y in scored ==> (y.0, y.1) in scored;
      rest := rest - {code};
      if code in list.rmb { continue; }
      var names := [list.entries[code].zh, list.entries[code].en];
      var best: Option<Key> := None;
      for i := 0 to |names|
        invariant best == if i == 0 then None
                          else if i == 1 then Match(q, ratio, norm(names[0]))
                          else Higher(Match(q, ratio, norm(names[0])), Match(q, ratio, norm(names[1])))
      {
        var name := norm(names[i]);
        var key: Option<Key>;
        if IsAscii(q) {
          key := if Contains(name, q) then Some(Key(|q|, |q|, 1, -|name|)) else None;
        } else if Overlap(q, name) as real / |q| as real < ratio {
          key := None;
        } else {
          var lcs := ComputeLcsLength(q, name);
          key := Some(Key(Overlap(q, name), lcs, if Contains(name, q) then 1 else 0, -|name|));
        }
        MatchIs(q, ratio, name, key);
        best := Higher(best, key);
      }
      BestMatchIs(list, norm, q, ratio, code);
      if best.Some? { scored := scored + [(best.value, code)]; }
    }
    assert forall k, c :: (k, c) in scored <==>
      c in Matches(list, norm, q, ratio) && Matches(list, norm, q, ratio)[c] == k;
    found := TakeTop(scored, Matches(list, norm, q, ratio));
  }

  lemma MatchIs(q: string, ratio: real, name: string, key: Option<Key>)
    requires IsAscii(q) ==> key == if Contains(name, q) then Some(Key(|q|, |q|, 1, -|name|)) else None
    requires !IsAscii(q) && Overlap(q, name) as real / |q| as real < ratio ==> key == None
    requires !IsAscii(q) && Overlap(q, name) as real / |q| as real >= ratio ==>
               key == Some(Key(Overlap(q, name), LcsLength(q, name), if Contains(name, q) then 1 else 0, -|name|))
    ensures key == Match(q, ratio, name)
  {
  }

  lemma BestMatchIs(list: StockList, norm: string -> string, q: string, ratio: real, c: string)
    requires c in list.entries
    ensures BestMatch(list, norm, q, ratio, c) ==
            Higher(Match(q, ratio, norm(list.entries[c].zh)), Match(q, ratio, norm(list.entries[c].en)))
  {
  }

  // ----- lookup_indexed -----

  /** INDEX: the distinct non-empty normalized names of every stock that is no RMB counter. */
  function IndexOf(list: StockList, norm: string -> string): set<(string, string)> {
    set c, name | c in list.entries && c !in list.rmb
                  && name in {norm(list.entries[c].zh), norm(list.entries[c].en)} && name != "" :: (c, name)
  }

  /** As Match, with the overlap held against a share of the query's length. */
  function IndexedMatch(q: string, ratio: real, name: string): Option<Key> {
    if IsAscii(q) then
      if Contains(name, q) then Some(Key(|q|, |q|, 1, -|name|)) else None
    else if Overlap(q, name) as real < ratio * |q| as real then None
    else Some(Key(Overlap(q, name), LcsLength(q, name), if Contains(name, q) then 1 else 0, -|name|))
  }

  /** `k` is the highest match of an indexed name of stock `c`. */
  ghost predicate IsBestOf(names: set<(string, string)>, q: string, ratio: real, c: string, k: Key) {
    && (exists name :: (c, name) in names && IndexedMatch(q, ratio, name) == Some(k))
    && (forall name :: (c, name) in names && IndexedMatch(q, ratio, name).Some? ==>
      !Lower(k, IndexedMatch(q, ratio, name).value))
  }

  /** `best` holds, for each stock with a matching indexed name, the highest match. */
  ghost predicate BestOver(names: set<(string, string)>, q: string, ratio: real, best: map<string, Key>) {
    && (forall c :: c in best ==> IsBestOf(names, q, ratio, c, best[c]))
    && (forall c, name :: (c, name) in names && IndexedMatch(q, ratio, name).Some? ==> c in best)
  }

  /** `lookup_indexed`: scans the indexed names, keeping each stock's best match. */
  method LookupIndexed(list: StockList, norm: string -> string, query: Query, ratio: real)
    returns (found: Option<string>)
    ensures query.asCode.Some? ==> found == if query.asCode.value in list.entries then query.asCode else None
    ensures query.asCode.None? ==>
              exists best :: BestOver(IndexOf(list, norm), norm(query.text), ratio, best)
                             && forall c :: found == Some(c) <==> IsTop(best, c)
  {
    if query.asCode.Some? {
      return if query.asCode.value in list.entries then query.asCode else None;
    }
    hide IndexOf, IsTop, Match, IndexedMatch, Lower, BestOver, Overlap, Contains, LcsLength, IsAscii, ListsMatches;
    var q := norm(query.text);
    var floor := ratio * |q| as real;
    var best: map<string, Key> := map[];
    var index := IndexOf(list, norm);
    var rest := index;
    NoNamesNoBest(q, ratio, index - rest);
    while rest != {}
      invariant rest <= index && BestOver(index - rest, q, ratio, best)
      decreases |rest|
    {
      var pair :| pair in rest;
      var (code, name) := pair;
      ghost var seen := index - rest;
      rest := rest - {pair};
      assert index - rest == seen + {(code, name)};
      var key: Option<Key>;
      if IsAscii(q) {
        key := if Contains(name, q) then Some(Key(|q|, |q|, 1, -|name|)) else None;
      } else if Overlap(q, name) as real < floor {
        key := None;
      } else {
        var lcs := ComputeLcsLength(q, name);
        key := Some(Key(Overlap(q, name), lcs, if Contains(name, q) then 1 else 0, -|name|));
      }
      IndexedMatchIs(q, ratio, name, key);
      OneMoreName(seen, q, ratio, best, code, name, key);
      if key.Some? && (code !in best || Lower(best[code], key.value)) {
        best := best[code := key.value];
      }
    }
    assert index - rest == index;
    var scored := ItemsOf(best);
    found := TakeTop(scored, best);
  }

  lemma IndexedMatchIs(q: string, ratio: real, name: string, key: Option<Key>)
    requires IsAscii(q) ==> key == if Contains(name, q) then Some(Key(|q|, |q|, 1, -|name|)) else None
    requires !IsAscii(q) && Overlap(q, name) as real < ratio * |q| as real ==> key == None
    requires !IsAscii(q) && Overlap(q, name) as real >= ratio * |q| as real ==>
               key == Some(Key(Overlap(q, name), LcsLength(q, name), if Contains(name, q) then 1 else 0, -|name|))
    ensures key == IndexedMatch(q, ratio, name)
  {
  }

  lemma NoNamesNoBest(q: string, ratio: real, names: set<(string, string)>)
    requires names == {}
    ensures BestOver(names, q, ratio, map[])
  {
  }

  lemma OneMoreName(seen: set<(string, string)>, q: string, ratio: real, best: map<string, Key>,
                    code: string, name: string, key: Option<Key>)
    requires BestOver(seen, q, ratio, best) && key == IndexedMatch(q, ratio, name)
    ensures BestOver(seen + {(code, name)}, q, ratio,
                     if key.Some? && (code !in best || Lower(best[code], key.value))
                     then best[code := key.value] else best)
  {
    hide IndexedMatch;
    var best' := if key.Some? && (code !in best || Lower(best[code], key.value)) then best[code := key.value] else best;
    forall c | c in best' ensures IsBestOf(seen + {(code, name)}, q, ratio, c, best'[c]) {
      if c in best { assert IsBestOf(seen, q, ratio, c, best[c]); }
    }
  }

  /** best.items(). */
  method ItemsOf(best: map<string, Key>) returns (items: Ranked)
    ensures ListsMatches(items, best)
  {
    items := [];
    var rest := best.Keys;
    while rest != {}
      invariant rest <= best.Keys && DistinctCodes(items)
      invariant forall k, c :: (k, c) in items <==> c in best && c !in rest && best[c] == k
      decreases |rest|
    {
      var c :| c in rest;
      assert forall y :: y in items ==> (y.0, y.1) in items;
      rest := rest - {c};
      items := items + [(best[c], c)];
    }
  }

  /** A listed name equal to the query matches it best, and any other name worse. */
  lemma OwnSpellingMatchesHighest(q: string, ratio: real, name: string)
    requires q != "" && ratio <= 1.0
    ensures Match(q, ratio, q).Some?
    ensures name != q && Match(q, ratio, name).Some? ==> Lower(Match(q, ratio, name).value, Match(q, ratio, q).value)
  {
    SelfMatch(q);
    AtMostTheQuery(q, name);
    hide LcsLength, Overlap, IsAscii, Contains;
    assert |q| as real / |q| as real == 1.0;
  }

  lemma SelfMatch(q: string)
    ensures Contains(q, q) && Overlap(q, q) == |q| && LcsLength(q, q) == |q|
  {
    assert IsAt(q, q, 0);
    assert multiset(q) * multiset(q) == multiset(q);
    LcsLengthIsGreatest(q, q);
    SubsequenceOfItself(q);
    hide LcsLength;
    assert IsCommon(q, q, q);
    AtMostTheQuery(q, q);
  }

  lemma AtMostTheQuery(q: string, name: string)
    ensures Overlap(q, name) <= |q| && LcsLength(q, name) <= |q|
    ensures Contains(name, q) ==> |q| <= |name| && (|name| == |q| ==> name == q)
  {
    assert multiset(q) == multiset(q) * multiset(name) + (multiset(q) - multiset(name));
    LcsLengthIsGreatest(q, name);
    hide LcsLength;
    var c :| IsCommon(c, q, name) && |c| == LcsLength(q, name);
    SubsequenceUsesItsCharacters(c, q);
  }

  predicate Around(name: string, before: string, q: string, after: string) {
    name == before + q + after
  }

  /** What matches at all: the names around a Latin query, and those with a share of another query's letters. */
  lemma MatchesExactlyWhen(q: string, ratio: real, name: string)
    requires q != ""
    ensures IsAscii(q) ==> (Match(q, ratio, name).Some? <==> exists before, after :: Around(name, before, q, after))
    ensures !IsAscii(q) ==>
              (Match(q, ratio, name).Some? <==> |multiset(q) * multiset(name)| as real >= ratio * |q| as real)
  {
    hide LcsLength, Contains, Around;
    if IsAscii(q) {
      ContainsMeansAround(name, q);
    } else {
      ShareMatches(q, ratio, name);
    }
  }

  lemma ShareMatches(q: string, ratio: real, name: string)
    requires q != "" && !IsAscii(q)
    ensures Match(q, ratio, name).Some? <==> Overlap(q, name) as real >= ratio * |q| as real
  {
    hide LcsLength, IsAscii, Contains, Overlap;
    ShareOrCount(Overlap(q, name), |q|, ratio);
  }

  lemma ContainsMeansAround(name: string, q: string)
    ensures Contains(name, q) <==> exists before, after :: Around(name, before, q, after)
  {
    if k :| 0 <= k <= |name| && IsAt(name, q, k) {
      assert Around(name, name[..k], q, name[k + |q|..]);
    }
    if before, after :| Around(name, before, q, after) {
      assert IsAt(name, q, |before|);
    }
  }

  /**
   What ranks above what: for a Latin query the shorter name; for another one more letters in common, then the
   longer common subsequence, then containing the query, then being shorter.
   */
  lemma MatchesOrder(q: string, ratio: real, n: string, m: string, common: nat, longest: nat)
    requires Match(q, ratio, n).Some? && Match(q, ratio, m).Some?
    requires IsLcsLength(common, q, n) && IsLcsLength(longest, q, m)
    ensures IsAscii(q) ==> (Lower(Match(q, ratio, n).value, Match(q, ratio, m).value) <==> |m| < |n|)
    ensures !IsAscii(q) ==>
              var few, many := |multiset(q) * multiset(n)|, |multiset(q) * multiset(m)|;
              (Lower(Match(q, ratio, n).value, Match(q, ratio, m).value) <==>
                || few < many
                || (few == many && common < longest)
                || (few == many && common == longest && !Contains(n, q) && Contains(m, q))
                || (few == many && common == longest && (Contains(n, q) <==> Contains(m, q)) && |m| < |n|))
  {
    LcsLengthIsGreatest(q, n);
    LcsLengthIsGreatest(q, m);
    OneLcsLength(q, n, common, LcsLength(q, n));
    OneLcsLength(q, m, longest, LcsLength(q, m));
    hide LcsLength, IsAscii, Contains, IsLcsLength;
  }

  lemma OneLcsLength(a: string, b: string, x: nat, y: nat)
    requires IsLcsLength(x, a, b) && IsLcsLength(y, a, b)
    ensures x == y
  {
    var c :| IsCommon(c, a, b) && |c| == x;
    var d :| IsCommon(d, a, b) && |d| == y;
  }

  /** Neither lookup ever finds an RMB counter by its name. */
  lemma RmbCountersAreNeverFound(list: StockList, norm: string -> string, q: string, ratio: real, c: string)
    requires c in list.rmb
    ensures !IsTop(Matches(list, norm, q, ratio), c)
    ensures forall best :: BestOver(IndexOf(list, norm), q, ratio, best) ==> !IsTop(best, c)
  {
    hide Match, IndexedMatch, Lower;
    forall best | BestOver(IndexOf(list, norm), q, ratio, best) ensures c !in best {
      BestIsIndexed(IndexOf(list, norm), q, ratio, best, c);
    }
  }

  // ----- The two agree -----

  /** The two lookups answer alike for every list. */
  ghost predicate AlwaysAgree(norm: string -> string, q: string, ratio: real) {
    forall list, best, c :: BestOver(IndexOf(list, norm), q, ratio, best) ==>
      (IsTop(Matches(list, norm, q, ratio), c) <==> IsTop(best, c))
  }

  /**
   The indexed lookup answers as the plain one does, for every list, exactly if the normalized query is not
   empty, and either Latin or held against a positive ratio.
   */
  lemma AgreeExactlyWhen(norm: string -> string, q: string, ratio: real)
    requires norm("") == ""
    ensures AlwaysAgree(norm, q, ratio) <==> q != "" && (IsAscii(q) || ratio > 0.0)
  {
    if q != "" && (IsAscii(q) || ratio > 0.0) {
      forall list, best, c | BestOver(IndexOf(list, norm), q, ratio, best)
        ensures IsTop(Matches(list, norm, q, ratio), c) <==> IsTop(best, c)
      {
        SameMatches(list, norm, q, ratio, best);
      }
    } else {
      NamelessStockDiffers(norm, q, ratio);
    }
  }

  lemma SameMatches(list: StockList, norm: string -> string, q: string, ratio: real, best: map<string, Key>)
    requires q != "" && (IsAscii(q) || ratio > 0.0)
    requires BestOver(IndexOf(list, norm), q, ratio, best)
    ensures Matches(list, norm, q, ratio) == best
  {
    var matches := Matches(list, norm, q, ratio);
    forall c ensures (c in matches <==> c in best) && (c in matches ==> matches[c] == best[c]) {
      SameMatchOf(list, norm, q, ratio, best, c);
    }
  }

  lemma SameMatchOf(list: StockList, norm: string -> string, q: string, ratio: real, best: map<string, Key>, c: string)
    requires q != "" && (IsAscii(q) || ratio > 0.0)
    requires BestOver(IndexOf(list, norm), q, ratio, best)
    ensures c in best <==> c in Matches(list, norm, q, ratio)
    ensures c in best ==> best[c] == Matches(list, norm, q, ratio)[c]
  {
    hide IndexedMatch, Match;
    var index := IndexOf(list, norm);
    if c in list.entries && c !in list.rmb {
      var zh, en := norm(list.entries[c].zh), norm(list.entries[c].en);
      SameMatch(q, ratio, zh);
      SameMatch(q, ratio, en);
      assert zh != "" ==> (c, zh) in index;
      assert en != "" ==> (c, en) in index;
      assert forall name :: (c, name) in index ==> name == zh || name == en;
      assert c in best ==> IsBestOf(index, q, ratio, c, best[c]);
    } else {
      BestIsIndexed(index, q, ratio, best, c);
      assert forall name :: (c, name) !in index;
    }
  }

  lemma BestIsIndexed(names: set<(string, string)>, q: string, ratio: real, best: map<string, Key>, c: string)
    requires BestOver(names, q, ratio, best)
    ensures c in best ==> exists name :: (c, name) in names
  {
  }

  /** The two tests of a name agree, and neither lets an empty name match. */
  lemma SameMatch(q: string, ratio: real, name: string)
    requires q != "" && (IsAscii(q) || ratio > 0.0)
    ensures Match(q, ratio, name) == IndexedMatch(q, ratio, name)
    ensures name == "" ==> Match(q, ratio, name) == None
  {
    hide LcsLength, Overlap, IsAscii, Contains;
    if !IsAscii(q) {
      ShareOrCount(Overlap(q, name), |q|, ratio);
    }
    if name == "" { NothingInAnEmptyName(q, ratio); }
  }

  lemma NothingInAnEmptyName(q: string, ratio: real)
    requires q != ""
    ensures !Contains("", q) && Overlap(q, "") == 0
    ensures ratio > 0.0 ==> Overlap(q, "") as real < ratio * |q| as real
  {
    assert multiset(q) * multiset("") == multiset{};
  }

  lemma ShareOrCount(part: nat, whole: nat, ratio: real)
    requires whole > 0
    ensures part as real / whole as real < ratio <==> part as real < ratio * whole as real
  {
    var x, y := part as real, whole as real;
    assert x == x / y * y;
    if x / y < ratio { assert x / y * y < ratio * y; }
    if x / y >= ratio { assert x / y * y >= ratio * y; }
  }

  /** Otherwise a stock without names is found by the plain lookup and not by the indexed one. */
  lemma NamelessStockDiffers(norm: string -> string, q: string, ratio: real)
    requires norm("") == "" && (q == "" || (!IsAscii(q) && ratio <= 0.0))
    ensures !AlwaysAgree(norm, q, ratio)
  {
    var list := StockList(map["00001" := Names("", "")], {});
    EmptyNameMatches(q, ratio);
    hide Match, IndexedMatch;
    assert IndexOf(list, norm) == {};
    NoNamesNoBest(q, ratio, {});
    var matches := Matches(list, norm, q, ratio);
    assert BestMatch(list, norm, q, ratio, "00001").Some?;
    assert matches.Keys == {"00001"};
    assert IsTop(matches, "00001") && !IsTop(map[], "00001");
    assert BestOver(IndexOf(list, norm), q, ratio, map[]);
  }

  lemma EmptyNameMatches(q: string, ratio: real)
    requires q == "" || (!IsAscii(q) && ratio <= 0.0)
    ensures Match(q, ratio, "").Some?
  {
    if q == "" {
      assert IsAt("", q, 0);
    } else {
      ShareOrCount(Overlap(q, ""), |q|, ratio);
      assert ratio * |q| as real <= 0.0;
    }
  }
}
