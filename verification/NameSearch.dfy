/**
 The HK Stock List's name index and the search over it (app/common/hk_stock_list.py). Normalizing a raw
 name into its variants is a parameter: any function whose results are variants.
 */
module NameSearch {
  import opened Common
  import opened NameScore

  datatype Stock = Stock(nameZh: string, nameEn: string)

  datatype NameEntry = NameEntry(code: string, variants: seq<string>, latin: bool)

  datatype StockNameIndex = StockNameIndex(
    names: seq<NameEntry>,
    byCode: map<string, seq<NameEntry>>,
    byLatinPrefix: map<string, seq<NameEntry>>)

  /** A list of variants: the rest of a Latin name's variants are made of its words, so they are Latin too. */
  predicate AreVariants(vs: seq<string>) {
    && (forall k :: 0 <= k < |vs| ==> IsVariant(vs[k]))
    && (vs != [] && IsAscii(vs[0]) ==> forall k :: 0 <= k < |vs| ==> IsAscii(vs[k]))
  }

  ghost predicate Normalizes(variantsOf: string -> seq<string>) {
    forall raw :: AreVariants(variantsOf(raw))
  }

  // ----- The index -----

  /** The prefixes a list of variants is indexed under: the first letters of its longer words. */
  function PrefixesOf(variants: seq<string>): set<string> {
    set v, w | v in variants && w in Words(v) && |w| >= LATIN_PREFIX_LEN :: w[..LATIN_PREFIX_LEN]
  }

  /** The name `e` is listed under key `p` of `m`. */
  predicate Under(m: map<string, seq<NameEntry>>, p: string, e: NameEntry) {
    p in m && e in m[p]
  }

  /** Both groupings hold exactly the names they should. */
  ghost predicate Grouped(index: StockNameIndex) {
    && (forall c, e :: Under(index.byCode, c, e) <==> e in index.names && e.code == c)
    && (forall p, e :: Under(index.byLatinPrefix, p, e) <==>
                         e in index.names && e.latin && p in PrefixesOf(e.variants))
    && (forall e :: e in index.names ==>
          AreVariants(e.variants) && e.variants != [] && e.latin == IsAscii(e.variants[0]))
  }

  predicate IsNameOf(variantsOf: string -> seq<string>, s: Stock, raw: string) {
    (raw == s.nameZh || raw == s.nameEn) && variantsOf(raw) != []
  }

  /** `e` is one of the names of stock `s`, listed under `code`. */
  ghost predicate Names(variantsOf: string -> seq<string>, code: string, s: Stock, e: NameEntry) {
    exists raw :: IsNameOf(variantsOf, s, raw) && e == EntryOf(variantsOf, code, raw)
  }

  /** `e` is one of the listed names of the stocks in `entries`. */
  ghost predicate Lists(entries: map<string, Stock>, variantsOf: string -> seq<string>, e: NameEntry) {
    e.code in entries && Names(variantsOf, e.code, entries[e.code], e)
  }

  function EntryOf(variantsOf: string -> seq<string>, code: string, raw: string): NameEntry
    requires variantsOf(raw) != []
  {
    NameEntry(code, variantsOf(raw), IsAscii(variantsOf(raw)[0]))
  }

  ghost predicate IndexFor(entries: map<string, Stock>, variantsOf: string -> seq<string>, index: StockNameIndex) {
    Grouped(index) && forall e :: e in index.names <==> Lists(entries, variantsOf, e)
  }

  function Append(m: map<string, seq<NameEntry>>, key: string, e: NameEntry): map<string, seq<NameEntry>> {
    m[key := (if key in m then m[key] else []) + [e]]
  }

  lemma AppendAdds(m: map<string, seq<NameEntry>>, key: string, e: NameEntry)
    ensures forall p, x :: Under(Append(m, key, e), p, x) <==> Under(m, p, x) || (p == key && x == e)
  {
  }

  method AddPrefixes(byPrefix: map<string, seq<NameEntry>>, e: NameEntry) returns (after: map<string, seq<NameEntry>>)
    ensures forall p, x :: Under(after, p, x) <==> Under(byPrefix, p, x) || (x == e && p in PrefixesOf(e.variants))
  {
    hide Under, Append, PrefixesOf;
    after := byPrefix;
    var rest := PrefixesOf(e.variants);
    while rest != {}
      invariant rest <= PrefixesOf(e.variants)
      invariant forall p, x :: Under(after, p, x) <==>
        Under(byPrefix, p, x) || (x == e && p in PrefixesOf(e.variants) - rest)
      decreases |rest|
    {
      var p :| p in rest;
      rest := rest - {p};
      AppendAdds(after, p, e);
      after := Append(after, p, e);
    }
  }

  /** One listed name enters every grouping it belongs in. */
  method AddName(index: StockNameIndex, e: NameEntry) returns (after: StockNameIndex)
    requires Grouped(index) && AreVariants(e.variants) && e.variants != [] && e.latin == IsAscii(e.variants[0])
    ensures Grouped(after) && after.names == index.names + [e]
  {
    hide AreVariants, IsAscii, PrefixesOf, Append, Under;
    var byPrefix := index.byLatinPrefix;
    if e.latin {
      byPrefix := AddPrefixes(byPrefix, e);
    }
    AppendAdds(index.byCode, e.code, e);
    after := StockNameIndex(index.names + [e], Append(index.byCode, e.code, e), byPrefix);
  }

  /** The distinct non-empty names of one stock enter the index. */
  method AddStock(index: StockNameIndex, code: string, s: Stock, variantsOf: string -> seq<string>)
    returns (after: StockNameIndex)
    requires Grouped(index) && Normalizes(variantsOf)
    ensures Grouped(after)
    ensures forall e :: e in after.names <==> e in index.names || Names(variantsOf, code, s, e)
  {
    hide Grouped, AreVariants;
    var raws := if s.nameZh == s.nameEn then [s.nameZh] else [s.nameZh, s.nameEn];
    after := index;
    for k := 0 to |raws|
      invariant Grouped(after)
      invariant forall e :: e in after.names <==>
                  || e in index.names
                  || exists j :: 0 <= j < k && variantsOf(raws[j]) != [] && e == EntryOf(variantsOf, code, raws[j])
    {
      if variantsOf(raws[k]) != [] {
        after := AddName(after, EntryOf(variantsOf, code, raws[k]));
      }
    }
    assert forall raw :: IsNameOf(variantsOf, s, raw) ==> raw in raws;
  }

  /** `_build_name_index`, visiting the stocks in any order. */
  method BuildNameIndex(entries: map<string, Stock>, variantsOf: string -> seq<string>) returns (index: StockNameIndex)
    requires Normalizes(variantsOf)
    ensures IndexFor(entries, variantsOf, index)
  {
    index := StockNameIndex([], map[], map[]);
    var rest := entries.Keys;
    while rest != {}
      invariant rest <= entries.Keys && Grouped(index)
      invariant forall e :: e in index.names <==> Lists(entries, variantsOf, e) && e.code !in rest
      decreases |rest|
    {
      hide Grouped, Normalizes;
      var code :| code in rest;
      rest := rest - {code};
      index := AddStock(index, code, entries[code], variantsOf);
      forall e | Names(variantsOf, code, entries[code], e) ensures e.code == code { }
    }
  }

  // ----- The search -----

  /** The names worth scoring. */
  function ScoringPool(index: StockNameIndex, variants: seq<string>): set<NameEntry> {
    if variants == [] then {}
    else if IsAscii(variants[0]) then
      set p, e | p in PrefixesOf(variants) && p in index.byLatinPrefix && e in index.byLatinPrefix[p] :: e
    else
      set e | e in index.names && !e.latin
  }

  /** Some variant of the query scores `s` against some variant of the name. */
  ghost predicate Attains(e: NameEntry, variants: seq<string>, s: Score) {
    exists q, n :: q in variants && n in e.variants && IsVariant(q) && IsVariant(n) && ScoreOf(q, n) == Some(s)
  }

  ghost predicate BestScore(pool: set<NameEntry>, variants: seq<string>, s: Score) {
    && (exists e :: e in pool && Attains(e, variants, s))
    && (forall e, t :: e in pool && Attains(e, variants, t) ==> !Less(s, t))
  }

  /** Some name of the stock attains the highest score of all. */
  ghost predicate Wins(pool: set<NameEntry>, variants: seq<string>, code: string) {
    exists e, s :: e in pool && e.code == code && Attains(e, variants, s) && BestScore(pool, variants, s)
  }

  /** max() of a non-empty list of scores. */
  function MaxOf(scores: seq<Score>): (m: Score)
    requires scores != []
    ensures m in scores && forall s :: s in scores ==> !Less(m, s)
  {
    if |scores| == 1 then
      LessIsTotal(scores[0], scores[0]);
      scores[0]
    else
      var m := MaxOf(scores[1..]);
      assert forall s :: s in scores <==> s == scores[0] || s in scores[1..];
      HigherOf(scores[0], m, scores[1..]);
      if Less(m, scores[0]) then scores[0] else m
  }

  lemma HigherOf(a: Score, m: Score, rest: seq<Score>)
    requires m in rest && forall s :: s in rest ==> !Less(m, s)
    ensures Less(m, a) ==> !Less(a, a) && forall s :: s in rest ==> !Less(a, s)
  {
    LessIsTotal(a, a);
    if Less(m, a) {
      forall s | s in rest ensures !Less(a, s) {
        if Less(a, s) { LessIsTransitive(m, a, s); }
      }
    }
  }

  /** The scores of every query variant against every name variant. */
  method ScoresOf(e: NameEntry, variants: seq<string>) returns (scores: seq<Score>)
    requires AreVariants(variants) && AreVariants(e.variants)
    ensures forall s :: s in scores <==> Attains(e, variants, s)
  {
    hide AreVariants, IsVariant, ScoreOf;
    scores := [];
    for i := 0 to |variants|
      invariant forall s :: s in scores <==>
        exists a, b :: 0 <= a < i && 0 <= b < |e.variants| && ScoresAt(variants, e.variants, a, b, s)
    {
      ghost var rows := scores;
      for j := 0 to |e.variants|
        invariant forall s :: s in scores <==>
          s in rows || exists b :: 0 <= b < j && ScoresAt(variants, e.variants, i, b, s)
      {
        VariantsAt(variants, i);
        VariantsAt(e.variants, j);
        var s := ComputeScore(variants[i], e.variants[j]);
        if s.Some? { scores := scores + [s.value]; }
        assert forall t :: s == Some(t) <==> ScoresAt(variants, e.variants, i, j, t);
      }
    }
    forall s ensures s in scores <==> Attains(e, variants, s) {
      AttainsAtIndices(e, variants, s);
    }
  }

  lemma AttainsAtIndices(e: NameEntry, variants: seq<string>, s: Score)
    ensures Attains(e, variants, s) <==>
              exists a, b :: 0 <= a < |variants| && 0 <= b < |e.variants| && ScoresAt(variants, e.variants, a, b, s)
  {
    hide IsVariant, ScoreOf;
    if Attains(e, variants, s) {
      var q, n :| q in variants && n in e.variants && IsVariant(q) && IsVariant(n) && ScoreOf(q, n) == Some(s);
      var a :| 0 <= a < |variants| && variants[a] == q;
      var b :| 0 <= b < |e.variants| && e.variants[b] == n;
      assert ScoresAt(variants, e.variants, a, b, s);
    }
  }

  ghost predicate ScoresAt(variants: seq<string>, names: seq<string>, a: nat, b: nat, s: Score)
    requires a < |variants| && b < |names|
  {
    IsVariant(variants[a]) && IsVariant(names[b]) && ScoreOf(variants[a], names[b]) == Some(s)
  }

  lemma VariantsAt(vs: seq<string>, k: nat)
    requires AreVariants(vs) && k < |vs|
    ensures IsVariant(vs[k])
  {
  }

  /** `_best_scoring_codes`, visiting the pool in any order: exactly the stocks that attain the highest score. */
  method BestScoringCodes(pool: set<NameEntry>, variants: seq<string>) returns (codes: set<string>)
    requires AreVariants(variants) && forall e :: e in pool ==> AreVariants(e.variants)
    ensures forall c :: c in codes <==> Wins(pool, variants, c)
  {
    hide Less, AreVariants, Attains;
    var best: Option<Score> := None;
    codes := {};
    var rest := pool;
    while rest != {}
      invariant rest <= pool
      invariant best.None? ==> codes == {} && forall e, t :: e in pool - rest ==> !Attains(e, variants, t)
      invariant best.Some? ==> BestScore(pool - rest, variants, best.value)
      invariant best.Some? ==>
                  forall c :: c in codes <==>
                    exists e :: e in pool - rest && e.code == c && Attains(e, variants, best.value)
      decreases |rest|
    {
      var e :| e in rest;
      ghost var seen := pool - rest;
      rest := rest - {e};
      assert pool - rest == seen + {e};
      var scores := ScoresOf(e, variants);
      if scores != [] {
        var score := MaxOf(scores);
        if best.None? || Less(best.value, score) {
          NewBest(seen, e, variants, best, score);
          best, codes := Some(score), {e.code};
        } else {
          LessIsTotal(best.value, score);
          OldBest(seen, e, variants, best.value, score);
          if score == best.value { codes := codes + {e.code}; }
        }
      }
    }
    assert pool - rest == pool;
    BestDecides(pool, variants, best, codes);
  }

  lemma NewBest(seen: set<NameEntry>, e: NameEntry, variants: seq<string>, best: Option<Score>, score: Score)
    requires if best.None? then forall x, t :: x in seen ==> !Attains(x, variants, t)
             else BestScore(seen, variants, best.value) && Less(best.value, score)
    requires Attains(e, variants, score) && forall t :: Attains(e, variants, t) ==> !Less(score, t)
    ensures BestScore(seen + {e}, variants, score)
    ensures forall x :: x in seen && Attains(x, variants, score) ==> x == e
  {
    hide Less, Attains;
    forall x, t | x in seen && Attains(x, variants, t) ensures !Less(score, t) && t != score {
      if Less(score, t) { LessIsTransitive(best.value, score, t); }
      LessIsTotal(score, t);
    }
  }

  lemma OldBest(seen: set<NameEntry>, e: NameEntry, variants: seq<string>, best: Score, score: Score)
    requires BestScore(seen, variants, best) && !Less(best, score)
    requires Attains(e, variants, score) && forall t :: Attains(e, variants, t) ==> !Less(score, t)
    ensures BestScore(seen + {e}, variants, best)
    ensures Attains(e, variants, best) <==> score == best
  {
    hide Less, Attains;
    LessIsTotal(best, score);
    forall t | Attains(e, variants, t) ensures !Less(best, t) {
      LessIsTotal(score, t);
      if Less(best, t) && score != t { LessIsTransitive(best, t, score); }
    }
  }

  lemma BestDecides(pool: set<NameEntry>, variants: seq<string>, best: Option<Score>, codes: set<string>)
    requires best.None? ==> codes == {} && forall e, t :: e in pool ==> !Attains(e, variants, t)
    requires best.Some? ==> BestScore(pool, variants, best.value)
    requires best.Some? ==> forall c :: c in codes <==>
      exists e :: e in pool && e.code == c && Attains(e, variants, best.value)
    ensures forall c :: c in codes <==> Wins(pool, variants, c)
  {
    hide Less, Attains;
    forall s | BestScore(pool, variants, s) ensures best == Some(s) {
      if best.Some? { LessIsTotal(best.value, s); }
    }
  }

  /** The stocks with a variant in common with the query. */
  function ExactCodes(index: StockNameIndex, variants: seq<string>): set<string> {
    set e, v | e in index.names && v in e.variants && v in variants :: e.code
  }

  /** The stocks left when the search decides. */
  ghost predicate Candidate(index: StockNameIndex, variants: seq<string>, code: string) {
    if ExactCodes(index, variants) != {} then code in ExactCodes(index, variants)
    else Wins(ScoringPool(index, variants), variants, code)
  }

  /** The query refers to one stock: it is the only candidate. */
  ghost predicate RefersTo(index: StockNameIndex, variants: seq<string>, code: string) {
    Candidate(index, variants, code) && forall c :: Candidate(index, variants, c) ==> c == code
  }

  /** `_search`: a tie between stocks is a miss. */
  method Search(index: StockNameIndex, variants: seq<string>) returns (found: Option<string>)
    requires Grouped(index) && AreVariants(variants)
    ensures forall c :: found == Some(c) <==> RefersTo(index, variants, c)
    ensures ScanDecides(index, variants) ==> forall c :: found == Some(c) <==> RefersByScan(index, variants, c)
  {
    if ScanDecides(index, variants) { SearchIsFullScan(index, variants); }
    hide Wins, AreVariants, ScanDecides, RefersByScan;
    var codes := ExactCodes(index, variants);
    if codes == {} {
      PoolIsListed(index, variants);
      codes := BestScoringCodes(ScoringPool(index, variants), variants);
    }
    assert forall c :: c in codes <==> Candidate(index, variants, c);
    if |codes| == 1 {
      var code :| code in codes;
      OnlyMember(codes, code);
      found := Some(code);
    } else {
      forall c | c in codes ensures !RefersTo(index, variants, c) {
        AnotherMember(codes, c);
      }
      found := None;
    }
  }

  lemma OnlyMember(s: set<string>, x: string)
    requires |s| == 1 && x in s
    ensures s == {x}
  {
    assert |s - {x}| == 0;
  }

  lemma AnotherMember(s: set<string>, x: string)
    requires |s| != 1 && x in s
    ensures exists y :: y in s && y != x
  {
    var rest := s - {x};
    assert |rest| == |s| - 1;
    var y :| y in rest;
  }

  lemma PoolIsListed(index: StockNameIndex, variants: seq<string>)
    requires Grouped(index)
    ensures forall e :: e in ScoringPool(index, variants) ==> e in index.names && AreVariants(e.variants)
  {
    forall e | e in ScoringPool(index, variants) ensures e in index.names {
      if variants != [] && IsAscii(variants[0]) { LatinPoolIsSharers(index, variants, e); }
    }
  }

  /** A Latin query's pool: the Latin names indexed under one of its prefixes. */
  lemma LatinPoolIsSharers(index: StockNameIndex, variants: seq<string>, e: NameEntry)
    requires Grouped(index) && variants != [] && IsAscii(variants[0])
    ensures e in ScoringPool(index, variants) <==>
              e in index.names && e.latin && PrefixesOf(variants) * PrefixesOf(e.variants) != {}
  {
    hide PrefixesOf, AreVariants;
    if e in ScoringPool(index, variants) {
      var p :| p in PrefixesOf(variants) && Under(index.byLatinPrefix, p, e);
      assert p in PrefixesOf(variants) * PrefixesOf(e.variants);
    } else if PrefixesOf(variants) * PrefixesOf(e.variants) != {} {
      var p :| p in PrefixesOf(variants) * PrefixesOf(e.variants);
      assert Under(index.byLatinPrefix, p, e) <==> e in index.names && e.latin;
    }
  }

  // ----- The prefix index against a scan of every name -----

  /** The one stock that wins among these names. */
  ghost predicate OnlyWinner(names: set<NameEntry>, variants: seq<string>, code: string) {
    Wins(names, variants, code) && forall c :: Wins(names, variants, c) ==> c == code
  }

  predicate HasLongWord(s: string) {
    exists w :: w in Words(s) && |w| >= LATIN_PREFIX_LEN
  }

  /** The side of a scoring pair whose words are all in the other: the name for the higher tier, else the query. */
  function MatchedSide(q: string, n: string): string {
    if NameInQuery(q, n) then n else q
  }

  /** A scoring pair is found through the prefix index exactly if its fully matched side has a word of three letters. */
  lemma ScoringPairIsIndexed(q: string, n: string)
    requires Words(q) != [] && Words(n) != [] && LatinScore(q, n).Some?
    ensures PrefixesOf([q]) * PrefixesOf([n]) != {} <==> HasLongWord(MatchedSide(q, n))
  {
    hide Words, Letters, StartsWith;
    var side, other := MatchedSide(q, n), if NameInQuery(q, n) then q else n;
    if HasLongWord(side) {
      var w :| w in Words(side) && |w| >= LATIN_PREFIX_LEN;
      assert Hit(w, Words(other));
      var o :| o in Words(other) && MatchesWord(o, w);
      SamePrefix(o, w);
      InPrefixes(side, w);
      InPrefixes(other, o);
      assert w[..LATIN_PREFIX_LEN] in PrefixesOf([q]) * PrefixesOf([n]);
    }
    if PrefixesOf([q]) * PrefixesOf([n]) != {} {
      var p :| p in PrefixesOf([side]);
      var w :| w in Words(side) && |w| >= LATIN_PREFIX_LEN && w[..LATIN_PREFIX_LEN] == p;
    }
  }

  lemma SamePrefix(o: string, w: string)
    requires MatchesWord(o, w) && |w| >= LATIN_PREFIX_LEN
    ensures |o| >= LATIN_PREFIX_LEN && o[..LATIN_PREFIX_LEN] == w[..LATIN_PREFIX_LEN]
  {
    assert o[..|w|] == w;
  }

  lemma InPrefixes(v: string, w: string)
    requires w in Words(v) && |w| >= LATIN_PREFIX_LEN
    ensures w[..LATIN_PREFIX_LEN] in PrefixesOf([v])
  {
    assert v in [v];
  }

  lemma PrefixesGrow(v: string, variants: seq<string>)
    requires v in variants
    ensures PrefixesOf([v]) <= PrefixesOf(variants)
  {
  }

  function LatinNames(index: StockNameIndex): set<NameEntry> {
    set e | e in index.names && e.latin
  }

  /** Every pair of a query variant and a name's variant that scores has a word of three letters on its matched side. */
  ghost predicate ScoresOnLongWords(e: NameEntry, variants: seq<string>) {
    forall q, n :: q in variants && n in e.variants && IsVariant(q) && IsVariant(n) && ScoreOf(q, n).Some?
      ==> HasLongWord(MatchedSide(q, n))
  }

  lemma ScoringNameIsPooled(index: StockNameIndex, variants: seq<string>, e: NameEntry, s: Score)
    requires Grouped(index) && AreVariants(variants) && variants != [] && IsAscii(variants[0])
    requires e in LatinNames(index) && Attains(e, variants, s) && ScoresOnLongWords(e, variants)
    ensures e in ScoringPool(index, variants)
  {
    hide PrefixesOf, HasLongWord, MatchedSide, LatinScore, Words;
    var q, n :| q in variants && n in e.variants && IsVariant(q) && IsVariant(n) && ScoreOf(q, n) == Some(s);
    AllLatin(variants, q);
    ScoringPairIsIndexed(q, n);
    PrefixesGrow(q, variants);
    PrefixesGrow(n, e.variants);
    var p :| p in PrefixesOf([q]) * PrefixesOf([n]);
    assert p in PrefixesOf(variants) * PrefixesOf(e.variants);
    LatinPoolIsSharers(index, variants, e);
  }

  lemma AllLatin(variants: seq<string>, q: string)
    requires AreVariants(variants) && q in variants && IsAscii(variants[0])
    ensures IsAscii(q)
  {
  }

  /** Where every scoring pair has such a word, the prefix index changes nothing. */
  lemma PoolDecidesLikeFullScan(index: StockNameIndex, variants: seq<string>, code: string)
    requires Grouped(index) && AreVariants(variants) && variants != [] && IsAscii(variants[0])
    requires forall e :: e in LatinNames(index) ==> ScoresOnLongWords(e, variants)
    ensures Wins(ScoringPool(index, variants), variants, code) <==> Wins(LatinNames(index), variants, code)
  {
    var pool, all := ScoringPool(index, variants), LatinNames(index);
    forall e, s | Attains(e, variants, s) ensures e in pool <==> e in all {
      LatinPoolIsSharers(index, variants, e);
      if e in all { ScoringNameIsPooled(index, variants, e, s); }
    }
    hide Attains, ScoringPool, LatinNames, Grouped, AreVariants, ScoresOnLongWords, Less;
    SamePoolSameBest(pool, all, variants);
  }

  /** Every word of the query has the three letters that index a name. */
  ghost predicate LongWordsOnly(variants: seq<string>) {
    forall v, w :: v in variants && w in Words(v) ==> |w| >= 3
  }

  /** Without an exact match, the search for a Latin query decides as a scan of all Latin names would, for any list. */
  ghost predicate IndexDecidesForEveryList(variants: seq<string>) {
    forall index, code :: Grouped(index) && ExactCodes(index, variants) == {} ==>
      (RefersTo(index, variants, code) <==> OnlyWinner(LatinNames(index), variants, code))
  }

  /** The index changes nothing, for every list, exactly if the Latin query has no word under three letters. */
  lemma IndexDecidesExactlyForLongWords(variants: seq<string>)
    requires AreVariants(variants) && variants != [] && IsAscii(variants[0])
    ensures IndexDecidesForEveryList(variants) <==> LongWordsOnly(variants)
  {
    hide Wins, ScoringPool, LatinNames, Grouped, AreVariants, ScoresOnLongWords, ExactCodes;
    if LongWordsOnly(variants) {
      forall index, code | Grouped(index) && ExactCodes(index, variants) == {}
        ensures RefersTo(index, variants, code) <==> OnlyWinner(LatinNames(index), variants, code)
      {
        LongWordsDecideLikeLatinScan(index, variants);
        assert forall c :: Candidate(index, variants, c) <==> Wins(LatinNames(index), variants, c);
      }
    } else {
      var v, w :| v in variants && w in Words(v) && |w| < LATIN_PREFIX_LEN;
      var index := ShortWordIsMissed(variants, v, w);
      assert Grouped(index);
    }
  }

  lemma LongWordsDecideLikeLatinScan(index: StockNameIndex, variants: seq<string>)
    requires Grouped(index) && AreVariants(variants) && variants != [] && IsAscii(variants[0])
    requires LongWordsOnly(variants)
    ensures forall c :: Wins(ScoringPool(index, variants), variants, c) <==> Wins(LatinNames(index), variants, c)
  {
    hide Wins, ScoringPool, LatinNames, Grouped, AreVariants, ScoresOnLongWords, LongWordsOnly;
    forall e | e in LatinNames(index) ensures ScoresOnLongWords(e, variants) {
      LongWordsScoreOnLongWords(e, variants);
    }
    forall c ensures Wins(ScoringPool(index, variants), variants, c) <==> Wins(LatinNames(index), variants, c) {
      PoolDecidesLikeFullScan(index, variants, c);
    }
  }

  /** With long words only in the query, a name's words that hit one are long too. */
  lemma LongWordsScoreOnLongWords(e: NameEntry, variants: seq<string>)
    requires AreVariants(variants) && variants != [] && IsAscii(variants[0]) && LongWordsOnly(variants)
    ensures ScoresOnLongWords(e, variants)
  {
    hide AreVariants, StartsWith, Words, Letters;
    forall q, n | q in variants && n in e.variants && IsVariant(q) && IsVariant(n) && ScoreOf(q, n).Some?
      ensures HasLongWord(MatchedSide(q, n))
    {
      AllLatin(variants, q);
      assert Words(q)[0] in Words(q);
      if NameInQuery(q, n) {
        assert Words(n)[0] in Words(n) && Hit(Words(n)[0], Words(q));
        var o :| o in Words(q) && MatchesWord(o, Words(n)[0]);
      }
    }
  }

  // ----- The pool against a scan of every name -----

  function AllNames(index: StockNameIndex): set<NameEntry> {
    set e | e in index.names
  }

  /** The name's variants are all Latin or all Chinese. Dropping a Chinese suffix can leave a Latin variant. */
  predicate Unmixed(e: NameEntry) {
    e.variants != [] && forall n :: n in e.variants ==> (IsAscii(n) <==> IsAscii(e.variants[0]))
  }

  predicate NoLatinVariant(variants: seq<string>) {
    forall v :: v in variants ==> !IsAscii(v)
  }

  /** What a scan of every name would find: an exact match decides, or else the highest score of all names. */
  ghost predicate RefersByScan(index: StockNameIndex, variants: seq<string>, code: string) {
    if ExactCodes(index, variants) != {} then ExactCodes(index, variants) == {code}
    else OnlyWinner(AllNames(index), variants, code)
  }

  /** All the query's variants are Chinese; or they are Latin, of long words, and no listed name mixes the two. */
  ghost predicate ScanDecides(index: StockNameIndex, variants: seq<string>) {
    || NoLatinVariant(variants)
    || (&& variants != [] && IsAscii(variants[0]) && LongWordsOnly(variants)
        && forall e :: e in index.names ==> Unmixed(e))
  }

  /** A Latin name never scores against a Chinese query, so leaving the Latin names out changes nothing. */
  lemma ChineseNamesDecideLikeAll(index: StockNameIndex, variants: seq<string>)
    requires Grouped(index) && AreVariants(variants) && NoLatinVariant(variants)
    ensures forall c :: Wins(ScoringPool(index, variants), variants, c) <==> Wins(AllNames(index), variants, c)
  {
    var pool, all := ScoringPool(index, variants), AllNames(index);
    forall e, s | Attains(e, variants, s) ensures e in pool <==> e in all {
      var q, n :| q in variants && n in e.variants && IsVariant(q) && IsVariant(n) && ScoreOf(q, n) == Some(s);
      assert !IsAscii(n);
      if e in all && e.latin { AllLatin(e.variants, n); }
    }
    hide Attains, ScoringPool, AllNames, Grouped, AreVariants, NoLatinVariant, Less;
    SamePoolSameBest(pool, all, variants);
  }

  lemma LatinNamesDecideLikeAll(index: StockNameIndex, variants: seq<string>)
    requires Grouped(index) && AreVariants(variants) && variants != [] && IsAscii(variants[0])
    requires forall e :: e in index.names ==> Unmixed(e)
    ensures forall c :: Wins(LatinNames(index), variants, c) <==> Wins(AllNames(index), variants, c)
  {
    var latin, all := LatinNames(index), AllNames(index);
    forall e, s | Attains(e, variants, s) ensures e in latin <==> e in all {
      var q, n :| q in variants && n in e.variants && IsVariant(q) && IsVariant(n) && ScoreOf(q, n) == Some(s);
      AllLatin(variants, q);
      assert IsAscii(n);
      if e in all { assert Unmixed(e); }
    }
    hide Attains, LatinNames, AllNames, Grouped, AreVariants, Unmixed, Less;
    SamePoolSameBest(latin, all, variants);
  }

  /** Where `ScanDecides` holds, the search finds what a scan of every name would. */
  lemma SearchIsFullScan(index: StockNameIndex, variants: seq<string>)
    requires Grouped(index) && AreVariants(variants) && ScanDecides(index, variants)
    ensures forall c :: RefersTo(index, variants, c) <==> RefersByScan(index, variants, c)
  {
    if NoLatinVariant(variants) {
      ChineseNamesDecideLikeAll(index, variants);
    } else {
      LongWordsDecideLikeLatinScan(index, variants);
      LatinNamesDecideLikeAll(index, variants);
    }
    hide Wins, Grouped, AreVariants, ScoringPool, AllNames, LatinNames, ExactCodes, ScanDecides, NoLatinVariant;
    if ExactCodes(index, variants) == {} {
      assert forall c :: Candidate(index, variants, c) <==> Wins(AllNames(index), variants, c);
    } else {
      assert forall c :: Candidate(index, variants, c) <==> c in ExactCodes(index, variants);
    }
  }

  /** Without an exact match, the search for this query decides as a scan of all names would, for any list. */
  ghost predicate FullScanForEveryList(variants: seq<string>) {
    forall index, code :: Grouped(index) && ExactCodes(index, variants) == {} ==>
      (RefersTo(index, variants, code) <==> OnlyWinner(AllNames(index), variants, code))
  }

  /** For a Chinese query that is so, for every list, exactly if no variant of the query is Latin. */
  lemma ChineseSearchIsFullExactlyWithoutLatinVariants(variants: seq<string>)
    requires AreVariants(variants) && variants != [] && !IsAscii(variants[0])
    ensures FullScanForEveryList(variants) <==> NoLatinVariant(variants)
  {
    hide OnlyWinner, RefersTo, AllNames, Grouped, AreVariants, ExactCodes, IsAscii;
    if NoLatinVariant(variants) {
      forall index, code | Grouped(index) && ExactCodes(index, variants) == {}
        ensures RefersTo(index, variants, code) <==> OnlyWinner(AllNames(index), variants, code)
      {
        SearchIsFullScan(index, variants);
        assert RefersByScan(index, variants, code) <==> OnlyWinner(AllNames(index), variants, code);
      }
    } else {
      var v :| v in variants && IsAscii(v);
      var index := LatinNameIsMissed(variants, v);
      assert Grouped(index);
    }
  }

  /** A Latin name that repeats a word of a Latin variant scores, and is left out of a Chinese query's pool. */
  lemma LatinNameIsMissed(variants: seq<string>, v: string) returns (index: StockNameIndex)
    requires AreVariants(variants) && variants != [] && !IsAscii(variants[0]) && v in variants && IsAscii(v)
    ensures Grouped(index) && ExactCodes(index, variants) == {}
    ensures OnlyWinner(AllNames(index), variants, "00001") && !RefersTo(index, variants, "00001")
  {
    hide Words, WordLength, ScoreOf, Wins, PrefixesOf, Repeated, IsAscii, IsVariant, Grouped, AreVariants, IsSpace,
         Enough, ExactCodes, OnlyWinner;
    VariantOf(variants, v);
    var w := FirstWord(v);
    var n := Repeated(w, Enough(variants));
    var e := NameEntry("00001", [n], true);
    index := StockNameIndex([e], map["00001" := [e]], map p | p in PrefixesOf([n]) :: [e]);
    WordsAreLatin(v, w);
    RepeatedWords(w, Enough(variants));
    RepeatedScores(v, n, w);
    OneVariant(n);
    OneLatinNameIsGrouped(e);
    WinsAlone(e, n, variants, v);
    assert AllNames(index) == {e};
    assert ScoringPool(index, variants) == {};
    NothingWinsAnEmptyPool(variants);
    NoVariantIsLonger(index, n, variants);
  }

  lemma FirstWord(v: string) returns (w: string)
    requires IsVariant(v) && IsAscii(v)
    ensures w in Words(v)
  {
    w := Words(v)[0];
  }

  lemma OneLatinNameIsGrouped(e: NameEntry)
    requires AreVariants(e.variants) && e.variants != [] && IsAscii(e.variants[0]) && e.latin
    ensures Grouped(StockNameIndex([e], map[e.code := [e]], map p | p in PrefixesOf(e.variants) :: [e]))
  {
    hide PrefixesOf, AreVariants, IsAscii;
  }

  /** A name that repeats a short word of the query is found whole in the query, and is not indexed. */
  function Repeated(w: string, times: nat): string
    requires times > 0
  {
    if times == 1 then w else w + (" " + Repeated(w, times - 1))
  }

  /** A number of repetitions that makes it longer than every variant, so no exact match decides. */
  function Enough(variants: seq<string>): (k: nat)
    ensures k >= 3 && forall v :: v in variants ==> |v| < k
  {
    if variants == [] then 3
    else
      var rest := Enough(variants[1..]);
      assert forall v :: v in variants <==> v == variants[0] || v in variants[1..];
      if |variants[0]| < rest then rest else |variants[0]| + 1
  }

  lemma ShortWordIsMissed(variants: seq<string>, v: string, w: string) returns (index: StockNameIndex)
    requires AreVariants(variants) && variants != [] && IsAscii(variants[0])
    requires v in variants && w in Words(v) && |w| < LATIN_PREFIX_LEN
    ensures Grouped(index) && ExactCodes(index, variants) == {}
    ensures OnlyWinner(LatinNames(index), variants, "00001") && !RefersTo(index, variants, "00001")
  {
    hide Words, WordLength, ScoreOf, Wins, PrefixesOf, Repeated, IsAscii, IsVariant, LatinNames, ScoringPool, Grouped,
         AreVariants, IsSpace, Enough, ExactCodes, OnlyWinner;
    var n := Repeated(w, Enough(variants));
    var e := NameEntry("00001", [n], true);
    index := StockNameIndex([e], map["00001" := [e]], map[]);
    AllLatin(variants, v);
    WordsAreLatin(v, w);
    RepeatedWords(w, Enough(variants));
    NoPrefixOfShortWords(n);
    VariantOf(variants, v);
    RepeatedScores(v, n, w);
    OneVariant(n);
    OneNameIsGrouped(e);
    WinsAlone(e, n, variants, v);
    OnlyNameIsLatin(index, e);
    OnlyNameIsNotPooled(index, e, variants);
    NothingWinsAnEmptyPool(variants);
    NoVariantIsLonger(index, n, variants);
  }

  lemma NoVariantIsLonger(index: StockNameIndex, n: string, variants: seq<string>)
    requires (forall e :: e in index.names ==> e.variants == [n]) && forall v :: v in variants ==> |v| < |n|
    ensures ExactCodes(index, variants) == {}
  {
  }

  lemma OneVariant(n: string)
    requires IsVariant(n) && IsAscii(n)
    ensures AreVariants([n])
  {
  }

  lemma OnlyNameIsLatin(index: StockNameIndex, e: NameEntry)
    requires index.names == [e] && e.latin
    ensures LatinNames(index) == {e}
  {
  }

  lemma OnlyNameIsNotPooled(index: StockNameIndex, e: NameEntry, variants: seq<string>)
    requires Grouped(index) && index.names == [e] && PrefixesOf(e.variants) == {}
    requires variants != [] && IsAscii(variants[0])
    ensures ScoringPool(index, variants) == {}
  {
    hide Grouped, PrefixesOf, IsAscii, ScoringPool;
    forall x ensures x !in ScoringPool(index, variants) {
      LatinPoolIsSharers(index, variants, x);
    }
  }

  lemma WinsAlone(e: NameEntry, n: string, variants: seq<string>, v: string)
    requires e.variants == [n] && v in variants && IsVariant(v) && IsVariant(n) && ScoreOf(v, n).Some?
    ensures OnlyWinner({e}, variants, e.code)
  {
    hide ScoreOf, IsVariant, Less;
    assert n in e.variants;
    assert Attains(e, variants, ScoreOf(v, n).value);
    var best := BestOfOne(e, n, variants);
    assert BestScore({e}, variants, best.value);
  }

  lemma OneNameIsGrouped(e: NameEntry)
    requires AreVariants(e.variants) && e.variants != [] && IsAscii(e.variants[0]) && e.latin
      && PrefixesOf(e.variants) == {}
    ensures Grouped(StockNameIndex([e], map[e.code := [e]], map[]))
  {
    hide PrefixesOf, AreVariants, IsAscii;
  }

  lemma VariantOf(variants: seq<string>, v: string)
    requires AreVariants(variants) && v in variants
    ensures IsVariant(v)
  {
  }

  lemma {:induction false} RepeatedWords(w: string, times: nat)
    requires w != [] && (forall k :: 0 <= k < |w| ==> !IsSpace(w[k])) && IsAscii(w) && times > 0
    ensures var n := Repeated(w, times);
            && Words(n) != [] && (forall x :: x in Words(n) ==> x == w)
            && Letters(Words(n)) >= times && |n| >= times && IsAscii(n) && IsVariant(n)
  {
    hide Words, WordLength, IsSpace;
    HkTvLetters();
    if times == 1 {
      NoWordsInNothing();
      SplitFirst(w, "");
      assert w + "" == w;
      assert Letters([w][1..]) == 0;
    } else {
      var rest := Repeated(w, times - 1);
      RepeatedWords(w, times - 1);
      SkipSpace(' ', rest);
      SplitFirst(w, " " + rest);
      assert ([w] + Words(rest))[1..] == Words(rest);
    }
  }

  /** The words of a Latin text are Latin. */
  lemma {:induction false} WordsAreLatin(s: string, w: string)
    requires IsAscii(s) && w in Words(s)
    ensures IsAscii(w)
    decreases |s|
  {
    if s == [] {
    } else {
      if IsSpace(s[0]) {
        WordsAreLatin(s[1..], w);
      } else {
        var k := WordLength(s);
        assert w == s[..k] || w in Words(s[k..]);
        if w != s[..k] { WordsAreLatin(s[k..], w); }
      }
    }
  }

  lemma RepeatedScores(v: string, n: string, w: string)
    requires IsVariant(v) && IsAscii(v) && w in Words(v) && IsVariant(n) && IsAscii(n)
    requires (forall x :: x in Words(n) ==> x == w) && Letters(Words(n)) >= LATIN_PREFIX_LEN
    ensures ScoreOf(v, n).Some?
  {
    hide Words, IsAscii, Letters;
    assert MatchesWord(w, w) && Hit(w, Words(v));
    assert NameInQuery(v, n);
  }

  lemma NoPrefixOfShortWords(n: string)
    requires forall w :: w in Words(n) ==> |w| < LATIN_PREFIX_LEN
    ensures PrefixesOf([n]) == {}
  {
  }

  /** The highest score of the variants against a name with one variant. */
  lemma {:induction false} BestOfOne(e: NameEntry, n: string, variants: seq<string>) returns (best: Option<Score>)
    requires e.variants == [n]
    ensures best.None? ==> forall t :: !Attains(e, variants, t)
    ensures best.Some? ==>
              Attains(e, variants, best.value) && forall t :: Attains(e, variants, t) ==> !Less(best.value, t)
  {
    hide ScoreOf, IsVariant, Less;
    if variants == [] {
      best := None;
    } else {
      var k := |variants| - 1;
      var rest, q := variants[..k], variants[k];
      best := BestOfOne(e, n, rest);
      forall t ensures Attains(e, variants, t) <==> Attains(e, rest, t) || ScoresAt(variants, [n], k, 0, t) {
        LastVariant(e, n, variants, t);
      }
      if IsVariant(q) && IsVariant(n) && ScoreOf(q, n).Some? {
        var s := ScoreOf(q, n).value;
        LessIsTotal(s, s);
        if best.None? {
          best := Some(s);
        } else {
          var old_ := best.value;
          LessIsTotal(old_, s);
          if Less(old_, s) {
            forall t | Attains(e, rest, t) ensures !Less(s, t) {
              if Less(s, t) { LessIsTransitive(old_, s, t); }
            }
            best := Some(s);
          }
        }
      }
    }
  }

  lemma LastVariant(e: NameEntry, n: string, variants: seq<string>, t: Score)
    requires e.variants == [n] && variants != []
    ensures var k := |variants| - 1;
            Attains(e, variants, t) <==> Attains(e, variants[..k], t) || ScoresAt(variants, [n], k, 0, t)
  {
    hide ScoreOf, IsVariant;
    var k := |variants| - 1;
    assert variants == variants[..k] + [variants[k]];
    assert n in e.variants && variants[k] in variants;
  }

  lemma SamePoolSameBest(a: set<NameEntry>, b: set<NameEntry>, variants: seq<string>)
    requires forall e, s :: Attains(e, variants, s) ==> (e in a <==> e in b)
    ensures forall s :: BestScore(a, variants, s) <==> BestScore(b, variants, s)
    ensures forall code :: Wins(a, variants, code) <==> Wins(b, variants, code)
  {
    hide Attains, Less;
  }

  /** Without one the index can miss: "hk" is all of a word of "hk tv", but no word of it is indexed. */
  lemma ShortWordsAreMissed(index: StockNameIndex)
    requires Grouped(index) && index.names == [NameEntry("01137", ["hk tv"], true)]
    ensures AreVariants(["hk"]) && IsAscii("hk")
    ensures Wins(LatinNames(index), ["hk"], "01137")
    ensures ScoringPool(index, ["hk"]) == {}
  {
    var q, n, e := "hk", "hk tv", NameEntry("01137", ["hk tv"], true);
    HkTvScores();
    HkHasNoPrefix();
    hide IsVariant, ScoreOf, PrefixesOf, Less;
    var s := ScoreOf(q, n).value;
    assert e.variants == [n] && n in e.variants && q in [q];
    assert Attains(e, [q], s);
    hide Grouped;
    LessIsTotal(s, s);
    assert LatinNames(index) == {e};
    assert BestScore(LatinNames(index), [q], s);
  }

  lemma HkTvScores()
    ensures IsVariant("hk") && IsVariant("hk tv") && IsAscii("hk") && IsAscii("hk tv")
    ensures ScoreOf("hk", "hk tv").Some?
  {
    HkTvWords();
    hide Words;
    assert MatchesWord("hk", "hk") && "hk" in Words("hk tv");
    assert Hit("hk", Words("hk tv"));
    hide LatinWordHits, Hit;
    assert QueryInName("hk", "hk tv");
  }

  lemma HkHasNoPrefix()
    ensures PrefixesOf(["hk"]) == {}
  {
    HkTvWords();
    hide Words;
  }

  lemma HkTvWords()
    ensures Words("hk") == ["hk"] && Words("hk tv") == ["hk", "tv"]
  {
    hide Words, WordLength, IsSpace;
    HkTvLetters();
    NoWordsInNothing();
    SplitFirst("hk", "");
    SplitFirst("tv", "");
    SkipSpace(' ', "tv");
    SplitFirst("hk", " tv");
    assert "hk" + "" == "hk" && "tv" + "" == "tv" && "hk" + " tv" == "hk tv" && [' '] + "tv" == " tv";
  }

  lemma HkTvLetters()
    ensures IsSpace(' ') && forall c :: c in "hktv" ==> !IsSpace(c)
  {
  }

  lemma NoWordsInNothing()
    ensures Words("") == []
  {
  }

  lemma SkipSpace(c: char, rest: string)
    requires IsSpace(c)
    ensures Words([c] + rest) == Words(rest)
  {
    assert ([c] + rest)[1..] == rest;
  }

  /** The first word of a text is its leading run of characters other than white space. */
  lemma {:induction false} SplitFirst(w: string, rest: string)
    requires w != [] && (forall k :: 0 <= k < |w| ==> !IsSpace(w[k])) && (rest == [] || IsSpace(rest[0]))
    ensures WordLength(w + rest) == |w| && Words(w + rest) == [w] + Words(rest)
  {
    assert (w + rest)[1..] == w[1..] + rest;
    if |w| > 1 { SplitFirst(w[1..], rest); } else { assert w[1..] + rest == rest; }
    assert (w + rest)[..|w|] == w && (w + rest)[|w|..] == rest;
  }

  // ----- What the search means for a stock list -----

  /** The answer depends on the list alone, not on the order its stocks and names were visited in. */
  lemma OrderDoesNotMatter(entries: map<string, Stock>, variantsOf: string -> seq<string>,
                           a: StockNameIndex, b: StockNameIndex, variants: seq<string>, code: string)
    requires IndexFor(entries, variantsOf, a) && IndexFor(entries, variantsOf, b)
    ensures RefersTo(a, variants, code) <==> RefersTo(b, variants, code)
  {
    hide Lists, Wins, AreVariants, PrefixesOf;
    assert ExactCodes(a, variants) == ExactCodes(b, variants);
    forall e ensures e in ScoringPool(a, variants) <==> e in ScoringPool(b, variants) {
      if variants != [] && IsAscii(variants[0]) {
        LatinPoolIsSharers(a, variants, e);
        LatinPoolIsSharers(b, variants, e);
      }
    }
    assert ScoringPool(a, variants) == ScoringPool(b, variants);
    hide ScoringPool, ExactCodes, IndexFor;
    assert forall c :: Candidate(a, variants, c) <==> Candidate(b, variants, c);
  }

  /** Some listed name of the stock has a variant in common with the query. */
  ghost predicate SharesVariant(entries: map<string, Stock>, variantsOf: string -> seq<string>, code: string,
                                variants: seq<string>)
  {
    exists other, v :: code in entries && IsNameOf(variantsOf, entries[code], other) && v in variantsOf(other)
      && v in variants
  }

  /**
   A stock's own listed name never resolves to another stock, and it resolves to the stock exactly if
   the name has a variant and shares none with another stock's.
   */
  lemma OwnNameNeverMisleads(entries: map<string, Stock>, variantsOf: string -> seq<string>, index: StockNameIndex,
                             code: string, raw: string)
    requires IndexFor(entries, variantsOf, index)
    requires code in entries && (raw == entries[code].nameZh || raw == entries[code].nameEn)
    ensures forall c :: RefersTo(index, variantsOf(raw), c) ==> c == code
    ensures RefersTo(index, variantsOf(raw), code) <==>
              variantsOf(raw) != [] && forall c :: c != code ==> !SharesVariant(entries, variantsOf, c, variantsOf(raw))
  {
    hide Grouped, Wins, AreVariants, PrefixesOf;
    var variants := variantsOf(raw);
    var codes := ExactCodes(index, variants);
    if variants == [] {
      assert forall v, e :: v in variants ==> e !in index.names;
      assert codes == {};
      NothingWinsAnEmptyPool(variants);
      assert forall c :: !Candidate(index, variants, c);
    } else {
      OwnCodeIsExact(entries, variantsOf, index, code, raw);
      assert forall c :: Candidate(index, variants, c) <==> c in codes;
      forall c ensures c in codes <==> SharesVariant(entries, variantsOf, c, variants) {
        ExactCodeIsListed(entries, variantsOf, index, variants, c);
      }
    }
  }

  lemma OwnCodeIsExact(entries: map<string, Stock>, variantsOf: string -> seq<string>, index: StockNameIndex,
                       code: string, raw: string)
    requires IndexFor(entries, variantsOf, index) && variantsOf(raw) != []
    requires code in entries && (raw == entries[code].nameZh || raw == entries[code].nameEn)
    ensures code in ExactCodes(index, variantsOf(raw))
  {
    hide Grouped;
    var e := EntryOf(variantsOf, code, raw);
    assert IsNameOf(variantsOf, entries[code], raw);
    assert Lists(entries, variantsOf, e);
    assert variantsOf(raw)[0] in e.variants && e in index.names;
  }

  lemma NothingWinsAnEmptyPool(variants: seq<string>)
    ensures forall c :: !Wins({}, variants, c)
  {
  }

  lemma ExactCodeIsListed(entries: map<string, Stock>, variantsOf: string -> seq<string>, index: StockNameIndex,
                          variants: seq<string>, c: string)
    requires IndexFor(entries, variantsOf, index)
    ensures c in ExactCodes(index, variants) <==> SharesVariant(entries, variantsOf, c, variants)
  {
    hide Grouped, AreVariants;
    if other, v :| c in entries && IsNameOf(variantsOf, entries[c], other) && v in variantsOf(other) && v in variants {
      var e := EntryOf(variantsOf, c, other);
      assert Lists(entries, variantsOf, e);
      assert e in index.names && v in e.variants;
    }
  }

  /** Any stock the query refers to is on the list the index was built from. */
  lemma FoundIsListed(entries: map<string, Stock>, variantsOf: string -> seq<string>, index: StockNameIndex,
                      variants: seq<string>, code: string)
    requires IndexFor(entries, variantsOf, index) && RefersTo(index, variants, code)
    ensures code in entries
  {
    hide Attains, BestScore, AreVariants;
    PoolIsListed(index, variants);
  }

  // ----- The process-wide cache -----

  /** A list and the index a worker thread built from it. */
  datatype Loaded = Loaded(entries: map<string, Stock>, index: StockNameIndex)

  /**
   HKStockListCache. `reload` builds the index in a worker thread, so any number of reloads can be under
   way, and may finish in any order; each then rebinds the list and its index in one step.
   */
  class HKStockListCache {
    const variantsOf: string -> seq<string>
    var entries: map<string, Stock>
    var nameIndex: StockNameIndex
    var built: map<nat, Loaded>

    /** The list and the index belong together, and so does every pair waiting to be bound. */
    ghost predicate Valid()
      reads this
    {
      && Normalizes(variantsOf)
      && IndexFor(entries, variantsOf, nameIndex)
      && forall k :: k in built ==> IndexFor(built[k].entries, variantsOf, built[k].index)
    }

    constructor (entries: map<string, Stock>, variantsOf: string -> seq<string>)
      requires Normalizes(variantsOf)
      ensures Valid() && this.entries == entries && this.variantsOf == variantsOf && built == map[]
    {
      var index := BuildNameIndex(entries, variantsOf);
      this.entries, this.variantsOf, nameIndex, built := entries, variantsOf, index, map[];
    }

    /** The part of `reload` before its await. */
    method BuildReload(id: nat, newEntries: map<string, Stock>)
      requires Valid() && id !in built
      modifies this`built
      ensures Valid() && id in built && built[id].entries == newEntries && built.Keys == old(built.Keys) + {id}
      ensures forall k :: k in old(built) ==> built[k] == old(built)[k]
    {
      hide IndexFor;
      var index := BuildNameIndex(newEntries, variantsOf);
      built := built[id := Loaded(newEntries, index)];
    }

    /** The part after it. */
    method BindReload(id: nat)
      requires Valid() && id in built
      modifies this
      ensures Valid() && entries == old(built)[id].entries && built == old(built) - {id}
    {
      hide IndexFor;
      entries, nameIndex := built[id].entries, built[id].index;
      built := built - {id};
    }

    /** `lookup_stock`: the list's own stock for the only candidate, whose code is not empty. */
    method LookupStock(name: string) returns (stock: Option<Stock>)
      requires Valid()
      ensures stock.Some? ==>
                exists code :: code != "" && code in entries && stock.value == entries[code]
                               && RefersTo(nameIndex, variantsOf(name), code)
      ensures stock.None? ==> forall code :: RefersTo(nameIndex, variantsOf(name), code) ==> code == ""
      ensures ScanDecides(nameIndex, variantsOf(name)) ==>
                forall code :: code != "" && RefersByScan(nameIndex, variantsOf(name), code) ==>
                  code in entries && stock == Some(entries[code])
    {
      hide RefersTo, Lists, ScanDecides, RefersByScan;
      var found := Search(nameIndex, variantsOf(name));
      if found.Some? && found.value != "" {
        FoundIsListed(entries, variantsOf, nameIndex, variantsOf(name), found.value);
        stock := Some(entries[found.value]);
      } else {
        stock := None;
      }
    }
  }
}
