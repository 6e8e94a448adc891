/**
 How well a query variant matches a name variant: `_score` and its helpers of app/common/hk_stock_list.py,
 with exact fractions, and Python's order of the score tuples.
 */
module NameScore {
  import opened Common
  import opened Subsequence

  const LATIN_PREFIX_LEN: nat := 3
  const CJK_MIN_QUERY_LEN: nat := 2

  /** A score tuple. */
  type Score = seq<real>

  /** Python's order of tuples: the first difference decides, and a proper prefix is lower. */
  predicate Less(a: Score, b: Score) {
    b != [] && (a == [] || a[0] < b[0] || (a[0] == b[0] && Less(a[1..], b[1..])))
  }

  lemma {:induction false} LessIsTotal(a: Score, b: Score)
    ensures Less(a, b) || Less(b, a) || a == b
    ensures !(Less(a, b) && Less(b, a)) && !Less(a, a)
  {
    if a != [] && b != [] {
      LessIsTotal(a[1..], b[1..]);
      assert a[1..] == b[1..] && a[0] == b[0] ==> a == [a[0]] + a[1..] == [b[0]] + b[1..] == b;
      LessIsTotal(a[1..], a[1..]);
    } else if a != [] {
      LessIsTotal(a[1..], a[1..]);
    }
  }

  lemma {:induction false} LessIsTransitive(a: Score, b: Score, c: Score)
    requires Less(a, b) && Less(b, c)
    ensures Less(a, c)
  {
    if a != [] && a[0] == b[0] == c[0] {
      LessIsTransitive(a[1..], b[1..], c[1..]);
    }
  }

  predicate IsAscii(s: string) {
    forall k :: 0 <= k < |s| ==> s[k] as int < 128
  }

  predicate IsSpace(c: char) {
    c == ' ' || 9 <= c as int <= 13 || 28 <= c as int <= 31
  }

  /** Length of the leading run of characters that are not white space. */
  function WordLength(s: string): (n: nat)
    ensures n <= |s| && (forall k :: 0 <= k < n ==> !IsSpace(s[k])) && (n < |s| ==> IsSpace(s[n]))
  {
    if s == [] || IsSpace(s[0]) then 0 else 1 + WordLength(s[1..])
  }

  /** str.split(): the maximal runs of characters that are not white space. */
  function Words(s: string): (words: seq<string>)
    ensures forall w :: w in words ==> w != [] && forall k :: 0 <= k < |w| ==> !IsSpace(w[k])
    ensures words == [] <==> forall k :: 0 <= k < |s| ==> IsSpace(s[k])
    decreases |s|
  {
    if s == [] then []
    else if IsSpace(s[0]) then Words(s[1..])
    else [s[..WordLength(s)]] + Words(s[WordLength(s)..])
  }

  predicate StartsWith(s: string, prefix: string) {
    |prefix| <= |s| && s[..|prefix|] == prefix
  }

  /** `o` is the word itself, or a longer one that starts with it when it has enough letters. */
  predicate MatchesWord(o: string, w: string) {
    o == w || (|w| >= LATIN_PREFIX_LEN && StartsWith(o, w))
  }

  predicate Hit(w: string, others: seq<string>) {
    exists o :: o in others && MatchesWord(o, w)
  }

  /** `_latin_word_hits`. */
  function LatinWordHits(words: seq<string>, others: seq<string>): (hits: nat)
    ensures hits <= |words|
    ensures hits == |words| <==> forall w :: w in words ==> Hit(w, others)
  {
    if words == [] then 0
    else
      assert forall w :: w in words <==> w == words[0] || w in words[1..];
      (if Hit(words[0], others) then 1 else 0) + LatinWordHits(words[1..], others)
  }

  function Letters(words: seq<string>): nat {
    if words == [] then 0 else |words[0]| + Letters(words[1..])
  }

  /** The whole name is in the query, and has enough letters to say so. */
  predicate NameInQuery(q: string, n: string) {
    LatinWordHits(Words(n), Words(q)) == |Words(n)| && Letters(Words(n)) >= LATIN_PREFIX_LEN
  }

  predicate QueryInName(q: string, n: string) {
    LatinWordHits(Words(q), Words(n)) == |Words(q)|
  }

  function LatinScore(q: string, n: string): (r: Option<Score>)
    requires Words(q) != [] && Words(n) != []
    ensures r.Some? <==> NameInQuery(q, n) || QueryInName(q, n)
  {
    var qw, nw := Words(q), Words(n);
    var nameHits, queryHits := LatinWordHits(nw, qw), LatinWordHits(qw, nw);
    if nameHits == |nw| && Letters(nw) >= LATIN_PREFIX_LEN then
      Some([4.0, nameHits as real / |qw| as real, |nw| as real])
    else if queryHits == |qw| then
      Some([3.0, queryHits as real / |nw| as real, -(|n| as real)])
    else
      None
  }

  /** The span that `_subsequence_span` finds. */
  ghost function SpanOf(short: string, long: string): (s: Span)
    requires short != [] && IsSubsequenceOf(short, long)
    ensures Tightest(short, long, s) && s.start + |short| <= s.end <= |long|
  {
    SpanExists(short, long);
    var s :| Tightest(short, long, s) && s.start + |short| <= s.end <= |long|;
    s
  }

  /** Every embedded string has a tightest span: the method that computes it says so. */
  ghost predicate HasSpan(short: string, long: string) {
    exists s :: Tightest(short, long, s) && s.start + |short| <= s.end <= |long|
  }

  lemma SpanExists(short: string, long: string)
    requires short != [] && IsSubsequenceOf(short, long)
    ensures HasSpan(short, long)
  {
    var at :| Embeds(short, long, at);
    var first := EarliestEnd(short, long, at);
    var last := LatestFor(short, long, first);
    PositionsFit(short, long, last, |long|);
    StartLeavesRoom(short, long, last, |short|);
    assert Tightest(short, long, Span(last[0], EndOf(last)));
  }

  lemma EarliestEnd(short: string, long: string, at: seq<nat>) returns (first: seq<nat>)
    requires short != [] && Embeds(short, long, at)
    ensures Embeds(short, long, first) && forall b :: Embeds(short, long, b) ==> EndOf(first) <= EndOf(b)
    decreases EndOf(at)
  {
    if b :| Embeds(short, long, b) && EndOf(b) < EndOf(at) {
      first := EarliestEnd(short, long, b);
    } else {
      first := at;
    }
  }

  lemma LatestFor(short: string, long: string, at: seq<nat>) returns (last: seq<nat>)
    requires short != [] && Embeds(short, long, at)
    ensures Embeds(short, long, last) && EndOf(last) == EndOf(at)
    ensures forall b :: Embeds(short, long, b) && EndOf(b) == EndOf(at) ==> b[0] <= last[0]
    decreases |long| - at[0]
  {
    if b :| Embeds(short, long, b) && EndOf(b) == EndOf(at) && b[0] > at[0] {
      last := LatestFor(short, long, b);
    } else {
      last := at;
    }
  }

  /**
   What a Chinese query is worth against a Chinese name: how tightly it is embedded, whether at the start,
   how much of the name it covers; or how much of the query a name of three or more characters covers.
   */
  ghost function ChineseScore(q: string, n: string): Option<Score> {
    if |q| < CJK_MIN_QUERY_LEN then None
    else if |q| <= |n| && IsSubsequenceOf(q, n) then
      var s := SpanOf(q, n);
      Some([5.0, |q| as real / (s.end - s.start) as real, if s.start == 0 then 1.0 else 0.0,
            |q| as real / |n| as real, -(|n| as real)])
    else if 3 <= |n| < |q| && IsSubsequenceOf(n, q) then
      Some([4.0, |n| as real / |q| as real, |n| as real])
    else None
  }

  /** What a variant is: not empty, and with a word if it is Latin. */
  predicate IsVariant(v: string) {
    v != [] && (IsAscii(v) ==> Words(v) != [])
  }

  ghost function ScoreOf(q: string, n: string): Option<Score>
    requires IsVariant(q) && IsVariant(n)
  {
    if IsAscii(q) != IsAscii(n) then None
    else if IsAscii(q) then LatinScore(q, n)
    else ChineseScore(q, n)
  }

  /** `_score`. The character-set test before the scans never changes the outcome. */
  method ComputeScore(q: string, n: string) returns (score: Option<Score>)
    requires IsVariant(q) && IsVariant(n)
    ensures score == ScoreOf(q, n)
  {
    hide Tightest, LatinScore, Words;
    if IsAscii(q) != IsAscii(n) { return None; }
    if IsAscii(q) { return LatinScore(q, n); }
    if |q| < CJK_MIN_QUERY_LEN { return None; }
    var qChars, nChars := set c | c in q, set c | c in n;
    NoEmbeddingWithoutCharacters(q, n);
    NoEmbeddingWithoutCharacters(n, q);
    if !(qChars <= nChars || nChars <= qChars) { return None; }
    if |q| <= |n| {
      var span := SubsequenceSpan(q, n);
      if span.Some? {
        var s := span.value;
        TightestIsUnique(q, n, s, SpanOf(q, n));
        return Some([5.0, |q| as real / (s.end - s.start) as real, if s.start == 0 then 1.0 else 0.0,
                     |q| as real / |n| as real, -(|n| as real)]);
      }
    }
    if 3 <= |n| < |q| {
      var span := SubsequenceSpan(n, q);
      if span.Some? {
        return Some([4.0, |n| as real / |q| as real, |n| as real]);
      }
    }
    score := None;
  }

  lemma NoEmbeddingWithoutCharacters(short: string, long: string)
    ensures IsSubsequenceOf(short, long) ==> (set c | c in short) <= (set c | c in long)
  {
    if IsSubsequenceOf(short, long) {
      SubsequenceUsesItsCharacters(short, long);
    }
  }

  // ----- What the tuples order by -----

  lemma LessOfThree(a: Score, b: Score)
    requires |a| == 3 && |b| == 3
    ensures Less(a, b) <==> a[0] < b[0] || (a[0] == b[0] && (a[1] < b[1] || (a[1] == b[1] && a[2] < b[2])))
  {
    assert Less(a[1..][1..], b[1..][1..]) <==> a[2] < b[2] by { assert a[1..][1..][1..] == [] == b[1..][1..][1..]; }
  }

  lemma LessOfFive(a: Score, b: Score)
    requires |a| == 5 && |b| == 5
    ensures Less(a, b) <==>
              || a[0] < b[0]
              || (a[0] == b[0] && a[1] < b[1])
              || (a[0] == b[0] && a[1] == b[1] && a[2] < b[2])
              || (a[0] == b[0] && a[1] == b[1] && a[2] == b[2] && (a[3] < b[3] || (a[3] == b[3] && a[4] < b[4])))
  {
    var c, d := a[1..][1..], b[1..][1..];
    LessOfThree(c, d);
    assert Less(a[1..], b[1..]) <==> a[1] < b[1] || (a[1] == b[1] && Less(c, d));
  }

  lemma SharesCompare(part: nat, whole: nat, other: nat)
    requires part > 0 && whole > 0 && other > 0
    ensures part as real / whole as real < part as real / other as real <==> other < whole
    ensures part as real / whole as real == part as real / other as real <==> other == whole
  {
    var p, x, y := part as real, whole as real, other as real;
    assert p / x * x == p && p / y * y == p && p / x > 0.0 && p / y > 0.0;
    if other < whole { assert p / x * y < p / x * x; }
    if whole < other { assert p / y * x < p / y * y; }
  }

  lemma PartsCompare(part: nat, other: nat, whole: nat)
    requires whole > 0
    ensures part as real / whole as real < other as real / whole as real <==> part < other
    ensures part as real / whole as real == other as real / whole as real <==> part == other
  {
    var x, y, w := part as real, other as real, whole as real;
    assert x / w * w == x && y / w * w == y;
  }

  /** A name that embeds a Chinese query ranks by the tightest span, then by starting with it, then by being shorter. */
  lemma EmbeddingNamesOrder(q: string, n: string, m: string)
    requires CJK_MIN_QUERY_LEN <= |q| <= |n| && |q| <= |m| && IsSubsequenceOf(q, n) && IsSubsequenceOf(q, m)
    ensures var s, t := SpanOf(q, n), SpanOf(q, m);
            var wide, narrow := s.end - s.start, t.end - t.start;
            Less(ChineseScore(q, n).value, ChineseScore(q, m).value) <==>
              || narrow < wide
              || (narrow == wide && t.start == 0 < s.start)
              || (narrow == wide && (t.start == 0 <==> s.start == 0) && |m| < |n|)
  {
    hide Less, Tightest, IsSubsequenceOf;
    var s, t := SpanOf(q, n), SpanOf(q, m);
    SharesCompare(|q|, s.end - s.start, t.end - t.start);
    SharesCompare(|q|, |n|, |m|);
    LessOfFive(ChineseScore(q, n).value, ChineseScore(q, m).value);
  }

  /** Names a Chinese query contains rank by length, below every name that contains the query. */
  lemma ContainedNamesOrder(q: string, n: string, m: string)
    requires 3 <= |n| < |q| && IsSubsequenceOf(n, q) && ChineseScore(q, m).Some?
    ensures Less(ChineseScore(q, n).value, ChineseScore(q, m).value) <==> |n| < |m|
  {
    hide Less, Tightest, IsSubsequenceOf;
    var a, b := ChineseScore(q, n).value, ChineseScore(q, m).value;
    if |q| <= |m| && IsSubsequenceOf(q, m) {
      LessAtFirst(a, b);
    } else {
      PartsCompare(|n|, |m|, |q|);
      LessOfThree(a, b);
    }
  }

  /**
   Which Chinese pairs score at all: the query has two characters or more and is embedded in the name, or the
   name has three or more, fewer than the query, and is embedded in it.
   */
  lemma ChineseScoresExactlyWhen(q: string, n: string)
    requires IsVariant(q) && IsVariant(n) && !IsAscii(q) && !IsAscii(n)
    ensures ScoreOf(q, n).Some? <==>
              |q| >= 2 && (IsSubsequenceOf(q, n) || (3 <= |n| < |q| && IsSubsequenceOf(n, q)))
  {
    hide IsSubsequenceOf, IsAscii;
    if IsSubsequenceOf(q, n) { SubsequenceIsNoLonger(q, n); }
  }

  lemma SubsequenceIsNoLonger(short: string, long: string)
    requires IsSubsequenceOf(short, long)
    ensures |short| <= |long|
  {
    if short != [] {
      var at :| Embeds(short, long, at);
      RoomAfter(short, long, at, 0);
    }
  }

  /** Which Latin words match: equal ones, and a word of three letters or more its extensions. */
  lemma WordMatchesExactlyWhen(o: string, w: string)
    ensures MatchesWord(o, w) <==> o == w || exists rest :: o == w + rest && |w| >= 3
  {
    if StartsWith(o, w) { assert o == w + o[|w|..]; }
    forall rest | o == w + rest ensures StartsWith(o, w) { assert o[..|w|] == w; }
  }

  /** How many characters of the text are no white space. */
  function Printed(s: string): nat {
    if s == [] then 0 else (if IsSpace(s[0]) then 0 else 1) + Printed(s[1..])
  }

  lemma {:induction false} PrintedAfter(s: string, k: nat)
    requires k <= |s| && forall j :: 0 <= j < k ==> !IsSpace(s[j])
    ensures Printed(s) == k + Printed(s[k..])
  {
    if k == 0 {
      assert s[0..] == s;
    } else {
      PrintedAfter(s[1..], k - 1);
      assert s[1..][k - 1..] == s[k..];
    }
  }

  lemma {:induction false} LettersArePrinted(s: string)
    ensures Letters(Words(s)) == Printed(s)
    decreases |s|
  {
    if s == [] {
    } else if IsSpace(s[0]) {
      LettersArePrinted(s[1..]);
    } else {
      var k := WordLength(s);
      LettersArePrinted(s[k..]);
      PrintedAfter(s, k);
      assert ([s[..k]] + Words(s[k..]))[1..] == Words(s[k..]);
    }
  }

  /**
   Which Latin pairs score at all: every word of the name hits one of the query, and the name has three characters
   or more apart from white space; or every word of the query hits one of the name.
   */
  lemma LatinScoresExactlyWhen(q: string, n: string)
    requires IsVariant(q) && IsVariant(n) && IsAscii(q) && IsAscii(n)
    ensures ScoreOf(q, n).Some? <==>
              || ((forall w :: w in Words(n) ==> Hit(w, Words(q))) && Printed(n) >= 3)
              || (forall w :: w in Words(q) ==> Hit(w, Words(n)))
  {
    LettersArePrinted(n);
    hide Words, Letters, Printed, IsAscii, Hit;
  }

  /** What separates words: the ASCII characters that str.split takes for white space. */
  lemma WhatSeparatesWords(c: char)
    ensures Words([c]) == [] <==> c as int in [9, 10, 11, 12, 13, 28, 29, 30, 31, 32]
  {
    assert [c][0] == c;
  }

  lemma WholeNameScore(q: string, n: string)
    requires Words(q) != [] && Words(n) != [] && NameInQuery(q, n)
    ensures LatinScore(q, n) == Some([4.0, |Words(n)| as real / |Words(q)| as real, |Words(n)| as real])
  {
    hide Words, LatinWordHits, Letters;
  }

  lemma ContainingNameScore(q: string, n: string)
    requires Words(q) != [] && Words(n) != [] && QueryInName(q, n) && !NameInQuery(q, n)
    ensures LatinScore(q, n) == Some([3.0, |Words(q)| as real / |Words(n)| as real, -(|n| as real)])
  {
    hide Words, LatinWordHits, Letters;
  }

  /**
   Latin names found whole in the query rank by their number of words, above all names that only contain the query.
   */
  lemma WholeNamesOrder(q: string, n: string, m: string)
    requires Words(q) != [] && Words(n) != [] && Words(m) != []
    requires NameInQuery(q, n) && LatinScore(q, m).Some?
    ensures Less(LatinScore(q, n).value, LatinScore(q, m).value) <==> NameInQuery(q, m) && |Words(n)| < |Words(m)|
  {
    hide Less, Words, LatinScore, NameInQuery, QueryInName;
    WholeNameScore(q, n);
    if NameInQuery(q, m) { WholeNameScore(q, m); } else { ContainingNameScore(q, m); }
    PartsCompare(|Words(n)|, |Words(m)|, |Words(q)|);
    LessOfThree(LatinScore(q, n).value, LatinScore(q, m).value);
  }

  /** Latin names that contain the whole query rank by having fewer words, then by being shorter. */
  lemma ContainingNamesOrder(q: string, n: string, m: string)
    requires Words(q) != [] && Words(n) != [] && Words(m) != []
    requires QueryInName(q, n) && !NameInQuery(q, n) && QueryInName(q, m) && !NameInQuery(q, m)
    ensures Less(LatinScore(q, n).value, LatinScore(q, m).value) <==>
              |Words(m)| < |Words(n)| || (|Words(m)| == |Words(n)| && |m| < |n|)
  {
    hide Less, Words, LatinScore, NameInQuery, QueryInName;
    ContainingNameScore(q, n);
    ContainingNameScore(q, m);
    SharesCompare(|Words(q)|, |Words(n)|, |Words(m)|);
    LessOfThree(LatinScore(q, n).value, LatinScore(q, m).value);
  }

  /** No other name equals or beats the query's own spelling. */
  lemma OwnSpellingScoresHighest(q: string, n: string)
    requires |q| >= CJK_MIN_QUERY_LEN && !IsAscii(q) && !IsAscii(n) && n != q
    requires IsVariant(n) && ScoreOf(q, n).Some?
    ensures ScoreOf(q, q).Some? && Less(ScoreOf(q, n).value, ScoreOf(q, q).value)
  {
    hide IsAscii, IsSubsequenceOf, Tightest, Less;
    SelfScore(q);
    var b := ScoreOf(q, q).value;
    if |q| <= |n| && IsSubsequenceOf(q, n) {
      var s := SpanOf(q, n);
      if |n| == |q| { SameLengthSubsequenceIsEqual(q, n); }
      ShareAtMostOne(|q|, s.end - s.start);
      ShareBelowOne(|q|, |n|);
      var a := ScoreOf(q, n).value;
      LessAtFourth(a, b);
    } else {
      LessAtFirst(ScoreOf(q, n).value, b);
    }
  }

  lemma LessAtFirst(a: Score, b: Score)
    requires a != [] && b != [] && a[0] < b[0]
    ensures Less(a, b)
  {
  }

  lemma LessAtFourth(a: Score, b: Score)
    requires |a| > 3 && |b| > 3 && a[0] == b[0] && a[1] <= b[1] && a[2] <= b[2] && a[3] < b[3]
    ensures Less(a, b)
  {
    assert Less(a[1..][1..][1..], b[1..][1..][1..]);
    assert Less(a[1..][1..], b[1..][1..]);
    assert Less(a[1..], b[1..]);
  }

  lemma ShareAtMostOne(part: nat, whole: nat)
    requires 0 < part <= whole
    ensures part as real / whole as real <= 1.0
  {
  }

  lemma ShareBelowOne(part: nat, whole: nat)
    requires part < whole
    ensures part as real / whole as real < 1.0
  {
  }

  lemma SelfScore(q: string)
    requires |q| >= CJK_MIN_QUERY_LEN && !IsAscii(q)
    ensures ScoreOf(q, q) == Some([5.0, 1.0, 1.0, 1.0, -(|q| as real)])
  {
    hide IsAscii, Tightest, IsSubsequenceOf;
    SubsequenceOfItself(q);
    SpanOfItself(q, SpanOf(q, q));
    var whole := |q| as real;
    assert whole / whole == 1.0;
    assert ChineseScore(q, q) == Some([5.0, whole / whole, 1.0, whole / whole, -whole]);
  }

  lemma SubsequenceOfItself(s: string)
    ensures IsSubsequenceOf(s, s)
  {
    assert Embeds(s, s, seq(|s|, k => k));
  }

  lemma SameLengthSubsequenceIsEqual(q: string, n: string)
    requires IsSubsequenceOf(q, n) && |q| == |n|
    ensures q == n
  {
    hide Places;
    var at :| Embeds(q, n, at);
    forall k | 0 <= k < |q| ensures q[k] == n[k] {
      NoRoomToMove(q, n, at, k);
    }
  }

  lemma NoRoomToMove(short: string, long: string, at: seq<nat>, k: nat)
    requires Embeds(short, long, at) && |short| == |long| && k < |short|
    ensures at[k] == k && short[k] == long[k]
  {
    RoomBefore(short, long, at, k);
    RoomAfter(short, long, at, k);
  }

  lemma {:induction false} RoomBefore(short: string, long: string, at: seq<nat>, k: nat)
    requires Embeds(short, long, at) && k < |short|
    ensures k <= at[k]
  {
    if k == 0 {
    } else {
      RoomBefore(short, long, at, k - 1);
      assert at[k - 1] < at[k];
    }
  }

  lemma {:induction false} RoomAfter(short: string, long: string, at: seq<nat>, k: nat)
    requires Embeds(short, long, at) && k < |short|
    ensures at[k] + |short| - k <= |long|
    decreases |short| - k
  {
    if k + 1 == |short| {
    } else {
      RoomAfter(short, long, at, k + 1);
      assert at[k] < at[k + 1];
    }
  }
}
