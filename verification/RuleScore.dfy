/**
 The Rule Score and its fusion with the LLM's (app/scoring/rule_score.py, app/models/event_score.py and
 `_score_fusion` of app/scoring/scoring_service.py), in exact arithmetic.
 */
module RuleScore {
  datatype Sentiment = Positive | Neutral | Negative

  /** What scoring reads of an EntityEvent. */
  datatype Opinion = Opinion(source: string, score: real, sentiment: Sentiment)

  datatype SentimentAggregation = SentimentAggregation(signed: real, strength: real)

  function Direction(sentiment: Sentiment): real {
    match sentiment
    case Positive => 1.0
    case Neutral => 0.0
    case Negative => -1.0
  }

  /** The weight of a source, 0 if it has none. */
  function Weight(weights: map<string, real>, source: string): real {
    if source in weights then weights[source] else 0.0
  }

  // ----- Sentiment -----

  function TotalWeight(opinions: seq<Opinion>, weights: map<string, real>): real {
    if opinions == [] then 0.0
    else TotalWeight(opinions[..|opinions| - 1], weights) + Weight(weights, opinions[|opinions| - 1].source)
  }

  /** What one opinion adds: its score, in the direction of its label or as it is, times its weight. */
  function Term(o: Opinion, weight: real, signed: bool): real {
    o.score * (if signed then Direction(o.sentiment) else 1.0) * weight
  }

  function WeightedSum(opinions: seq<Opinion>, weights: map<string, real>, signed: bool): real {
    if opinions == [] then 0.0
    else
      var o := opinions[|opinions| - 1];
      WeightedSum(opinions[..|opinions| - 1], weights, signed)
        + Term(o, Weight(weights, o.source), signed)
  }

  /** The weighted means, or zeros without any weight. */
  function SentimentOf(opinions: seq<Opinion>, weights: map<string, real>): SentimentAggregation {
    var total := TotalWeight(opinions, weights);
    if total == 0.0 then SentimentAggregation(0.0, 0.0)
    else SentimentAggregation(WeightedSum(opinions, weights, true) / total,
        WeightedSum(opinions, weights, false) / total)
  }

  /** `compute_sentiment_aggregation`. */
  method ComputeSentiment(opinions: seq<Opinion>, weights: map<string, real>) returns (agg: SentimentAggregation)
    ensures agg == SentimentOf(opinions, weights)
  {
    var total, signedSum, strengthSum := 0.0, 0.0, 0.0;
    for i := 0 to |opinions|
      invariant total == TotalWeight(opinions[..i], weights)
      invariant signedSum == WeightedSum(opinions[..i], weights, true)
      invariant strengthSum == WeightedSum(opinions[..i], weights, false)
    {
      var o := opinions[i];
      assert opinions[..i + 1][..i] == opinions[..i] && opinions[..i + 1][i] == o;
      var weight := Weight(weights, o.source);
      signedSum := signedSum + o.score * Direction(o.sentiment) * weight;
      strengthSum := strengthSum + o.score * weight;
      assert o.score * 1.0 * weight == o.score * weight;
      total := total + weight;
    }
    assert opinions[..|opinions|] == opinions;
    if total == 0.0 {
      return SentimentAggregation(0.0, 0.0);
    }
    agg := SentimentAggregation(signedSum / total, strengthSum / total);
  }

  /** What the analysis stores and the weight table holds. */
  predicate Bounded(opinions: seq<Opinion>, weights: map<string, real>) {
    && (forall k :: 0 <= k < |opinions| ==> 0.0 <= opinions[k].score <= 1.0)
    && (forall s :: s in weights ==> weights[s] >= 0.0)
  }

  /** Every opinion that counts has this label. */
  predicate AllLabelled(opinions: seq<Opinion>, weights: map<string, real>, sentiment: Sentiment) {
    forall k :: 0 <= k < |opinions| && opinions[k].score > 0.0 && Weight(weights, opinions[k].source) > 0.0
      ==> opinions[k].sentiment == sentiment
  }

  /**
   The signed score never exceeds the strength, which is at most 1, and reaches it exactly if every
   opinion that counts points the same way.
   */
  lemma SignedWithinStrength(opinions: seq<Opinion>, weights: map<string, real>)
    requires Bounded(opinions, weights)
    ensures var s := SentimentOf(opinions, weights);
            && -s.strength <= s.signed <= s.strength <= 1.0
            && (s.signed == s.strength <==> AllLabelled(opinions, weights, Positive))
            && (s.signed == -s.strength <==> AllLabelled(opinions, weights, Negative))
  {
    SumsWithin(opinions, weights);
    hide AllLabelled, Bounded, WeightedSum, TotalWeight;
    var total := TotalWeight(opinions, weights);
    if total > 0.0 {
      MeansWithin(WeightedSum(opinions, weights, true), WeightedSum(opinions, weights, false), total);
    }
  }

  lemma MeansWithin(signed: real, strength: real, total: real)
    requires total > 0.0 && -strength <= signed <= strength <= total
    ensures -(strength / total) <= signed / total <= strength / total <= 1.0
    ensures signed / total == strength / total <==> signed == strength
    ensures signed / total == -(strength / total) <==> signed == -strength
  {
    QuotientsCompare(signed, strength, total);
    QuotientsCompare(-strength, signed, total);
    QuotientsCompare(strength, total, total);
    assert (-strength) / total == -(strength / total);
    assert total / total == 1.0;
  }

  lemma QuotientsCompare(x: real, y: real, d: real)
    requires d > 0.0 && x <= y
    ensures x / d <= y / d && (x / d == y / d <==> x == y)
  {
    assert x == x / d * d && y == y / d * d;
  }

  lemma {:induction false} SumsWithin(opinions: seq<Opinion>, weights: map<string, real>)
    requires Bounded(opinions, weights)
    ensures var total := TotalWeight(opinions, weights);
            var signed, strength := WeightedSum(opinions, weights, true), WeightedSum(opinions, weights, false);
            && -strength <= signed <= strength <= total
            && (signed == strength <==> AllLabelled(opinions, weights, Positive))
            && (signed == -strength <==> AllLabelled(opinions, weights, Negative))
  {
    if opinions == [] {
    } else {
      var n := |opinions| - 1;
      SumsWithin(opinions[..n], weights);
      LastOpinionLabelled(opinions, weights, Positive);
      LastOpinionLabelled(opinions, weights, Negative);
      assert Weight(weights, opinions[n].source) >= 0.0;
      OneOpinion(opinions[n], Weight(weights, opinions[n].source));
      hide AllLabelled, Labelled, Term, Weight;
    }
  }

  predicate Labelled(o: Opinion, w: real, sentiment: Sentiment) {
    o.score > 0.0 && w > 0.0 ==> o.sentiment == sentiment
  }

  lemma LastOpinionLabelled(opinions: seq<Opinion>, weights: map<string, real>, sentiment: Sentiment)
    requires opinions != []
    ensures var n := |opinions| - 1;
            AllLabelled(opinions, weights, sentiment) <==>
              && AllLabelled(opinions[..n], weights, sentiment)
              && Labelled(opinions[n], Weight(weights, opinions[n].source), sentiment)
  {
    var n := |opinions| - 1;
    assert forall k :: 0 <= k < n ==> opinions[..n][k] == opinions[k];
  }

  lemma OneOpinion(o: Opinion, w: real)
    requires 0.0 <= o.score <= 1.0 && w >= 0.0
    ensures var signed, strength := Term(o, w, true), Term(o, w, false);
            && -strength <= signed <= strength <= w
            && (signed == strength <==> Labelled(o, w, Positive))
            && (signed == -strength <==> Labelled(o, w, Negative))
  {
    var strength := o.score * w;
    assert o.score > 0.0 && w > 0.0 ==> strength > 0.0;
    assert o.score == 0.0 || w == 0.0 ==> strength == 0.0;
    assert (1.0 - o.score) * w >= 0.0;
    assert o.score * -1.0 * w == -strength;
  }

  /** The sum of score times weight over the opinions with this label. */
  function LabelledSum(opinions: seq<Opinion>, weights: map<string, real>, sentiment: Sentiment): real {
    if opinions == [] then 0.0
    else
      var o := opinions[|opinions| - 1];
      var rest := LabelledSum(opinions[..|opinions| - 1], weights, sentiment);
      if o.sentiment == sentiment then rest + o.score * Weight(weights, o.source) else rest
  }

  /** The sum of score times weight over all opinions. */
  function AllSum(opinions: seq<Opinion>, weights: map<string, real>): real {
    LabelledSum(opinions, weights, Positive) + LabelledSum(opinions, weights, Neutral)
      + LabelledSum(opinions, weights, Negative)
  }

  /** The sums behind the means: positive reports minus negative ones, and all of them. */
  lemma {:induction false} SumsByLabel(opinions: seq<Opinion>, weights: map<string, real>)
    ensures WeightedSum(opinions, weights, true) ==
              LabelledSum(opinions, weights, Positive) - LabelledSum(opinions, weights, Negative)
    ensures WeightedSum(opinions, weights, false) == AllSum(opinions, weights)
  {
    if opinions == [] {
    } else {
      SumsByLabel(opinions[..|opinions| - 1], weights);
      var o := opinions[|opinions| - 1];
      var w := Weight(weights, o.source);
      assert o.score * 1.0 * w == o.score * w && o.score * 0.0 * w == 0.0 && o.score * -1.0 * w == -(o.score * w);
    }
  }

  /**
   Neutral reports weigh on the signed score only through the total weight: it is the positive sum minus the
   negative one over that total, and the strength is the sum of all three. Without weight both are 0.
   */
  lemma MeansByLabel(opinions: seq<Opinion>, weights: map<string, real>)
    ensures var s, total := SentimentOf(opinions, weights), TotalWeight(opinions, weights);
            && (total != 0.0 ==>
                  && s.signed * total ==
                     LabelledSum(opinions, weights, Positive) - LabelledSum(opinions, weights, Negative)
                  && s.strength * total == AllSum(opinions, weights))
            && (total == 0.0 ==> s.signed == 0.0 == s.strength)
  {
    SumsByLabel(opinions, weights);
    hide WeightedSum, LabelledSum, AllSum, TotalWeight;
    var total := TotalWeight(opinions, weights);
    if total != 0.0 {
      var x, y := WeightedSum(opinions, weights, true), WeightedSum(opinions, weights, false);
      assert x / total * total == x && y / total * total == y;
    }
  }

  /** A report of a source without a weight changes nothing. */
  lemma UnknownSourcesDoNotCount(opinions: seq<Opinion>, o: Opinion, weights: map<string, real>)
    requires o.source !in weights
    ensures SentimentOf(opinions + [o], weights) == SentimentOf(opinions, weights)
  {
    assert (opinions + [o])[..|opinions|] == opinions;
  }

  /** The same opinions with positive and negative exchanged. */
  function Mirrored(opinions: seq<Opinion>): (r: seq<Opinion>)
    ensures |r| == |opinions|
  {
    if opinions == [] then []
    else
      var o := opinions[|opinions| - 1];
      Mirrored(opinions[..|opinions| - 1])
        + [o.(sentiment := match o.sentiment
                           case Positive => Negative
                           case Neutral => Neutral
                           case Negative => Positive)]
  }

  lemma {:induction false} MirroredSums(opinions: seq<Opinion>, weights: map<string, real>)
    ensures TotalWeight(Mirrored(opinions), weights) == TotalWeight(opinions, weights)
    ensures LabelledSum(Mirrored(opinions), weights, Positive) == LabelledSum(opinions, weights, Negative)
    ensures LabelledSum(Mirrored(opinions), weights, Neutral) == LabelledSum(opinions, weights, Neutral)
    ensures LabelledSum(Mirrored(opinions), weights, Negative) == LabelledSum(opinions, weights, Positive)
  {
    if opinions == [] {
    } else {
      var n := |opinions| - 1;
      MirroredSums(opinions[..n], weights);
      assert Mirrored(opinions)[..n] == Mirrored(opinions[..n]);
    }
  }

  /** Exchanging the labels negates the signed score and keeps the strength. */
  lemma MirroringNegates(opinions: seq<Opinion>, weights: map<string, real>)
    ensures var s, m := SentimentOf(opinions, weights), SentimentOf(Mirrored(opinions), weights);
            m.signed == -s.signed && m.strength == s.strength
  {
    MirroredSums(opinions, weights);
    SumsByLabel(opinions, weights);
    SumsByLabel(Mirrored(opinions), weights);
    assert AllSum(Mirrored(opinions), weights) == AllSum(opinions, weights);
    hide WeightedSum, LabelledSum, AllSum, TotalWeight, Mirrored;
    var total, x := TotalWeight(opinions, weights), WeightedSum(opinions, weights, true);
    if total != 0.0 { NegatedQuotient(x, total); }
  }

  lemma NegatedQuotient(x: real, d: real)
    requires d != 0.0
    ensures (-x) / d == -(x / d)
  {
  }

  // ----- Rule score -----

  datatype Dimensions = Dimensions(eventType: real, authority: real, strength: real, heat: real)

  /** `base_rule_score`. */
  function Base(d: Dimensions): real {
    d.eventType * 0.30 + d.authority * 0.25 + d.strength * 0.15 + d.heat * 0.10
  }

  predicate InTen(x: real) { 0.0 <= x <= 10.0 }

  predicate AllInTen(d: Dimensions) {
    InTen(d.eventType) && InTen(d.authority) && InTen(d.strength) && InTen(d.heat)
  }

  function MaxWeight(sources: seq<string>, weights: map<string, real>): real
    requires sources != []
  {
    var w := Weight(weights, sources[0]);
    if |sources| == 1 then w
    else if MaxWeight(sources[1..], weights) > w then MaxWeight(sources[1..], weights) else w
  }

  /** `compute_rule_score`, over the distinct sources of the Event. */
  function RuleScoreOf(eventTypeScore: real, sources: seq<string>, agg: SentimentAggregation,
                       weights: map<string, real>, activeSources: int): Dimensions
    requires sources != [] && activeSources > 0
  {
    var heat := |sources| as real / activeSources as real * 10.0;
    Dimensions(eventTypeScore, MaxWeight(sources, weights), agg.strength * 10.0, if heat < 10.0 then heat else 10.0)
  }

  /** The tier weights: P1 is 9, P2 is 6, an unknown source 0. */
  function TierWeight(source: string): real {
    if source == "HKEX" then 9.0
    else if source in {"MINGPAO", "AASTOCKS", "YAHOO_HK"} then 6.0
    else 0.0
  }

  /** `get_source_weights`: the fallback weights of the named sources. */
  method SourceWeights(names: seq<string>) returns (weights: map<string, real>)
    ensures forall s :: s in weights <==> s in names
    ensures forall s :: s in weights ==> weights[s] == TierWeight(s) && InTen(weights[s])
  {
    weights := map[];
    for i := 0 to |names|
      invariant forall s :: s in weights <==> s in names[..i]
      invariant forall s :: s in weights ==> weights[s] == TierWeight(s)
    {
      weights := weights[names[i] := TierWeight(names[i])];
    }
  }

  /** The authority of an Event is the weight of its most authoritative source. */
  lemma {:induction false} MaxWeightIsMax(sources: seq<string>, weights: map<string, real>)
    requires sources != []
    ensures exists s :: s in sources && MaxWeight(sources, weights) == Weight(weights, s)
    ensures forall s :: s in sources ==> Weight(weights, s) <= MaxWeight(sources, weights)
  {
    assert sources[0] in sources;
    if |sources| == 1 {
    } else {
      MaxWeightIsMax(sources[1..], weights);
      var top :| top in sources[1..] && MaxWeight(sources[1..], weights) == Weight(weights, top);
      assert top in sources;
      forall s | s in sources ensures Weight(weights, s) <= MaxWeight(sources, weights) {
        assert s == sources[0] || s in sources[1..];
      }
    }
  }

  /** The heat is full exactly if as many sources report as are active, and is then capped. */
  lemma HeatIsFullWhenAllReport(eventTypeScore: real, sources: seq<string>, agg: SentimentAggregation,
                                weights: map<string, real>, activeSources: int)
    requires sources != [] && activeSources > 0
    ensures var d := RuleScoreOf(eventTypeScore, sources, agg, weights, activeSources);
            && 0.0 < d.heat <= 10.0 && (d.heat == 10.0 <==> |sources| >= activeSources)
            && (d.heat < 10.0 ==> d.heat * activeSources as real == |sources| as real * 10.0)
  {
    hide MaxWeight;
    var share := |sources| as real / activeSources as real;
    assert share * activeSources as real == |sources| as real;
    if |sources| >= activeSources {
      assert share >= 1.0;
    } else {
      assert share < 1.0;
    }
    assert share > 0.0;
  }

  lemma {:induction false} MaxWeightWithin(sources: seq<string>, weights: map<string, real>)
    requires sources != [] && forall s :: s in weights ==> InTen(weights[s])
    ensures InTen(MaxWeight(sources, weights))
  {
    if |sources| == 1 {
    } else {
      MaxWeightWithin(sources[1..], weights);
    }
  }

  /** Every dimension in terms of the reports: ten times the mean score, and the weight of the best source. */
  lemma DimensionsOfReports(eventTypeScore: real, sources: seq<string>, opinions: seq<Opinion>,
                            weights: map<string, real>, activeSources: int)
    requires sources != [] && activeSources > 0
    ensures var total := TotalWeight(opinions, weights);
            var d := RuleScoreOf(eventTypeScore, sources, SentimentOf(opinions, weights), weights, activeSources);
            && d.eventType == eventTypeScore
            && (total != 0.0 ==> d.strength * total == 10.0 * AllSum(opinions, weights))
            && (exists s :: s in sources && d.authority == Weight(weights, s))
            && (forall s :: s in sources ==> Weight(weights, s) <= d.authority)
  {
    MeansByLabel(opinions, weights);
    MaxWeightIsMax(sources, weights);
    hide MaxWeight, AllSum, LabelledSum, TotalWeight, SentimentOf, Weight, RuleScoreOf;
    var agg := SentimentOf(opinions, weights);
    StrengthTimes(eventTypeScore, sources, agg, weights, activeSources, TotalWeight(opinions, weights));
  }

  lemma StrengthTimes(eventTypeScore: real, sources: seq<string>, agg: SentimentAggregation,
                      weights: map<string, real>, activeSources: int, total: real)
    requires sources != [] && activeSources > 0
    ensures var d := RuleScoreOf(eventTypeScore, sources, agg, weights, activeSources);
            && d.eventType == eventTypeScore && d.authority == MaxWeight(sources, weights)
            && d.strength * total == 10.0 * (agg.strength * total)
  {
    hide MaxWeight;
  }

  /** What each dimension counts for: 30, 25, 15 and 10 of every hundred points, and nothing else counts. */
  lemma WhatEachDimensionAdds(d: Dimensions, more: real)
    ensures Base(d.(eventType := d.eventType + more)) - Base(d) == 0.30 * more
    ensures Base(d.(authority := d.authority + more)) - Base(d) == 0.25 * more
    ensures Base(d.(strength := d.strength + more)) - Base(d) == 0.15 * more
    ensures Base(d.(heat := d.heat + more)) - Base(d) == 0.10 * more
    ensures Base(Dimensions(0.0, 0.0, 0.0, 0.0)) == 0.0
  {
  }

  /** An Event the exchange reports has more authority than one only the press does, and that one than a stranger's. */
  lemma ExchangeOutweighsPress(sources: seq<string>, weights: map<string, real>)
    requires sources != [] && forall s :: s in sources ==> s in weights && weights[s] == TierWeight(s)
    ensures var press := exists s :: s in sources && s in ["MINGPAO", "AASTOCKS", "YAHOO_HK"];
            MaxWeight(sources, weights) ==
              (if "HKEX" in sources then 9.0 else if press then 6.0 else 0.0)
  {
    MaxWeightIsMax(sources, weights);
    hide MaxWeight;
    var top :| top in sources && MaxWeight(sources, weights) == Weight(weights, top);
    assert "HKEX" in sources ==> Weight(weights, "HKEX") == 9.0;
  }

  // ----- Fusion -----

  datatype Fused = Fused(direction: int, base: real, absFinal: real)

  function Abs(x: real): real { if x < 0.0 then -x else x }

  function RawFinal(base: real, direction: int, impact: real): real {
    base * direction as real * 0.67 + impact * 0.33 * 2.0
  }

  /** `_score_fusion`. */
  function Fuse(d: Dimensions, impact: real, agg: SentimentAggregation): Fused {
    var direction :=
      if impact > 0.0 then 1
      else if impact < 0.0 then -1
      else if agg.signed >= 0.0 then 1 else -1;
    Fused(direction, Base(d), Abs(RawFinal(Base(d), direction, impact)))
  }

  /**
   The rule's share and the LLM's never cancel: the fused score is the sum of their sizes, and the
   unfused score is the fused one in its direction.
   */
  lemma SharesNeverCancel(d: Dimensions, impact: real, agg: SentimentAggregation)
    requires Base(d) >= 0.0
    ensures var f := Fuse(d, impact, agg);
            && f.absFinal == 0.67 * Base(d) + 0.66 * Abs(impact)
            && RawFinal(f.base, f.direction, impact) == f.direction as real * f.absFinal
            && (f.direction == 1 || f.direction == -1) && f.direction as real * impact == Abs(impact)
            && (impact == 0.0 ==> (f.direction == 1 <==> agg.signed >= 0.0))
  {
  }

  /** The whole computation, on what is stored: the base score is in [0, 8] and the fused one in [0, 8.66]. */
  lemma ScoresWithinBounds(eventTypeScore: real, sources: seq<string>, opinions: seq<Opinion>,
                           weights: map<string, real>, activeSources: int, impact: real)
    requires sources != [] && activeSources > 0 && InTen(eventTypeScore) && -5.0 <= impact <= 5.0
    requires Bounded(opinions, weights) && forall s :: s in weights ==> InTen(weights[s])
    ensures var agg := SentimentOf(opinions, weights);
            var d := RuleScoreOf(eventTypeScore, sources, agg, weights, activeSources);
            var f := Fuse(d, impact, agg);
            AllInTen(d) && 0.0 <= f.base <= 8.0 && 0.0 <= f.absFinal <= 8.66
  {
    hide Bounded, WeightedSum, TotalWeight;
    var agg := SentimentOf(opinions, weights);
    SignedWithinStrength(opinions, weights);
    MaxWeightWithin(sources, weights);
    hide SentimentOf, MaxWeight, AllLabelled;
    assert |sources| as real / activeSources as real >= 0.0;
    SharesNeverCancel(RuleScoreOf(eventTypeScore, sources, agg, weights, activeSources), impact, agg);
  }

  /** The greatest fused score takes the greatest of every dimension and of the impact, and nothing else does. */
  lemma GreatestScore(d: Dimensions, impact: real, agg: SentimentAggregation)
    requires AllInTen(d) && -5.0 <= impact <= 5.0
    ensures Fuse(d, impact, agg).absFinal == 8.66 <==> d == Dimensions(10.0, 10.0, 10.0, 10.0) && Abs(impact) == 5.0
  {
    SharesNeverCancel(d, impact, agg);
  }
}
