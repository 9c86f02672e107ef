/** `PositionSimilarity`: the position-decay score installed as a field's
    similarity. Each term of the query's statistics scores boost*5/(5+p); a
    term whose position cannot be read is scored as if it were at position
    20, and term frequency plays no part. */
module Similarity {
  import opened Index

  /** The position substituted when a lookup fails (`maxPosition`). */
  const DEFAULT_POSITION: Int32 := 20

  /** The per-term statistics the host passes to `computeWeight`; only the
      term itself is used. */
  datatype TermStatistics = TermStatistics(term: string)

  /** The collection statistics the host passes to `computeWeight`; only the
      field name is used. */
  datatype CollectionStatistics = CollectionStatistics(field: string)

  /** What indexing knows about a field of a document when it asks for a norm. */
  datatype FieldInvertState = FieldInvertState(field: string, length: int)

  /** `PositionWeight`: the query boost, the field and the term statistics,
      fixed when the weight is built. */
  datatype PositionWeight = PositionWeight(boost: real, field: string, termStats: seq<TermStatistics>)

  /** `computeNorm`: field boost and length are ignored, every norm is 1. */
  function ComputeNorm(state: FieldInvertState): (norm: int)
    ensures norm == 1
  {
    1
  }

  /** `computeWeight`: keeps the boost, the collection's field and the term
      statistics, in order. */
  function ComputeWeight(boost: real, collectionStats: CollectionStatistics, termStats: seq<TermStatistics>): (w: PositionWeight)
    ensures w.boost == boost && w.field == collectionStats.field && w.termStats == termStats
  {
    PositionWeight(boost, collectionStats.field, termStats)
  }

  /** `simScorer`: a new scorer for the weight, with an empty explanation list. */
  method SimScorer(weight: PositionWeight, vectors: TermVectors) returns (scorer: PositionScorer)
    ensures fresh(scorer)
    ensures scorer.weight == weight && scorer.vectors == vectors && scorer.explanations == []
  {
    scorer := new PositionScorer(weight, vectors);
  }

  /** `position(doc, term)`: the decoded payload of the term's first
      occurrence in the weight's field, or DEFAULT_POSITION for every way the
      lookup can fail. */
  function Position(vectors: TermVectors, doc: int, field: string, term: string): (p: Int32)
    ensures var r := vectors(doc, field, term);
      && (r.Payload? ==> p == r.value)
      && (p == DEFAULT_POSITION <==> !r.Payload? || r.value == DEFAULT_POSITION)
  {
    match vectors(doc, field, term)
    case NoTermVector => DEFAULT_POSITION
    case TermMissing => DEFAULT_POSITION
    case NoPayload => DEFAULT_POSITION
    case Unsupported => DEFAULT_POSITION
    case OtherError => DEFAULT_POSITION
    case Payload(v) => v
  }

  /** The value `scoreTerm` computes, boost * 5.0 / (5.0 + p) in floating
      point (no integer overflow): the boost times the decay score. */
  function TermScore(boost: real, p: Int32): (s: real)
    requires p != -HALF_SCORE_POSITION
    ensures s == boost * Decay(p)
  {
    boost * HALF_SCORE_POSITION as real / (HALF_SCORE_POSITION as real + p as real)
  }

  /** The leaf `scoreTerm` appends for one term. */
  function TermLeaf(boost: real, p: Int32): (e: Explanation)
    requires p != -HALF_SCORE_POSITION
    ensures e.matched && e.details == []
    ensures e.value == TermScore(boost, p) && e.description == SimilarityTerm(boost, p)
  {
    Match(TermScore(boost, p), SimilarityTerm(boost, p), [])
  }

  /** Every term of `stats` can be scored in `doc`. */
  predicate AllScorable(vectors: TermVectors, doc: int, field: string, stats: seq<TermStatistics>)
  {
    forall i :: 0 <= i < |stats| ==> Scorable(vectors(doc, field, stats[i].term))
  }

  /** The score of entry `i` of `stats` under the weight's boost and field. */
  function EntryScore(vectors: TermVectors, doc: int, weight: PositionWeight, stats: seq<TermStatistics>, i: nat): real
    requires i < |stats| && AllScorable(vectors, doc, weight.field, stats)
  {
    TermScore(weight.boost, Position(vectors, doc, weight.field, stats[i].term))
  }

  /** The scores of the entries of `stats`, added in index order; an entry
      that appears twice is counted twice. */
  function StatsScore(vectors: TermVectors, doc: int, weight: PositionWeight, stats: seq<TermStatistics>): real
    requires AllScorable(vectors, doc, weight.field, stats)
  {
    if stats == [] then 0.0
    else
      StatsScore(vectors, doc, weight, stats[..|stats| - 1]) + EntryScore(vectors, doc, weight, stats, |stats| - 1)
  }

  /** The leaves one pass of `score` appends, one per entry of `stats`, in
      index order. */
  function StatsLeaves(vectors: TermVectors, doc: int, weight: PositionWeight, stats: seq<TermStatistics>): (es: seq<Explanation>)
    requires AllScorable(vectors, doc, weight.field, stats)
    ensures |es| == |stats|
    ensures forall i :: 0 <= i < |stats| ==>
      es[i] == TermLeaf(weight.boost, Position(vectors, doc, weight.field, stats[i].term))
  {
    if stats == [] then []
    else
      StatsLeaves(vectors, doc, weight, stats[..|stats| - 1])
        + [TermLeaf(weight.boost, Position(vectors, doc, weight.field, stats[|stats| - 1].term))]
  }

  /** The values of one pass's leaves add up to that pass's score. */
  lemma {:induction false} StatsLeavesSum(vectors: TermVectors, doc: int, weight: PositionWeight, stats: seq<TermStatistics>)
    requires AllScorable(vectors, doc, weight.field, stats)
    ensures ValueSum(StatsLeaves(vectors, doc, weight, stats)) == StatsScore(vectors, doc, weight, stats)
    decreases |stats|
  {
    if stats != [] {
      var init := stats[..|stats| - 1];
      var leaves := StatsLeaves(vectors, doc, weight, stats);
      assert leaves[..|leaves| - 1] == StatsLeaves(vectors, doc, weight, init);
      StatsLeavesSum(vectors, doc, weight, init);
    }
  }

  /** The score of concatenated statistics is the sum of the parts' scores. */
  lemma {:induction false} StatsScoreConcat(vectors: TermVectors, doc: int, weight: PositionWeight, xs: seq<TermStatistics>, ys: seq<TermStatistics>)
    requires AllScorable(vectors, doc, weight.field, xs + ys)
    ensures AllScorable(vectors, doc, weight.field, xs) && AllScorable(vectors, doc, weight.field, ys)
    ensures StatsScore(vectors, doc, weight, xs + ys) == StatsScore(vectors, doc, weight, xs) + StatsScore(vectors, doc, weight, ys)
    decreases |ys|
  {
    assert forall i :: 0 <= i < |xs| ==> (xs + ys)[i] == xs[i];
    assert forall i :: 0 <= i < |ys| ==> (xs + ys)[|xs| + i] == ys[i];
    if ys == [] {
      assert xs + ys == xs;
    } else {
      var ys' := ys[..|ys| - 1];
      assert (xs + ys)[..|xs + ys| - 1] == xs + ys';
      StatsScoreConcat(vectors, doc, weight, xs, ys');
    }
  }

  /** Statistics that list the same term twice score it twice. */
  lemma DuplicateEntriesCountTwice(vectors: TermVectors, doc: int, weight: PositionWeight, stats: seq<TermStatistics>)
    requires AllScorable(vectors, doc, weight.field, stats + stats)
    ensures AllScorable(vectors, doc, weight.field, stats)
    ensures StatsScore(vectors, doc, weight, stats + stats) == 2.0 * StatsScore(vectors, doc, weight, stats)
  {
    StatsScoreConcat(vectors, doc, weight, stats, stats);
  }

  /** A failed lookup scores a fifth of the boost, not 0: position 20 is
      substituted into the formula. */
  lemma MissingTermScoresFifthOfBoost(vectors: TermVectors, doc: int, field: string, term: string, boost: real)
    requires !vectors(doc, field, term).Payload?
    ensures TermScore(boost, Position(vectors, doc, field, term)) == boost / 5.0
  {
  }

  class PositionScorer {
    const weight: PositionWeight
    /** The term vectors of the segment (`context.reader()`). */
    const vectors: TermVectors
    /** Every leaf every `scoreTerm` call has built, oldest first; nothing
        empties it. */
    var explanations: seq<Explanation>

    constructor (weight: PositionWeight, vectors: TermVectors)
      ensures this.weight == weight && this.vectors == vectors && explanations == []
    {
      this.weight := weight;
      this.vectors := vectors;
      explanations := [];
    }

    /** `scoreTerm(doc, term)`: the term's score, recorded as one more leaf. */
    method ScoreTerm(doc: int, term: string) returns (termScore: real)
      requires Scorable(vectors(doc, weight.field, term))
      modifies this
      ensures termScore == TermScore(weight.boost, Position(vectors, doc, weight.field, term))
      ensures explanations == old(explanations) + [TermLeaf(weight.boost, Position(vectors, doc, weight.field, term))]
    {
      var termPosition := Position(vectors, doc, weight.field, term);
      termScore := weight.boost * HALF_SCORE_POSITION as real / (HALF_SCORE_POSITION as real + termPosition as real);
      explanations := explanations + [Match(termScore, SimilarityTerm(weight.boost, termPosition), [])];
    }

    /** `score(doc, freq)`: the sum over every entry of the weight's term
        statistics, in index order; `freq` is not used. Appends one leaf per
        entry to the explanation list. */
    method Score(doc: int, freq: real) returns (totalScore: real)
      requires AllScorable(vectors, doc, weight.field, weight.termStats)
      modifies this
      ensures totalScore == StatsScore(vectors, doc, weight, weight.termStats)
      ensures explanations == old(explanations) + StatsLeaves(vectors, doc, weight, weight.termStats)
    {
      var stats := weight.termStats;
      totalScore := 0.0;
      var i := 0;
      while i < |stats|
        invariant 0 <= i <= |stats|
        invariant totalScore == StatsScore(vectors, doc, weight, stats[..i])
        invariant explanations == old(explanations) + StatsLeaves(vectors, doc, weight, stats[..i])
      {
        assert stats[..i + 1][..i] == stats[..i];
        var termScore := ScoreTerm(doc, stats[i].term);
        totalScore := totalScore + termScore;
        i := i + 1;
      }
      assert stats[..i] == stats;
    }

    /** `computeSlopFactor(distance)`: 1/(distance+1), with distance + 1 a
        Java `int` addition that wraps around. It lies in (0, 1] for every
        non-negative distance below INT32_MAX. */
    function ComputeSlopFactor(distance: Int32): (factor: real)
      requires distance != -1
      ensures factor * Wrap32(distance + 1) as real == 1.0
      ensures distance < INT32_MAX ==> factor * (distance + 1) as real == 1.0
      ensures 0 <= distance < INT32_MAX ==> 0.0 < factor <= 1.0
    {
      assert Wrap32(distance + 1) != 0 by {
        if distance == INT32_MAX {
          assert Wrap32(distance + 1) == distance + 1 - TWO_TO_32;
        }
      }
      1.0 / Wrap32(distance + 1) as real
    }

    /** `computePayloadFactor`: payloads never scale the score. */
    function ComputePayloadFactor(doc: int, start: int, end: int, payload: seq<bv8>): (factor: real)
      ensures factor == 1.0
    {
      1.0
    }

    /** `explain(doc, freq)`: runs `score` and then hands over the whole
        explanation list, so the children include the leaves of every earlier
        `score` call on this scorer. */
    method Explain(doc: int, freq: Explanation) returns (e: Explanation)
      requires AllScorable(vectors, doc, weight.field, weight.termStats)
      modifies this
      ensures explanations == old(explanations) + StatsLeaves(vectors, doc, weight, weight.termStats)
      ensures e.matched && e.description == SimilaritySum(doc, freq.value)
      ensures e.value == StatsScore(vectors, doc, weight, weight.termStats)
      ensures e.details == explanations
    {
      var totalScore := Score(doc, freq.value);
      e := Match(totalScore, SimilaritySum(doc, freq.value), explanations);
    }

    /** An explanation whose children are the leaves of this call's `score`
        only, so that they add up to its value. */
    method ExplainThisCall(doc: int, freq: Explanation) returns (e: Explanation)
      requires AllScorable(vectors, doc, weight.field, weight.termStats)
      modifies this
      ensures explanations == old(explanations) + StatsLeaves(vectors, doc, weight, weight.termStats)
      ensures e.matched && e.description == SimilaritySum(doc, freq.value)
      ensures e.value == StatsScore(vectors, doc, weight, weight.termStats)
      ensures e.details == StatsLeaves(vectors, doc, weight, weight.termStats)
      ensures e.value == ValueSum(e.details)
    {
      var start := |explanations|;
      var totalScore := Score(doc, freq.value);
      StatsLeavesSum(vectors, doc, weight, weight.termStats);
      e := Match(totalScore, SimilaritySum(doc, freq.value), explanations[start..]);
    }
  }

  /** At the largest distance, distance + 1 wraps to INT32_MIN and the slop
      factor is negative. */
  lemma OverflowingSlopFactorNegative(scorer: PositionScorer)
    ensures scorer.ComputeSlopFactor(INT32_MAX) < 0.0
    ensures scorer.ComputeSlopFactor(INT32_MAX) * INT32_MIN as real == 1.0
  {
    assert Wrap32(INT32_MAX + 1) == INT32_MIN;
  }

  /** The children `explain` hands over add up to its value plus everything
      earlier `score` calls left in the list, so they agree with the value only
      when those earlier leaves sum to 0. */
  lemma ExplainedChildrenSum(vectors: TermVectors, doc: int, weight: PositionWeight, earlier: seq<Explanation>)
    requires AllScorable(vectors, doc, weight.field, weight.termStats)
    ensures var children := earlier + StatsLeaves(vectors, doc, weight, weight.termStats);
      ValueSum(children) == ValueSum(earlier) + StatsScore(vectors, doc, weight, weight.termStats)
  {
    ValueSumConcat(earlier, StatsLeaves(vectors, doc, weight, weight.termStats));
    StatsLeavesSum(vectors, doc, weight, weight.termStats);
  }

  /** One term at position 0 with boost 1: `score` then `explain` on the same
      scorer gives an explanation of value 1 whose children add up to 2. */
  method ExplainAfterScore() returns (value: real, childrenSum: real)
    ensures value == 1.0 && childrenSum == 2.0
  {
    var weight := ComputeWeight(1.0, CollectionStatistics("title"), [TermStatistics("fox")]);
    var scorer := SimScorer(weight, (doc: int, field: string, term: string) => Payload(0));
    var first := scorer.Score(0, 1.0);
    var e := scorer.Explain(0, Match(1.0, SimilaritySum(0, 1.0), []));
    DecayLandmarks();
    ExplainedChildrenSum(scorer.vectors, 0, weight, StatsLeaves(scorer.vectors, 0, weight, weight.termStats));
    value, childrenSum := e.value, ValueSum(e.details);
  }
}
