/** `PositionMatchScorer`: rescores the documents a wrapped sub-query matches
    by the positions of the sub-query's terms in each document. A term found
    at position p contributes 5/(5+p); a term whose position cannot be read
    contributes 0. */
module MatchScorer {
  import opened Index

  /** The position the lookup reports when it could not read one. */
  const NOT_FOUND_POSITION: Int32 := -1

  /** `position(docID, term)`: the decoded payload of the term's first
      occurrence, or NOT_FOUND_POSITION for every way the lookup can fail. A
      payload that decodes to -1 cannot be told apart from a failure. */
  function Position(vectors: TermVectors, doc: int, term: Term): (p: Int32)
    ensures var r := vectors(doc, term.field, term.text);
      && (r.Payload? ==> p == r.value)
      && (p == NOT_FOUND_POSITION <==> !r.Payload? || r.value == NOT_FOUND_POSITION)
  {
    match vectors(doc, term.field, term.text)
    case NoTermVector => NOT_FOUND_POSITION
    case TermMissing => NOT_FOUND_POSITION
    case NoPayload => NOT_FOUND_POSITION
    case Unsupported => NOT_FOUND_POSITION
    case OtherError => NOT_FOUND_POSITION
    case Payload(v) => v
  }

  /** The formula of `scoreTerm` for a found position, with the Java `int`
      addition HALF_SCORE_POSITION + p wrapping around. Without overflow it is
      exactly the decay score. */
  function PositionScore(p: Int32): (s: real)
    requires p != -HALF_SCORE_POSITION
    ensures p <= INT32_MAX - HALF_SCORE_POSITION ==> s == Decay(p)
    ensures s != 0.0
  {
    assert Wrap32(HALF_SCORE_POSITION + p) != 0 by {
      if p > INT32_MAX - HALF_SCORE_POSITION {
        assert Wrap32(HALF_SCORE_POSITION + p) == HALF_SCORE_POSITION + p - TWO_TO_32;
      }
    }
    HALF_SCORE_POSITION as real / Wrap32(HALF_SCORE_POSITION + p) as real
  }

  /** The addition overflows for the largest payloads, and the score then
      turns negative. */
  lemma OverflowingPositionScoresNegative(p: Int32)
    requires p > INT32_MAX - HALF_SCORE_POSITION
    ensures PositionScore(p) < 0.0
  {
    assert Wrap32(HALF_SCORE_POSITION + p) == HALF_SCORE_POSITION + p - TWO_TO_32;
  }

  /** The lookup outcome `scoreTerm` and `explainTerm` act on. */
  function Lookup(vectors: TermVectors, doc: int, term: Term): LookupResult
  {
    vectors(doc, term.field, term.text)
  }

  /** `scoreTerm(docID, term)`: 0 exactly when the position is not found;
      otherwise the decay score, which for positions 0..INT32_MAX-5 lies in (0, 1]. */
  function ScoreTerm(vectors: TermVectors, doc: int, term: Term): (s: real)
    requires Scorable(Lookup(vectors, doc, term))
    ensures s == 0.0 <==> Position(vectors, doc, term) == NOT_FOUND_POSITION
    ensures var p := Position(vectors, doc, term);
      0 <= p <= INT32_MAX - HALF_SCORE_POSITION ==> s == Decay(p) && 0.0 < s <= 1.0
  {
    var p := Position(vectors, doc, term);
    if p != NOT_FOUND_POSITION then PositionScore(p) else 0.0
  }

  /** `explainTerm(docID, term)`: a no-match leaf for a position not found,
      else a matching leaf that records the position; its value is always the
      term's score. */
  function ExplainTerm(vectors: TermVectors, doc: int, term: Term): (e: Explanation)
    requires Scorable(Lookup(vectors, doc, term))
    ensures e.value == ScoreTerm(vectors, doc, term)
    ensures e.matched <==> Position(vectors, doc, term) != NOT_FOUND_POSITION
    ensures e.details == []
    ensures e.matched ==> e.description == TermMatch(term.field, term.text, Position(vectors, doc, term))
    ensures !e.matched ==> e.description == TermNoMatch(term.field, term.text)
  {
    var p := Position(vectors, doc, term);
    if p == NOT_FOUND_POSITION then
      NoMatch(TermNoMatch(term.field, term.text))
    else
      Match(PositionScore(p), TermMatch(term.field, term.text, p), [])
  }

  predicate AllScorable(vectors: TermVectors, doc: int, terms: set<Term>)
  {
    forall t :: t in terms ==> Scorable(Lookup(vectors, doc, t))
  }

  /** The score of a document over a set of terms: the sum of the terms'
      scores, each term once, in no particular order. */
  ghost function TermSetScore(vectors: TermVectors, doc: int, terms: set<Term>): real
    requires AllScorable(vectors, doc, terms)
    decreases terms
  {
    if terms == {} then 0.0
    else
      var t :| t in terms;
      ScoreTerm(vectors, doc, t) + TermSetScore(vectors, doc, terms - {t})
  }

  /** Any term of the set can be taken out first: the sum does not depend on
      the order in which a `HashSet` hands out its terms. */
  lemma {:induction false} TermSetScoreRemove(vectors: TermVectors, doc: int, terms: set<Term>, t: Term)
    requires AllScorable(vectors, doc, terms) && t in terms
    ensures TermSetScore(vectors, doc, terms) == ScoreTerm(vectors, doc, t) + TermSetScore(vectors, doc, terms - {t})
    decreases terms
  {
    var u :| u in terms && TermSetScore(vectors, doc, terms) == ScoreTerm(vectors, doc, u) + TermSetScore(vectors, doc, terms - {u});
    if u != t {
      TermSetScoreRemove(vectors, doc, terms - {u}, t);
      TermSetScoreRemove(vectors, doc, terms - {t}, u);
      assert terms - {u} - {t} == terms - {t} - {u};
    }
  }

  /** With every found position in 0..INT32_MAX-5, the score of a set of terms
      lies between 0 and the number of terms. */
  lemma {:induction false} TermSetScoreBounds(vectors: TermVectors, doc: int, terms: set<Term>)
    requires AllScorable(vectors, doc, terms)
    requires forall t :: t in terms ==> -1 <= Position(vectors, doc, t) <= INT32_MAX - HALF_SCORE_POSITION
    ensures 0.0 <= TermSetScore(vectors, doc, terms) <= |terms| as real
    decreases terms
  {
    if terms != {} {
      var t :| t in terms;
      TermSetScoreRemove(vectors, doc, terms, t);
      TermSetScoreBounds(vectors, doc, terms - {t});
    }
  }

  /** A term set whose every term is missing scores 0. */
  lemma {:induction false} AllMissingScoresZero(vectors: TermVectors, doc: int, terms: set<Term>)
    requires forall t :: t in terms ==> !Lookup(vectors, doc, t).Payload?
    ensures AllScorable(vectors, doc, terms)
    ensures TermSetScore(vectors, doc, terms) == 0.0
    decreases terms
  {
    if terms != {} {
      var t :| t in terms;
      TermSetScoreRemove(vectors, doc, terms, t);
      AllMissingScoresZero(vectors, doc, terms - {t});
    }
  }

  predicate Distinct(order: seq<Term>)
  {
    forall i, j :: 0 <= i < j < |order| ==> order[i] != order[j]
  }

  /** `order` lists every term of `terms` exactly once. */
  predicate Enumerates(order: seq<Term>, terms: set<Term>)
  {
    && Distinct(order)
    && (forall t :: t in order ==> t in terms)
    && (forall t :: t in terms ==> t in order)
  }

  /** The explanation leaves of the terms, in the given order. */
  function Leaves(vectors: TermVectors, doc: int, order: seq<Term>): (es: seq<Explanation>)
    requires forall t :: t in order ==> Scorable(Lookup(vectors, doc, t))
    ensures |es| == |order|
    ensures forall i :: 0 <= i < |order| ==> es[i] == ExplainTerm(vectors, doc, order[i])
  {
    if order == [] then []
    else Leaves(vectors, doc, order[..|order| - 1]) + [ExplainTerm(vectors, doc, order[|order| - 1])]
  }

  /** However the set is enumerated, the leaves' values add up to the set's
      score, and there is one leaf per term. */
  lemma {:induction false} EnumerationScore(vectors: TermVectors, doc: int, order: seq<Term>, terms: set<Term>)
    requires Enumerates(order, terms) && AllScorable(vectors, doc, terms)
    ensures ValueSum(Leaves(vectors, doc, order)) == TermSetScore(vectors, doc, terms)
    ensures |terms| == |order|
    decreases |order|
  {
    if order == [] {
      assert forall t :: t in terms ==> t in order;
      assert terms == {};
    } else {
      var last, init := order[|order| - 1], order[..|order| - 1];
      EnumerationInit(order, terms);
      EnumerationScore(vectors, doc, init, terms - {last});
      TermSetScoreRemove(vectors, doc, terms, last);
      var leaves := Leaves(vectors, doc, order);
      assert leaves[..|order| - 1] == Leaves(vectors, doc, init);
      assert ValueSum(leaves) == ValueSum(Leaves(vectors, doc, init)) + ScoreTerm(vectors, doc, last);
    }
  }

  /** Dropping the last term of an enumeration enumerates the rest of the set. */
  lemma EnumerationInit(order: seq<Term>, terms: set<Term>)
    requires Enumerates(order, terms) && order != []
    ensures order[|order| - 1] in terms
    ensures Enumerates(order[..|order| - 1], terms - {order[|order| - 1]})
  {
    var last, init := order[|order| - 1], order[..|order| - 1];
    assert last in order;
    forall t | t in terms - {last} ensures t in init {
      assert t in order;
      var i :| 0 <= i < |order| && order[i] == t;
      assert init[i] == t;
    }
    forall t | t in init ensures t in terms - {last} {
      var i :| 0 <= i < |init| && init[i] == t;
      assert order[i] == t && order[|order| - 1] == last;
    }
  }

  /** Two distinct terms found at positions 0 and 5 give the document 1 + 1/2. */
  lemma TwoTermScenario(vectors: TermVectors, doc: int, fox: Term, dog: Term)
    requires fox != dog
    requires Lookup(vectors, doc, fox) == Payload(0) && Lookup(vectors, doc, dog) == Payload(5)
    ensures AllScorable(vectors, doc, {fox, dog})
    ensures TermSetScore(vectors, doc, {fox, dog}) == 1.5
  {
    DecayLandmarks();
    TermSetScoreRemove(vectors, doc, {fox, dog}, fox);
    assert {fox, dog} - {fox} == {dog};
    TermSetScoreRemove(vectors, doc, {dog}, dog);
    assert {dog} - {dog} == {};
  }

  /** The iterator of the wrapped sub-query's scorer: it enumerates the
      documents the sub-query matches. */
  class DocIdSetIterator {
    const docs: set<int>

    constructor (docs: set<int>)
      ensures this.docs == docs
    {
      this.docs := docs;
    }
  }

  /** The wrapped sub-query's own scorer: its iterator, the document it is
      positioned on, and its score bounds (`getMaxScore(upTo)`). */
  class SubScorer {
    const docIterator: DocIdSetIterator
    const maxScore: int -> real
    var docID: int

    constructor (docIterator: DocIdSetIterator, maxScore: int -> real, docID: int)
      ensures this.docIterator == docIterator && this.maxScore == maxScore && this.docID == docID
    {
      this.docIterator := docIterator;
      this.maxScore := maxScore;
      this.docID := docID;
    }
  }

  class PositionMatchScorer {
    /** The wrapped sub-query's scorer (`weight.weight.scorer(context)`). */
    const scorer: SubScorer
    /** The terms the wrapped weight's `extractTerms` adds, in the order it
        adds them; a term may be added more than once. */
    const weightTerms: seq<Term>
    /** The term vectors of the segment (`context.reader()`). */
    const vectors: TermVectors

    constructor (scorer: SubScorer, weightTerms: seq<Term>, vectors: TermVectors)
      ensures this.scorer == scorer && this.weightTerms == weightTerms && this.vectors == vectors
    {
      this.scorer := scorer;
      this.weightTerms := weightTerms;
      this.vectors := vectors;
    }

    /** The `HashSet` that `extractTerms` fills: every extracted term, once. */
    function Terms(): (terms: set<Term>)
      ensures forall t :: t in terms <==> t in weightTerms
    {
      set t | t in weightTerms
    }

    /** `iterator()`: the wrapped scorer's iterator, so exactly the documents
        the sub-query matches are scored. */
    method Iterator() returns (it: DocIdSetIterator)
      ensures it == scorer.docIterator && it.docs == scorer.docIterator.docs
    {
      it := scorer.docIterator;
    }

    /** `getMaxScore(upTo)`: the wrapped scorer's bound, unchanged. */
    method GetMaxScore(upTo: int) returns (m: real)
      ensures m == scorer.maxScore(upTo)
    {
      m := scorer.maxScore(upTo);
    }

    /** `docID()`: the wrapped scorer's current document. */
    function DocID(): (doc: int)
      reads scorer
      ensures doc == scorer.docID
    {
      scorer.docID
    }

    /** `score()`: the sum of the term scores over the distinct extracted
        terms, for the current document, whatever order the set is visited in. */
    method Score() returns (totalScore: real)
      requires AllScorable(vectors, DocID(), Terms())
      ensures totalScore == TermSetScore(vectors, DocID(), Terms())
    {
      var doc := DocID();
      totalScore := 0.0;
      var terms := Terms();
      var remaining := terms;
      while remaining != {}
        invariant remaining <= terms
        invariant totalScore + TermSetScore(vectors, doc, remaining) == TermSetScore(vectors, doc, terms)
        decreases remaining
      {
        var term :| term in remaining;
        TermSetScoreRemove(vectors, doc, remaining, term);
        totalScore := totalScore + ScoreTerm(vectors, doc, term);
        remaining := remaining - {term};
      }
    }

    /** `explain(docID)`: one leaf per distinct extracted term, in the order
        the set is visited, under a matching node whose value is the sum of the
        leaves and equals the document's score. */
    method Explain(docID: int) returns (e: Explanation)
      requires AllScorable(vectors, docID, Terms())
      ensures e.matched && e.description == ScorerSum(docID)
      ensures e.value == ValueSum(e.details)
      ensures e.value == TermSetScore(vectors, docID, Terms())
      ensures |e.details| == |Terms()|
      ensures exists order :: Enumerates(order, Terms()) && e.details == Leaves(vectors, docID, order)
    {
      var explanations: seq<Explanation> := [];
      var totalScore := 0.0;
      var terms := Terms();
      var remaining := terms;
      ghost var order: seq<Term> := [];
      while remaining != {}
        invariant remaining <= terms
        invariant Distinct(order)
        invariant forall t :: t in order <==> t in terms && t !in remaining
        invariant explanations == Leaves(vectors, docID, order)
        invariant totalScore == ValueSum(explanations)
        decreases remaining
      {
        var term :| term in remaining;
        var termExplanation := ExplainTerm(vectors, docID, term);
        explanations := explanations + [termExplanation];
        totalScore := totalScore + termExplanation.value;
        order := order + [term];
        remaining := remaining - {term};
      }
      EnumerationScore(vectors, docID, order, terms);
      e := Match(totalScore, ScorerSum(docID), explanations);
    }
  }
}
