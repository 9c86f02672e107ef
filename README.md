# Position-decay scoring, modelled in Dafny

This project models the scoring core of an Elasticsearch plugin that ranks
documents by how early the query's terms occur in a field. Each term's
position comes from the payload of its first occurrence in the document's
term vector. A term at position p scores 5/(5+p): 1 at position 0, 1/2 at the
half-score position 5, and closer to 0 the later it occurs.

The core comes in two variants and a query wrapper:

- `PositionMatchScorer` (module `MatchScorer`, `match_scorer.dfy`) wraps the
  scorer of a sub-query. It keeps the sub-query's matching documents and
  replaces their score with the sum of the term scores over the distinct
  extracted terms. A term whose position cannot be read scores 0. Its
  explanation has one leaf per term and a total equal to the score.
- `PositionSimilarity.PositionScorer` (module `Similarity`, `similarity.dfy`)
  is the similarity variant. For every entry of the weight's term statistics
  it adds boost·5/(5+p). A failed lookup is scored as if at position 20. Term
  frequency is ignored. Every score call appends its leaves to an explanation
  list that is never cleared.
- `PositionMatchQuery` (module `MatchQuery`, `match_query.dfy`) is the query
  that installs the wrapper scorer: rewrite, equality, hash, rendering and
  weight creation.

Module `Index` (`index.dfy`) holds what both variants share:
- the abstract term-vector lookup `TermVectors`: (doc, field, term) maps to a
  `LookupResult`, which is one of the failure cases or `Payload(int)`;
- Java 32-bit `int` wrap-around;
- the decay formula `Decay`;
- Lucene's `Explanation` tree.

Scores are `real`. The wrapper scorer adds 5 + p in Java `int`, so that
addition wraps around. For the largest payloads (p > 2^31 - 6) the wrapper's
score is negative (`OverflowingPositionScoresNegative`). Its bounds and
monotonicity are proved for 0 <= p <= 2^31 - 6. The similarity's term score
adds 5.0 + p in floating point, so it has no such wrap-around. Its slop factor
does add distance + 1 in Java `int`: at distance 2^31 - 1 the sum wraps to
-2^31 and the factor is negative (`OverflowingSlopFactorNegative`).

The code has no two-phase query normalisation: the boost arrives once,
through `computeWeight`, and is stored unchanged.

## Model

| member | source | states |
|---|---|---|
| Index.Decay | src/main/java/org/elasticsearch/index/query/PositionMatchScorer.java:84 | the decay score times 5 + p is 5; for p >= 0 it lies in (0, 1] |
| Index.DecayLandmarks | src/main/java/org/elasticsearch/index/query/PositionMatchScorer.java:19 | the decay is 1 at position 0 and 1/2 at the half-score position 5 |
| Index.DecayStrictlyDecreasing | src/main/java/org/elasticsearch/index/query/PositionMatchScorer.java:84 | for 0 <= p < q the decay at q is strictly below the decay at p |
| Index.Wrap32 | src/main/java/org/elasticsearch/index/query/PositionMatchScorer.java:84 | the result is a Java int congruent to the argument modulo 2^32, and equals it when it is in range |
| MatchScorer.Position | src/main/java/org/elasticsearch/index/query/PositionMatchScorer.java:104-131 | a decoded payload is returned as is; the result is -1 exactly when the lookup failed in any of its five ways or the payload is -1 |
| MatchScorer.PositionScore | src/main/java/org/elasticsearch/index/query/PositionMatchScorer.java:84 | the found-position formula with int addition is never 0, and it equals the decay when 5 + p does not overflow |
| MatchScorer.OverflowingPositionScoresNegative | src/main/java/org/elasticsearch/index/query/PositionMatchScorer.java:84 | a payload above 2^31 - 6 makes 5 + p wrap, and the term score is negative |
| MatchScorer.ScoreTerm | src/main/java/org/elasticsearch/index/query/PositionMatchScorer.java:81-86 | the term score is 0 exactly when the position is not found; for positions 0..2^31-6 it is the decay, in (0, 1] |
| MatchScorer.ExplainTerm | src/main/java/org/elasticsearch/index/query/PositionMatchScorer.java:88-102 | the leaf's value equals the term score; it is a match exactly when the position is found, recording field, term and position, else a no-match leaf for field and term |
| MatchScorer.TermSetScoreRemove | src/main/java/org/elasticsearch/index/query/PositionMatchScorer.java:45-50 | any term can be taken out of the set first, so the score does not depend on the set's iteration order |
| MatchScorer.TermSetScoreBounds | src/main/java/org/elasticsearch/index/query/PositionMatchScorer.java:41-53 | with positions in -1..2^31-6, a document's score lies between 0 and the number of distinct terms |
| MatchScorer.AllMissingScoresZero | src/main/java/org/elasticsearch/index/query/PositionMatchScorer.java:41-53 | when every lookup fails the score is 0, and scoring never fails |
| MatchScorer.EnumerationScore | src/main/java/org/elasticsearch/index/query/PositionMatchScorer.java:63-67 | for any duplicate-free listing of the term set, the leaves' values add up to the set's score and there is one leaf per term |
| MatchScorer.TwoTermScenario | src/main/java/org/elasticsearch/index/query/PositionMatchScorer.java:41-53 | two distinct terms at positions 0 and 5 make the score 1.5 |
| MatchScorer.PositionMatchScorer.constructor | src/main/java/org/elasticsearch/index/query/PositionMatchScorer.java:24-28 | the scorer keeps the wrapped scorer, the weight's extracted terms and the segment's term vectors |
| MatchScorer.PositionMatchScorer.Terms | src/main/java/org/elasticsearch/index/query/PositionMatchScorer.java:45-46 | the HashSet holds exactly the extracted terms, each once |
| MatchScorer.PositionMatchScorer.Iterator | src/main/java/org/elasticsearch/index/query/PositionMatchScorer.java:30-33 | the iterator is the wrapped scorer's, so the same documents match |
| MatchScorer.PositionMatchScorer.GetMaxScore | src/main/java/org/elasticsearch/index/query/PositionMatchScorer.java:35-38 | the bound is the wrapped scorer's bound for the same argument |
| MatchScorer.PositionMatchScorer.DocID | src/main/java/org/elasticsearch/index/query/PositionMatchScorer.java:76-79 | the current document is the wrapped scorer's |
| MatchScorer.PositionMatchScorer.Score | src/main/java/org/elasticsearch/index/query/PositionMatchScorer.java:40-53 | whatever order the loop visits the set in, the result is the sum of the term scores over the distinct extracted terms for the current document |
| MatchScorer.PositionMatchScorer.Explain | src/main/java/org/elasticsearch/index/query/PositionMatchScorer.java:55-74 | a matching node with one leaf per distinct term, listed in some enumeration of the set; its value is the sum of the leaves and equals the score of that document |
| Similarity.ComputeNorm | src/main/java/org/elasticsearch/index/similarity/PositionSimilarity.java:37-40 | every norm is 1 |
| Similarity.ComputeWeight | src/main/java/org/elasticsearch/index/similarity/PositionSimilarity.java:42-44 | the weight keeps the boost, the collection's field and the term statistics in order |
| Similarity.SimScorer | src/main/java/org/elasticsearch/index/similarity/PositionSimilarity.java:46-49 | a fresh scorer over the weight and the segment, with an empty explanation list |
| Similarity.Position | src/main/java/org/elasticsearch/index/similarity/PositionSimilarity.java:106-140 | a decoded payload is returned as is; the result is 20 exactly when the lookup failed in any of its five ways or the payload is 20 |
| Similarity.TermScore | src/main/java/org/elasticsearch/index/similarity/PositionSimilarity.java:90-93 | the term score is the boost times the decay of the position |
| Similarity.TermLeaf | src/main/java/org/elasticsearch/index/similarity/PositionSimilarity.java:95-101 | the appended leaf always matches, carries the term score as value and records boost and position |
| Similarity.StatsLeaves | src/main/java/org/elasticsearch/index/similarity/PositionSimilarity.java:80-88 | one pass appends one leaf per statistics entry, in index order |
| Similarity.StatsLeavesSum | src/main/java/org/elasticsearch/index/similarity/PositionSimilarity.java:80-103 | the leaves one pass appends add up to that pass's score |
| Similarity.StatsScoreConcat | src/main/java/org/elasticsearch/index/similarity/PositionSimilarity.java:80-88 | the score over concatenated statistics is the sum of the two parts' scores |
| Similarity.DuplicateEntriesCountTwice | src/main/java/org/elasticsearch/index/similarity/PositionSimilarity.java:80-88 | statistics listed twice score twice as much: entries are not deduplicated |
| Similarity.MissingTermScoresFifthOfBoost | src/main/java/org/elasticsearch/index/similarity/PositionSimilarity.java:106-139 | a failed lookup scores boost/5, not 0 |
| Similarity.PositionScorer.constructor | src/main/java/org/elasticsearch/index/similarity/PositionSimilarity.java:63-71 | a new scorer starts with an empty explanation list |
| Similarity.PositionScorer.ScoreTerm | src/main/java/org/elasticsearch/index/similarity/PositionSimilarity.java:90-104 | returns boost times the decay of the term's position and appends exactly one leaf with that value |
| Similarity.PositionScorer.Score | src/main/java/org/elasticsearch/index/similarity/PositionSimilarity.java:80-88 | the result is the sum over every statistics entry in index order and does not depend on freq; the list grows by exactly that pass's leaves |
| Similarity.PositionScorer.ComputeSlopFactor | src/main/java/org/elasticsearch/index/similarity/PositionSimilarity.java:142-144 | the factor times the wrapped int distance + 1 is 1; below INT32_MAX that is distance + 1 itself, and for 0 <= distance < INT32_MAX the factor lies in (0, 1] |
| Similarity.OverflowingSlopFactorNegative | src/main/java/org/elasticsearch/index/similarity/PositionSimilarity.java:143 | at distance INT32_MAX the int sum wraps to INT32_MIN and the factor is 1/INT32_MIN, negative |
| Similarity.PositionScorer.ComputePayloadFactor | src/main/java/org/elasticsearch/index/similarity/PositionSimilarity.java:146-148 | the payload factor is always 1 |
| Similarity.PositionScorer.Explain | src/main/java/org/elasticsearch/index/similarity/PositionSimilarity.java:150-156 | runs a score pass; the value is that pass's score and the children are the whole accumulated list, earlier passes included |
| Similarity.PositionScorer.ExplainThisCall | src/main/java/org/elasticsearch/index/similarity/PositionSimilarity.java:150-156 | corrected explain: the children are this pass's leaves only, and they add up to the value |
| Similarity.ExplainedChildrenSum | src/main/java/org/elasticsearch/index/similarity/PositionSimilarity.java:150-156 | the children explain hands over add up to its value plus whatever earlier passes left in the list |
| Similarity.ExplainAfterScore | src/main/java/org/elasticsearch/index/similarity/PositionSimilarity.java:150-156 | one term at position 0, boost 1: calling score and then explain on one scorer gives value 1 with children adding up to 2 |
| MatchQuery.Rewrite | src/main/java/org/elasticsearch/index/query/PositionMatchQuery.java:35-42 | a new wrapper around the rewritten sub-query exactly when the sub-query's rewrite returns another object, else the same wrapper |
| MatchQuery.RewriteLoopWraps | src/main/java/org/elasticsearch/index/query/PositionMatchQuery.java:35-42 | rewriting the wrapper repeatedly wraps the sub-query's repeated rewrite, step for step |
| MatchQuery.RewriteFixpoint | src/main/java/org/elasticsearch/index/query/PositionMatchQuery.java:41 | around an already rewritten sub-query the wrapper is a fixpoint of rewriting |
| MatchQuery.ToString | src/main/java/org/elasticsearch/index/query/PositionMatchQuery.java:44-47 | the rendering is NAME ("position_match", line 27), "(", the sub-query's rendering, then ")" |
| MatchQuery.ToStringInjective | src/main/java/org/elasticsearch/index/query/PositionMatchQuery.java:44-47 | two wrappers render alike only if their sub-queries render alike |
| MatchQuery.SameClassAs | src/main/java/org/elasticsearch/index/query/PositionMatchQuery.java:57 | true exactly for a non-null position-match query |
| MatchQuery.Equals | src/main/java/org/elasticsearch/index/query/PositionMatchQuery.java:55-62 | equal exactly when the other object is a position-match query and the sub-query's own equals accepts its sub-query |
| MatchQuery.EqualsIsEquivalence | src/main/java/org/elasticsearch/index/query/PositionMatchQuery.java:55-62 | if the sub-query's equals is an equivalence, the wrapper's equals is reflexive, symmetric and transitive |
| MatchQuery.HashCode | src/main/java/org/elasticsearch/index/query/PositionMatchQuery.java:64-67 | the hash is 31*(31 + classHash) + subHash in wrapping 32-bit arithmetic |
| MatchQuery.EqualWrappersHashAlike | src/main/java/org/elasticsearch/index/query/PositionMatchQuery.java:55-67 | if the sub-query's hash agrees with its equals, equal wrappers have equal hashes |
| MatchQuery.HashDeterminedBySubHash | src/main/java/org/elasticsearch/index/query/PositionMatchQuery.java:64-67 | with the class hash fixed, two wrappers hash alike exactly when their sub-queries hash alike |
| MatchQuery.CreateWeight | src/main/java/org/elasticsearch/index/query/PositionMatchQuery.java:49-53 | the sub-query's weight is created with complete scoring and the caller's boost, and the weight keeps the sub-query |
| MatchQuery.CreateWeightIgnoresScoreMode | src/main/java/org/elasticsearch/index/query/PositionMatchQuery.java:49-53 | the caller's score mode makes no difference to the weight |

## Findings

| source | as written | input that shows it | evidently intended | confidence | as-written member | corrected member |
|---|---|---|---|---|---|---|
| src/main/java/org/elasticsearch/index/similarity/PositionSimilarity.java:150-156 | `explain` passes the scorer's whole explanation list as children, and that list holds the leaves of every earlier `score` call | one term at position 0, boost 1: `score(0, 1)` then `explain(0, freq)` on the same scorer gives value 1 with two children of value 1 each (`Similarity.ExplainAfterScore`, `Similarity.ExplainedChildrenSum`) | the children are this call's leaves only and add up to the value, as "sum of:" says | medium; not executed | Similarity.PositionScorer.Explain | Similarity.PositionScorer.ExplainThisCall |

## Left out

- Lucene storage access is not modelled: `getTermVector`, `seekExact`, postings and `PayloadHelper.decodeInt`. It is the total function `TermVectors`, whose `LookupResult` names the step that failed or carries the decoded int.
- Float rounding, overflow and NaN: scores are `real`.
- MatchScorer.ScoreTerm: requires that no looked-up payload is -5. The denominator is then 0 and Java yields an infinite or NaN float, which `real` cannot express.
- MatchScorer.ExplainTerm: requires that no looked-up payload is -5. The denominator is then 0 and Java yields an infinite or NaN float, which `real` cannot express.
- MatchScorer.PositionMatchScorer.Score: requires that no looked-up payload is -5. The denominator is then 0 and Java yields an infinite or NaN float, which `real` cannot express.
- MatchScorer.PositionMatchScorer.Explain: requires that no looked-up payload is -5. The denominator is then 0 and Java yields an infinite or NaN float, which `real` cannot express.
- Similarity.TermScore: requires that no looked-up payload is -5. The denominator is then 0 and Java yields an infinite or NaN float, which `real` cannot express.
- Similarity.PositionScorer.ScoreTerm: requires that no looked-up payload is -5. The denominator is then 0 and Java yields an infinite or NaN float, which `real` cannot express.
- Similarity.PositionScorer.Score: requires that no looked-up payload is -5. The denominator is then 0 and Java yields an infinite or NaN float, which `real` cannot express.
- Similarity.PositionScorer.Explain: requires that no looked-up payload is -5. The denominator is then 0 and Java yields an infinite or NaN float, which `real` cannot express.
- Similarity.PositionScorer.ComputeSlopFactor: requires distance != -1. Java returns an infinite float there.
- Logging: the `LogManager` calls do not affect results.
- The formatted description strings are not modelled. Each explanation carries a `Description` value holding what its format string fills in (document, field, term, position, boost, freq). Float-to-string rendering is out of scope.
- The term statistics array is never written, so it is a `seq`. `PositionWeight` is never mutated after construction, so it is a datatype.
- The `PositionSimilarity` constructor ignores its settings, version and script service, and the class has no state. Its members are module-level functions and a method.
- `PositionSimilarityProvider` calls a one-argument `PositionSimilarity(settings)` constructor that the class does not declare. The provider and the plugin are registration wiring and are not modelled.
- `PositionMatchWeight` is not modelled beyond its extracted terms. It forwards `extractTerms`, and `isCacheable` always returns false. The extracted terms are the scorer's `weightTerms` input.
- `PositionMatchQueryBuilder` is not modelled: it is XContent parsing and stream serialisation done by the host. Its one local check, the exception for a missing inner query, is not modelled either.
- Sub-query behaviour is passed in as functions: rewrite, rendering, hash code and weight creation. The searcher argument of `createWeight` is left to the sub-query's weight function. Sub-query equality is the parameter `subEquals`; its equivalence and its agreement with the sub-query's hash are hypotheses of the lemmas that need them.
- Java object identity in `rewrite` is the `RewriteResult` outcome: `Same` when the very object comes back. The searcher's repeated rewriting (`MatchQuery.RewriteLoop`) is bounded by fuel.
- The wrapped scorer is taken to exist. Lucene's `Weight.scorer` may return null for a segment with no match, the constructor stores that unchecked, and `iterator()` would then throw a NullPointerException; the model's constructor takes a non-null `SubScorer`, so that path is not modelled.
- The wrapped scorer's iterator is not modelled as advancing. Only its identity and its set of matching documents are kept.
- Per-segment threading and host scheduling are not modelled.
