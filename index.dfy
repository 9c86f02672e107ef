/** The collaborators both scoring variants share: Java's 32-bit `int`, the
    term-vector lookup that Lucene performs for one (document, field, term),
    the position-decay formula, and Lucene's `Explanation` tree. */
module Index {

  const INT32_MIN: int := -0x8000_0000
  const INT32_MAX: int := 0x7fff_ffff
  const TWO_TO_32: int := 0x1_0000_0000

  /** A Java `int`. */
  type Int32 = x: int | -0x8000_0000 <= x <= 0x7fff_ffff

  /** Two's-complement wrap-around of Java `int` arithmetic. */
  function Wrap32(x: int): (r: Int32)
    ensures (x - r) % TWO_TO_32 == 0
    ensures INT32_MIN <= x <= INT32_MAX ==> r == x
  {
    var m := x % TWO_TO_32;
    if m <= INT32_MAX then m else m - TWO_TO_32
  }

  /** Wrap32 depends only on the residue of its argument modulo 2^32. */
  lemma Wrap32Congruent(x: int, y: int)
    requires (x - y) % TWO_TO_32 == 0
    ensures Wrap32(x) == Wrap32(y)
  {
    var k := (x - y) / TWO_TO_32;
    assert x == y + k * TWO_TO_32;
    assert x % TWO_TO_32 == y % TWO_TO_32;
  }

  /** A Lucene `Term`: the field it belongs to and its text (the term bytes). */
  datatype Term = Term(field: string, text: string)

  /** What reading "the payload of the term's first position" in a document's
      term vector can come to: each way the lookup can fail, or the int that
      `PayloadHelper.decodeInt` decodes from the payload. */
  datatype LookupResult =
    | NoTermVector            // getTermVector returned null
    | TermMissing             // seekExact found no such term
    | NoPayload               // the first position carries no payload
    | Unsupported             // an UnsupportedOperationException was thrown
    | OtherError              // any other exception was thrown
    | Payload(value: Int32)

  /** The index reader's term vectors: document, field and term to the lookup outcome. */
  type TermVectors = (int, string, string) -> LookupResult

  /** The position at which the decay score is one half. */
  const HALF_SCORE_POSITION: int := 5

  /** A lookup outcome whose position keeps the decay formula's denominator
      away from zero (Java would produce an infinite or NaN float there). */
  predicate Scorable(r: LookupResult) {
    r.Payload? ==> r.value != -HALF_SCORE_POSITION
  }

  /** The position-decay score H / (H + p), with H = HALF_SCORE_POSITION. */
  function Decay(p: int): (s: real)
    requires p != -HALF_SCORE_POSITION
    ensures s * (HALF_SCORE_POSITION + p) as real == HALF_SCORE_POSITION as real
    ensures p >= 0 ==> 0.0 < s <= 1.0
  {
    HALF_SCORE_POSITION as real / (HALF_SCORE_POSITION + p) as real
  }

  /** The decay is 1 at the first position and 1/2 at the half-score position. */
  lemma DecayLandmarks()
    ensures Decay(0) == 1.0
    ensures Decay(HALF_SCORE_POSITION) == 0.5
  {
  }

  /** The decay strictly decreases as the position grows. */
  lemma DecayStrictlyDecreasing(p: int, q: int)
    requires 0 <= p < q
    ensures Decay(q) < Decay(p)
  {
    var a, b := (HALF_SCORE_POSITION + p) as real, (HALF_SCORE_POSITION + q) as real;
    var x, y := Decay(q), Decay(p);
    // x * b == H == y * a < y * b, so x < y
    var xb, ya, yb := x * b, y * a, y * b;
    assert xb == ya;
    MultiplyStrictlyMonotone(b, a, y);
    assert ya < yb;
    MultiplyCancel(x, y, b);
  }

  lemma MultiplyStrictlyMonotone(x: real, y: real, c: real)
    requires x > y && c > 0.0
    ensures c * x > c * y
  {
  }

  lemma MultiplyCancel(x: real, y: real, c: real)
    requires x * c < y * c && c > 0.0
    ensures x < y
  {
  }

  /** The descriptions Lucene prints for each kind of explanation node; each
      variant carries the values its format string fills in. */
  datatype Description =
    | ScorerSum(doc: int)                                // "score(doc=%d), sum of:"
    | TermMatch(field: string, text: string, pos: int)   // "score(field=, term=, pos=, func=5/(5+pos))"
    | TermNoMatch(field: string, text: string)           // "no matching terms for field=, term="
    | SimilarityTerm(boost: real, pos: int)              // "score(boost=, pos=, func=boost*5.0/(5.0+pos))"
    | SimilaritySum(doc: int, freq: real)                // "position score(doc=, freq=), sum of:"

  /** Lucene's `Explanation`: whether it matched, its value, its description
      and its child explanations (copied when the node is built). */
  datatype Explanation = Explanation(matched: bool, value: real, description: Description, details: seq<Explanation>)

  /** `Explanation.match(value, description, details)`. */
  function Match(value: real, description: Description, details: seq<Explanation>): (e: Explanation)
    ensures e.matched && e.value == value && e.description == description && e.details == details
  {
    Explanation(true, value, description, details)
  }

  /** `Explanation.noMatch(description)`: a non-matching leaf of value 0. */
  function NoMatch(description: Description): (e: Explanation)
    ensures !e.matched && e.value == 0.0 && e.description == description && e.details == []
  {
    Explanation(false, 0.0, description, [])
  }

  /** The sum of the values of a list of explanations, added left to right. */
  function ValueSum(es: seq<Explanation>): real
  {
    if es == [] then 0.0 else ValueSum(es[..|es| - 1]) + es[|es| - 1].value
  }

  lemma {:induction false} ValueSumConcat(a: seq<Explanation>, b: seq<Explanation>)
    ensures ValueSum(a + b) == ValueSum(a) + ValueSum(b)
    decreases |b|
  {
    if b == [] {
      assert a + b == a;
    } else {
      var b' := b[..|b| - 1];
      assert (a + b)[..|a + b| - 1] == a + b';
      ValueSumConcat(a, b');
    }
  }
}
