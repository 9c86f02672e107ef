/** `PositionMatchQuery`: the query that wraps a sub-query so that the
    documents it matches are rescored by term position. `Q` is the type of
    the sub-query; its own behaviour (rewrite, rendering, hash, weight) is
    passed in as functions. */
module MatchQuery {
  import opened Index

  const NAME: string := "position_match"

  datatype PositionMatchQuery<Q> = PositionMatchQuery(query: Q)

  /** What a `rewrite(reader)` call comes to: Lucene returns the very same
      object when there is nothing to rewrite, and another object otherwise. */
  datatype RewriteResult<Q> = Same | Rewritten(query: Q)

  /** `rewrite(reader)`: a new wrapper around the rewritten sub-query when the
      sub-query's rewrite returns another object; otherwise the base rewrite,
      which returns this same wrapper. */
  function Rewrite<Q>(pm: PositionMatchQuery<Q>, subRewrite: Q -> RewriteResult<Q>): (r: RewriteResult<PositionMatchQuery<Q>>)
    ensures r.Same? <==> subRewrite(pm.query).Same?
    ensures r.Rewritten? ==> r.query == PositionMatchQuery(subRewrite(pm.query).query)
  {
    var newQ := subRewrite(pm.query);
    if newQ.Rewritten? then Rewritten(PositionMatchQuery(newQ.query)) else Same
  }

  /** The searcher's rewrite loop, which calls `rewrite` until it returns the
      same object, cut off after `fuel` calls. */
  function RewriteLoop<Q>(q: Q, rewrite: Q -> RewriteResult<Q>, fuel: nat): Q
    decreases fuel
  {
    if fuel == 0 then q
    else
      match rewrite(q)
      case Same => q
      case Rewritten(q') => RewriteLoop(q', rewrite, fuel - 1)
  }

  /** Rewriting the wrapper to a fixpoint takes the same steps as rewriting the
      sub-query and wraps the sub-query's fixpoint. */
  lemma {:induction false} RewriteLoopWraps<Q>(q: Q, subRewrite: Q -> RewriteResult<Q>, fuel: nat)
    ensures RewriteLoop(PositionMatchQuery(q), pm => Rewrite(pm, subRewrite), fuel)
         == PositionMatchQuery(RewriteLoop(q, subRewrite, fuel))
    decreases fuel
  {
    if fuel > 0 && subRewrite(q).Rewritten? {
      RewriteLoopWraps(subRewrite(q).query, subRewrite, fuel - 1);
    }
  }

  /** A wrapper around a sub-query that is already rewritten is itself a
      fixpoint of the rewrite, whatever the fuel. */
  lemma RewriteFixpoint<Q>(q: Q, subRewrite: Q -> RewriteResult<Q>, fuel: nat)
    requires subRewrite(q).Same?
    ensures Rewrite(PositionMatchQuery(q), subRewrite).Same?
    ensures RewriteLoop(PositionMatchQuery(q), pm => Rewrite(pm, subRewrite), fuel) == PositionMatchQuery(q)
  {
  }

  /** `toString(field)`: NAME, then the sub-query's rendering in parentheses. */
  function ToString<Q>(pm: PositionMatchQuery<Q>, field: string, subToString: (Q, string) -> string): (s: string)
    ensures var inner := subToString(pm.query, field);
      && |s| == |NAME| + |inner| + 2
      && s[..|NAME| + 1] == NAME + "("
      && s[|NAME| + 1..|s| - 1] == inner
      && s[|s| - 1] == ')'
  {
    NAME + "(" + subToString(pm.query, field) + ")"
  }

  /** The rendering keeps the sub-query's rendering recoverable: two wrappers
      render alike only if their sub-queries do. */
  lemma ToStringInjective<Q>(a: PositionMatchQuery<Q>, b: PositionMatchQuery<Q>, field: string, subToString: (Q, string) -> string)
    requires ToString(a, field, subToString) == ToString(b, field, subToString)
    ensures subToString(a.query, field) == subToString(b.query, field)
  {
    var s := ToString(a, field, subToString);
    assert subToString(a.query, field) == s[|NAME| + 1..|s| - 1] == subToString(b.query, field);
  }

  /** What `equals(Object)` may be handed: null, another position-match
      query, or an object of some other class. */
  datatype Obj<Q> = Null | PositionMatchObj(pm: PositionMatchQuery<Q>) | OtherClassObj(className: string)

  /** `sameClassAs(obj)`: obj is not null and of exactly this class. */
  function SameClassAs<Q>(obj: Obj<Q>): (b: bool)
    ensures b <==> obj.PositionMatchObj?
  {
    match obj
    case Null => false
    case PositionMatchObj(_) => true
    case OtherClassObj(_) => false
  }

  /** `equals(obj)`: same class and `Objects.equals(query, other.query)`,
      with the sub-query's own `equals` passed in as `subEquals`. */
  function Equals<Q>(pm: PositionMatchQuery<Q>, obj: Obj<Q>, subEquals: (Q, Q) -> bool): (b: bool)
    ensures b <==> obj.PositionMatchObj? && subEquals(pm.query, obj.pm.query)
  {
    if !SameClassAs(obj) then false
    else subEquals(pm.query, obj.pm.query)
  }

  /** `subEquals` obeys the `Object.equals` contract: an equivalence. */
  ghost predicate IsEquivalence<Q(!new)>(subEquals: (Q, Q) -> bool)
  {
    && (forall x :: subEquals(x, x))
    && (forall x, y :: subEquals(x, y) ==> subEquals(y, x))
    && (forall x, y, z :: subEquals(x, y) && subEquals(y, z) ==> subEquals(x, z))
  }

  /** When the sub-query's `equals` is an equivalence, so is the wrapper's. */
  lemma EqualsIsEquivalence<Q(!new)>(a: PositionMatchQuery<Q>, b: PositionMatchQuery<Q>, c: PositionMatchQuery<Q>, subEquals: (Q, Q) -> bool)
    requires IsEquivalence(subEquals)
    ensures Equals(a, PositionMatchObj(a), subEquals)
    ensures Equals(a, PositionMatchObj(b), subEquals) ==> Equals(b, PositionMatchObj(a), subEquals)
    ensures Equals(a, PositionMatchObj(b), subEquals) && Equals(b, PositionMatchObj(c), subEquals) ==> Equals(a, PositionMatchObj(c), subEquals)
  {
  }

  /** `hashCode()`: `Objects.hash(classHash(), query)`, that is Java's
      `Arrays.hashCode` over the two values: 31 * (31 * 1 + classHash) + subHash
      in wrapping 32-bit arithmetic. */
  function HashCode<Q>(pm: PositionMatchQuery<Q>, classHash: Int32, subHash: Q -> Int32): (h: Int32)
    ensures h == Wrap32(31 * 31 + 31 * classHash + subHash(pm.query))
  {
    var afterClass := Wrap32(31 * 1 + classHash);
    var h := Wrap32(31 * afterClass + subHash(pm.query));
    assert (31 * afterClass + subHash(pm.query)) - (31 * 31 + 31 * classHash + subHash(pm.query)) == 31 * (afterClass - (31 + classHash));
    MultipleOfModulus(31, afterClass - (31 + classHash));
    Wrap32Congruent(31 * afterClass + subHash(pm.query), 31 * 31 + 31 * classHash + subHash(pm.query));
    h
  }

  lemma MultipleOfModulus(c: int, d: int)
    requires d % TWO_TO_32 == 0
    ensures (c * d) % TWO_TO_32 == 0
  {
    var k := d / TWO_TO_32;
    assert d == k * TWO_TO_32;
    assert c * d == (c * k) * TWO_TO_32;
  }

  /** When the sub-query's `hashCode` agrees with its `equals`, equal
      wrappers have equal hashes. */
  lemma EqualWrappersHashAlike<Q>(a: PositionMatchQuery<Q>, b: PositionMatchQuery<Q>, classHash: Int32, subHash: Q -> Int32, subEquals: (Q, Q) -> bool)
    requires forall x, y :: subEquals(x, y) ==> subHash(x) == subHash(y)
    requires Equals(a, PositionMatchObj(b), subEquals)
    ensures HashCode(a, classHash, subHash) == HashCode(b, classHash, subHash)
  {
  }

  /** With the class hash fixed, the hash tells sub-query hashes apart
      exactly: two wrappers hash alike iff their sub-queries do. */
  lemma HashDeterminedBySubHash<Q>(a: PositionMatchQuery<Q>, b: PositionMatchQuery<Q>, classHash: Int32, subHash: Q -> Int32)
    ensures HashCode(a, classHash, subHash) == HashCode(b, classHash, subHash) <==> subHash(a.query) == subHash(b.query)
  {
    var x := 31 * 31 + 31 * classHash + subHash(a.query);
    var y := 31 * 31 + 31 * classHash + subHash(b.query);
    if Wrap32(x) == Wrap32(y) {
      // both differ from their wraps by multiples of 2^32, and |x - y| < 2^32
      var i, j := (x - Wrap32(x)) / TWO_TO_32, (y - Wrap32(y)) / TWO_TO_32;
      assert x - y == (i - j) * TWO_TO_32;
      assert -TWO_TO_32 < x - y < TWO_TO_32;
      assert i - j == 0;
    }
  }

  /** The score modes a caller may ask a weight for. */
  datatype ScoreMode = Complete | CompleteNoScores | TopScores

  /** `PositionMatchWeight`: the wrapped query and the sub-query's weight. */
  datatype PositionMatchWeight<Q, W> = PositionMatchWeight(query: Q, weight: W)

  /** `createWeight(searcher, scoreMode, boost)`: the sub-query's weight is
      always created with complete scores and the caller's boost. */
  function CreateWeight<Q, W>(pm: PositionMatchQuery<Q>, scoreMode: ScoreMode, boost: real, subCreateWeight: (Q, ScoreMode, real) -> W): (w: PositionMatchWeight<Q, W>)
    ensures w.query == pm.query
    ensures w.weight == subCreateWeight(pm.query, Complete, boost)
  {
    PositionMatchWeight(pm.query, subCreateWeight(pm.query, Complete, boost))
  }

  /** The caller's score mode makes no difference to the weight. */
  lemma CreateWeightIgnoresScoreMode<Q, W>(pm: PositionMatchQuery<Q>, m1: ScoreMode, m2: ScoreMode, boost: real, subCreateWeight: (Q, ScoreMode, real) -> W)
    ensures CreateWeight(pm, m1, boost, subCreateWeight) == CreateWeight(pm, m2, boost, subCreateWeight)
  {
  }
}
