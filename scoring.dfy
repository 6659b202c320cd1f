/** The scores the retrieval sub-graph attaches to each candidate: the
    distance-derived vector score, the rank-derived BM25 score, the metadata
    each search node writes, and the min-max normalisation of the
    cross-encoder scores. Scores are mathematical reals; IEEE rounding is
    not modelled. */
module Scoring {
  import opened Documents

  /** The keys each search node overrides in a chunk's metadata. */
  const ScoreKeys: set<string> :=
    {"vector_score", "bm25_score", "colbert_score", "context_score", "retrieval_method"}

  /** The key the reranking node writes the normalised score under. */
  const CrossEncoderKey: string := "crossencoder_score"

  /** The `1e-6` added to the score range before dividing. */
  const Epsilon: real := 0.000001

  // ---------------------------------------------------------------------
  // Per-method scores
  // ---------------------------------------------------------------------

  /** `max(0, 1 - dist)`: a similarity in [0, 1] for a non-negative distance. */
  function VectorScore(distance: real): (score: real)
    ensures score >= 0.0
    ensures distance <= 1.0 ==> score == 1.0 - distance
    ensures distance >= 1.0 ==> score == 0.0
    ensures distance >= 0.0 ==> score <= 1.0
  {
    if 1.0 - distance > 0.0 then 1.0 - distance else 0.0
  }

  /** A larger distance never gives a larger vector score. */
  lemma VectorScoreAntitone(d1: real, d2: real)
    requires d1 <= d2
    ensures VectorScore(d2) <= VectorScore(d1)
  {
  }

  /** `1.0 - (i / len(results))` for the result at 0-based rank `rank` of `count`. */
  function Bm25Score(rank: nat, count: nat): (score: real)
    requires rank < count
    ensures 0.0 < score <= 1.0
    ensures rank == 0 ==> score == 1.0
  {
    RatioBelowOne(rank, count);
    1.0 - (rank as real / count as real)
  }

  lemma RatioBelowOne(rank: nat, count: nat)
    requires rank < count
    ensures 0.0 <= rank as real / count as real < 1.0
  {
    var q := rank as real / count as real;
    assert q * count as real == rank as real;
  }

  /** BM25 scores strictly decrease with the rank. */
  lemma Bm25ScoreDecreasing(i: nat, j: nat, count: nat)
    requires i < j < count
    ensures Bm25Score(j, count) < Bm25Score(i, count)
  {
    DivMonotone(i as real, j as real, count as real);
  }

  /** Consecutive BM25 scores are `1/count` apart: the decay is linear. */
  lemma Bm25ScoreLinear(i: nat, count: nat)
    requires i + 1 < count
    ensures Bm25Score(i, count) - Bm25Score(i + 1, count) == 1.0 / count as real
  {
    var c := count as real;
    assert (i + 1) as real / c == i as real / c + 1.0 / c;
  }

  // ---------------------------------------------------------------------
  // Metadata written by the search nodes
  // ---------------------------------------------------------------------

  /** The five per-method entries each search node writes. */
  function MethodEntries(vector: real, bm25: real, tag: string): (m: Metadata)
    ensures m.Keys == ScoreKeys
  {
    map["vector_score" := Num(vector), "bm25_score" := Num(bm25),
        "colbert_score" := Num(0.0), "context_score" := Num(0.0),
        "retrieval_method" := Str(tag)]
  }

  /** `{**(meta or {}), "vector_score": max(0, 1 - dist), "bm25_score": 0.0, ...,
      "retrieval_method": "vector"}`. */
  function VectorMetadata(meta: Option<Metadata>, distance: real): (m: Metadata)
    ensures m.Keys == OrEmpty(meta).Keys + ScoreKeys
    ensures forall k :: k in OrEmpty(meta) && k !in ScoreKeys ==> m[k] == OrEmpty(meta)[k]
    ensures m["vector_score"] == Num(VectorScore(distance)) && m["bm25_score"] == Num(0.0)
    ensures m["colbert_score"] == Num(0.0) && m["context_score"] == Num(0.0)
    ensures m["retrieval_method"] == Str("vector")
  {
    OrEmpty(meta) + MethodEntries(VectorScore(distance), 0.0, "vector")
  }

  /** `{**doc.metadata, "bm25_score": 1.0 - i / m, "vector_score": 0.0, ...,
      "retrieval_method": "bm25"}`. */
  function Bm25Metadata(meta: Metadata, rank: nat, count: nat): (m: Metadata)
    requires rank < count
    ensures m.Keys == meta.Keys + ScoreKeys
    ensures forall k :: k in meta && k !in ScoreKeys ==> m[k] == meta[k]
    ensures m["bm25_score"] == Num(Bm25Score(rank, count)) && m["vector_score"] == Num(0.0)
    ensures m["colbert_score"] == Num(0.0) && m["context_score"] == Num(0.0)
    ensures m["retrieval_method"] == Str("bm25")
  {
    meta + MethodEntries(0.0, Bm25Score(rank, count), "bm25")
  }

  /** Both annotations keep every score in [0, 1] for a non-negative distance. */
  predicate ScoresInUnitRange(m: Metadata)
  {
    && "vector_score" in m && m["vector_score"].Num? && 0.0 <= m["vector_score"].r <= 1.0
    && "bm25_score" in m && m["bm25_score"].Num? && 0.0 <= m["bm25_score"].r <= 1.0
  }

  lemma AnnotationsInUnitRange(meta: Option<Metadata>, distance: real, chunkMeta: Metadata, rank: nat, count: nat)
    requires distance >= 0.0 && rank < count
    ensures ScoresInUnitRange(VectorMetadata(meta, distance))
    ensures ScoresInUnitRange(Bm25Metadata(chunkMeta, rank, count))
  {
  }

  // ---------------------------------------------------------------------
  // Min-max normalisation of the cross-encoder scores
  // ---------------------------------------------------------------------

  function MinOf(s: seq<real>): (m: real)
    requires |s| > 0
    ensures m in s && forall i :: 0 <= i < |s| ==> m <= s[i]
  {
    if |s| == 1 then s[0]
    else
      var rest := MinOf(s[1..]);
      if s[0] <= rest then s[0] else rest
  }

  function MaxOf(s: seq<real>): (m: real)
    requires |s| > 0
    ensures m in s && forall i :: 0 <= i < |s| ==> s[i] <= m
  {
    if |s| == 1 then s[0]
    else
      var rest := MaxOf(s[1..]);
      if s[0] >= rest then s[0] else rest
  }

  /** `(scores - min) / (max - min + 1e-6)` when `max > min`, otherwise
      `0.5` everywhere. */
  function Normalize(scores: seq<real>): (n: seq<real>)
    requires |scores| > 0
    ensures |n| == |scores|
  {
    var lo, hi := MinOf(scores), MaxOf(scores);
    if hi > lo then
      seq(|scores|, i requires 0 <= i < |scores| => Rescale(scores[i], lo, hi))
    else
      seq(|scores|, i => 0.5)
  }

  /** `(x - lo) / (hi - lo + 1e-6)`. */
  function Rescale(x: real, lo: real, hi: real): real
    requires lo < hi
  {
    (x - lo) / (hi - lo + Epsilon)
  }

  lemma DivBounds(a: real, b: real)
    requires 0.0 <= a < b
    ensures 0.0 <= a / b < 1.0
  {
    var q := a / b;
    assert q * b == a;
  }

  lemma DivMonotone(a1: real, a2: real, b: real)
    requires a1 <= a2 && b > 0.0
    ensures a1 / b <= a2 / b
    ensures a1 < a2 ==> a1 / b < a2 / b
  {
    var q1, q2 := a1 / b, a2 / b;
    assert q1 * b == a1 && q2 * b == a2;
    assert (q2 - q1) * b == a2 - a1;
  }

  lemma RescaleInRange(x: real, lo: real, hi: real)
    requires lo <= x <= hi && lo < hi
    ensures 0.0 <= Rescale(x, lo, hi) < 1.0
  {
    DivBounds(x - lo, hi - lo + Epsilon);
  }

  lemma RescaleMonotone(x: real, y: real, lo: real, hi: real)
    requires x <= y && lo < hi
    ensures Rescale(x, lo, hi) <= Rescale(y, lo, hi)
    ensures x < y ==> Rescale(x, lo, hi) < Rescale(y, lo, hi)
  {
    DivMonotone(x - lo, y - lo, hi - lo + Epsilon);
  }

  lemma NegFactor(a: real, b: real)
    requires b > 0.0 && a * b < 0.0
    ensures a < 0.0
  {
  }

  /** `(1 - n) * d < e` for `n = d / (d + e)`, stated without division. */
  lemma TopBoundMul(d: real, e: real, n: real)
    requires d > 0.0 && e > 0.0 && n * (d + e) == d
    ensures (1.0 - n) * d < e
  {
    var a := 1.0 - n;
    assert a * (d + e) == e;
    assert a * e > 0.0;
    assert a * d == e - a * e;
  }

  /** The largest raw score (`x == hi`) maps to within `Epsilon / (hi - lo)` of 1. */
  lemma RescaleTop(n: real, lo: real, hi: real)
    requires lo < hi && n == Rescale(hi, lo, hi)
    ensures (1.0 - n) * (hi - lo) < Epsilon
  {
    var d := hi - lo;
    assert n * (d + Epsilon) == d;
    TopBoundMul(d, Epsilon, n);
  }

  /** The normalised score at one position, unfolded. */
  lemma NormalizeAt(scores: seq<real>, i: nat)
    requires 0 < |scores| && i < |scores|
    ensures MaxOf(scores) > MinOf(scores) ==>
      Normalize(scores)[i] == Rescale(scores[i], MinOf(scores), MaxOf(scores))
    ensures MaxOf(scores) <= MinOf(scores) ==> Normalize(scores)[i] == 0.5
  {
  }

  /** Every normalised score lies in [0, 1). */
  lemma NormalizeInRange(scores: seq<real>, i: nat)
    requires 0 < |scores| && i < |scores|
    ensures 0.0 <= Normalize(scores)[i] < 1.0
  {
    NormalizeAt(scores, i);
    var lo, hi := MinOf(scores), MaxOf(scores);
    if hi > lo {
      RescaleInRange(scores[i], lo, hi);
    }
  }

  /** When all raw scores are equal every normalised score is the neutral 0.5. */
  lemma NormalizeUniform(scores: seq<real>, i: nat)
    requires 0 < |scores| && i < |scores|
    requires forall j :: 0 <= j < |scores| ==> scores[j] == scores[0]
    ensures Normalize(scores)[i] == 0.5
  {
    NormalizeAt(scores, i);
    var lo, hi := MinOf(scores), MaxOf(scores);
    assert lo in scores && hi in scores;
  }

  /** When the raw scores differ, the smallest one maps to exactly 0. */
  lemma NormalizeMinIsZero(scores: seq<real>, i: nat, j: nat)
    requires 0 < |scores| && i < |scores| && j < |scores|
    requires scores[j] != scores[i] && scores[i] == MinOf(scores)
    ensures Normalize(scores)[i] == 0.0
  {
    var lo, hi := MinOf(scores), MaxOf(scores);
    assert hi >= scores[j] > lo;
    NormalizeAt(scores, i);
    assert Normalize(scores)[i] == Rescale(lo, lo, hi);
  }

  /** Normalisation preserves the order of the raw scores in both directions,
      so sorting by either gives the same order. */
  lemma NormalizeMonotone(scores: seq<real>, i: nat, j: nat)
    requires 0 < |scores| && i < |scores| && j < |scores|
    ensures scores[i] <= scores[j] ==> Normalize(scores)[i] <= Normalize(scores)[j]
    ensures scores[i] < scores[j] ==> Normalize(scores)[i] < Normalize(scores)[j]
  {
    NormalizeAt(scores, i);
    NormalizeAt(scores, j);
    var lo, hi := MinOf(scores), MaxOf(scores);
    if hi > lo {
      if scores[i] <= scores[j] {
        RescaleMonotone(scores[i], scores[j], lo, hi);
      }
    } else {
      assert scores[i] == lo && scores[j] == lo;
    }
  }
}
