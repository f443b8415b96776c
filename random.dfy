/** The random sources the generator draws from: Unity's global Random and the
    System.Random instance, both as streams of uniform samples in [0, 1). */
module Rand {
  /** The successive samples of one random source. */
  type Stream = s: nat -> real | forall k :: 0.0 <= s(k) < 1.0
    witness (k: nat) => 0.0

  /** The largest j in [1, k] with j <= span * u, or 0 when there is none. */
  function Bucket(span: int, u: real, k: nat): (j: nat)
    ensures j <= k
  {
    if k == 0 then 0 else if (k as real) <= (span as real) * u then k else Bucket(span, u, k - 1)
  }

  /** Random.Range(lo, hi) on ints, as the image of one sample: a value in [lo, hi). */
  function RangeOf(lo: int, hi: int, u: real): (n: int)
    requires lo < hi && 0.0 <= u < 1.0
    ensures lo <= n < hi
  {
    lo + Bucket(hi - lo, u, hi - lo - 1)
  }

  /** Bucket(span, u, k) is the floor of span * u, capped at k. */
  lemma {:induction false} BucketIsCappedFloor(span: int, u: real, k: nat)
    requires span >= 0 && 0.0 <= u
    ensures var f := ((span as real) * u).Floor;
      Bucket(span, u, k) == if f <= k then f else k
  {
    var f := ((span as real) * u).Floor;
    assert 0.0 <= (span as real) * u;
    if k > 0 {
      BucketIsCappedFloor(span, u, k - 1);
      assert (k as real) <= (span as real) * u <==> k <= f;
    }
  }

  /** RangeOf(lo, hi, u) is lo plus the floor of (hi - lo) * u: the sample scaled to the
      width of the range, so that each of the hi - lo values gets an equal share of [0, 1). */
  lemma RangeOfIsScaledFloor(lo: int, hi: int, u: real)
    requires lo < hi && 0.0 <= u < 1.0
    ensures RangeOf(lo, hi, u) == lo + (((hi - lo) as real) * u).Floor
  {
    var span := (hi - lo) as real;
    BucketIsCappedFloor(hi - lo, u, hi - lo - 1);
    assert span * u < span by {
      assert span * (1.0 - u) > 0.0;
    }
    assert (span * u).Floor as real <= span * u;
  }

  /** A random source with its position: every call consumes the next sample. */
  class RandomStream {
    const draws: Stream
    var cursor: nat

    constructor (draws: Stream)
      ensures this.draws == draws && cursor == 0
    {
      this.draws := draws;
      cursor := 0;
    }

    /** Random.value (and System.Random.NextDouble). */
    method Value() returns (u: real)
      modifies this
      ensures cursor == old(cursor) + 1
      ensures u == draws(old(cursor)) && 0.0 <= u < 1.0
    {
      u := draws(cursor);
      cursor := cursor + 1;
    }

    /** Random.Range(lo, hi) on ints. */
    method Range(lo: int, hi: int) returns (n: int)
      requires lo < hi
      modifies this
      ensures cursor == old(cursor) + 1
      ensures n == RangeOf(lo, hi, draws(old(cursor))) && lo <= n < hi
    {
      n := RangeOf(lo, hi, draws(cursor));
      cursor := cursor + 1;
    }
  }
}
