/**
 * Sums, means and extrema of lists of readings, as the analyzers compute them
 * with sum(), statistics.mean(), max() and min().
 */
module Stats {

  /** Left-to-right sum, peeled from the end so that appending unfolds directly. */
  function Sum(xs: seq<real>): real
  {
    if xs == [] then 0.0 else Sum(xs[..|xs| - 1]) + xs[|xs| - 1]
  }

  /** The largest element. */
  function MaxOf(xs: seq<real>): (m: real)
    requires xs != []
    ensures m in xs
    ensures forall x :: x in xs ==> x <= m
  {
    if |xs| == 1 then xs[0]
    else
      var rest := MaxOf(xs[1..]);
      assert forall x :: x in xs ==> x == xs[0] || x in xs[1..];
      if xs[0] > rest then xs[0] else rest
  }

  /** The smallest element. */
  function MinOf(xs: seq<real>): (m: real)
    requires xs != []
    ensures m in xs
    ensures forall x :: x in xs ==> m <= x
  {
    if |xs| == 1 then xs[0]
    else
      var rest := MinOf(xs[1..]);
      assert forall x :: x in xs ==> x == xs[0] || x in xs[1..];
      if xs[0] < rest then xs[0] else rest
  }

  lemma {:induction false} SumBounds(xs: seq<real>, lo: real, hi: real)
    requires forall x :: x in xs ==> lo <= x <= hi
    ensures |xs| as real * lo <= Sum(xs) <= |xs| as real * hi
  {
    if xs != [] {
      var init := xs[..|xs| - 1];
      assert forall x :: x in init ==> x in xs;
      SumBounds(init, lo, hi);
      assert xs[|xs| - 1] in xs;
    }
  }

  lemma QuotientBounds(s: real, n: real, lo: real, hi: real)
    requires n > 0.0
    requires n * lo <= s <= n * hi
    ensures lo <= s / n <= hi
  {
    var q := s / n;
    assert q * n == s;
    assert (q - lo) * n >= 0.0 && (hi - q) * n >= 0.0;
  }

  lemma QuotientNonNegative(s: real, n: real)
    requires s >= 0.0 && n > 0.0
    ensures s / n >= 0.0
  {
    var q := s / n;
    assert q * n == s;
  }

  /** Arithmetic mean of a non-empty list. */
  function Mean(xs: seq<real>): real
    requires xs != []
  {
    Sum(xs) / |xs| as real
  }

  /** The mean always lies between the smallest and the largest element. */
  lemma MeanBounds(xs: seq<real>)
    requires xs != []
    ensures MinOf(xs) <= Mean(xs) <= MaxOf(xs)
  {
    SumBounds(xs, MinOf(xs), MaxOf(xs));
    QuotientBounds(Sum(xs), |xs| as real, MinOf(xs), MaxOf(xs));
  }

  /** A list of equal readings has that reading as its mean. */
  lemma MeanOfConstant(xs: seq<real>, c: real)
    requires xs != []
    requires forall x :: x in xs ==> x == c
    ensures Mean(xs) == c
  {
    MeanBounds(xs);
    assert MinOf(xs) == c && MaxOf(xs) == c;
  }

  /**
   * Appends x to a history and drops the oldest entry when it then holds more
   * than `limit` entries (a list append followed by pop(0)).
   */
  function AppendBounded(h: seq<real>, x: real, limit: nat): (r: seq<real>)
    requires 1 <= limit && |h| <= limit
    ensures |r| == if |h| < limit then |h| + 1 else limit
    ensures r[|r| - 1] == x
    ensures r == (h + [x])[|h| + 1 - |r|..]
  {
    var g := h + [x];
    if |g| > limit then g[1..] else g
  }

  /** A bounded append of a positive entry to a positive history stays positive. */
  lemma AppendBoundedPositive(h: seq<real>, x: real, limit: nat)
    requires 1 <= limit && |h| <= limit
    requires forall y :: y in h ==> y > 0.0
    requires x > 0.0
    ensures forall y :: y in AppendBounded(h, x, limit) ==> y > 0.0
  {
    var r := AppendBounded(h, x, limit);
    forall y | y in r
      ensures y > 0.0
    {
      assert y in h + [x];
    }
  }
}
