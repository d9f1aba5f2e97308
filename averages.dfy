/** Sums and arithmetic means of real-valued samples (`sum(xs)`, `np.mean(xs)`). */
module Averages {

  function Sum(xs: seq<real>): real {
    if xs == [] then 0.0 else xs[0] + Sum(xs[1..])
  }

  /** The arithmetic mean, 0.0 for no samples. */
  function Mean(xs: seq<real>): real {
    if xs == [] then 0.0 else Sum(xs) / (|xs| as real)
  }

  lemma {:induction false} SumSnoc(xs: seq<real>, x: real)
    ensures Sum(xs + [x]) == Sum(xs) + x
  {
    if xs != [] {
      assert (xs + [x])[1..] == xs[1..] + [x];
      SumSnoc(xs[1..], x);
    } else {
      assert [x][1..] == [];
    }
  }

  /** The running-average update: the mean `avg` of `n` samples with the sample `x` folded in. */
  function RunningMean(avg: real, n: nat, x: real): real {
    (avg * (n as real) + x) / ((n + 1) as real)
  }

  /** Appending one sample moves the mean as a running average does. */
  lemma MeanSnoc(xs: seq<real>, x: real)
    ensures Mean(xs + [x]) == RunningMean(Mean(xs), |xs|, x)
  {
    SumSnoc(xs, x);
    if xs != [] {
      var n := |xs| as real;
      assert Mean(xs) * n == Sum(xs);
    }
  }

  /** A mean times the number of samples is their sum. */
  lemma MeanTimesCount(xs: seq<real>)
    requires xs != []
    ensures Mean(xs) * (|xs| as real) == Sum(xs)
  {
    var n := |xs| as real;
    var q := Sum(xs) / n;
    assert q * n == Sum(xs);
  }

  lemma {:induction false} SumBounds(xs: seq<real>, lo: real, hi: real)
    requires forall k :: 0 <= k < |xs| ==> lo <= xs[k] <= hi
    ensures (|xs| as real) * lo <= Sum(xs) <= (|xs| as real) * hi
  {
    if xs != [] {
      assert forall k :: 0 <= k < |xs| - 1 ==> xs[1..][k] == xs[k + 1];
      SumBounds(xs[1..], lo, hi);
    }
  }

  lemma DivBetween(s: real, n: real, lo: real, hi: real)
    requires n > 0.0 && n * lo <= s <= n * hi
    ensures lo <= s / n <= hi
  {
    var q := s / n;
    assert q * n == s;
    assert (q - lo) * n >= 0.0;
    assert (hi - q) * n >= 0.0;
  }

  /** A mean of samples in [lo, hi] lies in [lo, hi]. */
  lemma MeanBounds(xs: seq<real>, lo: real, hi: real)
    requires xs != [] && forall k :: 0 <= k < |xs| ==> lo <= xs[k] <= hi
    ensures lo <= Mean(xs) <= hi
  {
    SumBounds(xs, lo, hi);
    DivBetween(Sum(xs), |xs| as real, lo, hi);
  }
}
