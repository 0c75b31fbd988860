/** Hourly series: the vector operations the settlement pipeline performs on
    its 24-value numpy arrays (`sum()`, multiplication by a scalar, a vector of
    zeros), over exact reals, and the 30-day month the daily figures are
    scaled to. */
module Series {

  /** Days in the billing month; a day's energy times this is the month's. */
  const DaysPerMonth: real := 30.0

  /** The sum of a series, numpy's `arr.sum()`. */
  function Sum(s: seq<real>): (total: real)
  {
    if |s| == 0 then 0.0 else s[0] + Sum(s[1..])
  }

  /** Every entry multiplied by one factor `k`, numpy's `arr * k`. */
  function Scale(s: seq<real>, k: real): (r: seq<real>)
    ensures |r| == |s|
    ensures forall i :: 0 <= i < |s| ==> r[i] == k * s[i]
  {
    seq(|s|, i requires 0 <= i < |s| => k * s[i])
  }

  /** `n` zeros, numpy's `np.zeros(n)`. */
  function Zeros(n: nat): (r: seq<real>)
    ensures |r| == n
    ensures forall i :: 0 <= i < n ==> r[i] == 0.0
  {
    seq(n, i => 0.0)
  }

  predicate NonNegative(s: seq<real>)
  {
    forall i :: 0 <= i < |s| ==> s[i] >= 0.0
  }

  /** Scaling a series scales its sum by the same factor. */
  lemma {:induction false} SumScale(s: seq<real>, k: real)
    ensures Sum(Scale(s, k)) == k * Sum(s)
  {
    if |s| > 0 {
      var r, t := Scale(s, k), Scale(s[1..], k);
      assert |r[1..]| == |t|;
      forall i | 0 <= i < |t| ensures r[1..][i] == t[i] {
        assert r[1..][i] == r[i + 1];
      }
      assert r[1..] == t;
      SumScale(s[1..], k);
    }
  }

  /** Scaling keeps every ratio between two entries. */
  lemma ScaleProportional(s: seq<real>, k: real)
    ensures forall i, j :: 0 <= i < |s| && 0 <= j < |s| ==> Scale(s, k)[i] * s[j] == Scale(s, k)[j] * s[i]
  {
    forall i, j | 0 <= i < |s| && 0 <= j < |s| ensures Scale(s, k)[i] * s[j] == Scale(s, k)[j] * s[i] {
      assert (k * s[i]) * s[j] == (k * s[j]) * s[i];
    }
  }

  /** A series rescaled so that it sums to `total`; a series whose sum is
      not positive is left as it is. */
  function Rescale(s: seq<real>, total: real): (r: seq<real>)
    ensures |r| == |s|
    ensures Sum(s) <= 0.0 ==> r == s
  {
    if Sum(s) > 0.0 then Scale(s, total / Sum(s)) else s
  }

  /** Rescaling a series with a positive sum makes it sum to exactly `total`. */
  lemma RescaleSum(s: seq<real>, total: real)
    requires Sum(s) > 0.0
    ensures Sum(Rescale(s, total)) == total
  {
    var k := total / Sum(s);
    SumScale(s, k);
    assert k * Sum(s) == total;
  }

  /** Rescaling multiplies every entry by one common factor, so every ratio
      between two entries is kept. */
  lemma RescaleShape(s: seq<real>, total: real)
    ensures forall i, j :: 0 <= i < |s| && 0 <= j < |s| ==> Rescale(s, total)[i] * s[j] == Rescale(s, total)[j] * s[i]
  {
    if Sum(s) > 0.0 {
      ScaleProportional(s, total / Sum(s));
    } else {
      forall i, j | 0 <= i < |s| && 0 <= j < |s| ensures s[i] * s[j] == s[j] * s[i] {
      }
    }
  }

  /** With a non-negative total, rescaling keeps a series non-negative. */
  lemma RescaleNonNegative(s: seq<real>, total: real)
    requires NonNegative(s) && total >= 0.0
    ensures NonNegative(Rescale(s, total))
  {
    if Sum(s) > 0.0 {
      assert total / Sum(s) >= 0.0;
    }
  }

  /** A sum of non-negative entries is non-negative. */
  lemma {:induction false} SumNonNegative(s: seq<real>)
    requires NonNegative(s)
    ensures Sum(s) >= 0.0
  {
    if |s| > 0 {
      SumNonNegative(s[1..]);
    }
  }

  /** A non-empty sum of strictly positive entries is strictly positive. */
  lemma {:induction false} SumPositive(s: seq<real>)
    requires |s| > 0
    requires forall i :: 0 <= i < |s| ==> s[i] > 0.0
    ensures Sum(s) > 0.0
  {
    if |s| > 1 {
      SumPositive(s[1..]);
    }
  }

  /** A series whose entries are all zero sums to zero. */
  lemma {:induction false} SumZero(s: seq<real>)
    requires forall i :: 0 <= i < |s| ==> s[i] == 0.0
    ensures Sum(s) == 0.0
  {
    if |s| > 0 {
      SumZero(s[1..]);
    }
  }

  /** The sum of a pointwise sum is the sum of the sums. */
  lemma {:induction false} SumPointwise(a: seq<real>, b: seq<real>, c: seq<real>)
    requires |a| == |b| == |c|
    requires forall i :: 0 <= i < |c| ==> c[i] == a[i] + b[i]
    ensures Sum(c) == Sum(a) + Sum(b)
  {
    if |c| > 0 {
      SumPointwise(a[1..], b[1..], c[1..]);
    }
  }

  /** Appending one entry adds it to the sum. */
  lemma {:induction false} SumAppend(s: seq<real>, x: real)
    ensures Sum(s + [x]) == Sum(s) + x
  {
    if |s| > 0 {
      assert (s + [x])[1..] == s[1..] + [x];
      SumAppend(s[1..], x);
    }
  }
}
