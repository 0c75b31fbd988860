/** The hand-written net present value used when no financial library is
    present, and the cash-flow vector its test script builds: an outlay of
    10,000,000 followed by twenty yearly savings of 1,000,000. */
module Financial {
  import opened Series

  /** `x` to the power `n`. */
  function Pow(x: real, n: nat): (r: real)
    ensures n == 0 ==> r == 1.0
    ensures x != 0.0 ==> r != 0.0
    ensures x > 0.0 ==> r > 0.0
  {
    if n == 0 then 1.0 else x * Pow(x, n - 1)
  }

  /** Each flow divided by (1 + rate)^t, t counted from 0. At rate -1 only
      period 0 is defined, where (1 + rate)^0 is 1. */
  function Discounted(rate: real, values: seq<real>): (d: seq<real>)
    requires |values| <= 1 || 1.0 + rate != 0.0
    ensures |d| == |values|
  {
    seq(|values|, t requires 0 <= t < |values| => values[t] / Pow(1.0 + rate, t))
  }

  /** The net present value: the sum of the discounted flows. The first flow
      is not discounted. */
  function CalculateNpv(rate: real, values: seq<real>): (npv: real)
    requires |values| <= 1 || 1.0 + rate != 0.0
    ensures |values| == 0 ==> npv == 0.0
    ensures |values| == 1 ==> npv == values[0]
  {
    var d := Discounted(rate, values);
    assert |values| == 1 ==> Sum(d) == values[0] by {
      if |values| == 1 {
        assert d[0] == values[0] / Pow(1.0 + rate, 0);
        assert d[1..] == [];
      }
    }
    Sum(d)
  }

  /** Appending a flow to n flows adds that flow discounted n periods. */
  lemma NpvAppend(rate: real, values: seq<real>, v: real)
    requires 1.0 + rate != 0.0
    ensures CalculateNpv(rate, values + [v]) == CalculateNpv(rate, values) + v / Pow(1.0 + rate, |values|)
  {
    var d := Discounted(rate, values + [v]);
    assert d == Discounted(rate, values) + [v / Pow(1.0 + rate, |values|)];
    SumAppend(Discounted(rate, values), v / Pow(1.0 + rate, |values|));
  }

  /** Horner's step: the first flow counts in full and the remaining flows'
      present value is discounted one more period. */
  lemma NpvFirstUndiscounted(rate: real, values: seq<real>)
    requires 1.0 + rate != 0.0 && |values| > 0
    ensures CalculateNpv(rate, values) == values[0] + CalculateNpv(rate, values[1..]) / (1.0 + rate)
  {
    var x := 1.0 + rate;
    var d, tail := Discounted(rate, values), Discounted(rate, values[1..]);
    var scaled := Scale(tail, 1.0 / x);
    forall t | 0 <= t < |tail| ensures d[1..][t] == scaled[t] {
      DiscountShift(rate, values, t);
    }
    assert d[1..] == scaled;
    assert d[0] == values[0];
    SumScale(tail, 1.0 / x);
    DivideAsProduct(Sum(tail), x);
  }

  /** Flow t + 1 discounted t + 1 periods is flow t of the tail discounted t
      periods, divided once more by 1 + rate. */
  lemma DiscountShift(rate: real, values: seq<real>, t: nat)
    requires 1.0 + rate != 0.0 && t + 1 < |values|
    ensures Discounted(rate, values)[t + 1] == (1.0 / (1.0 + rate)) * Discounted(rate, values[1..])[t]
  {
    var x, p := 1.0 + rate, Pow(1.0 + rate, t);
    assert Discounted(rate, values)[t + 1] == values[t + 1] / (x * p);
    assert Discounted(rate, values[1..])[t] == values[t + 1] / p;
    assert values[t + 1] / (x * p) == (1.0 / x) * (values[t + 1] / p);
  }

  /** y / x == (1 / x) * y, proved apart from the sequence facts above. */
  lemma DivideAsProduct(y: real, x: real)
    requires x != 0.0
    ensures y / x == (1.0 / x) * y
  {
  }

  /** One raised to any power is one. */
  lemma {:induction false} PowOne(n: nat)
    ensures Pow(1.0, n) == 1.0
  {
    if n > 0 {
      PowOne(n - 1);
    }
  }

  /** At a zero rate the net present value is the plain sum of the flows. */
  lemma NpvZeroRate(values: seq<real>)
    ensures CalculateNpv(0.0, values) == Sum(values)
  {
    forall t | 0 <= t < |values| ensures Discounted(0.0, values)[t] == values[t] {
      PowOne(t);
    }
    assert Discounted(0.0, values) == values;
  }

  /** `n` copies of `x`, as in `[x] * n`. */
  function Repeat(x: real, n: nat): (r: seq<real>)
    ensures |r| == n
    ensures forall i :: 0 <= i < n ==> r[i] == x
  {
    if n == 0 then [] else Repeat(x, n - 1) + [x]
  }

  /** One more equal flow adds it discounted by its own period. */
  lemma AnnuityAppend(rate: real, a: real, b: real, n: nat)
    requires 1.0 + rate != 0.0 && n > 0
    ensures CalculateNpv(rate, [a] + Repeat(b, n))
         == CalculateNpv(rate, [a] + Repeat(b, n - 1)) + b / Pow(1.0 + rate, n)
  {
    var prefix := [a] + Repeat(b, n - 1);
    assert [a] + Repeat(b, n) == prefix + [b];
    NpvAppend(rate, prefix, b);
  }

  /** The present value of `b` received at each of the periods 1..n, for
      p = (1 + rate)^n: b (1 - 1 / p) / rate. */
  function AnnuityValue(rate: real, b: real, p: real): (value: real)
    requires rate != 0.0 && p != 0.0
  {
    b * (1.0 - 1.0 / p) / rate
  }

  /** An outlay `a` followed by `n` equal flows `b` has the closed-form
      present value a + b (1 - (1 + rate)^-n) / rate. */
  lemma {:induction false} NpvAnnuity(rate: real, a: real, b: real, n: nat)
    requires rate != 0.0 && 1.0 + rate != 0.0
    ensures CalculateNpv(rate, [a] + Repeat(b, n)) == a + AnnuityValue(rate, b, Pow(1.0 + rate, n))
  {
    if n == 0 {
      assert [a] + Repeat(b, 0) == [a];
    } else {
      NpvAnnuity(rate, a, b, n - 1);
      AnnuityAppend(rate, a, b, n);
      AnnuityPeriod(rate, b, n);
    }
  }

  /** Period n adds b / (1 + rate)^n to the closed form for n - 1 periods. */
  lemma AnnuityPeriod(rate: real, b: real, n: nat)
    requires rate != 0.0 && 1.0 + rate != 0.0 && n > 0
    ensures AnnuityValue(rate, b, Pow(1.0 + rate, n - 1)) + b / Pow(1.0 + rate, n)
         == AnnuityValue(rate, b, Pow(1.0 + rate, n))
  {
    AnnuityStep(rate, b, Pow(1.0 + rate, n - 1), Pow(1.0 + rate, n));
  }

  /** The algebra of one annuity step: adding b / (x p) to the closed form for
      p = x^(n-1) gives the closed form for q = x^n, where x = 1 + rate. */
  lemma AnnuityStep(rate: real, b: real, p: real, q: real)
    requires rate != 0.0 && 1.0 + rate != 0.0 && p != 0.0 && q == (1.0 + rate) * p
    ensures AnnuityValue(rate, b, p) + b / q == AnnuityValue(rate, b, q)
  {
    assert (1.0 / ((1.0 + rate) * p)) * (1.0 + rate) == 1.0 / p;
    assert b / q == b * (1.0 / q);
    AnnuityAlgebra(rate, b, 1.0 / p, 1.0 / q);
  }

  /** With v = (1 + rate) w: b (1 - v) / rate + b w == b (1 - w) / rate. */
  lemma AnnuityAlgebra(rate: real, b: real, v: real, w: real)
    requires rate != 0.0 && w * (1.0 + rate) == v
    ensures b * (1.0 - v) / rate + b * w == b * (1.0 - w) / rate
  {
    assert b * (1.0 - v) + b * w * rate == b * (1.0 - w);
    assert b * (1.0 - v) / rate + b * w == (b * (1.0 - v) + b * w * rate) / rate;
  }

  const Inversion: real := 10_000_000.0
  const Ahorro: real := 1_000_000.0
  const Rate: real := 0.10

  /** The test script's flows: `[-inversion] + [ahorro] * 20`. */
  function TestFlows(): (flows: seq<real>)
    ensures |flows| == 21
    ensures flows[0] == -10_000_000.0
    ensures forall k :: 1 <= k <= 20 ==> flows[k] == 1_000_000.0
  {
    [-Inversion] + Repeat(Ahorro, 20)
  }

  /** Their present value at 10% is the closed-form annuity
      -10,000,000 + 1,000,000 (1 - 1.1^-20) / 0.1. */
  lemma TestNpvClosedForm()
    ensures CalculateNpv(Rate, TestFlows())
         == -10_000_000.0 + 1_000_000.0 * (1.0 - 1.0 / Pow(1.1, 20)) / 0.1
  {
    NpvAnnuity(Rate, -Inversion, Ahorro, 20);
    assert 1.0 + Rate == 1.1;
  }

  /** At 10% the twenty savings are worth less than the outlay: the present
      value of the test flows is negative. */
  lemma TestNpvNegative()
    ensures CalculateNpv(Rate, TestFlows()) < 0.0
  {
    TestNpvClosedForm();
    var p := Pow(1.1, 20);
    assert 1.0 / p > 0.0;
  }
}
