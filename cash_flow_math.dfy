/** Exact arithmetic on year-indexed cash-flow series: sums, running sums
    (numpy's cumsum), integer powers, discounting and the net present value
    (numpy's npv). Amounts are mathematical reals, so every identity below
    is exact. */
module CashFlowMath {

  /** Sum of all entries, folded from the last entry backwards. */
  function Sum(s: seq<real>): real
  {
    if s == [] then 0.0 else Sum(s[..|s| - 1]) + s[|s| - 1]
  }

  /** Running sums (numpy's cumsum): each entry adds the next element of
      `s` to the previous running total. */
  function PrefixSums(s: seq<real>): (r: seq<real>)
    ensures |r| == |s|
    ensures |s| > 0 ==> r[0] == s[0] && r[|s| - 1] == Sum(s)
  {
    if s == [] then []
    else
      var front := PrefixSums(s[..|s| - 1]);
      var total := if front == [] then 0.0 else front[|front| - 1];
      front + [total + s[|s| - 1]]
  }

  /** `cum` holds the running sums of `cf`: it starts at cf[0] and each
      later entry adds the next cash flow. */
  ghost predicate IsRunningSum(cum: seq<real>, cf: seq<real>)
  {
    && |cum| == |cf|
    && (|cf| > 0 ==> cum[0] == cf[0])
    && forall i :: 1 <= i < |cf| ==> cum[i] == cum[i - 1] + cf[i]
  }

  lemma {:induction false} PrefixSumsIsRunningSum(s: seq<real>)
    ensures IsRunningSum(PrefixSums(s), s)
  {
    if |s| > 1 {
      var front := s[..|s| - 1];
      PrefixSumsIsRunningSum(front);
      assert front[..|front| - 1] == s[..|s| - 2];
      forall i | 1 <= i < |s|
        ensures PrefixSums(s)[i] == PrefixSums(s)[i - 1] + s[i]
      {
        if i < |s| - 1 {
          assert PrefixSums(s)[i] == PrefixSums(front)[i];
          assert PrefixSums(s)[i - 1] == PrefixSums(front)[i - 1];
        }
      }
    }
  }

  /** Entry i of the running sums is the sum of entries 0..i. */
  lemma {:induction false} PrefixSumsAreSums(s: seq<real>, i: nat)
    requires i < |s|
    ensures PrefixSums(s)[i] == Sum(s[..i + 1])
  {
    if i == |s| - 1 {
      assert s[..i + 1] == s;
    } else {
      PrefixSumsAreSums(s[..|s| - 1], i);
      assert s[..|s| - 1][..i + 1] == s[..i + 1];
    }
  }

  /** x raised to a natural exponent, as `(1 + k) ** i` with an integer i. */
  function Pow(x: real, n: nat): (r: real)
    ensures x != 0.0 ==> r != 0.0
    ensures x > 0.0 ==> r > 0.0
  {
    if n == 0 then 1.0 else x * Pow(x, n - 1)
  }

  lemma {:induction false} PowOfOne(n: nat)
    ensures Pow(1.0, n) == 1.0
  {
    if n > 0 {
      PowOfOne(n - 1);
    }
  }

  /** Net present value at rate k: the sum over t = 0..|cf|-1 of cf[t] / (1+k)^t.
      Year 0 is divided by (1+k)^0 = 1, i.e. it is not discounted. */
  function Npv(k: real, cf: seq<real>): (r: real)
    requires 1.0 + k != 0.0
    ensures |cf| == 1 ==> r == cf[0]
    ensures 1.0 + k > 0.0 && (forall t :: 0 <= t < |cf| ==> cf[t] >= 0.0) ==> r >= 0.0
  {
    if cf == [] then 0.0
    else Npv(k, cf[..|cf| - 1]) + cf[|cf| - 1] / Pow(1.0 + k, |cf| - 1)
  }

  /** `d` is the discounted series of `cf` at rate k: year 0 is copied,
      year i >= 1 is cf[i] / (1+k)^i. */
  ghost predicate IsDiscountOf(d: seq<real>, cf: seq<real>, k: real)
    requires 1.0 + k != 0.0
  {
    && |d| == |cf|
    && (|cf| > 0 ==> d[0] == cf[0])
    && forall i :: 1 <= i < |cf| ==> d[i] == cf[i] / Pow(1.0 + k, i)
  }

  /** The discounted series adds up to the net present value of the
      nominal series; hence so does its last running sum. */
  lemma {:induction false} DiscountedSumIsNpv(d: seq<real>, cf: seq<real>, k: real)
    requires 1.0 + k != 0.0
    requires IsDiscountOf(d, cf, k)
    ensures Sum(d) == Npv(k, cf)
    ensures cf != [] ==> PrefixSums(d)[|d| - 1] == Npv(k, cf)
  {
    if cf != [] {
      var n := |cf| - 1;
      if n > 0 {
        DiscountedSumIsNpv(d[..n], cf[..n], k);
      } else {
        assert d[..0] == [] && cf[..0] == [];
      }
    }
  }

  /** At a zero discount rate the discounted series is the nominal series. */
  lemma ZeroRateDiscountIsIdentity(d: seq<real>, cf: seq<real>)
    requires IsDiscountOf(d, cf, 0.0)
    ensures d == cf
  {
    forall i | 1 <= i < |cf|
      ensures d[i] == cf[i]
    {
      PowOfOne(i);
    }
  }

  /** At a zero discount rate the NPV is the plain sum of the cash flows. */
  lemma {:induction false} ZeroRateNpvIsSum(cf: seq<real>)
    ensures Npv(0.0, cf) == Sum(cf)
  {
    if cf != [] {
      ZeroRateNpvIsSum(cf[..|cf| - 1]);
      PowOfOne(|cf| - 1);
    }
  }

  /** Sum of an outlay -I followed by n equal yearly flows. */
  lemma {:induction false} ConstantFlowSum(cf: seq<real>, investment: real, ncf: real, n: nat)
    requires |cf| == n + 1 && cf[0] == -investment
    requires forall i :: 1 <= i <= n ==> cf[i] == ncf
    ensures Sum(cf) == -investment + (n as real) * ncf
  {
    if n == 0 {
      assert cf[..0] == [];
    } else {
      ConstantFlowSum(cf[..n], investment, ncf, n - 1);
    }
  }

  /** With no discounting and a constant yearly net cash flow ncf over n
      years, NPV = -I + n * ncf. */
  lemma ConstantFlowNpvAtZeroRate(cf: seq<real>, investment: real, ncf: real, n: nat)
    requires |cf| == n + 1 && cf[0] == -investment
    requires forall i :: 1 <= i <= n ==> cf[i] == ncf
    ensures Npv(0.0, cf) == -investment + (n as real) * ncf
  {
    ZeroRateNpvIsSum(cf);
    ConstantFlowSum(cf, investment, ncf, n);
  }
}
