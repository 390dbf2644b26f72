/** Payback Period and Discounted Payback Period: a search over a running-sum
    series for the first year, after year 0, in which the running sum is no
    longer negative, followed by linear interpolation inside that year. */
module PaybackSearch {
  import opened CashFlowMath

  datatype Option<T> = None | Some(value: T)

  /** Outcome of the search. `Undefined` is Python's None (the running sum
      never turns non-negative). `Period` is a fractional number of years.
      `DivisionByZero` stands for the non-finite float (inf or nan) that the
      interpolation yields when the cash flow of the crossing year is zero. */
  datatype Payback = Undefined | Period(years: real) | DivisionByZero

  function Abs(x: real): real
  {
    if x < 0.0 then -x else x
  }

  /** The first index at or after `from` whose running sum is non-negative. */
  function FirstNonNegative(cum: seq<real>, from: nat): (r: Option<nat>)
    decreases |cum| - from
    ensures r.Some? ==> from <= r.value < |cum| && cum[r.value] >= 0.0
    ensures r.Some? ==> forall j :: from <= j < r.value ==> cum[j] < 0.0
    ensures r.None? <==> forall j :: from <= j < |cum| ==> cum[j] < 0.0
  {
    if from >= |cum| then None
    else if cum[from] >= 0.0 then Some(from)
    else FirstNonNegative(cum, from + 1)
  }

  /** Interpolated payback inside crossing year i:
      (i - 1) + |cum[i-1]| / cf[i]. */
  function CrossingValue(cf: seq<real>, cum: seq<real>, i: nat): (r: Payback)
    requires 1 <= i < |cum| && |cum| <= |cf|
    ensures r.Undefined? == false
    ensures r == DivisionByZero <==> cf[i] == 0.0
    ensures r.Period? ==> (r.years - (i - 1) as real) * cf[i] == Abs(cum[i - 1])
  {
    if cf[i] == 0.0 then DivisionByZero
    else Period((i - 1) as real + Abs(cum[i - 1]) / cf[i])
  }

  /** What the search yields for a cash-flow series and its running sums;
      index 0 is never a candidate. */
  function PaybackOf(cf: seq<real>, cum: seq<real>): (r: Payback)
    requires |cum| <= |cf|
    ensures r.Undefined? <==> forall j :: 1 <= j < |cum| ==> cum[j] < 0.0
    ensures r == DivisionByZero <==>
              exists i :: FirstNonNegative(cum, 1) == Some(i) && cf[i] == 0.0
  {
    match FirstNonNegative(cum, 1)
    case None => Undefined
    case Some(i) => CrossingValue(cf, cum, i)
  }

  /** The search loop: skip index 0, stop at the first non-negative running
      sum and interpolate there. */
  method FirstCrossing(cf: seq<real>, cum: seq<real>) returns (p: Payback)
    requires |cum| <= |cf|
    ensures p.Undefined? <==> forall j :: 1 <= j < |cum| ==> cum[j] < 0.0
    ensures p == PaybackOf(cf, cum)
  {
    p := Undefined;
    for i := 0 to |cum|
      invariant p == Undefined
      invariant forall j :: 1 <= j < i ==> cum[j] < 0.0
    {
      if i == 0 {
        continue;
      }
      if cum[i] >= 0.0 {
        p := CrossingValue(cf, cum, i);
        break;
      }
    }
  }

  /** 0 < a <= b implies 0 < a / b <= 1. */
  lemma FractionInUnitInterval(a: real, b: real)
    requires 0.0 < a <= b
    ensures 0.0 < a / b <= 1.0
  {
    assert a / b * b == a;
  }

  /** When the series starts with a strictly negative outlay, the year i in
      which the running sum crosses zero has a strictly positive cash flow,
      and the payback lies in (i - 1, i]. */
  lemma PaybackWithinCrossingYear(cf: seq<real>, cum: seq<real>, i: nat)
    requires IsRunningSum(cum, cf)
    requires |cf| > 0 && cf[0] < 0.0
    requires FirstNonNegative(cum, 1) == Some(i)
    ensures cf[i] > 0.0
    ensures PaybackOf(cf, cum).Period?
    ensures (i - 1) as real < PaybackOf(cf, cum).years <= i as real
  {
    assert cum[i - 1] < 0.0;
    var owed := -cum[i - 1];
    assert cf[i] == cum[i] + owed;
    FractionInUnitInterval(owed, cf[i]);
    assert PaybackOf(cf, cum) == Period((i - 1) as real + owed / cf[i]);
  }

  /** With a strictly negative outlay, the payback over the running sums is
      either undefined or a finite period in (0, |cf| - 1]: never the
      zero-divisor case. */
  lemma PaybackBounds(cf: seq<real>)
    requires |cf| > 0 && cf[0] < 0.0
    ensures PaybackOf(cf, PrefixSums(cf)) != DivisionByZero
    ensures PaybackOf(cf, PrefixSums(cf)).Period? ==>
              0.0 < PaybackOf(cf, PrefixSums(cf)).years <= (|cf| - 1) as real
  {
    var cum := PrefixSums(cf);
    PrefixSumsIsRunningSum(cf);
    var first := FirstNonNegative(cum, 1);
    if first.Some? {
      PaybackWithinCrossingYear(cf, cum, first.value);
    }
  }

  /** The zero divisor is reached only when the outlay is not positive
      (cf[0] >= 0, so the running sum is already non-negative at year 0)
      and the crossing is year 1 with a zero cash flow. */
  lemma DivisionByZeroOnlyWithoutOutlay(cf: seq<real>, cum: seq<real>)
    requires IsRunningSum(cum, cf)
    requires PaybackOf(cf, cum) == DivisionByZero
    ensures |cf| > 1 && cf[0] >= 0.0
    ensures FirstNonNegative(cum, 1) == Some(1) && cf[1] == 0.0
  {
  }

  /** Running sums -100, -40, 20, 80: the crossing is year 2 and the payback
      is 1 + 40/60 years. */
  lemma CrossingExample()
    ensures PaybackOf([-100.0, 60.0, 60.0, 60.0], PrefixSums([-100.0, 60.0, 60.0, 60.0]))
              == Period(1.0 + 40.0 / 60.0)
  {
    var cf := [-100.0, 60.0, 60.0, 60.0];
    var cum := PrefixSums(cf);
    PrefixSumsIsRunningSum(cf);
    assert cum == [-100.0, -40.0, 20.0, 80.0];
    assert FirstNonNegative(cum, 1) == Some(2);
  }

  /** Running sums -100, -90, -80, -70 never turn non-negative. */
  lemma NoPaybackExample()
    ensures PaybackOf([-100.0, 10.0, 10.0, 10.0], PrefixSums([-100.0, 10.0, 10.0, 10.0])) == Undefined
  {
    var cf := [-100.0, 10.0, 10.0, 10.0];
    var cum := PrefixSums(cf);
    PrefixSumsIsRunningSum(cf);
    assert cum == [-100.0, -90.0, -80.0, -70.0];
  }
}
