/** The metrics engine (`calculate_metrics`): pads the revenue and cost
    lists of the caller's input record in place, builds the after-tax cash
    flow series, and derives NPV, the discounted series, both running sums,
    and the Payback and Discounted Payback periods. */
module MetricsEngine {
  import opened CashFlowMath
  import opened PaybackSearch

  /** The two input lists that padding may read from the end. */
  datatype InputSeries = AnnualRevenue | AnnualCost

  /** `IndexError` is the Python error raised by `lst[-1]` on an empty list. */
  datatype Error = IndexError(series: InputSeries)

  datatype Result<T> = Ok(value: T) | Err(error: Error)

  /** The engine's output (IRR is not part of this model). */
  datatype Metrics = Metrics(
    npv: real,
    pp: Payback,
    dpp: Payback,
    cashFlows: seq<real>,
    discounted: seq<real>,
    cumulative: seq<real>,
    cumulativeDiscounted: seq<real>,
    lifespan: int,
    investment: real,
    wacc: real)

  /** Number of years the cash-flow loop runs: `range(T)` is empty when T <= 0. */
  function Years(lifespan: int): nat
  {
    if lifespan > 0 then lifespan else 0
  }

  /** `[x] * n`: n copies of x. */
  function Repeat(x: real, n: nat): (r: seq<real>)
    ensures |r| == n
    ensures forall j :: 0 <= j < n ==> r[j] == x
  {
    if n == 0 then [] else Repeat(x, n - 1) + [x]
  }

  /** Padding reads the last element only when the list is shorter than the
      lifespan, so it fails exactly on an empty list with a positive lifespan. */
  predicate CanPad(s: seq<real>, lifespan: int)
  {
    s != [] || lifespan <= 0
  }

  /** A list shorter than the lifespan is extended with copies of its last
      element up to exactly the lifespan; a list at least that long is kept
      as it is (never truncated). */
  function Padded(s: seq<real>, lifespan: int): (r: seq<real>)
    requires CanPad(s, lifespan)
    ensures |s| < lifespan ==> |r| == lifespan
    ensures |s| >= lifespan ==> r == s
    ensures |r| >= |s| && r[..|s|] == s
    ensures forall j :: |s| <= j < |r| ==> r[j] == s[|s| - 1]
    ensures |r| >= Years(lifespan)
  {
    if |s| < lifespan then s + Repeat(s[|s| - 1], lifespan - |s|) else s
  }

  /** After-tax net cash flow of one year: (R - C) * (1 - tax). */
  function NetCashFlow(revenue: real, cost: real, taxRate: real): (r: real)
    ensures taxRate == 0.0 ==> r == revenue - cost
    ensures taxRate < 1.0 ==> (r > 0.0 <==> revenue > cost) && (r == 0.0 <==> revenue == cost)
  {
    var net := revenue - cost;
    var kept := 1.0 - taxRate;
    ProductSign(net, kept);
    net * kept
  }

  /** Multiplying by a positive factor keeps the sign. */
  lemma ProductSign(a: real, b: real)
    ensures b > 0.0 ==> (a * b > 0.0 <==> a > 0.0) && (a * b == 0.0 <==> a == 0.0)
  {
    if b <= 0.0 {
    } else if a > 0.0 {
      assert a * b > 0.0 * b;
    } else if a < 0.0 {
      assert a * b < 0.0 * b;
    }
  }

  /** The `data` record of financial inputs. Its revenue and cost lists are
      the caller's own lists, which padding extends in place. */
  class FinancialInputs {
    var investmentCapital: real
    var projectLifespanYears: int
    var annualRevenue: seq<real>
    var annualCost: seq<real>
    var waccPercent: real
    var taxRatePercent: real

    constructor (investment: real, lifespan: int, revenue: seq<real>, cost: seq<real>,
                 wacc: real, tax: real)
      ensures investmentCapital == investment && projectLifespanYears == lifespan
      ensures annualRevenue == revenue && annualCost == cost
      ensures waccPercent == wacc && taxRatePercent == tax
    {
      investmentCapital := investment;
      projectLifespanYears := lifespan;
      annualRevenue := revenue;
      annualCost := cost;
      waccPercent := wacc;
      taxRatePercent := tax;
    }

    /** Pads revenue, then cost, to the lifespan. Revenue is padded before
        cost is inspected, so a failure on cost leaves revenue already padded. */
    method PadToLifespan() returns (outcome: Result<()>)
      modifies this`annualRevenue, this`annualCost
      ensures !CanPad(old(annualRevenue), projectLifespanYears) ==>
                outcome == Err(IndexError(AnnualRevenue)) &&
                annualRevenue == old(annualRevenue) && annualCost == old(annualCost)
      ensures CanPad(old(annualRevenue), projectLifespanYears) ==>
                annualRevenue == Padded(old(annualRevenue), projectLifespanYears)
      ensures CanPad(old(annualRevenue), projectLifespanYears) &&
              !CanPad(old(annualCost), projectLifespanYears) ==>
                outcome == Err(IndexError(AnnualCost)) && annualCost == old(annualCost)
      ensures CanPad(old(annualRevenue), projectLifespanYears) &&
              CanPad(old(annualCost), projectLifespanYears) ==>
                outcome == Ok(()) && annualCost == Padded(old(annualCost), projectLifespanYears)
    {
      var T := projectLifespanYears;
      if |annualRevenue| < T {
        if annualRevenue == [] {
          return Err(IndexError(AnnualRevenue));
        }
        annualRevenue := annualRevenue + Repeat(annualRevenue[|annualRevenue| - 1], T - |annualRevenue|);
      }
      if |annualCost| < T {
        if annualCost == [] {
          return Err(IndexError(AnnualCost));
        }
        annualCost := annualCost + Repeat(annualCost[|annualCost| - 1], T - |annualCost|);
      }
      return Ok(());
    }
  }

  /** Year 0 is the outlay -I; year i in 1..T is the after-tax net flow of
      revenue[i-1] and cost[i-1]. Entries past the lifespan are never read. */
  method BuildCashFlows(investment: real, revenue: seq<real>, cost: seq<real>,
                        taxRate: real, lifespan: int) returns (cf: seq<real>)
    requires |revenue| >= Years(lifespan) && |cost| >= Years(lifespan)
    ensures |cf| == Years(lifespan) + 1
    ensures cf[0] == -investment
    ensures forall i :: 1 <= i <= Years(lifespan) ==>
              cf[i] == NetCashFlow(revenue[i - 1], cost[i - 1], taxRate)
  {
    cf := [-investment];
    for i := 0 to Years(lifespan)
      invariant |cf| == i + 1
      invariant cf[0] == -investment
      invariant forall j :: 1 <= j <= i ==> cf[j] == NetCashFlow(revenue[j - 1], cost[j - 1], taxRate)
    {
      var netIncome := revenue[i] - cost[i];
      var ncf := netIncome * (1.0 - taxRate);
      cf := cf + [ncf];
    }
  }

  /** Year 0 is copied as is; year i >= 1 is divided by (1 + k)^i. */
  method Discount(cf: seq<real>, k: real) returns (d: seq<real>)
    requires |cf| > 0 && 1.0 + k != 0.0
    ensures IsDiscountOf(d, cf, k)
  {
    d := [cf[0]];
    for i := 1 to |cf|
      invariant |d| == i
      invariant d[0] == cf[0]
      invariant forall j :: 1 <= j < i ==> d[j] == cf[j] / Pow(1.0 + k, j)
    {
      d := d + [cf[i] / Pow(1.0 + k, i)];
    }
  }

  /** `m` is what the engine computes from these inputs, with `revenue` and
      `cost` the already padded lists: the cash-flow shape, the NPV by its
      definition, the discounted series, both running sums, and PP and DPP
      as first-crossing values. */
  ghost predicate IsMetricsOf(m: Metrics, investment: real, lifespan: int, revenue: seq<real>,
                              cost: seq<real>, waccPercent: real, taxRatePercent: real)
    requires waccPercent != -100.0
  {
    var T := Years(lifespan);
    var k := waccPercent / 100.0;
    && |revenue| >= T && |cost| >= T
    && m.lifespan == lifespan && m.investment == investment && m.wacc == k
    && |m.cashFlows| == T + 1
    && m.cashFlows[0] == -investment
    && (forall i :: 1 <= i <= T ==>
          m.cashFlows[i] == NetCashFlow(revenue[i - 1], cost[i - 1], taxRatePercent / 100.0))
    && m.npv == Npv(k, m.cashFlows)
    && IsDiscountOf(m.discounted, m.cashFlows, k)
    && m.cumulative == PrefixSums(m.cashFlows)
    && m.cumulativeDiscounted == PrefixSums(m.discounted)
    && m.pp == PaybackOf(m.cashFlows, m.cumulative)
    && m.dpp == PaybackOf(m.discounted, m.cumulativeDiscounted)
  }

  /** What follows from the definition of the metrics: the last discounted
      running sum is the NPV; with a positive investment neither payback
      divides by zero and each defined one lies in (0, T]; at a zero rate the
      discounted series is the nominal one and DPP equals PP. */
  lemma MetricsFacts(m: Metrics, investment: real, lifespan: int, revenue: seq<real>,
                     cost: seq<real>, waccPercent: real, taxRatePercent: real)
    requires waccPercent != -100.0
    requires IsMetricsOf(m, investment, lifespan, revenue, cost, waccPercent, taxRatePercent)
    ensures m.cumulativeDiscounted[Years(lifespan)] == m.npv
    ensures investment > 0.0 ==>
              && m.pp != DivisionByZero && m.dpp != DivisionByZero
              && (m.pp.Period? ==> 0.0 < m.pp.years <= Years(lifespan) as real)
              && (m.dpp.Period? ==> 0.0 < m.dpp.years <= Years(lifespan) as real)
    ensures waccPercent == 0.0 ==> m.discounted == m.cashFlows && m.dpp == m.pp
  {
    DiscountedSumIsNpv(m.discounted, m.cashFlows, m.wacc);
    if investment > 0.0 {
      PaybackBounds(m.cashFlows);
      PaybackBounds(m.discounted);
    }
    if waccPercent == 0.0 {
      ZeroRateDiscountIsIdentity(m.discounted, m.cashFlows);
    }
  }

  /** Steps 2 to 6 of the engine, on lists already padded to the lifespan. */
  method ComputeMetrics(investment: real, lifespan: int, revenue: seq<real>, cost: seq<real>,
                        waccPercent: real, taxRatePercent: real) returns (m: Metrics)
    requires |revenue| >= Years(lifespan) && |cost| >= Years(lifespan)
    requires waccPercent != -100.0
    ensures IsMetricsOf(m, investment, lifespan, revenue, cost, waccPercent, taxRatePercent)
  {
    var k := waccPercent / 100.0;
    var taxRate := taxRatePercent / 100.0;

    var cashFlows := BuildCashFlows(investment, revenue, cost, taxRate, lifespan);
    var npv := Npv(k, cashFlows);

    var cumulative := PrefixSums(cashFlows);
    var pp := FirstCrossing(cashFlows, cumulative);

    var discounted := Discount(cashFlows, k);
    var cumulativeDiscounted := PrefixSums(discounted);
    var dpp := FirstCrossing(discounted, cumulativeDiscounted);

    m := Metrics(npv, pp, dpp, cashFlows, discounted, cumulative, cumulativeDiscounted,
                 lifespan, investment, k);
  }

  /** The whole engine: pads `data`'s lists in place (the only state it
      changes), then computes the metrics from the padded lists. */
  method CalculateMetrics(data: FinancialInputs) returns (result: Result<Metrics>)
    requires data.waccPercent != -100.0
    modifies data`annualRevenue, data`annualCost
    ensures result.Err? <==>
              !CanPad(old(data.annualRevenue), data.projectLifespanYears) ||
              !CanPad(old(data.annualCost), data.projectLifespanYears)
    ensures result.Err? ==>
              data.annualCost == old(data.annualCost) &&
              if !CanPad(old(data.annualRevenue), data.projectLifespanYears) then
                result.error == IndexError(AnnualRevenue) &&
                data.annualRevenue == old(data.annualRevenue)
              else
                result.error == IndexError(AnnualCost) &&
                data.annualRevenue == Padded(old(data.annualRevenue), data.projectLifespanYears)
    ensures result.Ok? ==>
              data.annualRevenue == Padded(old(data.annualRevenue), data.projectLifespanYears) &&
              data.annualCost == Padded(old(data.annualCost), data.projectLifespanYears)
    ensures result.Ok? ==>
              IsMetricsOf(result.value, data.investmentCapital, data.projectLifespanYears,
                          data.annualRevenue, data.annualCost, data.waccPercent, data.taxRatePercent)
    ensures result.Ok? && data.investmentCapital > 0.0 ==>
              var m := result.value;
              var T := Years(data.projectLifespanYears);
              && m.pp != DivisionByZero && m.dpp != DivisionByZero
              && (m.pp.Period? ==> 0.0 < m.pp.years <= T as real)
              && (m.dpp.Period? ==> 0.0 < m.dpp.years <= T as real)
    ensures result.Ok? && data.waccPercent == 0.0 ==>
              result.value.discounted == result.value.cashFlows && result.value.dpp == result.value.pp
  {
    var padded := data.PadToLifespan();
    if padded.Err? {
      return Err(padded.error);
    }
    var m := ComputeMetrics(data.investmentCapital, data.projectLifespanYears, data.annualRevenue,
                            data.annualCost, data.waccPercent, data.taxRatePercent);
    MetricsFacts(m, data.investmentCapital, data.projectLifespanYears, data.annualRevenue,
                 data.annualCost, data.waccPercent, data.taxRatePercent);
    result := Ok(m);
  }
}
