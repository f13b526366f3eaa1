/**
 * get_monthly_summary: the 30-day cost breakdown, the daily series, the
 * forecast and the optimization recommendations combined into one report.
 * Each of the four parts comes from its own fetch, so the model takes the
 * four responses separately.
 */
module MonthlySummary {
  import opened Wrappers
  import opened Responses
  import opened Text
  import opened CostAggregation
  import opened Forecast
  import opened ResourceAudit
  import opened Recommendations

  /** The period of the summary and of its forecast, in days. */
  const SummaryDays := 30
  /** How many services `top_services` keeps. */
  const TopServiceCount := 5
  /** How many days `daily_trend` keeps. */
  const TrendDays := 7

  /** The `current_month` dict (rounding aside). */
  datatype CurrentMonth = CurrentMonth(totalCost: real, avgDailyCost: real, topServices: seq<ServiceCost>)

  /** The `optimization` dict; the potential savings are in cents. */
  datatype Optimization = Optimization(
    totalRecommendations: nat,
    potentialMonthlySavingsCents: nat,
    recommendations: seq<Recommendation>)

  /** The summary dict. */
  datatype Summary = Summary(
    currentMonth: CurrentMonth,
    forecast: ForecastReport,
    optimization: Optimization,
    dailyTrend: seq<DailyCost>)

  function Min(a: nat, b: nat): nat
  {
    if a <= b then a else b
  }

  /**
   * The savings of one recommendation: nothing when its text has no "/month";
   * otherwise the text with "~$" and "/month" removed, read as a number. `None`
   * is the ValueError `float` raises on text that is not a number.
   */
  function SavingsOf(r: Recommendation): Option<nat>
  {
    var text := r.potentialSavings.Shown();
    if !Contains(text, MonthlySuffix) then Some(0) else ParseCents(StripMonthly(text))
  }

  /** Adds one term to the running sum; a term that raised makes the whole sum raise. */
  function AddSavings(acc: Option<nat>, term: Option<nat>): Option<nat>
  {
    if acc.Some? && term.Some? then Some(acc.value + term.value) else None
  }

  /** The sum of the terms, left to right; `None` when one of them raised. */
  function SumSavings(terms: seq<Option<nat>>): Option<nat>
  {
    if terms == [] then Some(0) else AddSavings(SumSavings(terms[..|terms| - 1]), terms[|terms| - 1])
  }

  /** The terms of the savings sum, one per recommendation. */
  function SavingsTerms(recs: seq<Recommendation>): seq<Option<nat>>
  {
    seq(|recs|, i requires 0 <= i < |recs| => SavingsOf(recs[i]))
  }

  /** `sum(float(...) for rec in recs if '/month' in ...)`, in cents; `None` when one term raises. */
  function PotentialSavings(recs: seq<Recommendation>): Option<nat>
  {
    SumSavings(SavingsTerms(recs))
  }

  /** The parts of the summary put together, once the forecast and the recommendations are known. */
  function Compose(costs: seq<ServiceCost>, daily: seq<DailyCost>, forecast: ForecastReport,
                   recs: seq<Recommendation>): Outcome<Summary>
  {
    match PotentialSavings(recs)
    case None => Raised(InvalidNumber)
    case Some(savings) =>
      var total := SumCosts(costs);
      var avg := if |daily| > 0 then total / (SummaryDays as real) else 0.0;
      var top := costs[..Min(TopServiceCount, |costs|)];
      var trend := daily[|daily| - Min(TrendDays, |daily|)..];
      Ok(Summary(CurrentMonth(total, avg, top), forecast, Optimization(|recs|, savings, recs), trend))
  }

  /**
   * get_monthly_summary over the cost response of get_cost_by_service, the cost
   * response of get_daily_costs, the forecast response and the inventory.
   */
  function MonthlySummary(costCurrent: CostAndUsage, costDaily: CostAndUsage, forecast: CostForecast,
                          inv: Inventory): Outcome<Summary>
  {
    match GetForecastSummary(forecast, SummaryDays)
    case Raised(e) => Raised(e)
    case Ok(report) =>
      Compose(Breakdown(costCurrent), DailySeries(costDaily), report, RecommendationsFor(Audit(inv)))
  }

  // ----- the savings sum -----

  /** The sum over `x + y` is the sum over `x` plus the sum over `y`, and raises iff one of them does. */
  lemma {:induction false} SumSavingsConcat(x: seq<Option<nat>>, y: seq<Option<nat>>)
    ensures SumSavings(x + y) == AddSavings(SumSavings(x), SumSavings(y))
    decreases |y|
  {
    if y == [] {
      assert x + y == x;
    } else {
      var y' := y[..|y| - 1];
      assert (x + y)[..|x + y| - 1] == x + y';
      assert (x + y)[|x + y| - 1] == y[|y| - 1];
      SumSavingsConcat(x, y');
    }
  }

  lemma SavingsTermsConcat(a: seq<Recommendation>, b: seq<Recommendation>)
    ensures SavingsTerms(a + b) == SavingsTerms(a) + SavingsTerms(b)
  {
    assert forall i :: 0 <= i < |a| ==> (a + b)[i] == a[i];
    assert forall i :: |a| <= i < |a + b| ==> (a + b)[i] == b[i - |a|];
  }

  /** The slot of one category: its savings when the list is non-empty, nothing otherwise. */
  function SlotSavings(present: bool, cents: nat): nat
  {
    if present then cents else 0
  }

  /** A slot of at most one recommendation adds that recommendation's savings, or nothing when it is empty. */
  lemma SlotTerms(x: seq<Recommendation>, cents: nat)
    requires |x| <= 1 && (x != [] ==> SavingsOf(x[0]) == Some(cents))
    ensures SumSavings(SavingsTerms(x)) == Some(SlotSavings(x != [], cents))
  {
    var ts := SavingsTerms(x);
    if x != [] {
      assert ts == [Some(cents)];
      assert ts[..0] == [];
    } else {
      assert ts == [];
    }
  }

  /** A savings note without '/' adds nothing; a monthly estimate adds its cents. */
  lemma SavingsOfText(r: Recommendation)
    requires r.potentialSavings.Varies? ==> '/' !in r.potentialSavings.note
    ensures SavingsOf(r) == Some(if r.potentialSavings.Monthly? then r.potentialSavings.cents else 0)
  {
    SavingsTextReadsBack(r.potentialSavings);
  }

  /** The sums of four parts add up, when none raises and the outer two are zero. */
  lemma SumOfFourParts(x: seq<Option<nat>>, y: seq<Option<nat>>, z: seq<Option<nat>>, w: seq<Option<nat>>,
                       cy: nat, cz: nat)
    requires SumSavings(x) == Some(0) && SumSavings(y) == Some(cy)
    requires SumSavings(z) == Some(cz) && SumSavings(w) == Some(0)
    ensures SumSavings(x + y + z + w) == Some(cy + cz)
  {
    SumSavingsConcat(x, y);
    SumSavingsConcat(x + y, z);
    SumSavingsConcat(x + y + z, w);
  }

  /** The savings of a list made of four parts are the savings of the parts added up. */
  lemma SlotsCombine(r: seq<Recommendation>,
                     a: seq<Recommendation>, b: seq<Recommendation>, c: seq<Recommendation>, d: seq<Recommendation>,
                     cb: nat, cc: nat)
    requires r == a + b + c + d
    requires PotentialSavings(a) == Some(0) && PotentialSavings(b) == Some(cb)
    requires PotentialSavings(c) == Some(cc) && PotentialSavings(d) == Some(0)
    ensures PotentialSavings(r) == Some(cb + cc)
  {
    SavingsTermsConcat(a, b);
    SavingsTermsConcat(a + b, c);
    SavingsTermsConcat(a + b + c, d);
    SumOfFourParts(SavingsTerms(a), SavingsTerms(b), SavingsTerms(c), SavingsTerms(d), cb, cc);
  }

  /** The EC2 note has no "/month": its slot adds nothing. */
  lemma Ec2SlotSavings(u: Unused)
    ensures PotentialSavings(Ec2Slot(u)) == Some(0)
  {
    assert '/' !in Ec2Savings;
    SavingsOfText(Ec2Recommendation(u.ec2Instances));
    SlotTerms(Ec2Slot(u), 0);
  }

  /** The EBS slot adds the EBS estimate when there are unattached volumes. */
  lemma EbsSlotSavings(u: Unused)
    ensures PotentialSavings(EbsSlot(u)) == Some(SlotSavings(u.ebsVolumes != [], EbsSavingsCents(u.ebsVolumes)))
  {
    SavingsOfText(EbsRecommendation(u.ebsVolumes));
    SlotTerms(EbsSlot(u), EbsSavingsCents(u.ebsVolumes));
  }

  /** The Network slot adds the Elastic IP estimate when there are unassociated addresses. */
  lemma NetworkSlotSavings(u: Unused)
    ensures PotentialSavings(NetworkSlot(u)) == Some(SlotSavings(u.elasticIps != [], EipSavingsCents(u.elasticIps)))
  {
    SavingsOfText(NetworkRecommendation(u.elasticIps));
    SlotTerms(NetworkSlot(u), EipSavingsCents(u.elasticIps));
  }

  /** The RDS note has no "/month": its slot adds nothing. */
  lemma RdsSlotSavings(u: Unused)
    ensures PotentialSavings(RdsSlot(u)) == Some(0)
  {
    assert '/' !in RdsSavings;
    SavingsOfText(RdsRecommendation(u.rdsInstances));
    SlotTerms(RdsSlot(u), 0);
  }

  /**
   * The recommendations of an audit never make the sum raise, and their
   * savings are the EBS estimate (8 cents per GB) plus the Elastic IP estimate
   * (360 cents per IP); the EC2 and RDS texts contribute nothing.
   */
  lemma RecommendationSavings(u: Unused)
    ensures PotentialSavings(RecommendationsFor(u)) ==
              Some(SlotSavings(u.ebsVolumes != [], EbsSavingsCents(u.ebsVolumes))
                   + SlotSavings(u.elasticIps != [], EipSavingsCents(u.elasticIps)))
  {
    Ec2SlotSavings(u);
    EbsSlotSavings(u);
    NetworkSlotSavings(u);
    RdsSlotSavings(u);
    SlotsCombine(RecommendationsFor(u), Ec2Slot(u), EbsSlot(u), NetworkSlot(u), RdsSlot(u),
                 SlotSavings(u.ebsVolumes != [], EbsSavingsCents(u.ebsVolumes)),
                 SlotSavings(u.elasticIps != [], EipSavingsCents(u.elasticIps)));
  }

  // ----- what the summary promises -----

  /** With a 30-day horizon the forecast never divides by zero and the savings never fail to parse. */
  lemma SummaryNeverRaises(costCurrent: CostAndUsage, costDaily: CostAndUsage, forecast: CostForecast, inv: Inventory)
    ensures MonthlySummary(costCurrent, costDaily, forecast, inv).Ok?
  {
    RecommendationSavings(Audit(inv));
  }

  /** The average over the period, times the period, gives the total back. */
  lemma AverageTimesDays(total: real)
    ensures (total / (SummaryDays as real)) * (SummaryDays as real) == total
  {
  }

  /**
   * The current month's total is the sum of every UnblendedCost amount of the
   * cost response, and its average is that total over 30 days (0 when the
   * daily series is empty).
   */
  lemma TotalAndAverage(costCurrent: CostAndUsage, costDaily: CostAndUsage, forecast: CostForecast, inv: Inventory)
    ensures MonthlySummary(costCurrent, costDaily, forecast, inv).Ok?
    ensures
      var m := MonthlySummary(costCurrent, costDaily, forecast, inv).value.currentMonth;
      && m.totalCost == SumAmounts(AllGroups(Buckets(costCurrent)))
      && (if DailySeries(costDaily) == [] then m.avgDailyCost == 0.0 else m.avgDailyCost * (SummaryDays as real) == m.totalCost)
  {
    SummaryNeverRaises(costCurrent, costDaily, forecast, inv);
    TotalsAgree(costCurrent);
    AverageTimesDays(SumCosts(Breakdown(costCurrent)));
  }

  /**
   * `top_services` holds the five most expensive services (fewer when there are
   * fewer), in the breakdown's order, each costing at least as much as any
   * service left out.
   */
  lemma TopServices(costCurrent: CostAndUsage, costDaily: CostAndUsage, forecast: CostForecast, inv: Inventory)
    ensures MonthlySummary(costCurrent, costDaily, forecast, inv).Ok?
    ensures
      var top := MonthlySummary(costCurrent, costDaily, forecast, inv).value.currentMonth.topServices;
      var all := Breakdown(costCurrent);
      && |top| == Min(TopServiceCount, |all|)
      && (forall k :: 0 <= k < |top| ==> top[k] == all[k])
      && (forall i, j :: 0 <= i < |top| <= j < |all| ==> top[i].cost >= all[j].cost)
  {
    SummaryNeverRaises(costCurrent, costDaily, forecast, inv);
    BreakdownOrder(costCurrent);
    var top := MonthlySummary(costCurrent, costDaily, forecast, inv).value.currentMonth.topServices;
    var all := Breakdown(costCurrent);
    assert top == all[..Min(TopServiceCount, |all|)];
  }

  /** When the two cost fetches return the same response, the total is the sum of the daily costs. */
  lemma TotalMatchesDailySeries(data: CostAndUsage, forecast: CostForecast, inv: Inventory)
    ensures MonthlySummary(data, data, forecast, inv).Ok?
    ensures MonthlySummary(data, data, forecast, inv).value.currentMonth.totalCost == SumDaily(DailySeries(data))
  {
    SummaryNeverRaises(data, data, forecast, inv);
    TotalsAgree(data);
  }

  /** `daily_costs[-7:]`: the last seven days of the series, or all of it when it is shorter. */
  lemma DailyTrendFacts(costCurrent: CostAndUsage, costDaily: CostAndUsage, forecast: CostForecast, inv: Inventory)
    ensures MonthlySummary(costCurrent, costDaily, forecast, inv).Ok?
    ensures
      var t := MonthlySummary(costCurrent, costDaily, forecast, inv).value.dailyTrend;
      var d := DailySeries(costDaily);
      && |t| == Min(TrendDays, |d|)
      && forall k :: 0 <= k < |t| ==> t[k] == d[|d| - |t| + k]
  {
    SummaryNeverRaises(costCurrent, costDaily, forecast, inv);
  }

  /**
   * The forecast part is the 30-day forecast summary, and the optimization part
   * lists the audit's recommendations, counts them (at most four) and adds up
   * their EBS and Elastic IP savings.
   */
  lemma OptimizationFacts(costCurrent: CostAndUsage, costDaily: CostAndUsage, forecast: CostForecast, inv: Inventory)
    ensures MonthlySummary(costCurrent, costDaily, forecast, inv).Ok?
    ensures
      var s := MonthlySummary(costCurrent, costDaily, forecast, inv).value;
      var u := Audit(inv);
      && Ok(s.forecast) == GetForecastSummary(forecast, SummaryDays)
      && s.optimization.recommendations == RecommendationsFor(u)
      && s.optimization.totalRecommendations == NonEmptyLists(u) <= 4
      && s.optimization.potentialMonthlySavingsCents ==
           SlotSavings(u.ebsVolumes != [], EbsSavingsCents(u.ebsVolumes))
           + SlotSavings(u.elasticIps != [], EipSavingsCents(u.elasticIps))
  {
    SummaryNeverRaises(costCurrent, costDaily, forecast, inv);
    RecommendationSavings(Audit(inv));
    RecommendationsShape(Audit(inv));
  }

  /** get_monthly_summary: each part from the analyzer's own operations, then put together. */
  method GetMonthlySummary(costCurrent: CostAndUsage, costDaily: CostAndUsage, forecast: CostForecast,
                           inv: Inventory) returns (r: Outcome<Summary>)
    ensures r == MonthlySummary(costCurrent, costDaily, forecast, inv)
    ensures r.Ok?
  {
    var costs := CostByService(costCurrent);
    var daily := DailyCosts(costDaily);
    var report := GetForecastSummary(forecast, SummaryDays);
    var recs := GetOptimizationRecommendations(inv);
    SummaryNeverRaises(costCurrent, costDaily, forecast, inv);
    r := Compose(costs, daily, report.value, recs);
  }
}
