/** get_forecast_summary: the Cost Explorer forecast reduced to a total and a daily average. */
module Forecast {
  import opened Wrappers
  import opened Responses

  /** The summary dict: `{}` when there is no forecast, otherwise its three fields (rounding aside). */
  datatype ForecastReport =
    | NoForecast
    | ForecastSummary(totalForecast: real, days: int, dailyAverage: real)

  /** `sum(float(r['MeanValue']) for r in ...)`. */
  function SumMeans(means: seq<real>): real
  {
    if means == [] then 0.0 else SumMeans(means[..|means| - 1]) + means[|means| - 1]
  }

  /**
   * get_forecast_summary over the forecast response. There is no forecast when
   * `ForecastResultsByTime` is missing (or the fetch failed); with a forecast and
   * `daysForward == 0` the division raises, and nothing in the analyzer catches it.
   */
  function GetForecastSummary(data: CostForecast, daysForward: int): (r: Outcome<ForecastReport>)
    ensures data.forecastResultsByTime.None? ==> r == Ok(NoForecast)
    ensures data.forecastResultsByTime.Some? && daysForward == 0 ==> r == Raised(ZeroDivision)
    ensures data.forecastResultsByTime.Some? && daysForward != 0 ==>
              && r.Ok? && r.value.ForecastSummary?
              && r.value.days == daysForward
              && r.value.totalForecast == SumMeans(data.forecastResultsByTime.value)
              && r.value.dailyAverage * (daysForward as real) == r.value.totalForecast
  {
    match data.forecastResultsByTime
    case None => Ok(NoForecast)
    case Some(means) =>
      var total := SumMeans(means);
      if daysForward == 0 then Raised(ZeroDivision)
      else Ok(ForecastSummary(total, daysForward, total / (daysForward as real)))
  }

  /** With no negative mean value the forecast total is not negative, nor is the daily average for a positive horizon. */
  lemma {:induction false} ForecastNonNegative(means: seq<real>, daysForward: int)
    requires forall k :: 0 <= k < |means| ==> means[k] >= 0.0
    ensures SumMeans(means) >= 0.0
    ensures daysForward > 0 ==>
              GetForecastSummary(CostForecast(Some(means)), daysForward).value.dailyAverage >= 0.0
  {
    if means != [] {
      ForecastNonNegative(means[..|means| - 1], daysForward);
    }
  }
}
