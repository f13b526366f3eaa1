# AWS cost analyzer — a Dafny model of its report logic

This project models the report-building logic of `AWSCostAnalyzer` in
`backend/aws_costanalyzer.py`. That logic turns raw Cost Explorer, EC2 and RDS
responses into six report parts:

- a per-service cost breakdown, highest first (`get_cost_by_service`);
- one cost row per day (`get_daily_costs`);
- a total and a daily average of the cost forecast (`get_forecast_summary`);
- four lists of idle resources: stopped EC2 instances, unattached EBS volumes,
  unassociated Elastic IPs and stopped RDS instances (`identify_unused_resources`);
- at most one savings recommendation per non-empty list
  (`get_optimization_recommendations`);
- a monthly summary that combines all of the above and adds up the savings it
  reads back out of the recommendation texts (`get_monthly_summary`).

Each AWS response is an input value: `Responses.CostAndUsage`,
`Responses.CostForecast` and `Responses.Inventory`. A fetch that failed and
returned `{}` has its results field set to `None`. A missing key read with
`.get(key, [])` is an `Option` that reads as the empty list. An inventory
query that raised is `Fetch.FetchFailed`.

Modules, in dependency order:

- `Wrappers`: `Option`, plus the `Outcome` of an operation whose Python code
  can raise.
- `Responses`: the boto3 response shapes that the analyzer reads.
- `Text`: decimal digits, the `~$D.CC/month` savings text and its parser, and
  Python's `str.replace` and substring test.
- `CostAggregation`: the service breakdown, with Python's stable descending
  sort spelled out, and the daily series. It holds the two loops as methods.
- `Forecast`: the forecast summary.
- `ResourceAudit`: the four filters, including the early return after a failed
  fetch. It holds the loop method.
- `Recommendations`: the four recommendation builders and the method that
  appends them.
- `MonthlySummary`: the summary, the savings sum and the method that builds
  the summary from the other operations.

Costs are `real`. Savings are whole cents (8 cents per GB of EBS, 360 cents per
Elastic IP), so the sum reads back exactly. The Python code sorts with
`sorted(..., reverse=True)`. The model writes that as a stable insertion sort.
Its stability is stated as follows: for every cost value `c`, the entries that
cost exactly `c` keep their relative order (`WithCost`).

The model follows the code as written; in particular:

- The average daily cost is the total divided by 30, not by the number of
  elapsed days. When the daily list is empty it is 0.
- Services that cost the same are not ordered by name. They keep the order in
  which they were first seen.
- Recommendations come in the fixed order EC2, EBS, Network, RDS. They are not
  sorted by severity or by savings (`Recommendations.NotSortedBySeverity`).
- The forecast is the upstream one summed up. There is no local projection, no
  clamping of negative values and no minimum-history failure. With a horizon of
  0 days the division raises; nothing in the analyzer catches it, and the
  exception reaches the analyzer's caller.
- The unused EC2 and EBS lists rely on the server-side filters of the two
  queries (`instance-state-name = stopped`, `status = available`). Every instance
  and volume returned is therefore listed.

## Model

| member | source | states |
|---|---|---|
| CostAggregation.CostByService | backend/aws_costanalyzer.py:89-98 | the nested accumulation loop followed by the sort yields the breakdown: sorted by cost, non-increasing, each service's cost equal to the sum of its amounts over every group |
| CostAggregation.BreakdownCosts | backend/aws_costanalyzer.py:91-96 | every listed service costs the sum of its UnblendedCost amounts, both over all groups and computed day by day |
| CostAggregation.BreakdownServices | backend/aws_costanalyzer.py:91-96 | a service is listed iff it occurs in some group |
| CostAggregation.BreakdownDistinct | backend/aws_costanalyzer.py:96 | each service is listed once (dict keys) |
| CostAggregation.BreakdownOfMissingResults | backend/aws_costanalyzer.py:91 | without `ResultsByTime` the breakdown is empty |
| CostAggregation.BreakdownOrder | backend/aws_costanalyzer.py:98 | the breakdown is sorted by cost, is a permutation of the accumulated dict items, and keeps tied services in first-seen order |
| CostAggregation.SortByCostDescFacts | backend/aws_costanalyzer.py:98 | the stable descending sort: sorted, a permutation, every tie class in its input order, and the same sum |
| CostAggregation.FirstSeenKeys | backend/aws_costanalyzer.py:96 | dict insertion order: the keys are distinct and are exactly the services seen |
| CostAggregation.AddGroup | backend/aws_costanalyzer.py:94-96 | one dict update `service_costs[s] = service_costs.get(s, 0) + cost` keeps the keys in first-seen order and each total equal to its service's sum |
| CostAggregation.AddBucket | backend/aws_costanalyzer.py:93-96 | the inner loop over one bucket's groups keeps the dict's keys in first-seen order and each total equal to its service's sum over every group seen so far |
| CostAggregation.AccumulatedSum | backend/aws_costanalyzer.py:91-96 | the accumulated totals add up to the sum of all amounts |
| CostAggregation.ServiceTotalIsSumOfDays | backend/aws_costanalyzer.py:92-96 | a service's total over all groups equals the sum of its per-day totals |
| CostAggregation.AllGroupsMembership | backend/aws_costanalyzer.py:92-93 | a group is visited iff it belongs to some time bucket |
| CostAggregation.DailyCosts | backend/aws_costanalyzer.py:111-125 | one row per `ResultsByTime` element, in input order; each row has its bucket's start date and the sum of its group amounts |
| CostAggregation.DailySumIsTotal | backend/aws_costanalyzer.py:114-123 | the daily costs add up to the sum of all amounts |
| CostAggregation.TotalsAgree | backend/aws_costanalyzer.py:89-125 | for one response, the breakdown total, the daily total and the sum of all amounts agree |
| Forecast.GetForecastSummary | backend/aws_costanalyzer.py:164-178 | no `ForecastResultsByTime` gives `{}`; otherwise the total is the sum of the MeanValues, `days` is the horizon and average times days is the total; a zero horizon raises |
| Forecast.ForecastNonNegative | backend/aws_costanalyzer.py:169-177 | with no negative mean value the total and, for a positive horizon, the average are not negative |
| ResourceAudit.Audit | backend/aws_costanalyzer.py:187-247 | the checks run in the order EC2, EBS, EIP, RDS; a failed fetch leaves every later list empty and still returns the lists filled so far; when all fetches succeed, all four lists are filled |
| ResourceAudit.IdentifyUnusedResources | backend/aws_costanalyzer.py:187-247 | the four append loops and the early exit on a failed fetch compute the audit |
| ResourceAudit.InstanceRowsAt | backend/aws_costanalyzer.py:201-207 | one reservation's instances give one row each, at their own position, with id, type, state and launch time |
| ResourceAudit.StoppedInstanceRowsConcat | backend/aws_costanalyzer.py:200-207 | the EC2 rows of two runs of reservations are the rows of the first followed by those of the second, so the list keeps the inventory's order |
| ResourceAudit.VolumeRowsAt | backend/aws_costanalyzer.py:214-220 | the EBS list is every returned volume, in order, with its id, size, type and creation time |
| ResourceAudit.UnassociatedAddressesMembers | backend/aws_costanalyzer.py:225-230 | an Elastic IP is listed iff it has no AssociationId; its allocation id defaults to "N/A" |
| ResourceAudit.UnassociatedAddressesConcat | backend/aws_costanalyzer.py:225-230 | the Elastic IP rows of two runs of addresses are those of the first followed by those of the second, so the list keeps the inventory's order |
| ResourceAudit.StoppedDatabasesMembers | backend/aws_costanalyzer.py:235-242 | an RDS instance is listed iff its status is "stopped" |
| ResourceAudit.StoppedDatabasesConcat | backend/aws_costanalyzer.py:235-242 | the RDS rows of two runs of instances are those of the first followed by those of the second, so the list keeps the inventory's order |
| Recommendations.Ec2Recommendation | backend/aws_costanalyzer.py:260-270 | category EC2, severity HIGH, the instance ids in order, and the fixed note "Varies by instance type" as savings |
| Recommendations.EbsRecommendation | backend/aws_costanalyzer.py:273-287 | category EBS, severity MEDIUM, the volume ids in order, the total size as the sum of the volume sizes, and a monthly estimate of 8 cents per GB of that size |
| Recommendations.NetworkRecommendation | backend/aws_costanalyzer.py:290-303 | category Network, severity LOW, the IPs in order, and a monthly estimate of 360 cents per IP |
| Recommendations.RdsRecommendation | backend/aws_costanalyzer.py:306-316 | category RDS, severity HIGH, the database ids in order, and the fixed note "Varies by instance class" as savings |
| Recommendations.RecommendationsShape | backend/aws_costanalyzer.py:256-318 | one recommendation per non-empty list, so at most four, in the order EC2, EBS, Network, RDS; empty lists give none |
| Recommendations.RecommendationsByCategory | backend/aws_costanalyzer.py:260-316 | the recommendation of a category is the one built from that category's list |
| Recommendations.RecommendationsPresence | backend/aws_costanalyzer.py:260-316 | a category's recommendation is present iff its list is non-empty |
| Recommendations.NotSortedBySeverity | backend/aws_costanalyzer.py:290-318 | with only Elastic IPs and RDS instances unused, the LOW recommendation comes before the HIGH one |
| Recommendations.GetOptimizationRecommendations | backend/aws_costanalyzer.py:256-318 | the conditional appends after the audit build the audit's recommendation list |
| Recommendations.TitleReadsBack | backend/aws_costanalyzer.py:265 | a title starts with the number of resources in decimal, closed by a space, and those digits read back as that number (likewise at lines 282, 298 and 311) |
| Recommendations.EbsSizeReadsBack | backend/aws_costanalyzer.py:283 | the EBS description carries the total size in decimal after "N EBS volumes (", and it reads back as that size |
| Recommendations.SavingsTextReadsBack | backend/aws_costanalyzer.py:340-344 | a fixed note without '/' does not contain "/month"; a monthly estimate's text contains "/month" and, stripped of "~$" and "/month", reads back as its cents |
| Text.MonthlyRoundTrip | backend/aws_costanalyzer.py:285 | a savings text written as `~$D.CC/month` contains "/month", stripping "~$" and "/month" leaves the number, and reading it gives the amount back |
| Text.ParseCentsOfFormatCents | backend/aws_costanalyzer.py:341 | reading a written amount back gives the amount |
| Text.ParseDigitsOfDigits | backend/aws_costanalyzer.py:341 | reading decimal digits back gives the number |
| Text.ReplaceWithoutFirstChar | backend/aws_costanalyzer.py:341 | `str.replace` leaves a text that never shows the pattern's first character unchanged |
| Text.ReplaceAfterFreePrefix | backend/aws_costanalyzer.py:341 | `str.replace` over `a + b`, where `a` never shows the pattern's first character, keeps `a` and replaces only within `b` |
| Text.StripPrefix | backend/aws_costanalyzer.py:341 | `.replace('~$', '')` on `~$<amount>/month`, when the amount shows no '~', leaves `<amount>/month` |
| Text.StripSuffix | backend/aws_costanalyzer.py:341 | `.replace('/month', '')` on `<amount>/month`, when the amount shows no '/', leaves the amount |
| Text.ContainsSuffix | backend/aws_costanalyzer.py:343 | a text ending in a pattern contains it |
| Text.NotContainsWithoutFirstChar | backend/aws_costanalyzer.py:343 | a text that never shows a pattern's first character does not contain the pattern |
| MonthlySummary.SumSavingsConcat | backend/aws_costanalyzer.py:340-344 | the savings sum over two lists of terms is the sum of their sums, and raises iff one of them raises |
| MonthlySummary.SavingsOfText | backend/aws_costanalyzer.py:340-344 | a recommendation adds its cents when its savings are a monthly estimate, and 0 when they are a note without '/' |
| MonthlySummary.SlotsCombine | backend/aws_costanalyzer.py:340-344 | the savings of four consecutive parts of the list add up, when the outer two add nothing |
| MonthlySummary.Ec2SlotSavings | backend/aws_costanalyzer.py:260-270 | the EC2 recommendation, if any, adds nothing to the savings sum |
| MonthlySummary.EbsSlotSavings | backend/aws_costanalyzer.py:273-287 | the EBS recommendation adds 8 cents per GB when there are unattached volumes, and nothing otherwise |
| MonthlySummary.NetworkSlotSavings | backend/aws_costanalyzer.py:290-303 | the Network recommendation adds 360 cents per IP when there are unassociated IPs, and nothing otherwise |
| MonthlySummary.RdsSlotSavings | backend/aws_costanalyzer.py:306-316 | the RDS recommendation, if any, adds nothing to the savings sum |
| MonthlySummary.RecommendationSavings | backend/aws_costanalyzer.py:340-344 | over the audit's recommendations the sum never raises and equals the EBS estimate plus the Elastic IP estimate |
| MonthlySummary.SummaryNeverRaises | backend/aws_costanalyzer.py:328-358 | with the 30-day horizon the summary always returns a value |
| MonthlySummary.TotalAndAverage | backend/aws_costanalyzer.py:332-333 | the total is the sum of all amounts of the cost response; the average is total/30 when the daily list is non-empty, and 0 otherwise |
| MonthlySummary.TopServices | backend/aws_costanalyzer.py:350 | the top services are the first min(5, n) breakdown entries, each costing at least as much as any entry left out |
| MonthlySummary.TotalMatchesDailySeries | backend/aws_costanalyzer.py:332 | when both cost fetches return the same response, the total equals the sum of the daily costs |
| MonthlySummary.DailyTrendFacts | backend/aws_costanalyzer.py:358 | the trend is the last min(7, n) daily rows, in order |
| MonthlySummary.OptimizationFacts | backend/aws_costanalyzer.py:336-356 | the forecast part is the 30-day forecast summary; the recommendations are the audit's, there are at most four of them, and their savings are the EBS plus Elastic IP estimates |
| MonthlySummary.GetMonthlySummary | backend/aws_costanalyzer.py:320-359 | calling the analyzer's own operations and putting their results together gives the summary, which is never an error |

## Left out

- The boto3 clients and `__init__` (backend/aws_costanalyzer.py:14-46) are left out because they are network clients. So are the two live queries
  `get_cost_and_usage` and `forecast_costs` (lines 48-76 and 127-152). What they
  return is an input value, including the `{}` they return after an exception.
- The `datetime.now()` window arithmetic (lines 58-59 and 137-138) is left out because it depends on the wall clock. The
  `.isoformat()` of launch and creation times is left out too: the model takes them as strings.
- Floating point is left out. Amount strings are taken as already parsed into `real`s, and `round(..., 2)` is not applied, so each total, average and daily
  cost is exact.
- Recommendations.EbsRecommendation and Recommendations.NetworkRecommendation: the savings
  text is written with exactly two decimals (`~$0.80/month`). Python writes the float repr of the rounded value (`~$0.8/month`). The
  parser reads back exactly what the model writes. Python's `float()` would also accept the shorter form.
- Recommendations.Recommendation.Action and the fixed wording of `Title` and `Description`: these hold the exact strings of the source. They are presentation text that no part of the analyzer reads back, so the only contracts about them are the numbers they carry (`TitleReadsBack`, `EbsSizeReadsBack`).
- MonthlySummary.PotentialSavings: the savings are summed in whole cents, not as a float, and the result is not rounded.
- A missing required key (`group['Keys']`, `instance['InstanceId']`, and so on) would raise
  `KeyError`. The input datatypes always hold those keys, so the model has no such path. An
  exception thrown inside one of the audit loops after some appends is not
  modelled either. Only a failed query, before its loop, is.
- The server-side `Filters` of `describe_instances` and `describe_volumes` are left out because the query runs upstream. The
  responses are taken to hold only stopped instances and available volumes.
- The `print` calls in the exception handlers and `main()` (lines 362-372) are left out because they are output only.
- backend/server.py (HTTP routing) and test_agent.py (a live smoke script) are not part of this model.
