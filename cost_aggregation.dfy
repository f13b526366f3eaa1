/**
 * get_cost_by_service and get_daily_costs: the two views of one Cost
 * Explorer cost-and-usage response (daily buckets, grouped by service).
 */
module CostAggregation {
  import opened Wrappers
  import opened Responses

  /** One entry of the service breakdown (an item of the returned dict). */
  datatype ServiceCost = ServiceCost(service: string, cost: real)

  /** One row of the daily series: `{'date': ..., 'cost': ...}`. */
  datatype DailyCost = DailyCost(date: string, cost: real)

  /** `data['ResultsByTime']`, or nothing when the key is absent. */
  function Buckets(data: CostAndUsage): seq<TimeBucket>
  {
    OrEmpty(data.resultsByTime)
  }

  /** `result.get('Groups', [])`. */
  function GroupsOf(b: TimeBucket): seq<CostGroup>
  {
    OrEmpty(b.groups)
  }

  /** Every group of every bucket, in the order the nested loops visit them. */
  function AllGroups(bs: seq<TimeBucket>): seq<CostGroup>
  {
    if bs == [] then [] else AllGroups(bs[..|bs| - 1]) + GroupsOf(bs[|bs| - 1])
  }

  /** The sum of the `UnblendedCost` amounts of `gs`. */
  function SumAmounts(gs: seq<CostGroup>): real
  {
    if gs == [] then 0.0 else SumAmounts(gs[..|gs| - 1]) + gs[|gs| - 1].unblendedAmount
  }

  /** The sum of the amounts of those groups of `gs` whose service is `s`. */
  function ServiceSum(gs: seq<CostGroup>, s: string): real
  {
    if gs == [] then 0.0
    else ServiceSum(gs[..|gs| - 1], s) + (if gs[|gs| - 1].service == s then gs[|gs| - 1].unblendedAmount else 0.0)
  }

  /** The services of `gs` in order of first appearance: the key order of a Python dict filled from `gs`. */
  function FirstSeen(gs: seq<CostGroup>): seq<string>
  {
    if gs == [] then []
    else
      var ks := FirstSeen(gs[..|gs| - 1]);
      if gs[|gs| - 1].service in ks then ks else ks + [gs[|gs| - 1].service]
  }

  /** The service names of a list of groups, in order. */
  function GroupServices(gs: seq<CostGroup>): seq<string>
  {
    seq(|gs|, k requires 0 <= k < |gs| => gs[k].service)
  }

  /** The service names of a breakdown, in order. */
  function Services(xs: seq<ServiceCost>): seq<string>
  {
    seq(|xs|, k requires 0 <= k < |xs| => xs[k].service)
  }

  predicate Distinct(ks: seq<string>)
  {
    forall i, j :: 0 <= i < j < |ks| ==> ks[i] != ks[j]
  }

  /** One entry per key of `ks`, holding that key's total over `gs`. */
  function Entries(gs: seq<CostGroup>, ks: seq<string>): seq<ServiceCost>
  {
    seq(|ks|, i requires 0 <= i < |ks| => ServiceCost(ks[i], ServiceSum(gs, ks[i])))
  }

  /** The `service_costs` dict after the nested loops, as its list of items. */
  function Accumulated(gs: seq<CostGroup>): seq<ServiceCost>
  {
    Entries(gs, FirstSeen(gs))
  }

  function SumCosts(xs: seq<ServiceCost>): real
  {
    if xs == [] then 0.0 else SumCosts(xs[..|xs| - 1]) + xs[|xs| - 1].cost
  }

  // ----- sorted(..., key=cost, reverse=True) -----

  /** Places `x` before the first entry that costs no more than it: ahead of its ties. */
  function Insert(x: ServiceCost, ys: seq<ServiceCost>): seq<ServiceCost>
  {
    if ys == [] then [x]
    else if ys[0].cost <= x.cost then [x] + ys
    else [ys[0]] + Insert(x, ys[1..])
  }

  /** Python's stable `sorted(xs, key=lambda x: x[1], reverse=True)`. */
  function SortByCostDesc(xs: seq<ServiceCost>): seq<ServiceCost>
  {
    if xs == [] then [] else Insert(xs[0], SortByCostDesc(xs[1..]))
  }

  predicate SortedDesc(xs: seq<ServiceCost>)
  {
    forall i, j :: 0 <= i < j < |xs| ==> xs[i].cost >= xs[j].cost
  }

  /** The entries of `xs` that cost exactly `c`, in their order in `xs`. */
  function WithCost(xs: seq<ServiceCost>, c: real): seq<ServiceCost>
  {
    if xs == [] then [] else (if xs[0].cost == c then [xs[0]] else []) + WithCost(xs[1..], c)
  }

  /** The result of get_cost_by_service: the accumulated totals, highest first. */
  function Breakdown(data: CostAndUsage): seq<ServiceCost>
  {
    SortByCostDesc(Accumulated(AllGroups(Buckets(data))))
  }

  /** The row get_daily_costs appends for one bucket (rounding aside). */
  function DayRow(b: TimeBucket): DailyCost
  {
    DailyCost(b.start, SumAmounts(GroupsOf(b)))
  }

  /** The result of get_daily_costs. */
  function DailySeries(data: CostAndUsage): seq<DailyCost>
  {
    var bs := Buckets(data);
    seq(|bs|, i requires 0 <= i < |bs| => DayRow(bs[i]))
  }

  function SumDaily(rows: seq<DailyCost>): real
  {
    if rows == [] then 0.0 else SumDaily(rows[..|rows| - 1]) + rows[|rows| - 1].cost
  }

  /** The per-service total computed day by day: one ServiceSum per bucket, added up. */
  function DayByDayServiceSum(bs: seq<TimeBucket>, s: string): real
  {
    if bs == [] then 0.0 else DayByDayServiceSum(bs[..|bs| - 1], s) + ServiceSum(GroupsOf(bs[|bs| - 1]), s)
  }

  // ----- lemmas: accumulation -----

  /** The keys of the accumulated dict are exactly the services seen, each once. */
  lemma FirstSeenKeys(gs: seq<CostGroup>)
    ensures Distinct(FirstSeen(gs))
    ensures forall s :: s in FirstSeen(gs) <==> exists k :: 0 <= k < |gs| && gs[k].service == s
  {
    FirstSeenDistinct(gs);
    FirstSeenMembers(gs);
  }

  /** A key is added only when it is not there yet, so no key appears twice. */
  lemma {:induction false} FirstSeenDistinct(gs: seq<CostGroup>)
    ensures Distinct(FirstSeen(gs))
  {
    if gs != [] {
      var ks, x := FirstSeen(gs[..|gs| - 1]), gs[|gs| - 1].service;
      FirstSeenDistinct(gs[..|gs| - 1]);
      if x !in ks {
        var ks' := ks + [x];
        forall i, j | 0 <= i < j < |ks'| ensures ks'[i] != ks'[j] {
          if j < |ks| {
            assert ks'[i] == ks[i] && ks'[j] == ks[j];
          } else {
            assert ks'[i] == ks[i] && ks'[j] == x;
          }
        }
      }
    }
  }

  /** The keys are exactly the services of the groups seen. */
  lemma {:induction false} FirstSeenMembers(gs: seq<CostGroup>)
    ensures forall s :: s in FirstSeen(gs) <==> exists k :: 0 <= k < |gs| && gs[k].service == s
  {
    if gs != [] {
      var init := gs[..|gs| - 1];
      FirstSeenMembers(init);
      forall s ensures s in FirstSeen(gs) <==> exists k :: 0 <= k < |gs| && gs[k].service == s {
        if s in FirstSeen(init) {
          var k :| 0 <= k < |init| && init[k].service == s;
          assert gs[k].service == s;
        }
        if exists k :: 0 <= k < |gs| && gs[k].service == s {
          var k :| 0 <= k < |gs| && gs[k].service == s;
          if k < |init| {
            assert init[k].service == s;
          }
        }
      }
    }
  }

  /** A service that never occurs has total 0. */
  lemma {:induction false} ServiceSumAbsent(gs: seq<CostGroup>, s: string)
    requires forall k :: 0 <= k < |gs| ==> gs[k].service != s
    ensures ServiceSum(gs, s) == 0.0
  {
    if gs != [] {
      ServiceSumAbsent(gs[..|gs| - 1], s);
    }
  }

  lemma {:induction false} ServiceSumConcat(a: seq<CostGroup>, b: seq<CostGroup>, s: string)
    ensures ServiceSum(a + b, s) == ServiceSum(a, s) + ServiceSum(b, s)
    decreases |b|
  {
    if b == [] {
      assert a + b == a;
    } else {
      assert (a + b)[..|a + b| - 1] == a + b[..|b| - 1];
      ServiceSumConcat(a, b[..|b| - 1], s);
    }
  }

  lemma {:induction false} SumAmountsConcat(a: seq<CostGroup>, b: seq<CostGroup>)
    ensures SumAmounts(a + b) == SumAmounts(a) + SumAmounts(b)
    decreases |b|
  {
    if b == [] {
      assert a + b == a;
    } else {
      assert (a + b)[..|a + b| - 1] == a + b[..|b| - 1];
      SumAmountsConcat(a, b[..|b| - 1]);
    }
  }

  lemma {:induction false} SumCostsConcat(a: seq<ServiceCost>, b: seq<ServiceCost>)
    ensures SumCosts(a + b) == SumCosts(a) + SumCosts(b)
    decreases |b|
  {
    if b == [] {
      assert a + b == a;
    } else {
      assert (a + b)[..|a + b| - 1] == a + b[..|b| - 1];
      SumCostsConcat(a, b[..|b| - 1]);
    }
  }

  /** Adding one group to the input adds its amount to the entry of its service, if listed. */
  lemma {:induction false} EntriesSumStep(gs: seq<CostGroup>, g: CostGroup, ks: seq<string>)
    requires Distinct(ks)
    ensures SumCosts(Entries(gs + [g], ks))
         == SumCosts(Entries(gs, ks)) + (if g.service in ks then g.unblendedAmount else 0.0)
    decreases |ks|
  {
    if ks != [] {
      var init, k := ks[..|ks| - 1], ks[|ks| - 1];
      assert Entries(gs + [g], ks)[..|ks| - 1] == Entries(gs + [g], init);
      assert Entries(gs, ks)[..|ks| - 1] == Entries(gs, init);
      assert (gs + [g])[..|gs + [g]| - 1] == gs;
      EntriesSumStep(gs, g, init);
      assert ks == init + [k];
      assert g.service in ks <==> g.service in init || g.service == k;
      assert g.service == k ==> g.service !in init;
    }
  }

  /** The accumulated totals add up to the sum of every amount. */
  lemma {:induction false} AccumulatedSum(gs: seq<CostGroup>)
    ensures SumCosts(Accumulated(gs)) == SumAmounts(gs)
  {
    if gs != [] {
      var init, g := gs[..|gs| - 1], gs[|gs| - 1];
      assert gs == init + [g];
      AccumulatedSum(init);
      FirstSeenKeys(init);
      var ks := FirstSeen(init);
      EntriesSumStep(init, g, ks);
      if g.service !in ks {
        var ks' := ks + [g.service];
        assert Entries(gs, ks')[..|ks|] == Entries(gs, ks);
        assert forall k :: 0 <= k < |init| ==> init[k].service != g.service;
        ServiceSumAbsent(init, g.service);
      }
    }
  }

  lemma {:induction false} AllGroupsMembership(bs: seq<TimeBucket>, g: CostGroup)
    ensures g in AllGroups(bs) <==> exists i :: 0 <= i < |bs| && g in GroupsOf(bs[i])
  {
    if bs != [] {
      var init := bs[..|bs| - 1];
      AllGroupsMembership(init, g);
      if exists i :: 0 <= i < |bs| && g in GroupsOf(bs[i]) {
        var i :| 0 <= i < |bs| && g in GroupsOf(bs[i]);
        if i < |init| {
          assert init[i] == bs[i];
        }
      }
      if g in AllGroups(init) {
        var i :| 0 <= i < |init| && g in GroupsOf(init[i]);
        assert bs[i] == init[i];
      }
    }
  }

  /** The total of a service over the whole window equals its daily totals added up. */
  lemma {:induction false} ServiceTotalIsSumOfDays(bs: seq<TimeBucket>, s: string)
    ensures ServiceSum(AllGroups(bs), s) == DayByDayServiceSum(bs, s)
  {
    if bs != [] {
      ServiceTotalIsSumOfDays(bs[..|bs| - 1], s);
      ServiceSumConcat(AllGroups(bs[..|bs| - 1]), GroupsOf(bs[|bs| - 1]), s);
    }
  }

  // ----- lemmas: the stable descending sort -----

  lemma {:induction false} InsertMultiset(x: ServiceCost, ys: seq<ServiceCost>)
    ensures multiset(Insert(x, ys)) == multiset{x} + multiset(ys)
    decreases |ys|
  {
    if ys != [] && ys[0].cost > x.cost {
      InsertMultiset(x, ys[1..]);
      assert ys == [ys[0]] + ys[1..];
    }
  }

  /** Inserting into entries bounded by `b` an entry bounded by `b` keeps every entry bounded by `b`. */
  lemma {:induction false} InsertBounded(x: ServiceCost, ys: seq<ServiceCost>, b: real)
    requires x.cost <= b && forall k :: 0 <= k < |ys| ==> ys[k].cost <= b
    ensures forall k :: 0 <= k < |Insert(x, ys)| ==> Insert(x, ys)[k].cost <= b
    decreases |ys|
  {
    if ys != [] && ys[0].cost > x.cost {
      InsertBounded(x, ys[1..], b);
    }
  }

  lemma {:induction false} InsertSorted(x: ServiceCost, ys: seq<ServiceCost>)
    requires SortedDesc(ys)
    ensures SortedDesc(Insert(x, ys))
    decreases |ys|
  {
    if ys != [] && ys[0].cost > x.cost {
      var rest := Insert(x, ys[1..]);
      InsertSorted(x, ys[1..]);
      InsertBounded(x, ys[1..], ys[0].cost);
      assert Insert(x, ys) == [ys[0]] + rest;
    }
  }

  lemma {:induction false} WithCostCons(y: ServiceCost, b: seq<ServiceCost>, c: real)
    ensures WithCost([y] + b, c) == (if y.cost == c then [y] else []) + WithCost(b, c)
  {
    assert ([y] + b)[1..] == b;
  }

  /** Inserting `x` puts it ahead of every entry with its cost, and moves no other entry relative to its ties. */
  lemma {:induction false} InsertWithCost(x: ServiceCost, ys: seq<ServiceCost>, c: real)
    ensures WithCost(Insert(x, ys), c) == (if x.cost == c then [x] else []) + WithCost(ys, c)
    decreases |ys|
  {
    if ys == [] {
      WithCostCons(x, [], c);
    } else if ys[0].cost <= x.cost {
      WithCostCons(x, ys, c);
    } else {
      InsertWithCost(x, ys[1..], c);
      InsertPastHead(x, ys, c);
    }
  }

  /** The step of `InsertWithCost` where `x` goes past the first entry, which costs more. */
  lemma InsertPastHead(x: ServiceCost, ys: seq<ServiceCost>, c: real)
    requires ys != [] && ys[0].cost > x.cost
    requires WithCost(Insert(x, ys[1..]), c) == (if x.cost == c then [x] else []) + WithCost(ys[1..], c)
    ensures WithCost(Insert(x, ys), c) == (if x.cost == c then [x] else []) + WithCost(ys, c)
  {
    var y, rest := ys[0], ys[1..];
    var wi, wr := WithCost(Insert(x, rest), c), WithCost(rest, c);
    assert Insert(x, ys) == [y] + Insert(x, rest);
    assert ys == [y] + rest;
    WithCostCons(y, Insert(x, rest), c);
    WithCostCons(y, rest, c);
    if x.cost == c {
      assert y.cost != c;
      assert [] + wi == wi && [] + wr == wr;
      assert WithCost(Insert(x, ys), c) == wi;
      assert WithCost(ys, c) == wr;
      assert wi == [x] + wr;
    } else {
      var hy := if y.cost == c then [y] else [];
      assert [] + wr == wr;
      assert WithCost(Insert(x, ys), c) == hy + wi;
      assert WithCost(ys, c) == hy + wr;
      assert wi == wr;
    }
  }

  lemma {:induction false} InsertSum(x: ServiceCost, ys: seq<ServiceCost>)
    ensures SumCosts(Insert(x, ys)) == x.cost + SumCosts(ys)
    decreases |ys|
  {
    if ys == [] {
      assert SumCosts([x]) == SumCosts([]) + x.cost;
    } else if ys[0].cost <= x.cost {
      SumCostsConcat([x], ys);
      assert SumCosts([x]) == SumCosts([]) + x.cost;
    } else {
      InsertSum(x, ys[1..]);
      SumCostsConcat([ys[0]], Insert(x, ys[1..]));
      SumCostsConcat([ys[0]], ys[1..]);
      assert SumCosts([ys[0]]) == SumCosts([]) + ys[0].cost;
      assert ys == [ys[0]] + ys[1..];
    }
  }

  /**
   * The sort returns the same entries, highest cost first; entries of equal cost
   * keep their input order (there is no tie-break on the name); the sum is unchanged.
   */
  lemma SortByCostDescFacts(xs: seq<ServiceCost>)
    ensures SortedDesc(SortByCostDesc(xs))
    ensures multiset(SortByCostDesc(xs)) == multiset(xs)
    ensures forall c :: WithCost(SortByCostDesc(xs), c) == WithCost(xs, c)
    ensures SumCosts(SortByCostDesc(xs)) == SumCosts(xs)
  {
    SortSorted(xs);
    SortPermutes(xs);
    forall c ensures WithCost(SortByCostDesc(xs), c) == WithCost(xs, c) {
      SortStable(xs, c);
    }
    SortSum(xs);
  }

  lemma {:induction false} SortSorted(xs: seq<ServiceCost>)
    ensures SortedDesc(SortByCostDesc(xs))
    decreases |xs|
  {
    if xs != [] {
      SortSorted(xs[1..]);
      InsertSorted(xs[0], SortByCostDesc(xs[1..]));
    }
  }

  lemma {:induction false} SortPermutes(xs: seq<ServiceCost>)
    ensures multiset(SortByCostDesc(xs)) == multiset(xs)
    decreases |xs|
  {
    if xs != [] {
      var x, tail := xs[0], xs[1..];
      SortPermutes(tail);
      InsertMultiset(x, SortByCostDesc(tail));
      assert SortByCostDesc(xs) == Insert(x, SortByCostDesc(tail));
      assert xs == [x] + tail;
      assert multiset(xs) == multiset([x]) + multiset(tail);
    }
  }

  lemma {:induction false} SortStable(xs: seq<ServiceCost>, c: real)
    ensures WithCost(SortByCostDesc(xs), c) == WithCost(xs, c)
    decreases |xs|
  {
    if xs != [] {
      SortStable(xs[1..], c);
      InsertWithCost(xs[0], SortByCostDesc(xs[1..]), c);
      WithCostCons(xs[0], xs[1..], c);
      assert xs == [xs[0]] + xs[1..];
    }
  }

  lemma {:induction false} SortSum(xs: seq<ServiceCost>)
    ensures SumCosts(SortByCostDesc(xs)) == SumCosts(xs)
    decreases |xs|
  {
    if xs != [] {
      SortSum(xs[1..]);
      InsertSum(xs[0], SortByCostDesc(xs[1..]));
      assert xs == [xs[0]] + xs[1..];
      SumCostsConcat([xs[0]], xs[1..]);
      assert SumCosts([xs[0]]) == SumCosts([]) + xs[0].cost;
    }
  }

  // ----- lemmas: the two results -----

  /** A response without ResultsByTime (or the failed fetch's `{}`) gives an empty breakdown. */
  lemma BreakdownOfMissingResults(data: CostAndUsage)
    requires data.resultsByTime.None?
    ensures Breakdown(data) == []
  {
    assert Buckets(data) == [];
  }

  /** Each listed service carries the sum of its amounts over all buckets. */
  lemma BreakdownCosts(data: CostAndUsage)
    ensures forall e :: e in Breakdown(data) ==>
              e.cost == ServiceSum(AllGroups(Buckets(data)), e.service)
              && e.cost == DayByDayServiceSum(Buckets(data), e.service)
  {
    var bs := Buckets(data);
    var acc := Accumulated(AllGroups(bs));
    SortByCostDescFacts(acc);
    InSameEntries(Breakdown(data), acc);
    forall e | e in Breakdown(data)
      ensures e.cost == ServiceSum(AllGroups(bs), e.service) && e.cost == DayByDayServiceSum(bs, e.service)
    {
      ServiceTotalIsSumOfDays(bs, e.service);
    }
  }

  /** A service some group names is listed in any reordering of the accumulated items. */
  lemma ListedIfGrouped(gs: seq<CostGroup>, r: seq<ServiceCost>, s: string)
    requires multiset(r) == multiset(Accumulated(gs)) && s in GroupServices(gs)
    ensures s in Services(r)
  {
    var acc, ks := Accumulated(gs), FirstSeen(gs);
    FirstSeenKeys(gs);
    InSameEntries(r, acc);
    var k :| 0 <= k < |gs| && GroupServices(gs)[k] == s;
    assert gs[k].service == s;
    assert s in ks;
    var i :| 0 <= i < |ks| && ks[i] == s;
    assert acc[i] in r;
    var j :| 0 <= j < |r| && r[j] == acc[i];
    assert Services(r)[j] == s;
  }

  /** A service listed in any reordering of the accumulated items is named by some group. */
  lemma GroupedIfListed(gs: seq<CostGroup>, r: seq<ServiceCost>, s: string)
    requires multiset(r) == multiset(Accumulated(gs)) && s in Services(r)
    ensures s in GroupServices(gs)
  {
    var acc, ks := Accumulated(gs), FirstSeen(gs);
    FirstSeenKeys(gs);
    InSameEntries(r, acc);
    var j :| 0 <= j < |r| && Services(r)[j] == s;
    assert r[j] in acc;
    var i :| 0 <= i < |acc| && acc[i] == r[j];
    assert ks[i] in ks;
    var k :| 0 <= k < |gs| && gs[k].service == ks[i];
    assert GroupServices(gs)[k] == s;
  }

  /** A service is listed exactly when some group of some bucket names it. */
  lemma BreakdownServices(data: CostAndUsage)
    ensures forall s :: s in Services(Breakdown(data)) <==> s in GroupServices(AllGroups(Buckets(data)))
  {
    var gs := AllGroups(Buckets(data));
    var r := Breakdown(data);
    SortByCostDescFacts(Accumulated(gs));
    forall s ensures s in Services(r) <==> s in GroupServices(gs) {
      if s in GroupServices(gs) {
        ListedIfGrouped(gs, r, s);
      }
      if s in Services(r) {
        GroupedIfListed(gs, r, s);
      }
    }
  }

  /** No service is listed twice. */
  lemma BreakdownDistinct(data: CostAndUsage)
    ensures Distinct(Services(Breakdown(data)))
  {
    var gs := AllGroups(Buckets(data));
    var acc := Accumulated(gs);
    var ks := FirstSeen(gs);
    var r := Breakdown(data);
    SortByCostDescFacts(acc);
    FirstSeenKeys(gs);
    InSameEntries(r, acc);
    forall i, j | 0 <= i < j < |r| ensures Services(r)[i] != Services(r)[j] {
      if r[i].service == r[j].service {
        assert r[i] in acc && r[j] in acc;
        var a :| 0 <= a < |acc| && acc[a] == r[i];
        var b :| 0 <= b < |acc| && acc[b] == r[j];
        assert ks[a] == ks[b];
        assert a == b;
        DuplicateCount(r, i, j);
        EntriesOnce(gs, ks, a);
      }
    }
  }

  /** Two lists with the same multiset have the same members. */
  lemma InSameEntries(r: seq<ServiceCost>, acc: seq<ServiceCost>)
    requires multiset(r) == multiset(acc)
    ensures forall e :: e in r <==> e in acc
  {
    forall e ensures e in r <==> e in acc {
      assert e in r <==> e in multiset(r);
      assert e in acc <==> e in multiset(acc);
    }
  }

  /** An element sitting at two positions occurs at least twice. */
  lemma DuplicateCount(r: seq<ServiceCost>, i: nat, j: nat)
    requires i < j < |r| && r[i] == r[j]
    ensures multiset(r)[r[i]] >= 2
  {
    var x := r[i];
    assert r == r[..i] + [x] + r[i + 1..j] + [x] + r[j + 1..];
    assert multiset(r) == multiset(r[..i]) + multiset{x} + multiset(r[i + 1..j]) + multiset{x} + multiset(r[j + 1..]);
  }

  /** Each entry of the accumulated items occurs once: their keys are distinct. */
  lemma {:induction false} EntriesOnce(gs: seq<CostGroup>, ks: seq<string>, a: nat)
    requires Distinct(ks) && a < |ks|
    ensures multiset(Entries(gs, ks))[Entries(gs, ks)[a]] == 1
    decreases |ks|
  {
    var es := Entries(gs, ks);
    var init := ks[..|ks| - 1];
    var last := ServiceCost(ks[|ks| - 1], ServiceSum(gs, ks[|ks| - 1]));
    assert es == Entries(gs, init) + [last];
    if a < |init| {
      EntriesOnce(gs, init, a);
      assert es[a] != last;
    } else {
      forall k | 0 <= k < |init| ensures Entries(gs, init)[k] != last {}
      assert last !in Entries(gs, init);
    }
  }

  /** get_cost_by_service orders services by cost, highest first, keeps first-seen order among equal costs, and loses or adds nothing. */
  lemma BreakdownOrder(data: CostAndUsage)
    ensures SortedDesc(Breakdown(data))
    ensures multiset(Breakdown(data)) == multiset(Accumulated(AllGroups(Buckets(data))))
    ensures forall c :: WithCost(Breakdown(data), c) == WithCost(Accumulated(AllGroups(Buckets(data))), c)
  {
    SortByCostDescFacts(Accumulated(AllGroups(Buckets(data))));
  }

  /** The breakdown, the daily series and the raw amounts of one response all add up to the same total. */
  lemma {:induction false} TotalsAgree(data: CostAndUsage)
    ensures SumCosts(Breakdown(data)) == SumAmounts(AllGroups(Buckets(data)))
    ensures SumDaily(DailySeries(data)) == SumAmounts(AllGroups(Buckets(data)))
  {
    var gs := AllGroups(Buckets(data));
    SortByCostDescFacts(Accumulated(gs));
    AccumulatedSum(gs);
    DailySumIsTotal(Buckets(data));
  }

  lemma {:induction false} DailySumIsTotal(bs: seq<TimeBucket>)
    ensures SumDaily(seq(|bs|, i requires 0 <= i < |bs| => DayRow(bs[i]))) == SumAmounts(AllGroups(bs))
  {
    if bs != [] {
      var init := bs[..|bs| - 1];
      DailySumIsTotal(init);
      var rows := seq(|bs|, i requires 0 <= i < |bs| => DayRow(bs[i]));
      assert rows[..|rows| - 1] == seq(|init|, i requires 0 <= i < |init| => DayRow(init[i]));
      SumAmountsConcat(AllGroups(init), GroupsOf(bs[|bs| - 1]));
    }
  }

  // ----- the imperative methods -----

  /** `order` and `totals` are the key order and the contents of the dict filled from `seen`. */
  ghost predicate Tracks(order: seq<string>, totals: map<string, real>, seen: seq<CostGroup>)
  {
    && order == FirstSeen(seen)
    && (forall s :: s in totals <==> s in order)
    && (forall s :: s in totals ==> totals[s] == ServiceSum(seen, s))
  }

  /** One step of `service_costs[service] = service_costs.get(service, 0) + cost`. */
  lemma AddGroup(order: seq<string>, totals: map<string, real>, seen: seq<CostGroup>, g: CostGroup)
    requires Tracks(order, totals, seen)
    ensures Tracks(if g.service in totals then order else order + [g.service],
                   totals[g.service := (if g.service in totals then totals[g.service] else 0.0) + g.unblendedAmount],
                   seen + [g])
  {
    assert (seen + [g])[..|seen|] == seen;
    if g.service !in totals {
      FirstSeenKeys(seen);
      ServiceSumAbsent(seen, g.service);
    }
  }

  /** Taking one more element of `b` extends `a + b[..j]` by that element. */
  lemma AppendNext(a: seq<CostGroup>, b: seq<CostGroup>, j: nat)
    requires j < |b|
    ensures a + b[..j + 1] == (a + b[..j]) + [b[j]]
  {
    assert b[..j + 1] == b[..j] + [b[j]];
  }

  /** The inner loop of get_cost_by_service: fold the groups of one bucket into the dict. */
  method AddBucket(order: seq<string>, totals: map<string, real>, ghost done: seq<CostGroup>, groups: seq<CostGroup>)
    returns (order': seq<string>, totals': map<string, real>)
    requires Tracks(order, totals, done)
    ensures Tracks(order', totals', done + groups)
  {
    order', totals' := order, totals;
    ghost var seen := done;
    var j := 0;
    while j < |groups|
      invariant 0 <= j <= |groups|
      invariant seen == done + groups[..j]
      invariant Tracks(order', totals', seen)
    {
      var g := groups[j];
      AppendNext(done, groups, j);
      AddGroup(order', totals', seen, g);
      var previous := if g.service in totals' then totals'[g.service] else 0.0;
      if g.service !in totals' {
        order' := order' + [g.service];
      }
      totals' := totals'[g.service := previous + g.unblendedAmount];
      seen := done + groups[..j + 1];
      j := j + 1;
    }
    assert groups[..j] == groups;
  }

  /**
   * get_cost_by_service: fold every group into a dict of per-service totals
   * (kept as its key order and a map), then sort the items by cost.
   */
  method CostByService(data: CostAndUsage) returns (r: seq<ServiceCost>)
    ensures r == Breakdown(data)
    ensures SortedDesc(r)
    ensures forall e :: e in r ==> e.cost == ServiceSum(AllGroups(Buckets(data)), e.service)
  {
    var order: seq<string> := [];
    var totals: map<string, real> := map[];
    ghost var seen: seq<CostGroup> := [];
    if data.resultsByTime.Some? {
      var bs := data.resultsByTime.value;
      var i := 0;
      while i < |bs|
        invariant 0 <= i <= |bs|
        invariant seen == AllGroups(bs[..i])
        invariant Tracks(order, totals, seen)
      {
        order, totals := AddBucket(order, totals, seen, GroupsOf(bs[i]));
        assert bs[..i + 1][..i] == bs[..i];
        seen := seen + GroupsOf(bs[i]);
        i := i + 1;
      }
      assert bs[..i] == bs;
    }
    var items := seq(|order|, k requires 0 <= k < |order| => ServiceCost(order[k], totals[order[k]]));
    assert items == Accumulated(seen);
    r := SortByCostDesc(items);
    BreakdownCosts(data);
    BreakdownOrder(data);
  }

  /** get_daily_costs: one row per bucket, in input order, holding the bucket's start and the sum of its amounts. */
  method DailyCosts(data: CostAndUsage) returns (rows: seq<DailyCost>)
    ensures |rows| == |Buckets(data)|
    ensures forall k :: 0 <= k < |rows| ==>
              rows[k].date == Buckets(data)[k].start && rows[k].cost == SumAmounts(GroupsOf(Buckets(data)[k]))
    ensures rows == DailySeries(data)
  {
    rows := [];
    if data.resultsByTime.Some? {
      var bs := data.resultsByTime.value;
      for i := 0 to |bs|
        invariant |rows| == i
        invariant forall k :: 0 <= k < i ==> rows[k] == DayRow(bs[k])
      {
        var total := SumAmounts(GroupsOf(bs[i]));
        rows := rows + [DailyCost(bs[i].start, total)];
      }
    }
  }
}
