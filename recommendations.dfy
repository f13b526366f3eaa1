/**
 * get_optimization_recommendations: at most one recommendation per non-empty
 * list of the audit, in the fixed order EC2, EBS, Network, RDS.
 */
module Recommendations {
  import opened Wrappers
  import opened Responses
  import opened Text
  import opened ResourceAudit

  datatype Severity = High | Medium | Low

  /** The `category` field; `Name()` is the string the analyzer writes. */
  datatype Category = EC2 | EBS | Network | RDS {
    function Name(): string
    {
      match this
      case EC2 => "EC2"
      case EBS => "EBS"
      case Network => "Network"
      case RDS => "RDS"
    }

    /** The position of the category's check in the fixed order of the checks. */
    function Rank(): nat
    {
      match this
      case EC2 => 0
      case EBS => 1
      case Network => 2
      case RDS => 3
    }
  }

  /**
   * The `potential_savings` field: a fixed note, or a monthly estimate in cents
   * that `Shown()` writes as `~$D.CC/month`.
   */
  datatype Savings = Varies(note: string) | Monthly(cents: nat) {
    function Shown(): string
    {
      match this
      case Varies(note) => note
      case Monthly(cents) => FormatMonthly(cents)
    }
  }

  /**
   * A recommendation dict. Its `title`, `description` and `action` texts are
   * determined by the category, the number of resources and (for EBS) their
   * total size; they are kept as those values and rendered by `Title()`,
   * `Description()` and `Action()`.
   */
  datatype Recommendation = Recommendation(
    category: Category,
    severity: Severity,
    totalSizeGb: nat,
    potentialSavings: Savings,
    resources: seq<string>)
  {
    function Title(): string
    {
      var n := Digits(|resources|);
      match category
      case EC2 => n + " Stopped EC2 Instance(s)"
      case EBS => n + " Unattached EBS Volume(s)"
      case Network => n + " Unassociated Elastic IP(s)"
      case RDS => n + " Stopped RDS Instance(s)"
    }

    function Description(): string
    {
      var n := Digits(|resources|);
      match category
      case EC2 => "You have " + n + " stopped EC2 instances that are still incurring EBS costs."
      case EBS => n + " EBS volumes (" + Digits(totalSizeGb) + " GB total) are not attached to any instance."
      case Network => n + " Elastic IPs are not associated with any resource."
      case RDS => n + " RDS instances are stopped but still incurring storage costs."
    }

    function Action(): string
    {
      match category
      case EC2 => "Terminate unused instances or create AMIs and terminate."
      case EBS => "Delete unused volumes after creating snapshots if needed."
      case Network => "Release unused Elastic IPs."
      case RDS => "Take snapshots and terminate if not needed, or start if actively used."
    }
  }

  /** EBS gp3 storage, about $0.08 per GB-month, in cents. */
  const EbsCentsPerGbMonth: nat := 8
  /** An unassociated Elastic IP, $0.005/hour or about $3.60 per month, in cents. */
  const EipCentsPerMonth: nat := 360

  const Ec2Savings: string := "Varies by instance type"
  const RdsSavings: string := "Varies by instance class"

  /**
   * What the monthly summary reads from a savings text: a note that never
   * shows '/' has no "/month"; a monthly estimate's text has "/month", and
   * stripping "~$" and "/month" and reading the number gives its cents back.
   */
  lemma SavingsTextReadsBack(s: Savings)
    requires s.Varies? ==> '/' !in s.note
    ensures s.Varies? ==> !Contains(s.Shown(), MonthlySuffix)
    ensures s.Monthly? ==> Contains(s.Shown(), MonthlySuffix) && ParseCents(StripMonthly(s.Shown())) == Some(s.cents)
  {
    match s
    case Varies(note) => NotContainsWithoutFirstChar(note, MonthlySuffix);
    case Monthly(cents) => MonthlyRoundTrip(cents);
  }

  /** `sum(vol['size'] for vol in ...)`, in GB. */
  function TotalSize(vols: seq<VolumeRow>): nat
  {
    if vols == [] then 0 else TotalSize(vols[..|vols| - 1]) + vols[|vols| - 1].size
  }

  /** The estimated monthly saving of deleting `vols`, in cents. */
  function EbsSavingsCents(vols: seq<VolumeRow>): nat
  {
    TotalSize(vols) * EbsCentsPerGbMonth
  }

  /** The estimated monthly saving of releasing `ips`, in cents. */
  function EipSavingsCents(ips: seq<AddressRow>): nat
  {
    |ips| * EipCentsPerMonth
  }

  function Ec2Recommendation(rows: seq<InstanceRow>): (r: Recommendation)
    ensures r.category == EC2 && r.severity == High
    ensures |r.resources| == |rows| && forall k :: 0 <= k < |rows| ==> r.resources[k] == rows[k].id
    ensures r.potentialSavings == Varies(Ec2Savings)
  {
    Recommendation(
      EC2, High, 0,
      Varies(Ec2Savings),
      seq(|rows|, k requires 0 <= k < |rows| => rows[k].id))
  }

  function EbsRecommendation(rows: seq<VolumeRow>): (r: Recommendation)
    ensures r.category == EBS && r.severity == Medium
    ensures |r.resources| == |rows| && forall k :: 0 <= k < |rows| ==> r.resources[k] == rows[k].id
    ensures r.totalSizeGb == TotalSize(rows)
    ensures r.potentialSavings == Monthly(TotalSize(rows) * EbsCentsPerGbMonth)
  {
    Recommendation(
      EBS, Medium, TotalSize(rows),
      Monthly(EbsSavingsCents(rows)),
      seq(|rows|, k requires 0 <= k < |rows| => rows[k].id))
  }

  function NetworkRecommendation(ips: seq<AddressRow>): (r: Recommendation)
    ensures r.category == Network && r.severity == Low
    ensures |r.resources| == |ips| && forall k :: 0 <= k < |ips| ==> r.resources[k] == ips[k].ip
    ensures r.potentialSavings == Monthly(|ips| * EipCentsPerMonth)
  {
    Recommendation(
      Network, Low, 0,
      Monthly(EipSavingsCents(ips)),
      seq(|ips| , k requires 0 <= k < |ips| => ips[k].ip))
  }

  function RdsRecommendation(rows: seq<DbRow>): (r: Recommendation)
    ensures r.category == RDS && r.severity == High
    ensures |r.resources| == |rows| && forall k :: 0 <= k < |rows| ==> r.resources[k] == rows[k].id
    ensures r.potentialSavings == Varies(RdsSavings)
  {
    Recommendation(
      RDS, High, 0,
      Varies(RdsSavings),
      seq(|rows|, k requires 0 <= k < |rows| => rows[k].id))
  }

  /**
   * A title starts with the number of resources, written in decimal and closed
   * by a space, and reading those digits back gives that number.
   */
  lemma TitleReadsBack(r: Recommendation)
    ensures var n := Digits(|r.resources|);
            && |n| < |r.Title()| && r.Title()[..|n|] == n && r.Title()[|n|] == ' '
            && ParseDigits(r.Title()[..|n|]) == |r.resources|
  {
    var n := Digits(|r.resources|);
    var phrase := match r.category
      case EC2 => " Stopped EC2 Instance(s)"
      case EBS => " Unattached EBS Volume(s)"
      case Network => " Unassociated Elastic IP(s)"
      case RDS => " Stopped RDS Instance(s)";
    assert r.Title() == n + phrase;
    assert (n + phrase)[..|n|] == n;
    assert (n + phrase)[|n|] == phrase[0];
    ParseDigitsOfDigits(|r.resources|);
  }

  /**
   * The size in an EBS description reads back as the recommendation's total
   * size (for `EbsRecommendation(vols)`, the sum of the volume sizes).
   */
  lemma EbsSizeReadsBack(r: Recommendation)
    requires r.category == EBS
    ensures var d, p, m := r.Description(), |Digits(|r.resources|)| + |" EBS volumes ("|, Digits(r.totalSizeGb);
            && p + |m| <= |d| && d[p..p + |m|] == m && ParseDigits(d[p..p + |m|]) == r.totalSizeGb
  {
    var head, m := Digits(|r.resources|) + " EBS volumes (", Digits(r.totalSizeGb);
    var tail := " GB total) are not attached to any instance.";
    assert r.Description() == head + m + tail;
    assert (head + m + tail)[|head|..|head| + |m|] == m;
    ParseDigitsOfDigits(r.totalSizeGb);
  }

  /** The EC2 check's contribution: one recommendation when the list is non-empty, none otherwise. */
  function Ec2Slot(u: Unused): seq<Recommendation>
  {
    if u.ec2Instances != [] then [Ec2Recommendation(u.ec2Instances)] else []
  }

  function EbsSlot(u: Unused): seq<Recommendation>
  {
    if u.ebsVolumes != [] then [EbsRecommendation(u.ebsVolumes)] else []
  }

  function NetworkSlot(u: Unused): seq<Recommendation>
  {
    if u.elasticIps != [] then [NetworkRecommendation(u.elasticIps)] else []
  }

  function RdsSlot(u: Unused): seq<Recommendation>
  {
    if u.rdsInstances != [] then [RdsRecommendation(u.rdsInstances)] else []
  }

  /** The recommendations built from one audit result, the four checks in order. */
  function RecommendationsFor(u: Unused): seq<Recommendation>
  {
    Ec2Slot(u) + EbsSlot(u) + NetworkSlot(u) + RdsSlot(u)
  }

  function NonEmptyLists(u: Unused): nat
  {
    (if u.ec2Instances != [] then 1 else 0) + (if u.ebsVolumes != [] then 1 else 0)
    + (if u.elasticIps != [] then 1 else 0) + (if u.rdsInstances != [] then 1 else 0)
  }

  /**
   * One recommendation per non-empty list and no more, so at most four, in the
   * fixed order of the checks (categories strictly increase in that order);
   * nothing unused gives no recommendation.
   */
  lemma RecommendationsShape(u: Unused)
    ensures |RecommendationsFor(u)| == NonEmptyLists(u) <= 4
    ensures RecommendationsFor(u) == [] <==> u == NothingUnused
    ensures forall i, j :: 0 <= i < j < |RecommendationsFor(u)| ==>
              RecommendationsFor(u)[i].category.Rank() < RecommendationsFor(u)[j].category.Rank()
  {
    var a, b, c, d := Ec2Slot(u), EbsSlot(u), NetworkSlot(u), RdsSlot(u);
    assert |RecommendationsFor(u)| == |a| + |b| + |c| + |d|;
    RecommendationRanks(u);
  }

  /** The rank of the category at each position is the rank of the slot that position falls in. */
  lemma RecommendationRanks(u: Unused)
    ensures forall i, j :: 0 <= i < j < |RecommendationsFor(u)| ==>
              RecommendationsFor(u)[i].category.Rank() < RecommendationsFor(u)[j].category.Rank()
  {
    var a, b, c, d := Ec2Slot(u), EbsSlot(u), NetworkSlot(u), RdsSlot(u);
    var r := RecommendationsFor(u);
    forall k | 0 <= k < |r|
      ensures r[k].category.Rank() ==
        (if k < |a| then 0 else if k < |a| + |b| then 1 else if k < |a| + |b| + |c| then 2 else 3)
    {
      if k < |a| { assert r[k] == a[k]; }
      else if k < |a| + |b| { assert r[k] == b[k - |a|]; }
      else if k < |a| + |b| + |c| { assert r[k] == c[k - |a| - |b|]; }
      else { assert r[k] == d[k - |a| - |b| - |c|]; }
    }
  }

  /**
   * Each recommendation in the list is the one its category's builder makes
   * from that category's list: it lists those ids in audit order with the
   * category's fixed severity and savings.
   */
  lemma RecommendationsByCategory(u: Unused)
    ensures forall r :: r in RecommendationsFor(u) && r.category == EC2 ==> r == Ec2Recommendation(u.ec2Instances)
    ensures forall r :: r in RecommendationsFor(u) && r.category == EBS ==> r == EbsRecommendation(u.ebsVolumes)
    ensures forall r :: r in RecommendationsFor(u) && r.category == Network ==> r == NetworkRecommendation(u.elasticIps)
    ensures forall r :: r in RecommendationsFor(u) && r.category == RDS ==> r == RdsRecommendation(u.rdsInstances)
  {
    var a, b, c, d := Ec2Slot(u), EbsSlot(u), NetworkSlot(u), RdsSlot(u);
    assert RecommendationsFor(u) == a + b + c + d;
    forall r | r in a + b + c + d
      ensures r in a || r in b || r in c || r in d
    {
    }
  }

  /** A category has a recommendation exactly when its list is non-empty. */
  lemma RecommendationsPresence(u: Unused)
    ensures u.ec2Instances != [] <==> Ec2Recommendation(u.ec2Instances) in RecommendationsFor(u)
    ensures u.ebsVolumes != [] <==> EbsRecommendation(u.ebsVolumes) in RecommendationsFor(u)
    ensures u.elasticIps != [] <==> NetworkRecommendation(u.elasticIps) in RecommendationsFor(u)
    ensures u.rdsInstances != [] <==> RdsRecommendation(u.rdsInstances) in RecommendationsFor(u)
  {
    var a, b, c, d := Ec2Slot(u), EbsSlot(u), NetworkSlot(u), RdsSlot(u);
    var r := RecommendationsFor(u);
    assert r == a + b + c + d;
    forall x | x in r
      ensures x.category == EC2 ==> x in a
      ensures x.category == EBS ==> x in b
      ensures x.category == Network ==> x in c
      ensures x.category == RDS ==> x in d
    {
      assert x in a || x in b || x in c || x in d;
    }
  }

  /** The list is not re-sorted by severity: a LOW Network recommendation comes before a HIGH RDS one. */
  lemma NotSortedBySeverity(u: Unused)
    requires u.ec2Instances == [] && u.ebsVolumes == [] && u.elasticIps != [] && u.rdsInstances != []
    ensures RecommendationsFor(u)[0].severity == Low && RecommendationsFor(u)[1].severity == High
  {
  }

  /** get_optimization_recommendations: run the audit, then append one recommendation per non-empty list. */
  method GetOptimizationRecommendations(inv: Inventory) returns (recommendations: seq<Recommendation>)
    ensures recommendations == RecommendationsFor(Audit(inv))
  {
    recommendations := [];
    var unused := IdentifyUnusedResources(inv);
    if unused.ec2Instances != [] {
      recommendations := recommendations + [Ec2Recommendation(unused.ec2Instances)];
    }
    assert recommendations == Ec2Slot(unused);
    if unused.ebsVolumes != [] {
      recommendations := recommendations + [EbsRecommendation(unused.ebsVolumes)];
    }
    assert recommendations == Ec2Slot(unused) + EbsSlot(unused);
    if unused.elasticIps != [] {
      recommendations := recommendations + [NetworkRecommendation(unused.elasticIps)];
    }
    assert recommendations == Ec2Slot(unused) + EbsSlot(unused) + NetworkSlot(unused);
    if unused.rdsInstances != [] {
      recommendations := recommendations + [RdsRecommendation(unused.rdsInstances)];
    }
    assert recommendations == RecommendationsFor(unused);
  }
}
