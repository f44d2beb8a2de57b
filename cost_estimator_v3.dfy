/**
 * cost_estimator_v3.py: fixed EC2 and EBS filters, the catalog lookup shared with
 * pricing_calc.py (its `get_aws_cost` is the same code), and a walk over every entry
 * that adds the EC2 and EBS estimates to a total.
 */
module CostEstimatorV3 {
  import opened Wrappers
  import opened TerraformPlan
  import opened AwsPricing
  import opened CostReport
  import PricingCalc

  /** The filters of `estimate_ec2_cost(instance_type)`. */
  function Ec2Filters(instanceType: Attr): (filters: seq<Filter>)
    ensures Fields(filters) == PricingCalc.Ec2Fields
  {
    [
      TermMatch("instanceType", instanceType),
      TermMatch("location", Text(UsEastNVirginia)),
      TermMatch("operatingSystem", Text("Linux")),
      TermMatch("preInstalledSw", Text("NA")),
      TermMatch("tenancy", Text("Shared")),
      TermMatch("capacitystatus", Text("Used"))
    ]
  }

  /**
   * Only the first filter depends on the instance type; the other five are fixed, and
   * they are what the attribute-aware builder of pricing_calc.py produces when none of
   * the optional attributes is given.
   */
  lemma Ec2FiltersFixedExceptInstanceType(t1: Attr, t2: Attr, r: ResourceChange)
    ensures Ec2Filters(t1)[1..] == Ec2Filters(t2)[1..]
    ensures Ec2Filters(t1)[0] == TermMatch("instanceType", t1)
    ensures Require(r, "instance_type") == Ok(t1)
            && "operating_system" !in AfterOrEmpty(r) && "tenancy" !in AfterOrEmpty(r)
            && "capacity_status" !in AfterOrEmpty(r)
            ==> PricingCalc.Ec2Filters(r) == Ok(Ec2Filters(t1))
  {
    var after := AfterOrEmpty(r);
    if Require(r, "instance_type") == Ok(t1)
       && "operating_system" !in after && "tenancy" !in after && "capacity_status" !in after {
      assert PricingCalc.Ec2Filters(r).Ok?;
      assert PricingCalc.Ec2Filters(r).value == Ec2Filters(t1);
    }
  }

  /** The filters of `estimate_ebs_cost(volume_size, volume_type)`. */
  function EbsFilters(volumeType: Attr): (filters: seq<Filter>)
    ensures Fields(filters) == ["volumeType", "location"]
    ensures filters[0].value == volumeType && filters[1].value == Text(UsEastNVirginia)
  {
    [
      TermMatch("volumeType", volumeType),
      TermMatch("location", Text(UsEastNVirginia))
    ]
  }

  /** `resource['change']['after'].get('volume_type', 'gp2')` */
  function VolumeType(after: Attributes): (t: Attr)
    ensures "volume_type" !in after ==> t == Text("gp2")
    ensures "volume_type" in after ==> t == after["volume_type"]
  {
    GetAttr(after, "volume_type", Text("gp2"))
  }

  /** `estimate_ec2_cost` */
  method EstimateEc2Cost(instanceType: Attr, pricing: PricingClient) returns (cost: real)
    ensures cost == PricingCalc.LookupPrice("AmazonEC2", Ec2Filters(instanceType), pricing)
  {
    cost := PricingCalc.GetAwsCost("AmazonEC2", Ec2Filters(instanceType), pricing);
  }

  /** The per-GB price times the size; a non-numeric size raises TypeError. */
  function EbsCost(volumeSize: Attr, volumeType: Attr, pricing: PricingClient): Result<real> {
    match volumeSize
    case Num(n) => Ok(PricingCalc.LookupPrice("AmazonEBS", EbsFilters(volumeType), pricing) * n)
    case _ => Raised(TypeError)
  }

  /** `estimate_ebs_cost` */
  method EstimateEbsCost(volumeSize: Attr, volumeType: Attr, pricing: PricingClient) returns (cost: Result<real>)
    ensures cost == EbsCost(volumeSize, volumeType, pricing)
    ensures cost.Raised? <==> !volumeSize.Num?
  {
    var pricePerGb := PricingCalc.GetAwsCost("AmazonEBS", EbsFilters(volumeType), pricing);
    if !volumeSize.Num? {
      return Raised(TypeError);
    }
    cost := Ok(pricePerGb * volumeSize.n);
    assert cost.value == EbsCost(volumeSize, volumeType, pricing).value;
  }

  /** What one entry adds to the total: `resource['type']` is read first, and only two types are priced. */
  function EntryCost(r: ResourceChange, pricing: PricingClient): Result<real> {
    match TypeOf(r)
    case Raised(e) => Raised(e)
    case Ok(t) =>
      if t == "aws_instance" then
        match Require(r, "instance_type")
        case Raised(e) => Raised(e)
        case Ok(instanceType) => Ok(PricingCalc.LookupPrice("AmazonEC2", Ec2Filters(instanceType), pricing))
      else if t == "aws_ebs_volume" then
        match Require(r, "size")
        case Raised(e) => Raised(e)
        case Ok(size) => EbsCost(size, VolumeType(AfterOrEmpty(r)), pricing)
      else Ok(0.0)
  }

  /** The total `parse_terraform_plan` reports for the resource changes `s`. */
  function Total(s: seq<ResourceChange>, pricing: PricingClient): Result<real> {
    RunningTotal(s, r => EntryCost(r, pricing))
  }

  /** The walk has no action filter: an entry's contribution does not depend on its actions. */
  lemma EntryCostIgnoresActions(r: ResourceChange, actions: Option<seq<string>>, pricing: PricingClient)
    requires r.change.Some?
    ensures EntryCost(r.(change := Some(r.change.value.(actions := actions))), pricing) == EntryCost(r, pricing)
  {
    var r' := r.(change := Some(r.change.value.(actions := actions)));
    assert AfterOrEmpty(r') == AfterOrEmpty(r);
    assert Require(r', "size") == Require(r, "size");
    assert Require(r', "instance_type") == Require(r, "instance_type");
  }

  /** Types other than instances and EBS volumes add nothing. */
  lemma OtherTypesAddNothing(r: ResourceChange, pricing: PricingClient)
    requires r.rtype.Some? && r.rtype.value !in {"aws_instance", "aws_ebs_volume"}
    ensures EntryCost(r, pricing) == Ok(0.0)
  {
  }

  /** When no entry raises, the total is the sum of the EC2 and EBS costs of all entries. */
  lemma TotalIsSumOfEntryCosts(s: seq<ResourceChange>, pricing: PricingClient)
    requires forall i :: 0 <= i < |s| ==> EntryCost(s[i], pricing).Ok?
    ensures Total(s, pricing) == Ok(SumOfValues(s, r => EntryCost(r, pricing)))
  {
    RunningTotalIsSum(s, r => EntryCost(r, pricing));
  }

  /** The walk aborts exactly when some entry lacks `type`, or a required key, or has a non-numeric size. */
  lemma TotalRaisesIff(s: seq<ResourceChange>, pricing: PricingClient)
    ensures Total(s, pricing).Raised? <==>
      exists i :: 0 <= i < |s| && (
        || s[i].rtype.None?
        || (s[i].rtype == Some("aws_instance") && Require(s[i], "instance_type").Raised?)
        || (s[i].rtype == Some("aws_ebs_volume") &&
              (Require(s[i], "size").Raised? || !Require(s[i], "size").value.Num?)))
  {
    var cost := r => EntryCost(r, pricing);
    RunningTotalRaisesIff(s, cost);
    forall i | 0 <= i < |s|
      ensures cost(s[i]).Raised? <==>
        || s[i].rtype.None?
        || (s[i].rtype == Some("aws_instance") && Require(s[i], "instance_type").Raised?)
        || (s[i].rtype == Some("aws_ebs_volume") &&
              (Require(s[i], "size").Raised? || !Require(s[i], "size").value.Num?))
    {
    }
  }

  /** The body of the loop of `parse_terraform_plan`: the two `if` blocks for one entry. */
  method EstimateEntry(r: ResourceChange, pricing: PricingClient) returns (cost: Result<real>)
    ensures cost == EntryCost(r, pricing)
  {
    if r.rtype.None? {
      return Raised(KeyError("type"));
    }
    var added := 0.0;
    if r.rtype.value == "aws_instance" {
      var instanceType := Require(r, "instance_type");
      if instanceType.Raised? {
        return Raised(instanceType.error);
      }
      added := EstimateEc2Cost(instanceType.value, pricing);
    }
    if r.rtype.value == "aws_ebs_volume" {
      var volumeSize := Require(r, "size");
      if volumeSize.Raised? {
        return Raised(volumeSize.error);
      }
      var volumeType := VolumeType(AfterOrEmpty(r));
      var ebs := EstimateEbsCost(volumeSize.value, volumeType, pricing);
      if ebs.Raised? {
        return ebs;
      }
      added := ebs.value;
    }
    return Ok(added);
  }

  /**
   * `parse_terraform_plan`: walk `resource_changes` (absent means empty) and add the EC2
   * and EBS estimates to the total it reports; an uncaught exception aborts.
   */
  method ParseTerraformPlan(plan: Plan, pricing: PricingClient) returns (total: Result<real>)
    ensures total == Total(ResourceChanges(plan), pricing)
    ensures plan.resourceChanges.None? ==> total == Ok(0.0)
  {
    var changes := ResourceChanges(plan);
    ghost var cost := r => EntryCost(r, pricing);
    var sum := 0.0;
    var i := 0;
    while i < |changes|
      invariant 0 <= i <= |changes|
      invariant Total(changes[..i], pricing) == Ok(sum)
    {
      var added := EstimateEntry(changes[i], pricing);
      assert changes[..i + 1][..i] == changes[..i];
      RunningTotalStep(changes, i, cost);
      assert cost(changes[i]) == added;
      if added.Raised? {
        RunningTotalRaisedPersists(changes, i + 1, cost);
        return added;
      }
      sum := sum + added.value;
      i := i + 1;
    }
    assert changes[..i] == changes;
    total := Ok(sum);
  }
}
