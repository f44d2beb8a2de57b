/**
 * pricing_calc.py: attribute-aware filter construction for EC2, EBS and Elastic IP,
 * a catalog lookup per filter set, and a walk over every entry of the plan (no action
 * filter) that adds each priced resource's cost to a total.
 */
module PricingCalc {
  import opened Wrappers
  import opened TerraformPlan
  import opened AwsPricing
  import opened CostReport

  // ---------------------------------------------------------------------------
  // Locations and filters
  // ---------------------------------------------------------------------------

  /** `region_mapping`: the six us-east-1 availability zones. */
  const RegionMapping: map<Attr, string> := map[
    Text("us-east-1a") := UsEastNVirginia,
    Text("us-east-1b") := UsEastNVirginia,
    Text("us-east-1c") := UsEastNVirginia,
    Text("us-east-1d") := UsEastNVirginia,
    Text("us-east-1e") := UsEastNVirginia,
    Text("us-east-1f") := UsEastNVirginia
  ]

  /** `map_location_to_pricing`: every zone, listed or not, maps to N. Virginia. */
  function MapLocationToPricing(availabilityZone: Attr): (location: string)
    ensures location == UsEastNVirginia
  {
    if availabilityZone in RegionMapping then RegionMapping[availabilityZone] else UsEastNVirginia
  }

  const Ec2Fields: seq<string> :=
    ["instanceType", "location", "operatingSystem", "preInstalledSw", "tenancy", "capacitystatus"]

  /**
   * The filters of `estimate_ec2_cost`: `instance_type` is read with `[...]` (a KeyError
   * when it, `change` or `after` is missing), the other attributes with defaults.
   */
  function Ec2Filters(r: ResourceChange): (filters: Result<seq<Filter>>)
    ensures filters.Ok? <==> Require(r, "instance_type").Ok?
    ensures filters.Raised? ==> filters.error == Require(r, "instance_type").error
    ensures filters.Ok? ==> Fields(filters.value) == Ec2Fields
  {
    match Require(r, "instance_type")
    case Raised(e) => Raised(e)
    case Ok(instanceType) =>
      var after := AfterOrEmpty(r);
      Ok([
        TermMatch("instanceType", instanceType),
        TermMatch("location", Text(UsEastNVirginia)),
        TermMatch("operatingSystem", GetAttr(after, "operating_system", Text("Linux"))),
        TermMatch("preInstalledSw", Text("NA")),
        TermMatch("tenancy", GetAttr(after, "tenancy", Text("Shared"))),
        TermMatch("capacitystatus", GetAttr(after, "capacity_status", Text("Used")))
      ])
  }

  /**
   * The EC2 filter values: the instance type, two fixed values, and three attributes
   * defaulted to Linux, Shared and Used.
   */
  lemma Ec2FilterValues(r: ResourceChange)
    requires Ec2Filters(r).Ok?
    ensures var f := Ec2Filters(r).value; var after := AfterOrEmpty(r);
      && f[0].value == after["instance_type"]
      && f[1].value == Text(UsEastNVirginia)
      && f[2].value == (if "operating_system" in after then after["operating_system"] else Text("Linux"))
      && f[3].value == Text("NA")
      && f[4].value == (if "tenancy" in after then after["tenancy"] else Text("Shared"))
      && f[5].value == (if "capacity_status" in after then after["capacity_status"] else Text("Used"))
  {
  }

  /** The EC2 filters depend on the four attributes they read and on nothing else. */
  lemma Ec2FiltersDependOnlyOnTheirKeys(r1: ResourceChange, r2: ResourceChange)
    requires AfterOf(r1).Ok? && AfterOf(r2).Ok?
    requires forall k :: k in {"instance_type", "operating_system", "tenancy", "capacity_status"} ==>
      (k in AfterOrEmpty(r1) <==> k in AfterOrEmpty(r2)) && (k in AfterOrEmpty(r1) ==> AfterOrEmpty(r1)[k] == AfterOrEmpty(r2)[k])
    ensures Ec2Filters(r1) == Ec2Filters(r2)
  {
    assert "instance_type" in {"instance_type", "operating_system", "tenancy", "capacity_status"};
    assert "operating_system" in {"instance_type", "operating_system", "tenancy", "capacity_status"};
    assert "tenancy" in {"instance_type", "operating_system", "tenancy", "capacity_status"};
    assert "capacity_status" in {"instance_type", "operating_system", "tenancy", "capacity_status"};
  }

  /** The filters of `estimate_ebs_cost`: volume type (default gp2) and the mapped zone (default us-east-1). */
  function EbsFilters(after: Attributes): (filters: seq<Filter>)
    ensures Fields(filters) == ["volumeType", "location"]
    ensures filters[0].value == if "volume_type" in after then after["volume_type"] else Text("gp2")
    ensures filters[1].value == Text(UsEastNVirginia)
  {
    [
      TermMatch("volumeType", GetAttr(after, "volume_type", Text("gp2"))),
      TermMatch("location", Text(MapLocationToPricing(GetAttr(after, "availability_zone", Text("us-east-1")))))
    ]
  }

  /** The filters of `estimate_elastic_ip_cost`, which ignores the resource. */
  const ElasticIpFilters: seq<Filter> := [
    TermMatch("location", Text(UsEastNVirginia)),
    TermMatch("productFamily", Text("Elastic IP"))
  ]

  // ---------------------------------------------------------------------------
  // Price resolution (`get_aws_cost`, also the one of cost_estimator_v3.py)
  // ---------------------------------------------------------------------------

  /** Where the nested loops over the OnDemand terms stop. */
  datatype Scan =
    | Priced(dimension: Dimension)  // the first dimension found
    | KeyMissing                    // a term without `priceDimensions` came first: KeyError, caught
    | Exhausted                     // every term had an empty `priceDimensions`: the loops end

  function ScanTerms(terms: seq<Term>): (s: Scan)
    ensures s == Exhausted <==> forall i :: 0 <= i < |terms| ==> terms[i].priceDimensions == Some([])
    ensures s.Priced? ==>
      exists i :: 0 <= i < |terms| && terms[i].priceDimensions.Some? && terms[i].priceDimensions.value != []
        && s.dimension == terms[i].priceDimensions.value[0]
        && forall j :: 0 <= j < i ==> terms[j].priceDimensions == Some([])
    ensures s == KeyMissing ==>
      exists i :: 0 <= i < |terms| && terms[i].priceDimensions.None?
        && forall j :: 0 <= j < i ==> terms[j].priceDimensions == Some([])
    decreases |terms|
  {
    if terms == [] then Exhausted
    else
      match terms[0].priceDimensions
      case None => KeyMissing
      case Some(dimensions) =>
        if dimensions != [] then Priced(dimensions[0])
        else
          var s := ScanTerms(terms[1..]);
          assert forall i :: 1 <= i < |terms| ==> terms[i] == terms[1..][i - 1];
          s
  }

  /**
   * `get_aws_cost` after the request, AS WRITTEN: 0 for a failed call, an empty
   * `PriceList`, an undecodable offer, a missing `terms`, `OnDemand` or `priceDimensions`
   * key, or a missing `USD`; None (Python's implicit return) when the loops end without
   * finding a dimension, which includes an empty OnDemand map.
   */
  function OnDemandPriceAsWritten(resp: Response): Option<real> {
    match resp
    case Failed => Some(0.0)
    case PriceList(offers) =>
      if offers == [] then Some(0.0)
      else
        match offers[0]
        case Malformed => Some(0.0)
        case Offer(onDemand) =>
          match onDemand
          case None => Some(0.0)
          case Some(terms) =>
            match ScanTerms(terms)
            case Priced(d) => Some(DimensionPrice(d))
            case KeyMissing => Some(0.0)
            case Exhausted => None
  }

  /** The price the lookup yields, with the fall-through corrected to 0. */
  function OnDemandPrice(resp: Response): real {
    OnDemandPriceAsWritten(resp).GetOr(0.0)
  }

  /** `get_aws_cost(service_code, filters)` with the client as an oracle. */
  function LookupPrice(serviceCode: string, filters: seq<Filter>, pricing: PricingClient): real {
    OnDemandPrice(pricing(Query(serviceCode, filters, 1)))
  }

  /**
   * The source returns None exactly when OnDemand is present and every term in it has an
   * empty `priceDimensions` (in particular when OnDemand is empty); elsewhere the corrected
   * price is the one returned.
   */
  lemma FallThroughExactly(resp: Response)
    ensures OnDemandPriceAsWritten(resp).None? <==>
      resp.PriceList? && resp.offers != [] && resp.offers[0].Offer? && resp.offers[0].onDemand.Some?
      && forall i :: 0 <= i < |resp.offers[0].onDemand.value| ==> resp.offers[0].onDemand.value[i].priceDimensions == Some([])
    ensures OnDemandPriceAsWritten(resp).Some? ==> OnDemandPrice(resp) == OnDemandPriceAsWritten(resp).value
  {
  }

  /** With non-negative catalog amounts the resolved price is never negative. */
  lemma PriceNonNegative(resp: Response)
    requires AmountsNonNegative(resp)
    ensures OnDemandPrice(resp) >= 0.0
  {
    if resp.PriceList? && resp.offers != [] && resp.offers[0].Offer? && resp.offers[0].onDemand.Some? {
      var terms := resp.offers[0].onDemand.value;
      var s := ScanTerms(terms);
      if s.Priced? {
        var i :| 0 <= i < |terms| && terms[i].priceDimensions.Some? && terms[i].priceDimensions.value != []
          && s.dimension == terms[i].priceDimensions.value[0];
        assert terms[i] in terms && s.dimension in terms[i].priceDimensions.value;
      }
    }
  }

  /** `total_cost += cost` when `cost` may be Python's None. */
  function AccumulateAsWritten(total: real, cost: Option<real>): Result<real> {
    match cost
    case None => Raised(TypeError)
    case Some(c) => Ok(total + c)
  }

  /**
   * An offer with an empty OnDemand map makes `get_aws_cost` return None, and the walk's
   * `total_cost += ec2_cost` then raises TypeError, where a price of 0 was meant.
   */
  lemma EmptyOnDemandAbortsRun()
    ensures var resp := PriceList([Offer(Some([]))]);
      && OnDemandPriceAsWritten(resp) == None
      && AccumulateAsWritten(0.0, OnDemandPriceAsWritten(resp)) == Raised(TypeError)
      && OnDemandPrice(resp) == 0.0
  {
  }

  /** `get_aws_cost`: one call to the client, then the nested loops over terms and dimensions. */
  method GetAwsCost(serviceCode: string, filters: seq<Filter>, pricing: PricingClient) returns (price: real)
    ensures price == LookupPrice(serviceCode, filters, pricing)
  {
    var response := pricing(Query(serviceCode, filters, 1));
    if response.Failed? || response.offers == [] {
      return 0.0;
    }
    var offer := response.offers[0];
    if offer.Malformed? || offer.onDemand.None? {
      return 0.0;
    }
    var terms := offer.onDemand.value;
    var i := 0;
    while i < |terms|
      invariant 0 <= i <= |terms|
      invariant ScanTerms(terms) == ScanTerms(terms[i..])
    {
      if terms[i].priceDimensions.None? {
        return 0.0;
      }
      var dimensions := terms[i].priceDimensions.value;
      if dimensions != [] {
        return DimensionPrice(dimensions[0]);
      }
      assert terms[i..][1..] == terms[i + 1..];
      i := i + 1;
    }
    // The source falls off the end of the loops here and returns None.
    return 0.0;
  }

  // ---------------------------------------------------------------------------
  // Per-resource estimates
  // ---------------------------------------------------------------------------

  function Ec2Cost(r: ResourceChange, pricing: PricingClient): Result<real> {
    match Ec2Filters(r)
    case Raised(e) => Raised(e)
    case Ok(filters) => Ok(LookupPrice("AmazonEC2", filters, pricing))
  }

  /** The per-GB price times `size`; `size` is read with `[...]` and must be a number. */
  function EbsCost(r: ResourceChange, pricing: PricingClient): Result<real> {
    match Require(r, "size")
    case Raised(e) => Raised(e)
    case Ok(size) =>
      match size
      case Num(n) => Ok(LookupPrice("AmazonEBS", EbsFilters(AfterOrEmpty(r)), pricing) * n)
      case _ => Raised(TypeError)
  }

  function ElasticIpCost(pricing: PricingClient): real {
    LookupPrice("AmazonEC2", ElasticIpFilters, pricing)
  }

  /** `estimate_ec2_cost` */
  method EstimateEc2Cost(r: ResourceChange, pricing: PricingClient) returns (cost: Result<real>)
    ensures cost == Ec2Cost(r, pricing)
    ensures cost.Raised? <==> Require(r, "instance_type").Raised?
  {
    var filters := Ec2Filters(r);
    if filters.Raised? {
      return Raised(filters.error);
    }
    var price := GetAwsCost("AmazonEC2", filters.value, pricing);
    return Ok(price);
  }

  /** `estimate_ebs_cost` */
  method EstimateEbsCost(r: ResourceChange, pricing: PricingClient) returns (cost: Result<real>)
    ensures cost == EbsCost(r, pricing)
    ensures cost.Raised? <==> Require(r, "size").Raised? || !Require(r, "size").value.Num?
  {
    var size := Require(r, "size");
    if size.Raised? {
      return Raised(size.error);
    }
    var pricePerGb := GetAwsCost("AmazonEBS", EbsFilters(AfterOrEmpty(r)), pricing);
    if !size.value.Num? {
      return Raised(TypeError);
    }
    cost := Ok(pricePerGb * size.value.n);
    assert cost.value == EbsCost(r, pricing).value;
  }

  /** `estimate_elastic_ip_cost`: the same lookup whatever the resource says. */
  method EstimateElasticIpCost(r: ResourceChange, pricing: PricingClient) returns (cost: real)
    ensures cost == ElasticIpCost(pricing)
  {
    cost := GetAwsCost("AmazonEC2", ElasticIpFilters, pricing);
  }

  // ---------------------------------------------------------------------------
  // Plan walk
  // ---------------------------------------------------------------------------

  /** What one entry adds to the total: `resource['type']` is read first, and only three types are priced. */
  function EntryCost(r: ResourceChange, pricing: PricingClient): Result<real> {
    match TypeOf(r)
    case Raised(e) => Raised(e)
    case Ok(t) =>
      if t == "aws_instance" then Ec2Cost(r, pricing)
      else if t == "aws_ebs_volume" then EbsCost(r, pricing)
      else if t == "aws_eip" then Ok(ElasticIpCost(pricing))
      else Ok(0.0)
  }

  /** The total `parse_terraform_plan` reports for the resource changes `s`. */
  function Total(s: seq<ResourceChange>, pricing: PricingClient): Result<real> {
    RunningTotal(s, r => EntryCost(r, pricing))
  }

  /** The walk has no action filter: an entry's contribution does not depend on its actions. */
  lemma EntryCostIgnoresActions(r: ResourceChange, actions: Option<seq<string>>, pricing: PricingClient)
    requires r.change.Some?
    ensures EntryCost(r.(change := Some(r.change.value.(actions := actions))), pricing) == EntryCost(r, pricing)
  {
    var r' := r.(change := Some(r.change.value.(actions := actions)));
    assert AfterOf(r') == AfterOf(r);
    assert AfterOrEmpty(r') == AfterOrEmpty(r);
    assert Ec2Filters(r') == Ec2Filters(r);
    assert Require(r', "size") == Require(r, "size");
    if Require(r, "size").Ok? && Require(r, "size").value.Num? {
      assert EbsCost(r', pricing).value == EbsCost(r, pricing).value;
    }
  }

  /** Types other than instances, EBS volumes and Elastic IPs add nothing. */
  lemma OtherTypesAddNothing(r: ResourceChange, pricing: PricingClient)
    requires r.rtype.Some? && r.rtype.value !in {"aws_instance", "aws_ebs_volume", "aws_eip"}
    ensures EntryCost(r, pricing) == Ok(0.0)
  {
  }

  /**
   * A missing `instance_type` or `size` is not absorbed into a price of 0: the KeyError
   * escapes and the whole walk aborts with it, as does a missing `type`.
   */
  lemma MissingRequiredKeyAbortsWalk(s: seq<ResourceChange>, i: nat, pricing: PricingClient)
    requires i < |s|
    requires || s[i].rtype.None?
             || (s[i].rtype == Some("aws_instance") && Require(s[i], "instance_type").Raised?)
             || (s[i].rtype == Some("aws_ebs_volume") && Require(s[i], "size").Raised?)
    ensures Total(s, pricing).Raised?
    ensures (forall j :: 0 <= j < i ==> EntryCost(s[j], pricing).Ok?) ==> Total(s, pricing).error.KeyError?
  {
    var cost := r => EntryCost(r, pricing);
    assert cost(s[i]).Raised? && cost(s[i]).error.KeyError?;
    RunningTotalRaisesIff(s, cost);
    var k :| 0 <= k < |s| && cost(s[k]) == Total(s, pricing) && forall j :: 0 <= j < k ==> cost(s[j]).Ok?;
    assert k <= i;
    assert cost(s[k]) == EntryCost(s[k], pricing);
  }

  /** When no entry raises, the total is the sum of every entry's cost, in any action state. */
  lemma TotalIsSumOfEntryCosts(s: seq<ResourceChange>, pricing: PricingClient)
    requires forall i :: 0 <= i < |s| ==> EntryCost(s[i], pricing).Ok?
    ensures Total(s, pricing) == Ok(SumOfValues(s, r => EntryCost(r, pricing)))
  {
    RunningTotalIsSum(s, r => EntryCost(r, pricing));
  }

  /** The body of the loop of `parse_terraform_plan`: the three `if` blocks for one entry. */
  method EstimateEntry(r: ResourceChange, pricing: PricingClient) returns (cost: Result<real>)
    ensures cost == EntryCost(r, pricing)
  {
    if r.rtype.None? {
      return Raised(KeyError("type"));
    }
    var added := 0.0;
    if r.rtype.value == "aws_instance" {
      var ec2 := EstimateEc2Cost(r, pricing);
      if ec2.Raised? {
        return ec2;
      }
      added := ec2.value;
    }
    if r.rtype.value == "aws_ebs_volume" {
      var ebs := EstimateEbsCost(r, pricing);
      if ebs.Raised? {
        return ebs;
      }
      added := ebs.value;
    }
    if r.rtype.value == "aws_eip" {
      added := EstimateElasticIpCost(r, pricing);
    }
    return Ok(added);
  }

  /**
   * `parse_terraform_plan`: walk `resource_changes` (absent means empty) and add the EC2,
   * EBS and Elastic IP estimates to the total it reports; an uncaught exception aborts.
   */
  method ParseTerraformPlan(plan: Plan, pricing: PricingClient) returns (total: Result<real>)
    ensures total == Total(ResourceChanges(plan), pricing)
    ensures plan.resourceChanges.None? ==> total == Ok(0.0)
  {
    var changes := ResourceChanges(plan);
    ghost var cost := r => EntryCost(r, pricing);
    var sum := 0.0;
    var i := 0;
    while i < |changes|
      invariant 0 <= i <= |changes|
      invariant Total(changes[..i], pricing) == Ok(sum)
    {
      var added := EstimateEntry(changes[i], pricing);
      assert changes[..i + 1][..i] == changes[..i];
      RunningTotalStep(changes, i, cost);
      assert cost(changes[i]) == added;
      if added.Raised? {
        RunningTotalRaisedPersists(changes, i + 1, cost);
        return added;
      }
      sum := sum + added.value;
      i := i + 1;
    }
    assert changes[..i] == changes;
    total := Ok(sum);
  }
}
