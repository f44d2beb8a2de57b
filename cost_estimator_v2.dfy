/**
 * cost_estimator_v2.py: live catalog lookup keyed by a service-code table, per-kind
 * quantity rules, and a walk over the create entries that builds a name-keyed report.
 */
module CostEstimatorV2 {
  import opened Wrappers
  import opened TerraformPlan
  import opened AwsPricing
  import opened CostReport

  /** Resource types the estimator can price, with their AWS ServiceCode. */
  const ServiceCodeMap: map<string, string> := map[
    "aws_instance" := "AmazonEC2",
    "aws_s3_bucket" := "AmazonS3",
    "aws_db_instance" := "AmazonRDS",
    "aws_ebs_volume" := "AmazonEBS",
    "aws_efs_file_system" := "AmazonEFS",
    "aws_internet_gateway" := "AmazonEC2",
    "aws_vpc" := "AmazonEC2",
    "aws_subnet" := "AmazonEC2",
    "aws_security_group" := "AmazonEC2"
  ]

  /** The region `get_aws_cost` is always called with (its default argument). */
  const DefaultRegion: string := "us-east-1"

  /** Bytes per GiB, `1024 ** 3`. */
  const GiB: real := 1073741824.0

  // ---------------------------------------------------------------------------
  // Price resolution
  // ---------------------------------------------------------------------------

  /**
   * The one `get_products` request `get_aws_cost` sends for a resource type, or None when
   * the type has no ServiceCode and the client is not called at all.
   */
  function PriceQuery(rtype: Option<string>, region: string): (q: Option<Query>)
    ensures q.Some? <==> rtype.Some? && rtype.value in ServiceCodeMap
    ensures q.Some? ==> q.value.serviceCode == ServiceCodeMap[rtype.value] && q.value.maxResults == 1
    ensures q.Some? ==> |q.value.filters| == 1 && q.value.filters[0] == TermMatch("location", Text(region))
  {
    match rtype
    case Some(t) =>
      if t in ServiceCodeMap then Some(Query(ServiceCodeMap[t], [TermMatch("location", Text(region))], 1))
      else None
    case None => None
  }

  /** `on_demand_price[key].get('priceDimensions', {})` */
  function DimensionsOf(t: Term): seq<Dimension> {
    t.priceDimensions.GetOr([])
  }

  predicate HasDimension(t: Term) {
    DimensionsOf(t) != []
  }

  /**
   * The dimension the nested loops of `get_aws_cost` stop at: the first dimension of the
   * first term that has one; terms without `priceDimensions` are skipped.
   */
  function FirstDimension(terms: seq<Term>): (d: Option<Dimension>)
    ensures d.None? <==> forall i :: 0 <= i < |terms| ==> !HasDimension(terms[i])
    ensures d.Some? ==>
      exists i :: 0 <= i < |terms| && HasDimension(terms[i]) && d.value == DimensionsOf(terms[i])[0]
        && forall j :: 0 <= j < i ==> !HasDimension(terms[j])
    decreases |terms|
  {
    if terms == [] then None
    else if HasDimension(terms[0]) then Some(DimensionsOf(terms[0])[0])
    else
      var d := FirstDimension(terms[1..]);
      assert forall i :: 1 <= i < |terms| ==> terms[i] == terms[1..][i - 1];
      d
  }

  /**
   * `get_aws_cost` after the request, AS WRITTEN: 0 for a failed call, an empty `PriceList`,
   * an undecodable offer, or an absent or empty OnDemand map; None (Python's implicit return)
   * when OnDemand has terms but none of them has a dimension.
   */
  function OnDemandPriceAsWritten(resp: Response): Option<real> {
    match resp
    case Failed => Some(0.0)
    case PriceList(offers) =>
      if offers == [] then Some(0.0)
      else
        match offers[0]
        case Malformed => Some(0.0)
        case Offer(onDemand) =>
          if onDemand.None? || onDemand.value == [] then Some(0.0)
          else
            match FirstDimension(onDemand.value)
            case None => None
            case Some(d) => Some(DimensionPrice(d))
  }

  /** The price the lookup yields, with the fall-through corrected to 0. */
  function OnDemandPrice(resp: Response): real {
    OnDemandPriceAsWritten(resp).GetOr(0.0)
  }

  /** The dimension whose USD price is used, if the response has one. */
  function PricedDimension(resp: Response): Option<Dimension> {
    if resp.PriceList? && resp.offers != [] && resp.offers[0].Offer? && resp.offers[0].onDemand.Some?
    then FirstDimension(resp.offers[0].onDemand.value)
    else None
  }

  /** `get_aws_cost(resource_type, region)`, corrected to 0 where the source returns None. */
  function UnitPrice(rtype: Option<string>, region: string, pricing: PricingClient): real {
    match PriceQuery(rtype, region)
    case None => 0.0
    case Some(q) => OnDemandPrice(pricing(q))
  }

  /** An unmapped type costs 0 whatever the client would answer: the client is never asked. */
  lemma UnmappedTypeIsFree(rtype: Option<string>, region: string, pricing: PricingClient)
    requires rtype.None? || rtype.value !in ServiceCodeMap
    ensures PriceQuery(rtype, region).None?
    ensures UnitPrice(rtype, region, pricing) == 0.0
  {
  }

  /**
   * The price is the USD amount of the first dimension of the first term that has one,
   * times 730, and 0 whenever no such dimension exists.
   */
  lemma PriceIsFirstDimensionTimes730(resp: Response)
    ensures PricedDimension(resp).None? ==> OnDemandPrice(resp) == 0.0
    ensures PricedDimension(resp).Some? ==> OnDemandPrice(resp) == DimensionPrice(PricedDimension(resp).value)
    ensures PricedDimension(resp).Some? ==>
      exists i :: 0 <= i < |resp.offers[0].onDemand.value| && HasDimension(resp.offers[0].onDemand.value[i])
        && PricedDimension(resp).value == DimensionsOf(resp.offers[0].onDemand.value[i])[0]
        && forall j :: 0 <= j < i ==> !HasDimension(resp.offers[0].onDemand.value[j])
  {
  }

  /** The source returns None exactly when OnDemand has terms and none of them has a dimension. */
  lemma FallThroughExactly(resp: Response)
    ensures OnDemandPriceAsWritten(resp).None? <==>
      resp.PriceList? && resp.offers != [] && resp.offers[0].Offer? && resp.offers[0].onDemand.Some?
      && resp.offers[0].onDemand.value != []
      && forall i :: 0 <= i < |resp.offers[0].onDemand.value| ==> !HasDimension(resp.offers[0].onDemand.value[i])
    ensures OnDemandPriceAsWritten(resp).Some? ==> OnDemandPrice(resp) == OnDemandPriceAsWritten(resp).value
  {
  }

  /** With non-negative catalog amounts the resolved price is never negative. */
  lemma PriceNonNegative(resp: Response)
    requires AmountsNonNegative(resp)
    ensures OnDemandPrice(resp) >= 0.0
  {
    var d := PricedDimension(resp);
    if d.Some? {
      var terms := resp.offers[0].onDemand.value;
      var i :| 0 <= i < |terms| && HasDimension(terms[i]) && d.value == DimensionsOf(terms[i])[0];
      assert terms[i] in terms && d.value in terms[i].priceDimensions.value;
    }
  }

  /** `cost_per_unit * count` when `cost_per_unit` may be Python's None. */
  function MonthlyCostAsWritten(price: Option<real>, count: real): Result<real> {
    match price
    case None => Raised(TypeError)
    case Some(p) => Ok(p * count)
  }

  /**
   * An offer whose only OnDemand term has an empty `priceDimensions` makes `get_aws_cost`
   * return None, and `calculate_monthly_cost` then raises TypeError, aborting the run,
   * where the lookup was meant to degrade to a price of 0.
   */
  lemma EmptyDimensionsAbortRun()
    ensures var resp := PriceList([Offer(Some([Term(Some([]))]))]);
      && OnDemandPriceAsWritten(resp) == None
      && MonthlyCostAsWritten(OnDemandPriceAsWritten(resp), 1.0) == Raised(TypeError)
      && OnDemandPrice(resp) == 0.0
  {
  }

  /**
   * `get_aws_cost` with the client as an oracle: at most one call, then the nested
   * loops over the OnDemand terms and their dimensions that stop at the first dimension.
   */
  method GetAwsCost(rtype: Option<string>, region: string, pricing: PricingClient) returns (price: real)
    ensures price == UnitPrice(rtype, region, pricing)
  {
    var query := PriceQuery(rtype, region);
    if query.None? {
      return 0.0;
    }
    var response := pricing(query.value);
    if response.Failed? || response.offers == [] {
      return 0.0;
    }
    var offer := response.offers[0];
    if offer.Malformed? || offer.onDemand.None? || offer.onDemand.value == [] {
      return 0.0;
    }
    var terms := offer.onDemand.value;
    var i := 0;
    while i < |terms|
      invariant 0 <= i <= |terms|
      invariant FirstDimension(terms) == FirstDimension(terms[i..])
    {
      var dimensions := DimensionsOf(terms[i]);
      if dimensions != [] {
        return DimensionPrice(dimensions[0]);
      }
      assert terms[i..][1..] == terms[i + 1..];
      i := i + 1;
    }
    // The source falls off the end of the loops here and returns None.
    return 0.0;
  }

  // ---------------------------------------------------------------------------
  // Quantity
  // ---------------------------------------------------------------------------

  /** A size attribute the quantity rule reads is present but is not a number. */
  predicate NonNumericSize(r: ResourceChange) {
    || (r.rtype == Some("aws_ebs_volume") && "size" in AfterOrEmpty(r) && !AfterOrEmpty(r)["size"].Num?)
    || (r.rtype == Some("aws_efs_file_system") && "size_in_bytes" in AfterOrEmpty(r)
        && !AfterOrEmpty(r)["size_in_bytes"].Num?)
  }

  /** The EBS `size`, when it is a number, is not negative (a non-positive EFS size falls back to 500). */
  predicate SizesNonNegative(r: ResourceChange) {
    "size" in AfterOrEmpty(r) && AfterOrEmpty(r)["size"].Num? ==> AfterOrEmpty(r)["size"].n >= 0.0
  }

  /**
   * `calculate_quantity`. A non-numeric size is a TypeError: for `size_in_bytes` at the
   * comparison, for `size` at the multiplication or addition that follows in the walk.
   */
  function CalculateQuantity(r: ResourceChange): Result<real> {
    var after := AfterOrEmpty(r);
    if r.rtype == Some("aws_instance") then Ok(1.0)
    else if r.rtype == Some("aws_ebs_volume") then
      match GetAttr(after, "size", Num(1.0))
      case Num(n) => Ok(n)
      case _ => Raised(TypeError)
    else if r.rtype == Some("aws_efs_file_system") then
      match GetAttr(after, "size_in_bytes", Num(0.0))
      case Num(n) => Ok(if n > 0.0 then n / GiB else 500.0)
      case _ => Raised(TypeError)
    else Ok(1.0)
  }

  /**
   * The quantity rules: an instance and every type other than EBS and EFS count 1; an EBS
   * volume counts its `size` (1 when absent); an EFS file system counts its `size_in_bytes`
   * in GiB when positive and 500 otherwise; only a non-numeric size raises.
   */
  lemma QuantityRules(r: ResourceChange)
    ensures CalculateQuantity(r).Raised? <==> NonNumericSize(r)
    ensures CalculateQuantity(r).Raised? ==> CalculateQuantity(r).error == TypeError
    ensures r.rtype !in {Some("aws_ebs_volume"), Some("aws_efs_file_system")} ==> CalculateQuantity(r) == Ok(1.0)
    ensures r.rtype == Some("aws_ebs_volume") && "size" !in AfterOrEmpty(r) ==> CalculateQuantity(r) == Ok(1.0)
    ensures r.rtype == Some("aws_ebs_volume") && "size" in AfterOrEmpty(r) && CalculateQuantity(r).Ok? ==>
      AfterOrEmpty(r)["size"] == Num(CalculateQuantity(r).value)
    ensures r.rtype == Some("aws_efs_file_system") && CalculateQuantity(r).Ok? ==>
      if "size_in_bytes" in AfterOrEmpty(r) && AfterOrEmpty(r)["size_in_bytes"].n > 0.0
      then AfterOrEmpty(r)["size_in_bytes"] == Num(CalculateQuantity(r).value * GiB)
      else CalculateQuantity(r).value == 500.0
    ensures CalculateQuantity(r).Ok? && SizesNonNegative(r) ==> CalculateQuantity(r).value >= 0.0
  {
  }

  /** `calculate_monthly_cost(resource_type, count)`: one lookup, times the quantity. */
  method CalculateMonthlyCost(rtype: Option<string>, count: real, pricing: PricingClient) returns (cost: real)
    ensures cost == UnitPrice(rtype, DefaultRegion, pricing) * count
  {
    var unit := GetAwsCost(rtype, DefaultRegion, pricing);
    cost := unit * count;
  }

  // ---------------------------------------------------------------------------
  // Plan walk
  // ---------------------------------------------------------------------------

  /** The record one create entry produces, or the error its quantity raises. */
  function EntryOf(r: ResourceChange, pricing: PricingClient): (entry: Result<Entry>)
    ensures entry.Ok? ==> entry.value.name == r.name
  {
    var quantity := CalculateQuantity(r);
    if quantity.Raised? then Raised(quantity.error)
    else Ok(Entry(r.name, CostRecord(r.rtype, quantity.value, UnitPrice(r.rtype, DefaultRegion, pricing) * quantity.value)))
  }

  lemma EntryOfCreate(r: ResourceChange, pricing: PricingClient)
    requires CalculateQuantity(r).Ok?
    ensures EntryOf(r, pricing) == Ok(Entry(r.name, CostRecord(r.rtype, CalculateQuantity(r).value,
      UnitPrice(r.rtype, DefaultRegion, pricing) * CalculateQuantity(r).value)))
  {
    var entry := EntryOf(r, pricing);
    assert entry.Ok?;
    assert entry.value.record == CostRecord(r.rtype, CalculateQuantity(r).value,
      UnitPrice(r.rtype, DefaultRegion, pricing) * CalculateQuantity(r).value);
  }

  /** The entries the loop of `parse_terraform_plan` adds, in order, for a prefix of the plan. */
  function Entries(s: seq<ResourceChange>, pricing: PricingClient): Result<seq<Entry>>
    decreases |s|
  {
    if s == [] then Ok([])
    else
      match Entries(s[..|s| - 1], pricing)
      case Raised(e) => Raised(e)
      case Ok(es) =>
        var r := s[|s| - 1];
        if !IsCreate(r) then Ok(es)
        else
          match EntryOf(r, pricing)
          case Raised(e) => Raised(e)
          case Ok(en) => Ok(es + [en])
  }

  /** `parse_terraform_plan` on the resource changes `s`. */
  function Walk(s: seq<ResourceChange>, pricing: PricingClient): Result<Report> {
    match Entries(s, pricing)
    case Raised(e) => Raised(e)
    case Ok(es) => Ok(Aggregate(es))
  }

  /** One iteration of the loop of `parse_terraform_plan`. */
  lemma EntriesStep(s: seq<ResourceChange>, i: nat, pricing: PricingClient)
    requires i < |s|
    requires Entries(s[..i], pricing).Ok?
    ensures !IsCreate(s[i]) ==> Entries(s[..i + 1], pricing) == Entries(s[..i], pricing)
    ensures IsCreate(s[i]) && EntryOf(s[i], pricing).Raised? ==>
      Entries(s[..i + 1], pricing) == Raised(EntryOf(s[i], pricing).error)
    ensures IsCreate(s[i]) && EntryOf(s[i], pricing).Ok? ==>
      Entries(s[..i + 1], pricing) == Ok(Entries(s[..i], pricing).value + [EntryOf(s[i], pricing).value])
  {
    assert s[..i + 1][..i] == s[..i];
  }

  lemma {:induction false} EntriesRaisedPersists(s: seq<ResourceChange>, n: nat, pricing: PricingClient)
    requires n <= |s|
    requires Entries(s[..n], pricing).Raised?
    ensures Entries(s, pricing) == Entries(s[..n], pricing)
    decreases |s| - n
  {
    if n < |s| {
      assert s[..n + 1][..n] == s[..n];
      EntriesRaisedPersists(s, n + 1, pricing);
    } else {
      assert s[..n] == s;
    }
  }

  /** The walk adds one entry per create entry of the plan, in plan order, and nothing else. */
  lemma {:induction false} EntriesAreTheCreates(s: seq<ResourceChange>, pricing: PricingClient)
    requires Entries(s, pricing).Ok?
    ensures |Entries(s, pricing).value| == |Creates(s)|
    ensures forall k :: 0 <= k < |Creates(s)| ==> EntryOf(Creates(s)[k], pricing) == Ok(Entries(s, pricing).value[k])
    decreases |s|
  {
    if s != [] {
      EntriesAreTheCreates(s[..|s| - 1], pricing);
    }
  }

  /** One entry raises exactly when its size attribute is not a number. */
  lemma EntryRaisesIff(r: ResourceChange, pricing: PricingClient)
    ensures EntryOf(r, pricing).Raised? <==> NonNumericSize(r)
  {
    QuantityRules(r);
  }

  /** The walk of a plan aborts when that of its prefix does or its last entry is an aborting create. */
  lemma WalkRaisesStep(s: seq<ResourceChange>, pricing: PricingClient)
    requires s != []
    ensures Walk(s, pricing).Raised? <==>
      Walk(s[..|s| - 1], pricing).Raised? || (IsCreate(s[|s| - 1]) && NonNumericSize(s[|s| - 1]))
  {
    EntryRaisesIff(s[|s| - 1], pricing);
  }

  /** The run aborts exactly when some create entry has a non-numeric size. */
  lemma {:induction false} WalkRaisesIff(s: seq<ResourceChange>, pricing: PricingClient)
    ensures Walk(s, pricing).Raised? <==> exists i :: 0 <= i < |s| && IsCreate(s[i]) && NonNumericSize(s[i])
    decreases |s|
  {
    if s != [] {
      var p := s[..|s| - 1];
      WalkRaisesIff(p, pricing);
      WalkRaisesStep(s, pricing);
      AbortingSnoc(s, p);
    }
  }

  lemma AbortingSnoc(s: seq<ResourceChange>, p: seq<ResourceChange>)
    requires s != [] && p == s[..|s| - 1]
    ensures (exists i :: 0 <= i < |s| && IsCreate(s[i]) && NonNumericSize(s[i])) <==>
      (exists i :: 0 <= i < |p| && IsCreate(p[i]) && NonNumericSize(p[i]))
      || (IsCreate(s[|s| - 1]) && NonNumericSize(s[|s| - 1]))
  {
    if exists i :: 0 <= i < |p| && IsCreate(p[i]) && NonNumericSize(p[i]) {
      var i :| 0 <= i < |p| && IsCreate(p[i]) && NonNumericSize(p[i]);
      assert s[i] == p[i];
    }
    if exists i :: 0 <= i < |s| && IsCreate(s[i]) && NonNumericSize(s[i]) {
      var i :| 0 <= i < |s| && IsCreate(s[i]) && NonNumericSize(s[i]);
      if i < |p| { assert p[i] == s[i]; }
    }
  }

  /** A plan without `resource_changes`, or with no create entry, yields total 0 and no records. */
  lemma {:induction false} NoCreatesEmptyReport(s: seq<ResourceChange>, pricing: PricingClient)
    requires forall i :: 0 <= i < |s| ==> !IsCreate(s[i])
    ensures Walk(s, pricing) == Ok(Empty)
    decreases |s|
  {
    if s != [] {
      NoCreatesEmptyReport(s[..|s| - 1], pricing);
    }
  }

  /** The report has a record for exactly the names of the plan's create entries. */
  lemma RecordedNamesAreCreates(s: seq<ResourceChange>, pricing: PricingClient)
    requires Walk(s, pricing).Ok?
    ensures Walk(s, pricing).value.records.Keys == set r | r in s && IsCreate(r) :: r.name
  {
    var names := EntryNames(s, pricing);
    RecordedNamesListed(Entries(s, pricing).value, names);
    NamesOfCreates(s, names);
  }

  /** The names of the walk's entries, which are those of the create entries. */
  lemma EntryNames(s: seq<ResourceChange>, pricing: PricingClient) returns (names: seq<Option<string>>)
    requires Entries(s, pricing).Ok?
    ensures |names| == |Entries(s, pricing).value| == |Creates(s)|
    ensures forall k :: 0 <= k < |names| ==> names[k] == Entries(s, pricing).value[k].name == Creates(s)[k].name
  {
    var es := Entries(s, pricing).value;
    EntriesAreTheCreates(s, pricing);
    names := seq(|es|, k requires 0 <= k < |es| => es[k].name);
    forall k | 0 <= k < |names| ensures names[k] == es[k].name == Creates(s)[k].name {
      assert EntryOf(Creates(s)[k], pricing) == Ok(es[k]);
    }
  }

  /** The record under a name is the one of the last create entry with that name. */
  lemma LastCreateWins(s: seq<ResourceChange>, pricing: PricingClient, k: nat)
    requires Walk(s, pricing).Ok?
    requires k < |Creates(s)|
    requires forall j :: k < j < |Creates(s)| ==> Creates(s)[j].name != Creates(s)[k].name
    ensures EntryOf(Creates(s)[k], pricing).Ok?
    ensures Creates(s)[k].name in Walk(s, pricing).value.records
    ensures Walk(s, pricing).value.records[Creates(s)[k].name] == EntryOf(Creates(s)[k], pricing).value.record
  {
    var es := Entries(s, pricing).value;
    EntriesAreTheCreates(s, pricing);
    forall j | k < j < |es| ensures es[j].name != es[k].name {
      assert EntryOf(Creates(s)[j], pricing) == Ok(es[j]);
    }
    LastWriteWins(es, k);
  }

  /** When the create entries have distinct names the total is the sum of the records. */
  lemma TotalConsistentWhenNamesDistinct(s: seq<ResourceChange>, pricing: PricingClient)
    requires Walk(s, pricing).Ok?
    requires forall i, j :: 0 <= i < j < |Creates(s)| ==> Creates(s)[i].name != Creates(s)[j].name
    ensures Walk(s, pricing).value.total == RecordsCost(Walk(s, pricing).value.records)
  {
    var es := Entries(s, pricing).value;
    EntriesAreTheCreates(s, pricing);
    forall i, j | 0 <= i < j < |es| ensures es[i].name != es[j].name {
      assert EntryOf(Creates(s)[i], pricing) == Ok(es[i]);
      assert EntryOf(Creates(s)[j], pricing) == Ok(es[j]);
    }
    TotalMatchesRecordsWhenNamesDistinct(es);
  }

  /** With non-negative catalog amounts a price is never negative, whatever type or region is asked for. */
  lemma UnitPriceNonNegative(rtype: Option<string>, region: string, pricing: PricingClient)
    requires forall q :: AmountsNonNegative(pricing(q))
    ensures UnitPrice(rtype, region, pricing) >= 0.0
  {
    var q := PriceQuery(rtype, region);
    if q.Some? {
      PriceNonNegative(pricing(q.value));
    }
  }

  /** A record's cost is a non-negative price times a non-negative quantity, so it is not negative. */
  lemma RecordCostNonNegative(r: ResourceChange, pricing: PricingClient)
    requires forall q :: AmountsNonNegative(pricing(q))
    requires SizesNonNegative(r)
    requires EntryOf(r, pricing).Ok?
    ensures EntryOf(r, pricing).value.record.cost >= 0.0
  {
    QuantityRules(r);
    UnitPriceNonNegative(r.rtype, DefaultRegion, pricing);
    EntryOfCreate(r, pricing);
    var price := UnitPrice(r.rtype, DefaultRegion, pricing);
    var quantity := CalculateQuantity(r).value;
    assert price * quantity >= 0.0;
  }

  /**
   * With non-negative catalog amounts and sizes, every record cost is non-negative and the
   * total, which keeps the costs of overwritten records, is at least the sum of the records.
   */
  lemma CostsNonNegative(s: seq<ResourceChange>, pricing: PricingClient)
    requires forall q :: AmountsNonNegative(pricing(q))
    requires forall r :: r in s && IsCreate(r) ==> SizesNonNegative(r)
    requires Walk(s, pricing).Ok?
    ensures forall n :: n in Walk(s, pricing).value.records ==> Walk(s, pricing).value.records[n].cost >= 0.0
    ensures Walk(s, pricing).value.total >= RecordsCost(Walk(s, pricing).value.records) >= 0.0
  {
    var es := Entries(s, pricing).value;
    EntriesAreTheCreates(s, pricing);
    CreatesKeepsExactlyTheCreates(s);
    assert CostReport.CostsNonNegative(es) by {
      forall i | 0 <= i < |es| ensures es[i].record.cost >= 0.0 {
        var r := Creates(s)[i];
        assert r in Creates(s);
        RecordCostNonNegative(r, pricing);
      }
    }
    TotalCoversRecords(es);
    RecordsComeFromEntries(es);
  }

  /**
   * Two create entries with one name: the second record replaces the first, while the
   * total keeps both costs, so it exceeds the sum of the records by the first cost.
   */
  lemma DuplicateNameInflatesTotal(r1: ResourceChange, r2: ResourceChange, pricing: PricingClient)
    requires IsCreate(r1) && IsCreate(r2) && r1.name == r2.name
    requires EntryOf(r1, pricing).Ok? && EntryOf(r2, pricing).Ok?
    ensures Walk([r1, r2], pricing).Ok?
    ensures Walk([r1, r2], pricing).value.records == map[r2.name := EntryOf(r2, pricing).value.record]
    ensures Walk([r1, r2], pricing).value.total
         == RecordsCost(Walk([r1, r2], pricing).value.records) + EntryOf(r1, pricing).value.record.cost
  {
    var e1, e2 := EntryOf(r1, pricing).value, EntryOf(r2, pricing).value;
    EntriesOfTwoCreates(r1, r2, pricing);
    assert Walk([r1, r2], pricing) == Ok(Aggregate([e1, e2]));
    DuplicateNameAggregate(e1, e2);
  }

  lemma EntriesOfTwoCreates(r1: ResourceChange, r2: ResourceChange, pricing: PricingClient)
    requires IsCreate(r1) && IsCreate(r2)
    requires EntryOf(r1, pricing).Ok? && EntryOf(r2, pricing).Ok?
    ensures Entries([r1, r2], pricing) == Ok([EntryOf(r1, pricing).value, EntryOf(r2, pricing).value])
  {
    var e1, e2 := EntryOf(r1, pricing).value, EntryOf(r2, pricing).value;
    var s := [r1, r2];
    assert s[..0] == [];
    EntriesStep(s, 0, pricing);
    assert s[..1] == [r1];
    assert [] + [e1] == [e1];
    EntriesStep(s, 1, pricing);
    assert s[..2] == s;
    assert Entries(s, pricing).value == [e1, e2];
  }

  /** One iteration of the loop of `parse_terraform_plan`, on the report. */
  lemma WalkStep(s: seq<ResourceChange>, i: nat, pricing: PricingClient)
    requires i < |s| && Walk(s[..i], pricing).Ok?
    ensures !IsCreate(s[i]) ==> Walk(s[..i + 1], pricing) == Walk(s[..i], pricing)
    ensures IsCreate(s[i]) && EntryOf(s[i], pricing).Raised? ==>
      Walk(s[..i + 1], pricing) == Raised(EntryOf(s[i], pricing).error)
    ensures IsCreate(s[i]) && EntryOf(s[i], pricing).Ok? ==>
      Walk(s[..i + 1], pricing) == Ok(Add(Walk(s[..i], pricing).value, EntryOf(s[i], pricing).value))
  {
    EntriesStep(s, i, pricing);
    if IsCreate(s[i]) && EntryOf(s[i], pricing).Ok? {
      AggregateSnoc(Entries(s[..i], pricing).value, EntryOf(s[i], pricing).value);
    }
  }

  lemma WalkRaisedPersists(s: seq<ResourceChange>, n: nat, pricing: PricingClient)
    requires n <= |s| && Walk(s[..n], pricing).Raised?
    ensures Walk(s, pricing) == Walk(s[..n], pricing)
  {
    EntriesRaisedPersists(s, n, pricing);
  }

  /** The body of the loop of `parse_terraform_plan` for one create entry. */
  method EstimateEntry(r: ResourceChange, pricing: PricingClient) returns (entry: Result<Entry>)
    ensures entry == EntryOf(r, pricing)
  {
    var quantity := CalculateQuantity(r);
    if quantity.Raised? {
      return Raised(quantity.error);
    }
    var cost := CalculateMonthlyCost(r.rtype, quantity.value, pricing);
    entry := Ok(Entry(r.name, CostRecord(r.rtype, quantity.value, cost)));
    EntryOfCreate(r, pricing);
    assert entry.value == EntryOf(r, pricing).value;
  }

  /**
   * `parse_terraform_plan`: walk `resource_changes` (absent means empty), bill the create
   * entries, add each cost to the total and write each record under its name.
   */
  method ParseTerraformPlan(plan: Plan, pricing: PricingClient) returns (result: Result<Report>)
    ensures result == Walk(ResourceChanges(plan), pricing)
    ensures plan.resourceChanges.None? ==> result == Ok(Empty)
  {
    var changes := ResourceChanges(plan);
    var total := 0.0;
    var records: map<Option<string>, CostRecord> := map[];
    var i := 0;
    while i < |changes|
      invariant 0 <= i <= |changes|
      invariant Walk(changes[..i], pricing) == Ok(Report(total, records))
    {
      var r := changes[i];
      WalkStep(changes, i, pricing);
      if IsCreate(r) {
        var entry := EstimateEntry(r, pricing);
        if entry.Raised? {
          WalkRaisedPersists(changes, i + 1, pricing);
          return Raised(entry.error);
        }
        var e := entry.value;
        ghost var before := Report(total, records);
        total := total + e.record.cost;
        records := records[e.name := e.record];
        assert Report(total, records) == Add(before, e);
      }
      i := i + 1;
    }
    assert changes[..i] == changes;
    result := Ok(Report(total, records));
  }
}
