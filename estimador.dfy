/**
 * estimador.py: a flat monthly cost table, a count taken from the number of keys of
 * `change.after`, and a walk over the create entries that builds a name-keyed report.
 * The table's Python integers are represented exactly as reals.
 */
module Estimador {
  import opened Wrappers
  import opened TerraformPlan
  import opened CostReport

  /** `cost_table`: estimated monthly cost of one unit of each listed type. */
  const CostTable: map<string, real> := map[
    "aws_instance" := 50.0,
    "aws_s3_bucket" := 5.0,
    "aws_db_instance" := 100.0
  ]

  /** `cost_table.get(resource_type, 0)` */
  function UnitCost(rtype: Option<string>): (c: real)
    ensures c >= 0.0
    ensures rtype.None? || rtype.value !in CostTable ==> c == 0.0
    ensures rtype.Some? && rtype.value in CostTable ==> c == CostTable[rtype.value]
  {
    match rtype
    case Some(t) => if t in CostTable then CostTable[t] else 0.0
    case None => 0.0
  }

  /** `calculate_monthly_cost(resource_type, count)`: unit cost times the count, 0 for unknown types. */
  function CalculateMonthlyCost(rtype: Option<string>, count: real): (cost: real)
    ensures count >= 0.0 ==> cost >= 0.0
    ensures (rtype.None? || rtype.value !in CostTable) ==> cost == 0.0
    ensures rtype.Some? && rtype.value in CostTable ==> cost == CostTable[rtype.value] * count
  {
    UnitCost(rtype) * count
  }

  /** `len(resource.get('change', {}).get('after', [])) or 1`: the number of keys of `after`, at least 1. */
  function ResourceCount(r: ResourceChange): (n: nat)
    ensures n >= 1
    ensures AfterOrEmpty(r) != map[] ==> n == |AfterOrEmpty(r)|
    ensures AfterOrEmpty(r) == map[] ==> n == 1
  {
    var keys := |AfterOrEmpty(r)|;
    if keys == 0 then 1 else keys
  }

  /** The record one create entry produces. */
  function EntryOf(r: ResourceChange): (e: Entry)
    ensures e.name == r.name && e.record.rtype == r.rtype
    ensures e.record.count == ResourceCount(r) as real >= 1.0
    ensures e.record.cost == CalculateMonthlyCost(r.rtype, e.record.count) >= 0.0
  {
    var count := ResourceCount(r) as real;
    Entry(r.name, CostRecord(r.rtype, count, CalculateMonthlyCost(r.rtype, count)))
  }

  /** The entries the loop of `parse_terraform_plan` adds, in order, for a prefix of the plan. */
  function Entries(s: seq<ResourceChange>): seq<Entry>
    decreases |s|
  {
    if s == [] then []
    else Entries(s[..|s| - 1]) + (if IsCreate(s[|s| - 1]) then [EntryOf(s[|s| - 1])] else [])
  }

  /** `parse_terraform_plan` on the resource changes `s`. */
  function Walk(s: seq<ResourceChange>): Report {
    Aggregate(Entries(s))
  }

  /** The walk adds one entry per create entry of the plan, in plan order, and nothing else. */
  lemma {:induction false} EntriesAreTheCreates(s: seq<ResourceChange>)
    ensures |Entries(s)| == |Creates(s)|
    ensures forall k :: 0 <= k < |Creates(s)| ==> Entries(s)[k] == EntryOf(Creates(s)[k])
    decreases |s|
  {
    if s != [] {
      EntriesAreTheCreates(s[..|s| - 1]);
    }
  }

  /** A plan without create entries (or without `resource_changes`) yields (0, {}). */
  lemma {:induction false} NoCreatesEmptyReport(s: seq<ResourceChange>)
    requires forall i :: 0 <= i < |s| ==> !IsCreate(s[i])
    ensures Walk(s) == Empty
    decreases |s|
  {
    if s != [] {
      NoCreatesEmptyReport(s[..|s| - 1]);
    }
  }

  /** Every recorded cost, the total, and the sum of the records are non-negative; the total covers the records. */
  lemma CostsNonNegative(s: seq<ResourceChange>)
    ensures forall n :: n in Walk(s).records ==> Walk(s).records[n].cost >= 0.0
    ensures Walk(s).total >= RecordsCost(Walk(s).records) >= 0.0
  {
    var es := Entries(s);
    EntriesAreTheCreates(s);
    assert CostReport.CostsNonNegative(es) by {
      forall i | 0 <= i < |es| ensures es[i].record.cost >= 0.0 {
        assert es[i] == EntryOf(Creates(s)[i]);
      }
    }
    TotalCoversRecords(es);
    RecordsComeFromEntries(es);
  }

  /** The report has a record for exactly the names of the plan's create entries. */
  lemma RecordedNamesAreCreates(s: seq<ResourceChange>)
    ensures Walk(s).records.Keys == set r | r in s && IsCreate(r) :: r.name
  {
    var names := EntryNames(s);
    RecordedNamesListed(Entries(s), names);
    NamesOfCreates(s, names);
  }

  /** The names of the walk's entries, which are those of the create entries. */
  lemma EntryNames(s: seq<ResourceChange>) returns (names: seq<Option<string>>)
    ensures |names| == |Entries(s)| == |Creates(s)|
    ensures forall k :: 0 <= k < |names| ==> names[k] == Entries(s)[k].name == Creates(s)[k].name
  {
    var es := Entries(s);
    EntriesAreTheCreates(s);
    names := seq(|es|, k requires 0 <= k < |es| => es[k].name);
    forall k | 0 <= k < |names| ensures names[k] == es[k].name == Creates(s)[k].name {
      assert es[k] == EntryOf(Creates(s)[k]);
    }
  }

  /** The record under a name is the one of the last create entry with that name. */
  lemma LastCreateWins(s: seq<ResourceChange>, k: nat)
    requires k < |Creates(s)|
    requires forall j :: k < j < |Creates(s)| ==> Creates(s)[j].name != Creates(s)[k].name
    ensures Creates(s)[k].name in Walk(s).records
    ensures Walk(s).records[Creates(s)[k].name] == EntryOf(Creates(s)[k]).record
  {
    var es := Entries(s);
    EntriesAreTheCreates(s);
    forall j | k < j < |es| ensures es[j].name != es[k].name {
      assert es[j] == EntryOf(Creates(s)[j]);
    }
    LastWriteWins(es, k);
  }

  /** The total adds every create entry's cost, including entries whose record was overwritten. */
  lemma TotalCountsEveryCreate(s: seq<ResourceChange>)
    ensures Walk(s).total == SumOfCosts(Entries(s))
    ensures |Entries(s)| == |Creates(s)|
  {
    TotalIsSumOfAllEntries(Entries(s));
    EntriesAreTheCreates(s);
  }

  /** One iteration of the loop of `parse_terraform_plan`. */
  lemma WalkStep(s: seq<ResourceChange>, i: nat)
    requires i < |s|
    ensures !IsCreate(s[i]) ==> Walk(s[..i + 1]) == Walk(s[..i])
    ensures IsCreate(s[i]) ==> Walk(s[..i + 1]) == Add(Walk(s[..i]), EntryOf(s[i]))
  {
    assert s[..i + 1][..i] == s[..i];
    if IsCreate(s[i]) {
      AggregateSnoc(Entries(s[..i]), EntryOf(s[i]));
    } else {
      assert Entries(s[..i + 1]) == Entries(s[..i]);
    }
  }

  /**
   * `parse_terraform_plan`: walk `resource_changes` (absent means empty), bill the create
   * entries, add each cost to the total and write each record under its name.
   */
  method ParseTerraformPlan(plan: Plan) returns (report: Report)
    ensures report == Walk(ResourceChanges(plan))
    ensures plan.resourceChanges.None? ==> report == Empty
  {
    var changes := ResourceChanges(plan);
    var total := 0.0;
    var records: map<Option<string>, CostRecord> := map[];
    var i := 0;
    while i < |changes|
      invariant 0 <= i <= |changes|
      invariant Report(total, records) == Walk(changes[..i])
    {
      var r := changes[i];
      WalkStep(changes, i);
      if IsCreate(r) {
        var count := ResourceCount(r) as real;
        var cost := CalculateMonthlyCost(r.rtype, count);
        total := total + cost;
        records := records[r.name := CostRecord(r.rtype, count, cost)];
      }
      i := i + 1;
    }
    assert changes[..i] == changes;
    report := Report(total, records);
  }
}
