/**
 * The cost aggregator shared by the estimators that build a report: each processed
 * resource writes its record under its name (a later write replaces an earlier one)
 * and adds its cost to a running total that is never corrected afterwards.
 */
module CostReport {
  import opened Wrappers

  /** `{'type': ..., 'count': ..., 'estimated_monthly_cost': ...}` */
  datatype CostRecord = CostRecord(rtype: Option<string>, count: real, cost: real)

  /** One processed resource: the name it is recorded under (possibly `None`) and its record. */
  datatype Entry = Entry(name: Option<string>, record: CostRecord)

  /** `(total_cost, resource_costs)` */
  datatype Report = Report(total: real, records: map<Option<string>, CostRecord>)

  const Empty: Report := Report(0.0, map[])

  /** `total_cost += cost; resource_costs[name] = record` */
  function Add(rep: Report, e: Entry): (r: Report)
    ensures r.records.Keys == rep.records.Keys + {e.name}
    ensures r.records[e.name] == e.record
    ensures forall n :: n in rep.records && n != e.name ==> r.records[n] == rep.records[n]
    ensures r.total == rep.total + e.record.cost
  {
    Report(rep.total + e.record.cost, rep.records[e.name := e.record])
  }

  /** The report after adding `es` in order to the empty report. */
  function Aggregate(es: seq<Entry>): Report
    decreases |es|
  {
    if es == [] then Empty else Add(Aggregate(es[..|es| - 1]), es[|es| - 1])
  }

  lemma AggregateSnoc(es: seq<Entry>, e: Entry)
    ensures Aggregate(es + [e]) == Add(Aggregate(es), e)
  {
    assert (es + [e])[..|es|] == es;
  }

  /** The sum of the costs of a list of entries, overwritten or not. */
  function SumOfCosts(es: seq<Entry>): real
    decreases |es|
  {
    if es == [] then 0.0 else es[0].record.cost + SumOfCosts(es[1..])
  }

  /** The sum of the costs of the records in a report's map. */
  ghost function RecordsCost(m: map<Option<string>, CostRecord>): real
    decreases |m|
  {
    if m == map[] then 0.0
    else
      var k :| k in m;
      m[k].cost + RecordsCost(m - {k})
  }

  predicate NamesDistinct(es: seq<Entry>) {
    forall i, j :: 0 <= i < j < |es| ==> es[i].name != es[j].name
  }

  predicate CostsNonNegative(es: seq<Entry>) {
    forall i :: 0 <= i < |es| ==> es[i].record.cost >= 0.0
  }

  lemma {:induction false} SumOfCostsAppend(es: seq<Entry>, e: Entry)
    ensures SumOfCosts(es + [e]) == SumOfCosts(es) + e.record.cost
    decreases |es|
  {
    if es != [] {
      assert (es + [e])[1..] == es[1..] + [e];
      SumOfCostsAppend(es[1..], e);
    }
  }

  /** The total adds the cost of every entry, including those whose record was later replaced. */
  lemma {:induction false} TotalIsSumOfAllEntries(es: seq<Entry>)
    ensures Aggregate(es).total == SumOfCosts(es)
    decreases |es|
  {
    if es != [] {
      var p := es[..|es| - 1];
      TotalIsSumOfAllEntries(p);
      assert es == p + [es[|es| - 1]];
      SumOfCostsAppend(p, es[|es| - 1]);
    }
  }

  /** The report holds a record for exactly the names that occur among the entries. */
  lemma {:induction false} RecordedNames(es: seq<Entry>)
    ensures Aggregate(es).records.Keys == set i | 0 <= i < |es| :: es[i].name
    decreases |es|
  {
    if es != [] {
      var p := es[..|es| - 1];
      var last := es[|es| - 1];
      RecordedNames(p);
      var all := set i | 0 <= i < |es| :: es[i].name;
      var before := set i | 0 <= i < |p| :: p[i].name;
      forall n | n in all ensures n in before + {last.name} {
        var i :| 0 <= i < |es| && es[i].name == n;
        if i < |p| { assert p[i] == es[i]; }
      }
      forall n | n in before + {last.name} ensures n in all {
        if n in before {
          var i :| 0 <= i < |p| && p[i].name == n;
          assert es[i] == p[i];
        } else {
          assert es[|es| - 1].name == n;
        }
      }
    }
  }

  /** `RecordedNames`, with the entries' names given as a list. */
  lemma RecordedNamesListed(es: seq<Entry>, names: seq<Option<string>>)
    requires |names| == |es|
    requires forall k :: 0 <= k < |es| ==> names[k] == es[k].name
    ensures Aggregate(es).records.Keys == set i | 0 <= i < |names| :: names[i]
  {
    RecordedNames(es);
    forall n | n in Aggregate(es).records ensures n in set i | 0 <= i < |names| :: names[i] {
      var i :| 0 <= i < |es| && es[i].name == n;
      assert names[i] == n;
    }
  }

  /** The record under a name is that of the last entry with that name (last write wins). */
  lemma {:induction false} LastWriteWins(es: seq<Entry>, i: nat)
    requires i < |es|
    requires forall j :: i < j < |es| ==> es[j].name != es[i].name
    ensures es[i].name in Aggregate(es).records
    ensures Aggregate(es).records[es[i].name] == es[i].record
    decreases |es|
  {
    if i < |es| - 1 {
      var p := es[..|es| - 1];
      forall j | i < j < |p| ensures p[j].name != p[i].name {
        assert p[j] == es[j];
      }
      LastWriteWins(p, i);
    }
  }

  lemma {:induction false} RecordsCostRemove(m: map<Option<string>, CostRecord>, k: Option<string>)
    requires k in m
    ensures RecordsCost(m) == m[k].cost + RecordsCost(m - {k})
    decreases |m|
  {
    var k' :| k' in m && RecordsCost(m) == m[k'].cost + RecordsCost(m - {k'});
    if k' != k {
      RecordsCostRemove(m - {k'}, k);
      RecordsCostRemove(m - {k}, k');
      assert (m - {k'}) - {k} == (m - {k}) - {k'};
    }
  }

  lemma RecordsCostUpdate(m: map<Option<string>, CostRecord>, k: Option<string>, v: CostRecord)
    ensures RecordsCost(m[k := v]) == RecordsCost(m) + v.cost - (if k in m then m[k].cost else 0.0)
  {
    RecordsCostRemove(m[k := v], k);
    assert m[k := v] - {k} == m - {k};
    if k in m {
      RecordsCostRemove(m, k);
    } else {
      assert m - {k} == m;
    }
  }

  /**
   * Adding an entry widens the gap between the total and the sum of the records by
   * exactly the cost of the record it replaces (0 for a new name).
   */
  lemma AddWidensGap(rep: Report, e: Entry)
    ensures Add(rep, e).total - RecordsCost(Add(rep, e).records)
         == rep.total - RecordsCost(rep.records) + (if e.name in rep.records then rep.records[e.name].cost else 0.0)
  {
    RecordsCostUpdate(rep.records, e.name, e.record);
  }

  /** With distinct names the total is the sum of the final records. */
  lemma {:induction false} TotalMatchesRecordsWhenNamesDistinct(es: seq<Entry>)
    requires NamesDistinct(es)
    ensures Aggregate(es).total == RecordsCost(Aggregate(es).records)
    decreases |es|
  {
    if es != [] {
      var p := es[..|es| - 1];
      var last := es[|es| - 1];
      assert NamesDistinct(p) by {
        forall i, j | 0 <= i < j < |p| ensures p[i].name != p[j].name {
          assert p[i] == es[i] && p[j] == es[j];
        }
      }
      TotalMatchesRecordsWhenNamesDistinct(p);
      RecordedNames(p);
      forall i | 0 <= i < |p| ensures p[i].name != last.name {
        assert p[i] == es[i];
      }
      assert last.name !in Aggregate(p).records;
      AddWidensGap(Aggregate(p), last);
    }
  }

  /** Two entries under one name: one record is kept, but the total counts both costs. */
  lemma DuplicateNameAggregate(e1: Entry, e2: Entry)
    requires e1.name == e2.name
    ensures Aggregate([e1, e2]).records == map[e2.name := e2.record]
    ensures Aggregate([e1, e2]).total == RecordsCost(Aggregate([e1, e2]).records) + e1.record.cost
  {
    AggregateSnoc([], e1);
    assert [e1] + [e2] == [e1, e2];
    AggregateSnoc([e1], e2);
    var m := map[e2.name := e2.record];
    RecordsCostRemove(m, e2.name);
    assert m - {e2.name} == map[];
  }

  /** Every record kept comes from some entry. */
  lemma {:induction false} RecordsComeFromEntries(es: seq<Entry>)
    ensures forall n :: n in Aggregate(es).records ==>
              exists i :: 0 <= i < |es| && es[i].name == n && es[i].record == Aggregate(es).records[n]
    decreases |es|
  {
    if es != [] {
      var p := es[..|es| - 1];
      RecordsComeFromEntries(p);
      forall n | n in Aggregate(es).records
        ensures exists i :: 0 <= i < |es| && es[i].name == n && es[i].record == Aggregate(es).records[n]
      {
        if n == es[|es| - 1].name {
          assert es[|es| - 1].record == Aggregate(es).records[n];
        } else {
          assert n in Aggregate(p).records && Aggregate(es).records[n] == Aggregate(p).records[n];
          var i :| 0 <= i < |p| && p[i].name == n && p[i].record == Aggregate(p).records[n];
          assert es[i] == p[i];
        }
      }
    }
  }

  /** With non-negative costs the total is non-negative and never below the sum of the records. */
  lemma {:induction false} TotalCoversRecords(es: seq<Entry>)
    requires CostsNonNegative(es)
    ensures Aggregate(es).total >= RecordsCost(Aggregate(es).records) >= 0.0
    decreases |es|
  {
    if es != [] {
      var p := es[..|es| - 1];
      var last := es[|es| - 1];
      assert CostsNonNegative(p) by {
        forall i | 0 <= i < |p| ensures p[i].record.cost >= 0.0 { assert p[i] == es[i]; }
      }
      TotalCoversRecords(p);
      AddWidensGap(Aggregate(p), last);
      RecordsCostUpdate(Aggregate(p).records, last.name, last.record);
      if last.name in Aggregate(p).records {
        RecordsComeFromEntries(p);
        var i :| 0 <= i < |p| && p[i].name == last.name && p[i].record == Aggregate(p).records[last.name];
        assert p[i] == es[i];
        RecordsCostRemove(Aggregate(p).records, last.name);
        RecordsCostNonNegative(Aggregate(p).records - {last.name}, p);
      }
    }
  }

  lemma {:induction false} RecordsCostNonNegative(m: map<Option<string>, CostRecord>, es: seq<Entry>)
    requires forall n :: n in m ==> exists i :: 0 <= i < |es| && es[i].record == m[n]
    requires CostsNonNegative(es)
    ensures RecordsCost(m) >= 0.0
    decreases |m|
  {
    if m != map[] {
      var k :| k in m && RecordsCost(m) == m[k].cost + RecordsCost(m - {k});
      RecordsCostNonNegative(m - {k}, es);
    }
  }

  // ---------------------------------------------------------------------------
  // Total-only accumulation (no record map)
  // ---------------------------------------------------------------------------

  /**
   * `total_cost += cost(resource)` over a list, where computing a cost may raise: the
   * first exception aborts the accumulation.
   */
  function RunningTotal<R>(s: seq<R>, cost: R -> Result<real>): Result<real>
    decreases |s|
  {
    if s == [] then Ok(0.0)
    else
      match RunningTotal(s[..|s| - 1], cost)
      case Raised(e) => Raised(e)
      case Ok(t) =>
        match cost(s[|s| - 1])
        case Raised(e) => Raised(e)
        case Ok(c) => Ok(t + c)
  }

  /** One iteration of an accumulation loop. */
  lemma RunningTotalStep<R>(s: seq<R>, i: nat, cost: R -> Result<real>)
    requires i < |s|
    requires RunningTotal(s[..i], cost).Ok?
    ensures cost(s[i]).Raised? ==> RunningTotal(s[..i + 1], cost) == Raised(cost(s[i]).error)
    ensures cost(s[i]).Ok? ==> RunningTotal(s[..i + 1], cost) == Ok(RunningTotal(s[..i], cost).value + cost(s[i]).value)
  {
    assert s[..i + 1][..i] == s[..i];
  }

  lemma {:induction false} RunningTotalRaisedPersists<R>(s: seq<R>, n: nat, cost: R -> Result<real>)
    requires n <= |s|
    requires RunningTotal(s[..n], cost).Raised?
    ensures RunningTotal(s, cost) == RunningTotal(s[..n], cost)
    decreases |s| - n
  {
    if n < |s| {
      assert s[..n + 1][..n] == s[..n];
      RunningTotalRaisedPersists(s, n + 1, cost);
    } else {
      assert s[..n] == s;
    }
  }

  /** The accumulation aborts exactly when the cost of some element raises, with the first such error. */
  lemma {:induction false} RunningTotalRaisesIff<R>(s: seq<R>, cost: R -> Result<real>)
    ensures RunningTotal(s, cost).Raised? <==> exists i :: 0 <= i < |s| && cost(s[i]).Raised?
    ensures RunningTotal(s, cost).Raised? ==>
      exists i :: 0 <= i < |s| && cost(s[i]) == RunningTotal(s, cost)
        && forall j :: 0 <= j < i ==> cost(s[j]).Ok?
    decreases |s|
  {
    if s != [] {
      var p := s[..|s| - 1];
      RunningTotalRaisesIff(p, cost);
      if exists i :: 0 <= i < |p| && cost(p[i]).Raised? {
        var i :| 0 <= i < |p| && cost(p[i]).Raised?;
        assert s[i] == p[i];
        var k :| 0 <= k < |p| && cost(p[k]) == RunningTotal(p, cost) && forall j :: 0 <= j < k ==> cost(p[j]).Ok?;
        assert s[k] == p[k];
        forall j | 0 <= j < k ensures cost(s[j]).Ok? { assert s[j] == p[j]; }
      } else {
        forall j | 0 <= j < |p| ensures cost(s[j]).Ok? { assert s[j] == p[j]; }
      }
    }
  }

  /** The sum of the costs of a list none of whose costs raises. */
  function SumOfValues<R>(s: seq<R>, cost: R -> Result<real>): real
    requires forall i :: 0 <= i < |s| ==> cost(s[i]).Ok?
    decreases |s|
  {
    if s == [] then 0.0 else cost(s[0]).value + SumOfValues(s[1..], cost)
  }

  lemma {:induction false} SumOfValuesAppend<R>(s: seq<R>, x: R, cost: R -> Result<real>)
    requires forall i :: 0 <= i < |s| ==> cost(s[i]).Ok?
    requires cost(x).Ok?
    ensures forall i :: 0 <= i < |s + [x]| ==> cost((s + [x])[i]).Ok?
    ensures SumOfValues(s + [x], cost) == SumOfValues(s, cost) + cost(x).value
    decreases |s|
  {
    assert forall i :: 0 <= i < |s + [x]| ==> (s + [x])[i] == if i < |s| then s[i] else x;
    if s != [] {
      assert (s + [x])[1..] == s[1..] + [x];
      SumOfValuesAppend(s[1..], x, cost);
    }
  }

  /** When no cost raises, the total is the sum of every element's cost. */
  lemma {:induction false} RunningTotalIsSum<R>(s: seq<R>, cost: R -> Result<real>)
    requires forall i :: 0 <= i < |s| ==> cost(s[i]).Ok?
    ensures RunningTotal(s, cost) == Ok(SumOfValues(s, cost))
    decreases |s|
  {
    if s != [] {
      var p := s[..|s| - 1];
      forall i | 0 <= i < |p| ensures cost(p[i]).Ok? { assert p[i] == s[i]; }
      RunningTotalIsSum(p, cost);
      SumOfValuesAppend(p, s[|s| - 1], cost);
      assert p + [s[|s| - 1]] == s;
    }
  }
}
