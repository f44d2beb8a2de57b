# iacost in Dafny

This project models iacost, a small Terraform cost estimator. The repository holds four successive versions of one pipeline:

- `cost_estimator_v2.py`
- `pricing_calc.py`
- `cost_estimator_v3.py`
- `estimador.py`

Each version reads the `resource_changes` of a parsed Terraform plan. For every resource it works out a billable quantity and a unit price, and it adds the costs into a total. `cost_estimator_v2.py` and `estimador.py` also build a name-keyed map of per-resource cost records.

The model has one module per concern:

- `Wrappers`: `Option` (an absent JSON key, or Python's `None`) and `Result`. `Result` models an exception that escapes and aborts the run, either a `KeyError` or a `TypeError`.
- `TerraformPlan`: the plan as the estimators see it. Every key is optional, so both `dict.get` defaults and `d[key]` failures can be stated. It also holds the `'create' in actions` filter.
- `AwsPricing`: `TERM_MATCH` filters, the `get_products` query, and the decoded offers it returns. The pricing client is an oracle, a function from a query to either `Failed` or a price list.
- `CostReport`: the shared accumulator. Each entry writes its record under its name, and a later write replaces an earlier one. Each entry also adds its cost to a total that is never corrected. For the versions without a record map there is a generic running total that aborts on the first exception.
- `CostEstimatorV2`, `PricingCalc`, `CostEstimatorV3` and `Estimador`: one module per source file.

Loops of the source are methods with loop invariants. Each is proved equal to a recursive specification function, and the properties are lemmas about those functions. The nested first-match loops of `get_aws_cost` are specified by `FirstDimension` and `ScanTerms`. The plan walks are specified by prefix-recursive `Entries`/`Walk`/`Total`.

Money and quantities are `real`. `estimador.py`'s integer table is represented exactly as reals.

The price is not simply the first OnDemand term's first dimension. `get_aws_cost` iterates the OnDemand terms and stops at the first dimension it finds:

- In `cost_estimator_v2.py`, a term with no (or an empty) `priceDimensions` is skipped.
- In `pricing_calc.py` and `cost_estimator_v3.py`, a term with an empty `priceDimensions` is skipped. A missing `priceDimensions` key raises a `KeyError`, which the `try` catches, so the price is 0.

`cost_estimator_v3.py`'s `get_aws_cost` (lines 7-25) is the same code as `pricing_calc.py`'s (lines 10-28). Both are modelled once, by `PricingCalc.GetAwsCost`.

## Model

| member | source | states |
|---|---|---|
| `TerraformPlan.TypeOf` | pricing_calc.py:103 | `resource['type']` succeeds exactly when `type` is present, and then yields that type. Otherwise it raises `KeyError('type')` |
| `TerraformPlan.AfterOf` | cost_estimator_v3.py:56 | `resource['change']['after']` succeeds exactly when both keys are present, and then agrees with the lenient `.get` chain |
| `TerraformPlan.Require` | pricing_calc.py:53 | `resource['change']['after'][key]` succeeds exactly when the whole path exists. It yields the attribute, or a `KeyError` naming `key` once `after` exists |
| `TerraformPlan.CreatesKeepsExactlyTheCreates` | cost_estimator_v2.py:94-99 | the entries the create filter keeps are exactly the plan entries whose actions contain `'create'` |
| `AwsPricing.DimensionPrice` | cost_estimator_v2.py:56-57 | the monthly price of a dimension is its hourly USD amount times 730. It is 0 when `USD` is missing (the `.get` default) or unparsable (the caught exception) |
| `CostReport.Add` | estimador.py:35-43 | one processed resource adds its name to the keys and stores its record there. Every other record is unchanged, and its cost is added to the total |
| `CostReport.TotalIsSumOfAllEntries` | estimador.py:35-36 | the total is the sum of the costs of every processed entry, overwritten or not |
| `CostReport.RecordedNames` | estimador.py:39-43 | the record map's keys are exactly the names of the processed entries |
| `CostReport.LastWriteWins` | cost_estimator_v2.py:107-112 | the record under a name is that of the last entry with that name |
| `CostReport.AddWidensGap` | cost_estimator_v2.py:104-112 | adding an entry widens the gap between the total and the sum of the records by the cost of the record it replaces |
| `CostReport.TotalMatchesRecordsWhenNamesDistinct` | cost_estimator_v2.py:104-112 | with distinct names, the total equals the sum of the final records |
| `CostReport.DuplicateNameAggregate` | estimador.py:35-43 | two entries under one name leave one record, and the total exceeds the records' sum by the first entry's cost |
| `CostReport.RecordsComeFromEntries` | estimador.py:39-43 | every kept record is the record of some processed entry with that name |
| `CostReport.TotalCoversRecords` | estimador.py:35-43 | with non-negative costs, the total is at least the sum of the records, and that sum is non-negative |
| `CostReport.RunningTotalRaisesIff` | pricing_calc.py:102-116 | an accumulation aborts exactly when some element raises. The error is that of the first such element, and every earlier element is fine |
| `CostReport.RunningTotalIsSum` | cost_estimator_v3.py:53-65 | when no element raises, the accumulated total is the sum of the element costs |
| `CostEstimatorV2.PriceQuery` | cost_estimator_v2.py:24-40 | the client is called only for a type in `service_code_map`. The call uses that type's ServiceCode, exactly one `location` TERM_MATCH with the region, and `MaxResults=1` |
| `CostEstimatorV2.UnmappedTypeIsFree` | cost_estimator_v2.py:24-27 | an unmapped or missing type costs 0 whatever the client would answer, because no query is made |
| `CostEstimatorV2.FirstDimension` | cost_estimator_v2.py:53-57 | the nested loops stop at the first dimension of the first term that has one. There is none exactly when no term has a dimension |
| `CostEstimatorV2.PriceIsFirstDimensionTimes730` | cost_estimator_v2.py:42-61 | the price is the first found dimension's USD amount times 730 (and that dimension is located), or 0 when the response has no dimension at all |
| `CostEstimatorV2.FallThroughExactly` | cost_estimator_v2.py:46-57 | the code as written returns None exactly when OnDemand has terms and none of them has a dimension. Elsewhere the corrected price equals the returned one |
| `CostEstimatorV2.PriceNonNegative` | cost_estimator_v2.py:53-57 | the corrected price is a number, and with non-negative catalog amounts it is never negative |
| `CostEstimatorV2.EmptyDimensionsAbortRun` | cost_estimator_v2.py:53-57 | a single OnDemand term with empty `priceDimensions` makes the lookup return None and `calculate_monthly_cost` raise `TypeError`. The corrected price is 0 |
| `CostEstimatorV2.GetAwsCost` | cost_estimator_v2.py:20-61 | the method with its first-match loop computes the unit price of the specification for every type, region and client |
| `CostEstimatorV2.QuantityRules` | cost_estimator_v2.py:63-78 | the quantity is 1 for `aws_instance` and every unlisted type. For EBS it is `size`, or 1 when absent. For EFS it is `size_in_bytes / 1024^3` when positive, else 500. Only a non-numeric size raises (`TypeError`), and sizes ≥ 0 give quantities ≥ 0 |
| `CostEstimatorV2.CalculateMonthlyCost` | cost_estimator_v2.py:80-83 | the monthly cost is the unit price for the default region times the count |
| `CostEstimatorV2.EstimateEntry` | cost_estimator_v2.py:100-112 | one create entry yields the specified record, or the quantity's error |
| `CostEstimatorV2.EntriesAreTheCreates` | cost_estimator_v2.py:94-112 | the walk adds one entry per create entry, in plan order, and nothing for other entries |
| `CostEstimatorV2.EntryRaisesIff` | cost_estimator_v2.py:71-75 | an entry raises exactly when the size its type reads is present and not a number |
| `CostEstimatorV2.WalkRaisesIff` | cost_estimator_v2.py:94-105 | the run aborts exactly when some create entry has a non-numeric size |
| `CostEstimatorV2.NoCreatesEmptyReport` | cost_estimator_v2.py:94-99 | a plan without create entries (or without `resource_changes`) yields total 0 and no records |
| `CostEstimatorV2.RecordedNamesAreCreates` | cost_estimator_v2.py:94-112 | the record map's keys are exactly the names of the plan's create entries |
| `CostEstimatorV2.LastCreateWins` | cost_estimator_v2.py:108-112 | the record under a name is the one computed for the last create entry with that name |
| `CostEstimatorV2.TotalConsistentWhenNamesDistinct` | cost_estimator_v2.py:104-112 | when the create entries have distinct names, the total is the sum of the records |
| `CostEstimatorV2.UnitPriceNonNegative` | cost_estimator_v2.py:20-61 | when the catalog amounts are non-negative, the price of every type in every region is non-negative |
| `CostEstimatorV2.RecordCostNonNegative` | cost_estimator_v2.py:100-102 | when the catalog amounts and the EBS size are non-negative, a create entry's cost (unit price times quantity) is non-negative |
| `CostEstimatorV2.CostsNonNegative` | cost_estimator_v2.py:94-112 | when the catalog amounts and the sizes of the create entries are non-negative, every record cost is non-negative, and the total is at least the sum of the records, which is non-negative |
| `CostEstimatorV2.DuplicateNameInflatesTotal` | cost_estimator_v2.py:104-112 | two create entries with one name leave only the second record, while the total exceeds the records' sum by the first cost |
| `CostEstimatorV2.ParseTerraformPlan` | cost_estimator_v2.py:85-114 | the loop returns the specified walk: the report of the create entries, or the error that aborts it. A plan without `resource_changes` gives (0, {}) |
| `PricingCalc.MapLocationToPricing` | pricing_calc.py:77-87 | every availability zone, listed or not, maps to `US East (N. Virginia)` |
| `PricingCalc.Ec2Filters` | pricing_calc.py:30-47 | the EC2 filters are the six fields instanceType, location, operatingSystem, preInstalledSw, tenancy, capacitystatus, in that order. Building them fails exactly as `['instance_type']` does |
| `PricingCalc.Ec2FilterValues` | pricing_calc.py:32-47 | the EC2 filter values are the instance type, then `US East (N. Virginia)`, then the OS (default Linux), then `NA`, then tenancy (default Shared), then capacity status (default Used) |
| `PricingCalc.Ec2FiltersDependOnlyOnTheirKeys` | pricing_calc.py:32-35 | the EC2 filters depend only on the four attributes they read |
| `PricingCalc.EbsFilters` | pricing_calc.py:54-62 | the EBS filters are volumeType (default gp2) and location. The location is the mapped zone, which is always N. Virginia |
| `PricingCalc.ScanTerms` | cost_estimator_v3.py:18-22 | the nested loops (the same code as pricing_calc.py:21-25) stop at the first dimension, and only after terms with empty `priceDimensions`. A missing `priceDimensions` key first ends them with a caught `KeyError`. They run out exactly when every term's `priceDimensions` is empty |
| `PricingCalc.FallThroughExactly` | pricing_calc.py:10-28 | the code as written returns None exactly when OnDemand is present and every term's `priceDimensions` is empty (including an empty OnDemand). Elsewhere the corrected price equals the returned one |
| `PricingCalc.PriceNonNegative` | pricing_calc.py:21-25 | the corrected price is a number, and with non-negative catalog amounts it is never negative |
| `PricingCalc.EmptyOnDemandAbortsRun` | pricing_calc.py:20-25 | an empty OnDemand map makes the lookup return None and `total_cost += ...` raise `TypeError`. The corrected price is 0 |
| `PricingCalc.GetAwsCost` | pricing_calc.py:10-28 | the method with its nested first-match loops returns the specified lookup price for every query and client |
| `PricingCalc.EstimateEc2Cost` | pricing_calc.py:30-49 | the EC2 estimate is the lookup under the EC2 filters. It raises exactly when `instance_type` (or `change`/`after`) is missing |
| `PricingCalc.EstimateEbsCost` | pricing_calc.py:51-64 | the EBS estimate is the per-GB price times `size`. It raises exactly when `size` is missing or not a number |
| `PricingCalc.EstimateElasticIpCost` | pricing_calc.py:66-75 | the Elastic IP estimate is one fixed lookup that does not depend on the resource |
| `PricingCalc.EntryCostIgnoresActions` | pricing_calc.py:102-116 | the walk has no action filter: an entry's contribution is the same whatever its actions |
| `PricingCalc.OtherTypesAddNothing` | pricing_calc.py:102-116 | types other than `aws_instance`, `aws_ebs_volume` and `aws_eip` add 0 |
| `PricingCalc.MissingRequiredKeyAbortsWalk` | pricing_calc.py:32-53 | a missing `type`, `instance_type` or `size` is not turned into a 0 price. The whole walk aborts, with a `KeyError` when no earlier entry raised |
| `PricingCalc.TotalIsSumOfEntryCosts` | pricing_calc.py:102-116 | when no entry raises, the total is the sum of every entry's cost |
| `PricingCalc.EstimateEntry` | pricing_calc.py:103-116 | the three `if` blocks yield the specified contribution of one entry |
| `PricingCalc.ParseTerraformPlan` | pricing_calc.py:89-118 | the loop computes the specified total, or the error that aborts it. A plan without `resource_changes` gives 0 |
| `CostEstimatorV3.Ec2Filters` | cost_estimator_v3.py:27-37 | the v3 EC2 filters have the same six fields, in the same order, as pricing_calc.py's |
| `CostEstimatorV3.Ec2FiltersFixedExceptInstanceType` | cost_estimator_v3.py:29-36 | only the instance-type filter varies. The other five are fixed, and they are what pricing_calc.py builds when no optional attribute is given |
| `CostEstimatorV3.EbsFilters` | cost_estimator_v3.py:41-44 | the EBS filters are the volume type and the fixed location N. Virginia |
| `CostEstimatorV3.VolumeType` | cost_estimator_v3.py:63 | the volume type is the `volume_type` attribute, or gp2 when it is absent |
| `CostEstimatorV3.EstimateEc2Cost` | cost_estimator_v3.py:27-37 | the EC2 estimate is the shared lookup under the v3 EC2 filters |
| `CostEstimatorV3.EstimateEbsCost` | cost_estimator_v3.py:39-46 | the EBS estimate is the per-GB price times the size, and raises exactly when the size is not a number. The source may raise later, at line 65, with the same effect on the walk |
| `CostEstimatorV3.EntryCostIgnoresActions` | cost_estimator_v3.py:54-66 | the walk ignores actions |
| `CostEstimatorV3.OtherTypesAddNothing` | cost_estimator_v3.py:54-66 | types other than `aws_instance` and `aws_ebs_volume` add 0 |
| `CostEstimatorV3.TotalIsSumOfEntryCosts` | cost_estimator_v3.py:53-66 | when no entry raises, the total is the sum of the EC2 and EBS costs over all entries |
| `CostEstimatorV3.TotalRaisesIff` | cost_estimator_v3.py:54-66 | the walk aborts exactly when some entry lacks `type`, an instance lacks `instance_type`, or a volume lacks `size` or has a non-numeric one |
| `CostEstimatorV3.EstimateEntry` | cost_estimator_v3.py:55-66 | the two `if` blocks yield the specified contribution of one entry |
| `CostEstimatorV3.ParseTerraformPlan` | cost_estimator_v3.py:48-68 | the loop computes the specified total, or the error that aborts it. A plan without `resource_changes` gives 0 |
| `Estimador.UnitCost` | estimador.py:5-14 | the unit cost is the table value (50, 5, 100) for a listed type, and 0 otherwise, so it is never negative |
| `Estimador.CalculateMonthlyCost` | estimador.py:12-15 | the monthly cost is the table value times the count for a listed type, and 0 for an unknown type. A non-negative count gives a non-negative cost |
| `Estimador.ResourceCount` | estimador.py:32 | the count is the number of keys of `change.after`, or 1 when that is empty or missing |
| `Estimador.EntryOf` | estimador.py:31-43 | a create entry's record carries its name and type. Its count is `ResourceCount` of the entry, which is at least 1. Its cost is `calculate_monthly_cost` of the type and that count, which is at least 0 |
| `Estimador.EntriesAreTheCreates` | estimador.py:26-43 | only create entries are recorded or counted, one entry each, in plan order |
| `Estimador.NoCreatesEmptyReport` | estimador.py:26-45 | a plan without create entries (or without `resource_changes`) yields (0, {}) |
| `Estimador.CostsNonNegative` | estimador.py:33-36 | every recorded cost is ≥ 0, and the total is at least the records' sum, which is ≥ 0 |
| `Estimador.RecordedNamesAreCreates` | estimador.py:26-43 | the record map's keys are exactly the names of the create entries |
| `Estimador.LastCreateWins` | estimador.py:39-43 | the record under a name is the one of the last create entry with that name |
| `Estimador.TotalCountsEveryCreate` | estimador.py:35-36 | the total adds every create entry's cost, including overwritten ones |
| `Estimador.ParseTerraformPlan` | estimador.py:17-45 | the loop returns the specified walk of the plan. A plan without `resource_changes` gives (0, {}) |

## Left out

- The boto3 pricing client and the `get_products` call are an oracle parameter. The AWS Pricing API itself is not modelled.
- Opening and `json.load` of `plan.json`, and `json.loads` of a price-list entry, are not modelled. The plan and the offers are already-parsed datatypes. A price-list entry that is not a JSON object is `Malformed`. A nested value of the wrong JSON kind (for example a `terms` that is a list) is not modelled separately.
- A missing `PriceList` key in the client's response is folded into `Failed`. Both end in a caught exception and a price of 0.
- `float(price_per_hour)` parsing and IEEE rounding are not modelled. USD amounts are reals, and text that `float` refuses is `Unparsable`.
- All `print` output, the banner blocks and the `main` functions are not modelled.
- `parse_terraform_plan` in `pricing_calc.py` and `cost_estimator_v3.py` has no `return`. It only prints the total (`pricing_calc.py` line 118, `cost_estimator_v3.py` line 68). `PricingCalc.ParseTerraformPlan` and `CostEstimatorV3.ParseTerraformPlan` return that printed total instead.
- JSON `true`/`false` are modelled as non-numeric `Other`, so a boolean `size` raises `TypeError` in the model. Python treats booleans as the integers 1 and 0.
- A JSON `null` value inside `after` is the attribute `Other`. Like Python's None there, it counts as a key of `after`, goes into a filter unchanged, and raises `TypeError` as a size. So a null `size`, `size_in_bytes`, `instance_type`, `operating_system`, `tenancy`, `capacity_status`, `volume_type` or `availability_zone` behaves as in the source.
- A JSON `null` in any field the model holds as an `Option` is read as an absent key. This covers `resource_changes`, `type`, `name`, `change`, `actions` and `after`, and on the pricing side a term's `priceDimensions`, a dimension's `USD` and an offer's `OnDemand`. Python sees a present `null` as None, which the `.get` defaults do not replace. The model therefore departs from the source in the following cases, among others:
  - In `estimador.py` (line 32), a null `after` makes `len(None)` raise `TypeError`. The model counts 1.
  - In `cost_estimator_v2.py` (lines 71 and 74), a null `after` on an EBS or EFS create entry makes `None.get` raise `AttributeError`. The model reads it as an empty `after`.
  - In `cost_estimator_v2.py` (line 97) and `estimador.py` (line 29), a null `change` makes `None.get` raise `AttributeError`, and a null `actions` makes `'create' in None` raise `TypeError`. The model treats such an entry as a non-create and skips it.
  - In `cost_estimator_v2.py` (lines 53-55), a term that is null, or whose `priceDimensions` is null, makes `.get` or the `for` raise. The `try` catches it and the price is 0. The model skips that term (`CostEstimatorV2.FirstDimension`), so a later term with a dimension gives its price instead of 0.
  - In `pricing_calc.py` (lines 103, 108 and 113) and `cost_estimator_v3.py` (lines 55 and 61), a null `type` matches none of the comparisons, and the entry adds nothing. `TerraformPlan.TypeOf` raises `KeyError('type')` instead, so the whole walk aborts.
  - In all four versions, a null `resource_changes` makes the `for` raise `TypeError`. The model reads it as empty.
  - In `pricing_calc.py` (lines 32 and 53) and `cost_estimator_v3.py` (lines 56 and 62), a null `after` makes `None['instance_type']` or `None['size']` raise `TypeError`. Terraform writes `"after": null` on every delete entry, and these two walks do not filter on the actions. The model raises `KeyError('after')`.
- PricingCalc.MissingRequiredKeyAbortsWalk: states a `KeyError` also for an EC2 or EBS entry whose `after` is JSON `null`. The source raises `TypeError` there, as the previous line says. Either way the walk aborts.
- An `after` that is a list rather than an object is not modelled.
- An unhashable `availability_zone` (a list or an object) is not modelled. It would make `region_mapping.get` raise.
- In `cost_estimator_v2.py`, a non-numeric EBS `size` raises `TypeError` in the model as soon as the quantity is computed. The source raises it later, at `cost_per_unit * count` or at `total_cost += ...`. The walk aborts with the same error either way.
- In `pricing_calc.py` (line 64) and `cost_estimator_v3.py` (line 46), with a non-numeric `size` and the integer 0 price of an error path, `0 * size` can succeed (string or list repetition). The `TypeError` then comes from `total_cost += ...` (`pricing_calc.py` line 110, `cost_estimator_v3.py` line 65). The model raises it in `PricingCalc.EstimateEbsCost` and `CostEstimatorV3.EstimateEbsCost`, and the walk aborts the same way.
- `cost_estimator_v3.py`'s default argument `volume_type='gp2'` of `estimate_ebs_cost` is not modelled. Its only caller always passes the type.
- Every member built on `CostEstimatorV2.UnitPrice`, `PricingCalc.LookupPrice` or `OnDemandPrice` uses the corrected price, which is 0 where the source falls through to None. These members are `CostEstimatorV2.GetAwsCost`, `CostEstimatorV2.CalculateMonthlyCost`, `PricingCalc.GetAwsCost`, `PricingCalc.EstimateEc2Cost`, `PricingCalc.EstimateEbsCost`, `PricingCalc.EstimateElasticIpCost`, `CostEstimatorV3.EstimateEc2Cost`, `CostEstimatorV3.EstimateEbsCost`, and the walks and entry estimates of all three versions. The None path itself is stated by the `AsWritten` functions and the two lemmas under Findings.

## Findings

| source | as written | input that shows it | evidently intended | confidence | as-written member | corrected member |
|---|---|---|---|---|---|---|
| cost_estimator_v2.py:53-57 | when OnDemand has terms but none has a dimension, the nested loops end and `get_aws_cost` returns None. `calculate_monthly_cost` then computes `None * count` and raises `TypeError`, outside any `try`, which aborts the run | a price list whose first offer has one OnDemand term with `"priceDimensions": {}` | a price of 0, like every other case where no price is found | medium (not executed) | `CostEstimatorV2.EmptyDimensionsAbortRun` | `CostEstimatorV2.PriceNonNegative` |
| pricing_calc.py:20-25 | when OnDemand is empty, or every term has an empty `priceDimensions`, `get_aws_cost` returns None. `total_cost += ec2_cost` (or `None * volume_size`) then raises `TypeError` and aborts the walk. cost_estimator_v3.py:17-22 is the same code | a price list whose first offer has `"OnDemand": {}` | a price of 0, like every other case where no price is found | medium (not executed) | `PricingCalc.EmptyOnDemandAbortsRun` | `PricingCalc.PriceNonNegative` |
