/**
 * The parsed Terraform plan as the estimators see it: a `resource_changes` list whose
 * entries carry `type`, `name`, `change.actions` and `change.after`. Every key is optional,
 * so that the defaults of `dict.get` and the `KeyError`s of `d[key]` can both be stated.
 */
module TerraformPlan {
  import opened Wrappers

  /** A value of the `change.after` object. JSON booleans, null, arrays and objects are `Other`. */
  datatype Attr = Num(n: real) | Text(s: string) | Other

  type Attributes = map<string, Attr>

  datatype Change = Change(actions: Option<seq<string>>, after: Option<Attributes>)

  datatype ResourceChange = ResourceChange(rtype: Option<string>, name: Option<string>, change: Option<Change>)

  datatype Plan = Plan(resourceChanges: Option<seq<ResourceChange>>)

  /** `plan.get('resource_changes', [])` */
  function ResourceChanges(plan: Plan): seq<ResourceChange> {
    plan.resourceChanges.GetOr([])
  }

  /** `resource.get('change', {}).get('actions', [])` */
  function Actions(r: ResourceChange): seq<string> {
    match r.change
    case None => []
    case Some(c) => c.actions.GetOr([])
  }

  /** `'create' in actions`: the only entries the filtering walkers bill. */
  predicate IsCreate(r: ResourceChange) {
    "create" in Actions(r)
  }

  /** `resource.get('change', {}).get('after', {})` */
  function AfterOrEmpty(r: ResourceChange): Attributes {
    match r.change
    case None => map[]
    case Some(c) => c.after.GetOr(map[])
  }

  /** `after.get(key, default)` */
  function GetAttr(after: Attributes, key: string, default: Attr): Attr {
    if key in after then after[key] else default
  }

  /** `resource['type']` */
  function TypeOf(r: ResourceChange): (t: Result<string>)
    ensures t.Ok? <==> r.rtype.Some?
    ensures t.Ok? ==> t.value == r.rtype.value
    ensures t.Raised? ==> t.error == KeyError("type")
  {
    match r.rtype
    case None => Raised(KeyError("type"))
    case Some(s) => Ok(s)
  }

  /** `resource['change']['after']` */
  function AfterOf(r: ResourceChange): (a: Result<Attributes>)
    ensures a.Ok? <==> r.change.Some? && r.change.value.after.Some?
    ensures a.Ok? ==> a.value == AfterOrEmpty(r)
  {
    match r.change
    case None => Raised(KeyError("change"))
    case Some(c) =>
      match c.after
      case None => Raised(KeyError("after"))
      case Some(after) => Ok(after)
  }

  /** `resource['change']['after'][key]` */
  function Require(r: ResourceChange, key: string): (v: Result<Attr>)
    ensures v.Ok? <==> r.change.Some? && r.change.value.after.Some? && key in r.change.value.after.value
    ensures v.Ok? ==> v.value == AfterOrEmpty(r)[key]
    ensures v.Raised? && AfterOf(r).Ok? ==> v.error == KeyError(key)
  {
    match AfterOf(r)
    case Raised(e) => Raised(e)
    case Ok(after) => if key in after then Ok(after[key]) else Raised(KeyError(key))
  }

  /** The entries of `s` that the filtering walkers process, in plan order. */
  function Creates(s: seq<ResourceChange>): (c: seq<ResourceChange>)
    ensures |c| <= |s|
    ensures forall k :: 0 <= k < |c| ==> IsCreate(c[k])
    decreases |s|
  {
    if s == [] then []
    else Creates(s[..|s| - 1]) + (if IsCreate(s[|s| - 1]) then [s[|s| - 1]] else [])
  }

  lemma {:induction false} CreatesKeepsExactlyTheCreates(s: seq<ResourceChange>)
    ensures forall r :: r in Creates(s) <==> r in s && IsCreate(r)
    decreases |s|
  {
    if s != [] {
      var p := s[..|s| - 1];
      CreatesKeepsExactlyTheCreates(p);
      assert s == p + [s[|s| - 1]];
    }
  }

  /** A list that names the create entries in order names exactly the create entries of the plan. */
  lemma NamesOfCreates(s: seq<ResourceChange>, names: seq<Option<string>>)
    requires |names| == |Creates(s)|
    requires forall k :: 0 <= k < |names| ==> names[k] == Creates(s)[k].name
    ensures (set i | 0 <= i < |names| :: names[i]) == set r | r in s && IsCreate(r) :: r.name
  {
    var cs := Creates(s);
    CreatesKeepsExactlyTheCreates(s);
    var fromPlan := set r | r in s && IsCreate(r) :: r.name;
    var fromNames := set i | 0 <= i < |names| :: names[i];
    forall n | n in fromPlan ensures n in fromNames {
      var r :| r in s && IsCreate(r) && r.name == n;
      assert r in cs;
      var i :| 0 <= i < |cs| && cs[i] == r;
      assert names[i] == n;
    }
  }
}
