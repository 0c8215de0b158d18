/**
 * The AWS elastigroup as the `Setup` callbacks mutate it, and the shared load-balancer slice that the
 * three balancer fields update together.
 *
 * `Group` flattens the parts of `aws.Group` these callbacks touch: `Capacity` (maximum, minimum,
 * target, unit), `Compute.Product` and `Compute.LaunchSpecification` (health check settings and
 * `LoadBalancersConfig.LoadBalancers`). The callbacks dereference those nested structs without a
 * check, so the model takes them as allocated.
 */
module ElastigroupAwsGroup {
  import opened Common
  import opened Terraform
  import opened ElastigroupAws

  const Product := "product"
  const MaxSize := "max_size"
  const MinSize := "min_size"
  const DesiredCapacity := "desired_capacity"
  const CapacityUnit := "capacity_unit"
  const HealthCheckGracePeriod := "health_check_grace_period"
  const HealthCheckType := "health_check_type"
  const UnhealthyDuration := "health_check_unhealthy_duration_before_replacement"

  /** `resourceData.Get(key).(int)` that is `ok` and at least 0: the capacity guard. */
  function NonNegativeInt(d: Snapshot, key: string): (r: Option<int>)
    ensures r.Some? <==> GetInt(d, key).Some? && GetInt(d, key).value >= 0
    ensures r.Some? ==> r == GetInt(d, key) && r.value >= 0
  {
    var v := GetInt(d, key);
    if v.Some? && v.value >= 0 then v else None
  }

  /** `resourceData.Get(key).(int)` that is `ok` and positive: the health-check guard. */
  function PositiveInt(d: Snapshot, key: string): (r: Option<int>)
    ensures r.Some? <==> GetInt(d, key).Some? && GetInt(d, key).value > 0
    ensures r.Some? ==> r == GetInt(d, key) && r.value > 0
    ensures key !in d ==> r.None?
  {
    var v := GetInt(d, key);
    if v.Some? && v.value > 0 then v else None
  }

  /** `resourceData.Get(key).(string)` that is `ok` and non-empty. */
  function NonEmptyString(d: Snapshot, key: string): (r: Option<string>)
    ensures r.Some? <==> key in d && d[key].Str? && d[key].s != ""
    ensures r.Some? ==> d[key] == Str(r.value)
  {
    if key in d && d[key].Str? && d[key].s != "" then Some(d[key].s) else None
  }

  class Group {
    var maximum: Option<int>
    var minimum: Option<int>
    var target: Option<int>
    var unit: Option<string>
    var product: Option<string>
    var healthCheckGracePeriod: Option<int>
    var healthCheckType: Option<string>
    var unhealthyDuration: Option<int>
    var loadBalancers: Option<seq<LoadBalancer>>

    constructor ()
      ensures maximum.None? && minimum.None? && target.None? && unit.None? && product.None?
      ensures healthCheckGracePeriod.None? && healthCheckType.None? && unhealthyDuration.None?
      ensures loadBalancers.None?
    {
      maximum, minimum, target, unit, product := None, None, None, None, None;
      healthCheckGracePeriod, healthCheckType, unhealthyDuration := None, None, None;
      loadBalancers := None;
    }

    /** The product read callback: a nil product leaves the field unset, so it reads back as "". */
    method ReadProduct(rd: ResourceData)
      modifies rd`values
      ensures rd.values == PutString(old(rd.values), Product, product)
    {
      rd.values := PutString(rd.values, Product, product);
    }

    /** The product create callback: the configured product, "" included, is always copied. */
    method CreateProduct(d: Snapshot)
      requires HoldsString(d, Product)
      modifies this`product
      ensures product == Some(GetString(d, Product))
    {
      product := Some(GetString(d, Product));
    }

    /** The product update callback: product cannot change once the group exists. */
    method UpdateProduct(d: Snapshot) returns (err: Error)
      ensures err == UpdateNotAllowed(Product)
    {
      err := UpdateNotAllowed(Product);
    }

    /** The capacity unit update callback: the unit cannot change either. */
    method UpdateCapacityUnit(d: Snapshot) returns (err: Error)
      ensures err == UpdateNotAllowed(CapacityUnit)
    {
      err := UpdateNotAllowed(CapacityUnit);
    }

    /** The max_size create and update callbacks (they are the same): only a value >= 0 is written. */
    method SetMaxSize(d: Snapshot)
      modifies this`maximum
      ensures NonNegativeInt(d, MaxSize).Some? ==> maximum == NonNegativeInt(d, MaxSize)
      ensures NonNegativeInt(d, MaxSize).None? ==> maximum == old(maximum)
    {
      var v := GetInt(d, MaxSize);
      if v.Some? && v.value >= 0 {
        maximum := Some(v.value);
      }
    }

    /** The min_size create and update callbacks. */
    method SetMinSize(d: Snapshot)
      modifies this`minimum
      ensures NonNegativeInt(d, MinSize).Some? ==> minimum == NonNegativeInt(d, MinSize)
      ensures NonNegativeInt(d, MinSize).None? ==> minimum == old(minimum)
    {
      var v := GetInt(d, MinSize);
      if v.Some? && v.value >= 0 {
        minimum := Some(v.value);
      }
    }

    /** The desired_capacity create and update callbacks. */
    method SetDesiredCapacity(d: Snapshot)
      modifies this`target
      ensures NonNegativeInt(d, DesiredCapacity).Some? ==> target == NonNegativeInt(d, DesiredCapacity)
      ensures NonNegativeInt(d, DesiredCapacity).None? ==> target == old(target)
    {
      var v := GetInt(d, DesiredCapacity);
      if v.Some? && v.value >= 0 {
        target := Some(v.value);
      }
    }

    /** The capacity read callbacks: an absent capacity value reads as 0. */
    method ReadCapacity(rd: ResourceData)
      modifies rd
      ensures rd.values == old(rd.values)[MaxSize := Int(IntValue(maximum))][MinSize := Int(IntValue(minimum))]
                                         [DesiredCapacity := Int(IntValue(target))]
      ensures rd.id == old(rd.id)
    {
      rd.Set(MaxSize, Int(IntValue(maximum)));
      rd.Set(MinSize, Int(IntValue(minimum)));
      rd.Set(DesiredCapacity, Int(IntValue(target)));
    }

    /** The capacity_unit read callback: a nil unit reads as "". */
    method ReadCapacityUnit(rd: ResourceData)
      modifies rd
      ensures rd.values == old(rd.values)[CapacityUnit := Str(StringValue(unit))]
      ensures rd.id == old(rd.id)
    {
      rd.Set(CapacityUnit, Str(StringValue(unit)));
    }

    /** The capacity_unit create callback: only a non-empty unit is written. */
    method CreateCapacityUnit(d: Snapshot)
      modifies this`unit
      ensures NonEmptyString(d, CapacityUnit).Some? ==> unit == NonEmptyString(d, CapacityUnit)
      ensures NonEmptyString(d, CapacityUnit).None? ==> unit == old(unit)
    {
      if CapacityUnit in d && d[CapacityUnit].Str? && d[CapacityUnit].s != "" {
        unit := Some(d[CapacityUnit].s);
      }
    }

    /** The health_check_grace_period create callback: a positive value is written, anything else is ignored. */
    method CreateHealthCheckGracePeriod(d: Snapshot)
      modifies this`healthCheckGracePeriod
      ensures PositiveInt(d, HealthCheckGracePeriod).Some? ==> healthCheckGracePeriod == PositiveInt(d, HealthCheckGracePeriod)
      ensures PositiveInt(d, HealthCheckGracePeriod).None? ==> healthCheckGracePeriod == old(healthCheckGracePeriod)
    {
      var v := GetInt(d, HealthCheckGracePeriod);
      if v.Some? && v.value > 0 {
        healthCheckGracePeriod := v;
      }
    }

    /** The health_check_grace_period update callback: the grace period becomes nil unless the value is positive. */
    method UpdateHealthCheckGracePeriod(d: Snapshot)
      modifies this`healthCheckGracePeriod
      ensures healthCheckGracePeriod == PositiveInt(d, HealthCheckGracePeriod)
      ensures healthCheckGracePeriod.Some? ==> healthCheckGracePeriod.value > 0
    {
      var value: Option<int> := None;
      var v := GetInt(d, HealthCheckGracePeriod);
      if v.Some? && v.value > 0 {
        value := v;
      }
      healthCheckGracePeriod := value;
    }

    /** The health_check_type create callback: only a non-empty type is written. */
    method CreateHealthCheckType(d: Snapshot)
      modifies this`healthCheckType
      ensures NonEmptyString(d, HealthCheckType).Some? ==> healthCheckType == NonEmptyString(d, HealthCheckType)
      ensures NonEmptyString(d, HealthCheckType).None? ==> healthCheckType == old(healthCheckType)
    {
      if HealthCheckType in d && d[HealthCheckType].Str? && d[HealthCheckType].s != "" {
        healthCheckType := Some(d[HealthCheckType].s);
      }
    }

    /** The health_check_type update callback: nil unless a non-empty type is configured. */
    method UpdateHealthCheckType(d: Snapshot)
      modifies this`healthCheckType
      ensures healthCheckType == NonEmptyString(d, HealthCheckType)
    {
      var value: Option<string> := None;
      if HealthCheckType in d && d[HealthCheckType].Str? && d[HealthCheckType].s != "" {
        value := Some(d[HealthCheckType].s);
      }
      healthCheckType := value;
    }

    /** The unhealthy-duration create callback: a positive value is written. */
    method CreateUnhealthyDuration(d: Snapshot)
      modifies this`unhealthyDuration
      ensures PositiveInt(d, UnhealthyDuration).Some? ==> unhealthyDuration == PositiveInt(d, UnhealthyDuration)
      ensures PositiveInt(d, UnhealthyDuration).None? ==> unhealthyDuration == old(unhealthyDuration)
    {
      var v := GetInt(d, UnhealthyDuration);
      if v.Some? && v.value > 0 {
        unhealthyDuration := v;
      }
    }

    /** The unhealthy-duration update callback: nil unless the value is positive. */
    method UpdateUnhealthyDuration(d: Snapshot)
      modifies this`unhealthyDuration
      ensures unhealthyDuration == PositiveInt(d, UnhealthyDuration)
    {
      var value: Option<int> := None;
      var v := GetInt(d, UnhealthyDuration);
      if v.Some? && v.value > 0 {
        value := v;
      }
      unhealthyDuration := value;
    }

    /** The health-check read callbacks: absent values read as 0 and "". */
    method ReadHealthCheck(rd: ResourceData)
      modifies rd
      ensures rd.values == old(rd.values)[HealthCheckGracePeriod := Int(IntValue(healthCheckGracePeriod))]
                                         [HealthCheckType := Str(StringValue(healthCheckType))]
                                         [UnhealthyDuration := Int(IntValue(unhealthyDuration))]
      ensures rd.id == old(rd.id)
    {
      rd.Set(HealthCheckGracePeriod, Int(IntValue(healthCheckGracePeriod)));
      rd.Set(HealthCheckType, Str(StringValue(healthCheckType)));
      rd.Set(UnhealthyDuration, Int(IntValue(unhealthyDuration)));
    }

    /** The elastic_load_balancers read callback: the classic balancers' names, an empty list when there are none. */
    method ReadElasticLoadBalancers(rd: ResourceData)
      modifies rd
      ensures rd.values == old(rd.values)[ElasticLoadBalancers := List(StringList(ClassicNames(Elements(loadBalancers))))]
      ensures rd.id == old(rd.id)
    {
      rd.Set(ElasticLoadBalancers, List(StringList(ClassicNames(Elements(loadBalancers)))));
    }

    /** The target_group_arns read callback: the target groups' ARNs. */
    method ReadTargetGroupArns(rd: ResourceData)
      modifies rd
      ensures rd.values == old(rd.values)[TargetGroupArns := List(StringList(TargetGroupArnsOf(Elements(loadBalancers))))]
      ensures rd.id == old(rd.id)
    {
      rd.Set(TargetGroupArns, List(StringList(TargetGroupArnsOf(Elements(loadBalancers)))));
    }

    /** The multai_target_sets read callback: the flattened multai target sets. */
    method ReadMultaiTargetSets(rd: ResourceData)
      modifies rd
      ensures rd.values == old(rd.values)[MultaiTargetSets := List(FlattenMultaiTargetSets(Elements(loadBalancers)))]
      ensures rd.id == old(rd.id)
    {
      rd.Set(MultaiTargetSets, List(FlattenMultaiTargetSets(Elements(loadBalancers))));
    }

    /**
     * One kind's step of `onBalancersUpdate`: the balancers `extractBalancers` finds for `kind` are
     * appended to the slice when there are any; `nullify` reports that there were none.
     */
    method ApplyKind(kind: BalancerKind, d: Snapshot) returns (failure: Option<Error>, nullify: bool)
      requires ConfigShaped(kind, d)
      modifies this`loadBalancers
      ensures var r := KindStep(kind, false, old(loadBalancers), d);
        if r.Err? then failure == Some(r.error) && loadBalancers == old(loadBalancers)
        else failure.None? && loadBalancers == r.value.lbs && nullify == r.value.nullify
    {
      var found := ExtractBalancers(kind, loadBalancers, d);
      if found.Err? {
        return Some(found.error), false;
      }
      nullify := false;
      if |found.value| > 0 {
        loadBalancers := Some(Elements(loadBalancers) + found.value);
      } else {
        nullify := true;
      }
      failure := None;
    }

    /**
     * The create callbacks of the three balancer fields: the configured balancers of `kind`, when
     * there are any, are appended to the existing slice.
     */
    method CreateBalancers(kind: BalancerKind, d: Snapshot) returns (err: Option<Error>)
      requires ConfigShaped(kind, d)
      modifies this`loadBalancers
      ensures err.Some? <==> ConfigBalancers(kind, d).Err?
      ensures err.Some? ==> err == Some(ConfigBalancers(kind, d).error) && loadBalancers == old(loadBalancers)
      ensures err.None? ==> loadBalancers == Merged(old(loadBalancers), ConfigBalancers(kind, d).value)
    {
      var found := ConfigBalancers(kind, d);
      if found.Err? {
        return Some(found.error);
      }
      if |found.value| > 0 {
        loadBalancers := Some(Elements(loadBalancers) + found.value);
      }
      return None;
    }
  }

  /** The slice after non-empty `found` is appended to `existing`; nothing found leaves it as it was. */
  function Merged(existing: Option<seq<LoadBalancer>>, found: seq<LoadBalancer>): (r: Option<seq<LoadBalancer>>)
    ensures found == [] ==> r == existing
    ensures found != [] ==> r.Some? && |r.value| == |Elements(existing)| + |found| &&
                            r.value[..|Elements(existing)|] == Elements(existing) &&
                            r.value[|Elements(existing)|..] == found
  {
    if found == [] then existing else Some(Elements(existing) + found)
  }

  // ---------------------------------------------------------------------------------------------
  // onBalancersUpdate

  /** The three package-level flags `elbUpdated`, `tgUpdated` and `mlbUpdated`. */
  datatype Flags = Flags(elb: bool, tg: bool, mlb: bool)

  const Fresh := Flags(false, false, false)
  const AllDone := Flags(true, true, true)

  /** The configuration shapes `onBalancersUpdate` relies on for the kinds it has yet to handle. */
  predicate ShapedFor(f: Flags, d: Snapshot) {
    (!f.elb ==> ConfigShaped(Classic, d)) &&
    (!f.tg ==> ConfigShaped(TargetGroup, d)) &&
    (!f.mlb ==> ConfigShaped(MultaiTargetSet, d))
  }

  /** One kind's step: the new slice and whether the kind found nothing (its `...Nullify` flag). */
  datatype Step = Step(lbs: Option<seq<LoadBalancer>>, nullify: bool)

  function KindStep(kind: BalancerKind, done: bool, lbs: Option<seq<LoadBalancer>>, d: Snapshot): (r: Result<Step, Error>)
    requires done || ConfigShaped(kind, d)
    ensures done ==> r == Ok(Step(lbs, false))
    ensures !done ==> (r.Err? <==> ConfigBalancers(kind, d).Err?)
    ensures !done && r.Ok? ==> var found := ExtractBalancers(kind, lbs, d).value;
      r.value == Step(Merged(lbs, found), found == [])
  {
    if done then Ok(Step(lbs, false))
    else match ExtractBalancers(kind, lbs, d)
      case Err(e) => Err(e)
      case Ok(found) => if |found| > 0 then Ok(Step(Some(Elements(lbs) + found), false)) else Ok(Step(lbs, true))
  }

  /** What a call of `onBalancersUpdate` leaves behind: the flags, the slice and the error it returns. */
  datatype Outcome = Outcome(flags: Flags, lbs: Option<seq<LoadBalancer>>, err: Option<Error>)

  /** `onBalancersUpdate` as a function of the flags, the group's slice and the configuration. */
  function BalancersUpdate(f: Flags, lbs: Option<seq<LoadBalancer>>, d: Snapshot): (r: Outcome)
    requires ShapedFor(f, d)
    // a kind once handled stays handled
    ensures (f.elb ==> r.flags.elb) && (f.tg ==> r.flags.tg) && (f.mlb ==> r.flags.mlb)
    // the call ends without error exactly when every kind has been handled
    ensures r.err.None? <==> r.flags == AllDone
    // only the target-group step can fail; the classic kind is then handled and the rest left pending
    ensures r.err.Some? ==> !f.tg && r.flags == f.(elb := true) && r.lbs == KindStep(Classic, f.elb, lbs, d).value.lbs
  {
    match KindStep(Classic, f.elb, lbs, d)
    case Err(e) => Outcome(f, lbs, Some(e))
    case Ok(s1) =>
      var f1 := f.(elb := true);
      match KindStep(TargetGroup, f.tg, s1.lbs, d)
      case Err(e) => Outcome(f1, s1.lbs, Some(e))
      case Ok(s2) =>
        var f2 := f1.(tg := true);
        match KindStep(MultaiTargetSet, f.mlb, s2.lbs, d)
        case Err(e) => Outcome(f2, s2.lbs, Some(e))
        case Ok(s3) =>
          Outcome(AllDone, if s1.nullify && s2.nullify && s3.nullify then None else s3.lbs, None)
  }

  /** `BalancersUpdate` when the classic step succeeds and the target-group step fails. */
  lemma StopsAtTargetGroup(f: Flags, lbs: Option<seq<LoadBalancer>>, d: Snapshot)
    requires ShapedFor(f, d) && KindStep(Classic, f.elb, lbs, d).Ok?
    requires KindStep(TargetGroup, f.tg, KindStep(Classic, f.elb, lbs, d).value.lbs, d).Err?
    ensures var s1 := KindStep(Classic, f.elb, lbs, d).value;
      BalancersUpdate(f, lbs, d) == Outcome(f.(elb := true), s1.lbs, Some(KindStep(TargetGroup, f.tg, s1.lbs, d).error))
  {
  }

  /** `BalancersUpdate` when every step succeeds. */
  lemma RunsAllKinds(f: Flags, lbs: Option<seq<LoadBalancer>>, d: Snapshot)
    requires ShapedFor(f, d) && KindStep(Classic, f.elb, lbs, d).Ok?
    requires KindStep(TargetGroup, f.tg, KindStep(Classic, f.elb, lbs, d).value.lbs, d).Ok?
    requires var s1 := KindStep(Classic, f.elb, lbs, d).value;
      KindStep(MultaiTargetSet, f.mlb, KindStep(TargetGroup, f.tg, s1.lbs, d).value.lbs, d).Ok?
    ensures var s1 := KindStep(Classic, f.elb, lbs, d).value;
      var s2 := KindStep(TargetGroup, f.tg, s1.lbs, d).value;
      var s3 := KindStep(MultaiTargetSet, f.mlb, s2.lbs, d).value;
      BalancersUpdate(f, lbs, d) == Outcome(AllDone, if s1.nullify && s2.nullify && s3.nullify then None else s3.lbs, None)
  {
  }

  /** The flags as an object driven by one call after another. */
  class BalancerUpdater {
    var elbUpdated: bool
    var tgUpdated: bool
    var mlbUpdated: bool

    /** The flags' state when the provider process starts. */
    constructor ()
      ensures !elbUpdated && !tgUpdated && !mlbUpdated
    {
      elbUpdated, tgUpdated, mlbUpdated := false, false, false;
    }

    function State(): Flags
      reads this
    {
      Flags(elbUpdated, tgUpdated, mlbUpdated)
    }

    /** `onBalancersUpdate`, the update callback of all three balancer fields. */
    method OnBalancersUpdate(g: Group, d: Snapshot) returns (err: Option<Error>)
      requires ShapedFor(State(), d)
      modifies this, g`loadBalancers
      ensures var o := BalancersUpdate(old(State()), old(g.loadBalancers), d);
        State() == o.flags && g.loadBalancers == o.lbs && err == o.err
    {
      ghost var f0, lbs0 := State(), g.loadBalancers;
      var elbNullify, tgNullify, mlbNullify := false, false, false;
      if !elbUpdated {
        var failure;
        failure, elbNullify := g.ApplyKind(Classic, d);
        if failure.Some? {
          assert false;
          return failure;
        }
        elbUpdated := true;
      }
      ghost var s1 := KindStep(Classic, f0.elb, lbs0, d).value;
      assert g.loadBalancers == s1.lbs && elbNullify == s1.nullify;
      if !tgUpdated {
        var failure;
        failure, tgNullify := g.ApplyKind(TargetGroup, d);
        if failure.Some? {
          StopsAtTargetGroup(f0, lbs0, d);
          return failure;
        }
        tgUpdated := true;
      }
      ghost var s2 := KindStep(TargetGroup, f0.tg, s1.lbs, d).value;
      assert g.loadBalancers == s2.lbs && tgNullify == s2.nullify;
      if !mlbUpdated {
        var failure;
        failure, mlbNullify := g.ApplyKind(MultaiTargetSet, d);
        if failure.Some? {
          assert false;
          return failure;
        }
        mlbUpdated := true;
      }
      ghost var s3 := KindStep(MultaiTargetSet, f0.mlb, s2.lbs, d).value;
      assert g.loadBalancers == s3.lbs && mlbNullify == s3.nullify;
      RunsAllKinds(f0, lbs0, d);
      if elbNullify && tgNullify && mlbNullify {
        g.loadBalancers := None;
      }
      return None;
    }
  }

  /**
   * The balancer update as evidently intended: each kind handled once per resource update, with
   * flags that start fresh for every update instead of once per process.
   */
  method UpdateGroupBalancers(g: Group, d: Snapshot) returns (err: Option<Error>)
    requires ShapedFor(Fresh, d)
    modifies g`loadBalancers
    ensures var o := BalancersUpdate(Fresh, old(g.loadBalancers), d);
      g.loadBalancers == o.lbs && err == o.err
  {
    var updater := new BalancerUpdater();
    err := updater.OnBalancersUpdate(g, d);
  }

  /** A call that returns no error has handled every kind: all three flags are set. */
  lemma UpdateSetsAllFlags(f: Flags, lbs: Option<seq<LoadBalancer>>, d: Snapshot)
    requires ShapedFor(f, d)
    ensures BalancersUpdate(f, lbs, d).err.None? <==> BalancersUpdate(f, lbs, d).flags == AllDone
  {
  }

  /** Once all three flags are set, a call changes nothing. */
  lemma LaterUpdatesChangeNothing(lbs: Option<seq<LoadBalancer>>, d: Snapshot)
    ensures BalancersUpdate(AllDone, lbs, d) == Outcome(AllDone, lbs, None)
  {
  }

  /** A kind that errs stops the call with its own flag still clear, so a later call handles it again. */
  lemma FailedKindStaysPending(lbs: Option<seq<LoadBalancer>>, d: Snapshot)
    requires ShapedFor(Fresh, d) && ConfigBalancers(TargetGroup, d).Err?
    ensures BalancersUpdate(Fresh, lbs, d).flags == Flags(true, false, false)
    ensures BalancersUpdate(Fresh, lbs, d).err == Some(TargetGroupArn.NoNameError)
  {
  }

  /**
   * The slice is cleared exactly when all three kinds ran in this call and each found nothing
   * (configured or already present); a slice that was already nil may also stay nil.
   */
  lemma ClearedOnlyWhenAllKindsEmpty(f: Flags, lbs: Option<seq<LoadBalancer>>, d: Snapshot)
    requires ShapedFor(f, d) && lbs.Some?
    ensures var o := BalancersUpdate(f, lbs, d);
      o.err.None? && o.lbs.None? <==>
        f == Fresh && ExtractBalancers(Classic, lbs, d) == Ok([]) &&
        ExtractBalancers(TargetGroup, lbs, d) == Ok([]) && ExtractBalancers(MultaiTargetSet, lbs, d) == Ok([])
  {
  }

  /**
   * The first call on a group with no balancers yet: the configured classic balancers, then the
   * target groups, then the multai target sets; nil when none is configured.
   */
  lemma FirstUpdateOrdersKinds(lbs: Option<seq<LoadBalancer>>, d: Snapshot)
    requires ShapedFor(Fresh, d) && Elements(lbs) == []
    requires ConfigBalancers(TargetGroup, d).Ok?
    ensures var elbs := ConfigBalancers(Classic, d).value;
      var tgs := ConfigBalancers(TargetGroup, d).value;
      var mlbs := ConfigBalancers(MultaiTargetSet, d).value;
      BalancersUpdate(Fresh, lbs, d) ==
        Outcome(AllDone, if elbs + tgs + mlbs == [] then None else Some(elbs + tgs + mlbs), None)
  {
    var elbs := ConfigBalancers(Classic, d).value;
    var tgs := ConfigBalancers(TargetGroup, d).value;
    var mlbs := ConfigBalancers(MultaiTargetSet, d).value;
    StepOnNoneOfKind(Classic, lbs, d);
    var s1 := KindStep(Classic, false, lbs, d).value;
    assert Elements(s1.lbs) == elbs;
    OfOtherType(elbs, Classic, TargetGroup);
    StepOnNoneOfKind(TargetGroup, s1.lbs, d);
    var s2 := KindStep(TargetGroup, false, s1.lbs, d).value;
    OfOtherType(elbs, Classic, MultaiTargetSet);
    OfOtherType(tgs, TargetGroup, MultaiTargetSet);
    OfTypeAppend(elbs, tgs, MultaiTargetSet);
    StepOnNoneOfKind(MultaiTargetSet, s2.lbs, d);
    var s3 := KindStep(MultaiTargetSet, false, s2.lbs, d).value;
    assert BalancersUpdate(Fresh, lbs, d) ==
      Outcome(AllDone, if s1.nullify && s2.nullify && s3.nullify then None else s3.lbs, None);
    if elbs + tgs + mlbs != [] {
      assert s3.lbs == Some(elbs + tgs + mlbs);
    }
  }

  /** A kind none of whose balancers the slice holds yet: the configured ones are appended. */
  lemma StepOnNoneOfKind(kind: BalancerKind, lbs: Option<seq<LoadBalancer>>, d: Snapshot)
    requires ConfigShaped(kind, d) && ConfigBalancers(kind, d).Ok? && OfType(Elements(lbs), kind) == []
    ensures var found := ConfigBalancers(kind, d).value;
      var r := KindStep(kind, false, lbs, d);
      r.Ok? && r.value.nullify == (found == []) &&
      Elements(r.value.lbs) == Elements(lbs) + found &&
      (r.value.lbs.Some? <==> lbs.Some? || found != [])
  {
    var found := ConfigBalancers(kind, d).value;
    assert found + [] == found;
    assert ExtractBalancers(kind, lbs, d) == Ok(found);
  }

  /**
   * A balancer already in the slice is counted twice: `extractBalancers` returns it among the
   * existing balancers of its kind, and the step then appends that result to the existing slice.
   */
  lemma ExistingBalancerDuplicated(b: LoadBalancer, d: Snapshot)
    requires b.typ == Some(TypeName(Classic))
    requires GetOk(d, ElasticLoadBalancers).None? && GetOk(d, TargetGroupArns).None? && GetOk(d, MultaiTargetSets).None?
    ensures BalancersUpdate(Fresh, Some([b]), d).lbs == Some([b, b])
  {
    assert OfType([b], Classic) == [b];
    assert ConfigBalancers(Classic, d) == Ok([]);
    assert [] + [b] == [b] && [b] + [b] == [b, b];
    assert ExtractBalancers(Classic, Some([b]), d) == Ok([b]);
    var s1 := KindStep(Classic, false, Some([b]), d).value;
    assert s1.lbs == Some([b, b]) && !s1.nullify;
    OfOtherType([b, b], Classic, TargetGroup);
    OfOtherType([b, b], Classic, MultaiTargetSet);
    assert ExtractBalancers(TargetGroup, s1.lbs, d) == Ok([]);
    assert ExtractBalancers(MultaiTargetSet, s1.lbs, d) == Ok([]);
  }

  /**
   * The flags are never cleared, so once one group's update has gone through, the balancer update
   * of any later group in the same process keeps that group's slice whatever its configuration.
   */
  lemma LaterGroupKeepsItsBalancers(lbsA: Option<seq<LoadBalancer>>, dA: Snapshot, lbsB: Option<seq<LoadBalancer>>, dB: Snapshot)
    requires ShapedFor(Fresh, dA) && BalancersUpdate(Fresh, lbsA, dA).err.None?
    ensures var fA := BalancersUpdate(Fresh, lbsA, dA).flags;
      ShapedFor(fA, dB) && BalancersUpdate(fA, lbsB, dB).lbs == lbsB
  {
    UpdateSetsAllFlags(Fresh, lbsA, dA);
  }

  /** With fresh flags the configured classic balancers of every group reach its slice. */
  lemma FreshUpdateAppliesClassicBalancers(lbs: Option<seq<LoadBalancer>>, d: Snapshot)
    requires ShapedFor(Fresh, d) && Elements(lbs) == [] && ConfigBalancers(TargetGroup, d).Ok?
    ensures var elbs := ConfigBalancers(Classic, d).value;
      var o := BalancersUpdate(Fresh, lbs, d);
      o.err.None? && (elbs != [] ==> o.lbs.Some? && o.lbs.value[..|elbs|] == elbs)
  {
    FirstUpdateOrdersKinds(lbs, d);
    var elbs := ConfigBalancers(Classic, d).value;
    var tgs := ConfigBalancers(TargetGroup, d).value;
    var mlbs := ConfigBalancers(MultaiTargetSet, d).value;
    assert (elbs + tgs + mlbs)[..|elbs|] == elbs;
  }
}
