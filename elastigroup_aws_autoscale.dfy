/**
 * The auto-scale headroom and scale-down blocks of an AWS Elastigroup integration. Each expander
 * reads the first element of its block and sets a field only from a positive value.
 */
module ElastigroupAwsAutoScale {
  import opened Common
  import opened Terraform

  const CpuPerUnit := "cpu_per_unit"
  const MemoryPerUnit := "memory_per_unit"
  const NumOfUnits := "num_of_units"
  const EvaluationPeriods := "evaluation_periods"
  const MaxScaleDownPercentage := "max_scale_down_percentage"

  /**
   * Whether the SDK setter of a field ran, and with what. A setter given nil marks the field as an
   * explicit null for the request body, which is not the same as a setter that never ran.
   */
  datatype Setting<T> = NotSet | SetTo(value: Option<T>)

  datatype AutoScaleHeadroom = AutoScaleHeadroom(cpuPerUnit: Option<int>, memoryPerUnit: Option<int>, numOfUnits: Option<int>)

  datatype AutoScaleDown = AutoScaleDown(evaluationPeriods: Option<int>, maxScaleDownPercentage: Setting<Float64>)

  /** `o` is set exactly when `m[key]` is a positive int, and then to that int. */
  predicate SetFromPositive(o: Option<int>, m: map<string, Value>, key: string) {
    (o.Some? <==> key in m && m[key].Int? && m[key].i > 0) &&
    (o.Some? ==> m[key] == Int(o.value))
  }

  /** `m[key].(int)` when it is positive. */
  function PositiveAt(m: map<string, Value>, key: string): (r: Option<int>)
    ensures SetFromPositive(r, m, key)
  {
    if key in m && m[key].Int? && m[key].i > 0 then Some(m[key].i) else None
  }

  /** The shape the expanders' conversions demand: a list whose first element, when not nil, is a map. */
  predicate BlockShaped(data: Value) {
    data.List? && (|data.items| > 0 && !data.items[0].Nil? ==> data.items[0].Map?)
  }

  /**
   * `expandAWSGroupAutoScaleHeadroom`: nil for an empty list, a headroom with nothing set when the
   * first element is nil, and otherwise each field from a positive int only.
   */
  function ExpandAutoScaleHeadroom(data: Value): (r: Option<AutoScaleHeadroom>)
    requires BlockShaped(data)
    ensures r.None? <==> |data.items| == 0
    ensures |data.items| > 0 && data.items[0].Nil? ==> r == Some(AutoScaleHeadroom(None, None, None))
    ensures |data.items| > 0 && data.items[0].Map? ==>
      var m := data.items[0].entries;
      SetFromPositive(r.value.cpuPerUnit, m, CpuPerUnit) &&
      SetFromPositive(r.value.memoryPerUnit, m, MemoryPerUnit) &&
      SetFromPositive(r.value.numOfUnits, m, NumOfUnits)
  {
    if |data.items| == 0 then None
    else if data.items[0].Nil? then Some(AutoScaleHeadroom(None, None, None))
    else
      var m := data.items[0].entries;
      Some(AutoScaleHeadroom(PositiveAt(m, CpuPerUnit), PositiveAt(m, MemoryPerUnit), PositiveAt(m, NumOfUnits)))
  }

  /**
   * `expandAWSGroupAutoScaleDown`: nil for an empty list; evaluation periods from a positive int only;
   * the percentage's setter runs only when `percentageExists`, and then with nil unless the configured
   * float is positive.
   */
  function ExpandAutoScaleDown(data: Value, percentageExists: bool): (r: Option<AutoScaleDown>)
    requires BlockShaped(data)
    ensures r.None? <==> |data.items| == 0
    ensures |data.items| > 0 && data.items[0].Nil? ==> r == Some(AutoScaleDown(None, NotSet))
    ensures r.Some? && !percentageExists ==> r.value.maxScaleDownPercentage == NotSet
    ensures |data.items| > 0 && data.items[0].Map? ==>
      var m := data.items[0].entries;
      SetFromPositive(r.value.evaluationPeriods, m, EvaluationPeriods) &&
      (percentageExists ==>
        r.value.maxScaleDownPercentage.SetTo? &&
        var p := r.value.maxScaleDownPercentage.value;
        (p.Some? <==> MaxScaleDownPercentage in m && m[MaxScaleDownPercentage].Float? && IsPositive(m[MaxScaleDownPercentage].f)) &&
        (p.Some? ==> m[MaxScaleDownPercentage] == Float(p.value)))
  {
    if |data.items| == 0 then None
    else if data.items[0].Nil? then Some(AutoScaleDown(None, NotSet))
    else
      var m := data.items[0].entries;
      var percentage :=
        if MaxScaleDownPercentage in m && m[MaxScaleDownPercentage].Float? && IsPositive(m[MaxScaleDownPercentage].f)
        then Some(m[MaxScaleDownPercentage].f) else None;
      Some(AutoScaleDown(PositiveAt(m, EvaluationPeriods), if percentageExists then SetTo(percentage) else NotSet))
  }

  /** A zero or negative percentage never reaches the request: at most an explicit null does. */
  lemma NonPositivePercentageIsNull(m: map<string, Value>, f: Float64)
    requires MaxScaleDownPercentage in m && m[MaxScaleDownPercentage] == Float(f) && !IsPositive(f)
    ensures ExpandAutoScaleDown(List([Map(m)]), true) == Some(AutoScaleDown(PositiveAt(m, EvaluationPeriods), SetTo(None)))
  {
  }
}
