/**
 * The expand and flatten helpers of the AWS elastigroup fields: configuration values into the vendor
 * SDK's group structs (availability zones, subnets, elastic IPs, tags, signals, revert-to-spot and
 * load balancers) and multai target sets back into configuration.
 *
 * Each expander takes the elements of the list or set its Go counterpart first type-asserts
 * (`data.([]interface{})`, `data.(*schema.Set).List()`). The field names below are written out and
 * assumed to be the upstream values of the package's `consts.go`, which is not part of this model.
 */
module ElastigroupAws {
  import opened Common
  import opened Terraform
  import opened Strings
  import TargetGroupArn

  const ElasticLoadBalancers := "elastic_load_balancers"
  const TargetGroupArns := "target_group_arns"
  const MultaiTargetSets := "multai_target_sets"
  const MultaiTargetSetId := "target_set_id"
  const MultaiBalancerId := "balancer_id"
  const TagKey := "key"
  const TagValue := "value"
  const SignalName := "name"
  const SignalTimeout := "timeout"
  const PerformAt := "perform_at"
  const TimeWindow := "time_windows"

  const KeyMissing := Message("invalid tag attributes: key missing")
  const ValueMissing := Message("invalid tag attributes: value missing")

  datatype AvailabilityZone = AvailabilityZone(name: Option<string>, subnetId: Option<string>, placementGroupName: Option<string>)
  datatype Tag = Tag(key: Option<string>, value: Option<string>)
  datatype Signal = Signal(name: Option<string>, timeout: Option<int>)
  datatype RevertToSpot = RevertToSpot(performAt: Option<string>, timeWindows: Option<seq<string>>)
  datatype LoadBalancer = LoadBalancer(
    typ: Option<string>, name: Option<string>, arn: Option<string>,
    targetSetId: Option<string>, balancerId: Option<string>)

  /** The three balancer kinds that share the group's one `LoadBalancers` slice. */
  datatype BalancerKind = Classic | TargetGroup | MultaiTargetSet

  /** The `BalancerType` constants. */
  function TypeName(kind: BalancerKind): string {
    match kind
    case Classic => "CLASSIC"
    case TargetGroup => "TARGET_GROUP"
    case MultaiTargetSet => "MULTAI_TARGET_SET"
  }

  /**
   * Every balancer type constant is already upper-case, so `strings.ToUpper` leaves it alone; the
   * expanders below therefore store the constant itself where the code stores its upper-cased form.
   */
  lemma TypeNameIsUpperCase(kind: BalancerKind)
    ensures ToUpper(TypeName(kind)) == TypeName(kind)
    ensures TypeName(kind) != ""
  {
    ToUpperFixesUpperCase(TypeName(kind));
  }

  /** A string pointer set only when the string is non-empty. */
  function NonEmpty(o: Option<string>): (r: Option<string>)
    ensures r.Some? <==> o.Some? && o.value != ""
    ensures r.Some? ==> r == o
  {
    if o.Some? && o.value != "" then o else None
  }

  // ---------------------------------------------------------------------------------------------
  // Availability zones, elastic IPs and subnet ids

  /** `expandAWSGroupElasticIPs`: every string element, in order. */
  function ExpandElasticIps(items: seq<Value>): (r: seq<string>)
    ensures |r| <= |items|
  {
    if items == [] then []
    else StringIn(items[0]) + ExpandElasticIps(items[1..])
  }

  /** The string an element holds, if it is one. */
  function StringIn(v: Value): seq<string> {
    if v.Str? then [v.s] else []
  }

  /** The string an element holds, if it is a non-empty one. */
  function NonEmptyStringIn(v: Value): seq<string> {
    if v.Str? && v.s != "" then [v.s] else []
  }

  /** `expandSubnetIDs`: the non-empty string elements, in order. */
  function ExpandSubnetIds(items: seq<Value>): (r: seq<string>)
    ensures |r| <= |items|
  {
    if items == [] then []
    else NonEmptyStringIn(items[0]) + ExpandSubnetIds(items[1..])
  }

  /** The elastic IPs are exactly the strings of the list. */
  lemma {:induction false} ElasticIpsMembers(items: seq<Value>)
    ensures forall x :: x in ExpandElasticIps(items) <==> Str(x) in items
  {
    if items != [] {
      ElasticIpsMembers(items[1..]);
      assert items == [items[0]] + items[1..];
    }
  }

  /** The subnet ids are exactly the non-empty strings of the list. */
  lemma {:induction false} SubnetIdsMembers(items: seq<Value>)
    ensures forall x :: x in ExpandSubnetIds(items) <==> x != "" && Str(x) in items
  {
    if items != [] {
      SubnetIdsMembers(items[1..]);
      assert items == [items[0]] + items[1..];
    }
  }

  lemma ElasticIpsConsAppend(a: seq<Value>, b: seq<Value>)
    requires a != []
    ensures ExpandElasticIps(a + b) == StringIn(a[0]) + ExpandElasticIps(a[1..] + b)
  {
    assert (a + b)[0] == a[0] && (a + b)[1..] == a[1..] + b;
  }

  lemma SubnetIdsConsAppend(a: seq<Value>, b: seq<Value>)
    requires a != []
    ensures ExpandSubnetIds(a + b) == NonEmptyStringIn(a[0]) + ExpandSubnetIds(a[1..] + b)
  {
    assert (a + b)[0] == a[0] && (a + b)[1..] == a[1..] + b;
  }

  /** Expanding a concatenation expands each part. */
  lemma {:induction false} ElasticIpsAppend(a: seq<Value>, b: seq<Value>)
    ensures ExpandElasticIps(a + b) == ExpandElasticIps(a) + ExpandElasticIps(b)
  {
    if a != [] {
      ElasticIpsConsAppend(a, b);
      assert ExpandElasticIps(a) == StringIn(a[0]) + ExpandElasticIps(a[1..]);
      ElasticIpsAppend(a[1..], b);
      assert StringIn(a[0]) + (ExpandElasticIps(a[1..]) + ExpandElasticIps(b))
          == (StringIn(a[0]) + ExpandElasticIps(a[1..])) + ExpandElasticIps(b);
    } else {
      assert a + b == b;
    }
  }

  /** Expanding a concatenation expands each part. */
  lemma {:induction false} SubnetIdsAppend(a: seq<Value>, b: seq<Value>)
    ensures ExpandSubnetIds(a + b) == ExpandSubnetIds(a) + ExpandSubnetIds(b)
  {
    if a != [] {
      SubnetIdsConsAppend(a, b);
      assert ExpandSubnetIds(a) == NonEmptyStringIn(a[0]) + ExpandSubnetIds(a[1..]);
      SubnetIdsAppend(a[1..], b);
      assert NonEmptyStringIn(a[0]) + (ExpandSubnetIds(a[1..]) + ExpandSubnetIds(b))
          == (NonEmptyStringIn(a[0]) + ExpandSubnetIds(a[1..])) + ExpandSubnetIds(b);
    } else {
      assert a + b == b;
    }
  }

  /** Without empty strings the subnet filter and the elastic-IP filter agree: empty strings are all it adds. */
  lemma {:induction false} SubnetIdsWithoutEmptyStrings(items: seq<Value>)
    requires Str("") !in items
    ensures ExpandSubnetIds(items) == ExpandElasticIps(items)
  {
    if items != [] {
      assert items[0] in items;
      assert forall v :: v in items[1..] ==> v in items;
      SubnetIdsWithoutEmptyStrings(items[1..]);
    }
  }

  /** A list of non-empty strings passes the subnet filter unchanged, in order and with its duplicates. */
  lemma {:induction false} SubnetIdsOfNonEmptyStrings(xs: seq<string>)
    requires forall x :: x in xs ==> x != ""
    ensures ExpandSubnetIds(StringList(xs)) == xs
  {
    if xs != [] {
      assert xs[0] in xs;
      assert forall x :: x in xs[1..] ==> x in xs;
      SubnetIdsOfNonEmptyStrings(xs[1..]);
      var list := StringList(xs);
      assert list[1..] == StringList(xs[1..]);
      assert ExpandSubnetIds(list) == NonEmptyStringIn(list[0]) + ExpandSubnetIds(list[1..]);
      assert NonEmptyStringIn(list[0]) == [xs[0]];
    }
  }

  /** One `zone:subnet:placement` entry. */
  function ZoneOf(entry: string): AvailabilityZone {
    var parts := Split(entry, ':');
    AvailabilityZone(
      NonEmpty(Some(parts[0])),
      if |parts| == 2 then NonEmpty(Some(parts[1])) else None,
      if |parts| == 3 then NonEmpty(Some(parts[2])) else None)
  }

  /** The three entry shapes: a name, `name:subnet`, and `name:<anything>:placement` (no subnet). */
  lemma ZoneShapes(a: string, b: string, c: string)
    requires ':' !in a && ':' !in b && ':' !in c
    ensures ZoneOf(a) == AvailabilityZone(NonEmpty(Some(a)), None, None)
    ensures ZoneOf(a + ":" + b) == AvailabilityZone(NonEmpty(Some(a)), NonEmpty(Some(b)), None)
    ensures ZoneOf(a + ":" + b + ":" + c) == AvailabilityZone(NonEmpty(Some(a)), None, NonEmpty(Some(c)))
  {
    SplitWithoutSeparator(a, ':');
    SplitWithoutSeparator(b, ':');
    SplitWithoutSeparator(c, ':');
    SplitAfterPiece(a, ':', b);
    SplitAfterPiece(b, ':', c);
    assert a + ":" + b + ":" + c == a + [':'] + (b + [':'] + c);
    SplitAfterPiece(a, ':', b + [':'] + c);
  }

  /** An entry with more than two separators names only its zone. */
  lemma ZoneWithExtraParts(a: string, rest: string)
    requires ':' !in a && multiset(rest)[':'] >= 2
    ensures ZoneOf(a + ":" + rest) == AvailabilityZone(NonEmpty(Some(a)), None, None)
  {
    SplitAfterPiece(a, ':', rest);
    SplitCount(rest, ':');
  }

  /** `expandAvailabilityZonesSlice`. */
  function ExpandAvailabilityZones(items: seq<Value>): (r: seq<AvailabilityZone>)
    ensures |r| == |ExpandElasticIps(items)|
    ensures forall i :: 0 <= i < |r| ==> r[i] == ZoneOf(ExpandElasticIps(items)[i])
  {
    if items == [] then []
    else (if items[0].Str? then [ZoneOf(items[0].s)] else []) + ExpandAvailabilityZones(items[1..])
  }

  // ---------------------------------------------------------------------------------------------
  // Tags

  /** The map elements, in order: the elements `expandTags` does not skip. */
  function MapsIn(items: seq<Value>): (r: seq<map<string, Value>>)
    ensures |r| <= |items|
    ensures forall m :: m in r <==> Map(m) in items
  {
    if items == [] then []
    else (if items[0].Map? then [items[0].entries] else []) + MapsIn(items[1..])
  }

  predicate HasTagAttributes(m: map<string, Value>) {
    TagKey in m && TagValue in m
  }

  /**
   * What `expandTags` demands of its caller: up to the first map that lacks an attribute, the key
   * and the value of every map are strings (it asserts `.(string)` on them).
   */
  predicate TagsTyped(items: seq<Value>) {
    if items == [] then true
    else if !items[0].Map? then TagsTyped(items[1..])
    else
      var m := items[0].entries;
      if !HasTagAttributes(m) then true
      else m[TagKey].Str? && m[TagValue].Str? && TagsTyped(items[1..])
  }

  /** `expandTags`: one tag per map element, or the error for the first map lacking an attribute. */
  function ExpandTags(items: seq<Value>): (r: Result<seq<Tag>, Error>)
    requires TagsTyped(items)
    ensures r.Ok? ==> |r.value| == |MapsIn(items)|
    ensures r.Err? ==> r.error == KeyMissing || r.error == ValueMissing
  {
    if items == [] then Ok([])
    else if !items[0].Map? then ExpandTags(items[1..])
    else
      var m := items[0].entries;
      if TagKey !in m then Err(KeyMissing)
      else if TagValue !in m then Err(ValueMissing)
      else match ExpandTags(items[1..])
        case Ok(rest) => Ok([Tag(Some(m[TagKey].s), Some(m[TagValue].s))] + rest)
        case Err(e) => Err(e)
  }

  /** Tags are expanded exactly when every map element carries both attributes. */
  lemma {:induction false} TagsSucceedIffComplete(items: seq<Value>)
    requires TagsTyped(items)
    ensures ExpandTags(items).Ok? <==> forall m :: m in MapsIn(items) ==> HasTagAttributes(m)
  {
    if items != [] && (!items[0].Map? || HasTagAttributes(items[0].entries)) {
      TagsSucceedIffComplete(items[1..]);
    }
  }

  /** The first map that lacks the key or the value attribute, if any. */
  function FirstIncomplete(maps: seq<map<string, Value>>): (r: Option<map<string, Value>>)
    ensures r.Some? ==> r.value in maps && !HasTagAttributes(r.value)
    ensures r.None? <==> forall m :: m in maps ==> HasTagAttributes(m)
  {
    if maps == [] then None
    else if !HasTagAttributes(maps[0]) then Some(maps[0])
    else FirstIncomplete(maps[1..])
  }

  /**
   * The first incomplete map decides the outcome: "key missing" when it lacks the key, otherwise
   * "value missing"; with no incomplete map the tags expand.
   */
  lemma {:induction false} TagsErrorOfFirstIncomplete(items: seq<Value>)
    requires TagsTyped(items)
    ensures var f := FirstIncomplete(MapsIn(items));
      (ExpandTags(items).Ok? <==> f.None?) &&
      (ExpandTags(items) == Err(KeyMissing) <==> f.Some? && TagKey !in f.value) &&
      (ExpandTags(items) == Err(ValueMissing) <==> f.Some? && TagKey in f.value)
  {
    if items != [] {
      var rest := MapsIn(items[1..]);
      if items[0].Map? {
        var m := items[0].entries;
        assert MapsIn(items) == [m] + rest;
        assert ([m] + rest)[0] == m && ([m] + rest)[1..] == rest;
        if HasTagAttributes(m) {
          TagsErrorOfFirstIncomplete(items[1..]);
        }
      } else {
        assert MapsIn(items) == rest;
        TagsErrorOfFirstIncomplete(items[1..]);
      }
    }
  }

  /** Each tag carries the key and the value of the map element it comes from. */
  lemma {:induction false} TagsFromMaps(items: seq<Value>)
    requires TagsTyped(items) && ExpandTags(items).Ok?
    ensures var tags := ExpandTags(items).value;
      forall i :: 0 <= i < |tags| ==>
        tags[i] == Tag(StrAt(MapsIn(items)[i], TagKey), StrAt(MapsIn(items)[i], TagValue)) &&
        tags[i].key.Some? && tags[i].value.Some?
  {
    if items != [] {
      TagsFromMaps(items[1..]);
      if items[0].Map? {
        var tags := ExpandTags(items).value;
        assert tags[1..] == ExpandTags(items[1..]).value;
        assert MapsIn(items)[1..] == MapsIn(items[1..]);
      }
    }
  }

  // ---------------------------------------------------------------------------------------------
  // Signals

  /** A signal as `expandSignals` produces it: a non-empty upper-case name and a positive timeout, when set. */
  predicate NormalSignal(s: Signal) {
    (s.name.Some? ==> s.name.value != "" && IsUpperCase(s.name.value)) &&
    (s.timeout.Some? ==> s.timeout.value > 0)
  }

  /** One signal: the name upper-cased when non-empty, the timeout when positive. */
  function SignalOf(m: map<string, Value>): (s: Signal)
    ensures s.name.Some? <==> StrAt(m, SignalName).Some? && StrAt(m, SignalName).value != ""
    ensures s.name.Some? ==> s.name.value == ToUpper(StrAt(m, SignalName).value)
    ensures NormalSignal(s)
    ensures s.timeout.Some? <==> IntAt(m, SignalTimeout).Some? && IntAt(m, SignalTimeout).value > 0
    ensures s.timeout.Some? ==> s.timeout == IntAt(m, SignalTimeout)
  {
    var name := StrAt(m, SignalName);
    var timeout := IntAt(m, SignalTimeout);
    ToUpperIsUpperCase(StringValue(name));
    Signal(
      if name.Some? && name.value != "" then Some(ToUpper(name.value)) else None,
      if timeout.Some? && timeout.value > 0 then timeout else None)
  }

  /** `expandSignals`: every element must be a map; one signal per element, in order. */
  function ExpandSignals(items: seq<Value>): (r: seq<Signal>)
    requires forall i :: 0 <= i < |items| ==> items[i].Map?
    ensures |r| == |items|
    ensures forall i :: 0 <= i < |r| ==> r[i] == SignalOf(items[i].entries) && NormalSignal(r[i])
  {
    seq(|items|, i requires 0 <= i < |items| => SignalOf(items[i].entries))
  }

  /** The map the signals read callback means to build for one signal: lower-case name, timeout or 0. */
  function FlattenSignal(s: Signal): Value {
    Map(map[SignalName := Str(ToLower(StringValue(s.name))), SignalTimeout := Int(IntValue(s.timeout))])
  }

  /** The signals read callback as evidently intended: one map per signal of the group's strategy. */
  function FlattenSignals(signals: Option<seq<Signal>>): (r: seq<Value>)
    ensures |r| == |Elements(signals)|
    ensures forall i :: 0 <= i < |r| ==> r[i] == FlattenSignal(Elements(signals)[i])
  {
    var ss := Elements(signals);
    seq(|ss|, i requires 0 <= i < |ss| => FlattenSignal(ss[i]))
  }

  /**
   * The signals read callback as written: the maps are appended to a `signalsToAdd` declared with
   * `:=` inside the `if`, which shadows the outer one, so the outer, always empty slice is stored.
   */
  function ReadSignalsAsWritten(signals: Option<seq<Signal>>): (r: seq<Value>)
    ensures r == []
  {
    []
  }

  /** Whatever signals the group has, the read callback as written stores none. */
  lemma ReadSignalsDropsSignals(s: Signal)
    ensures ReadSignalsAsWritten(Some([s])) == []
    ensures |FlattenSignals(Some([s]))| == 1
  {
  }

  lemma {:induction false} ToUpperToLower(u: string)
    requires IsUpperCase(u)
    ensures ToUpper(ToLower(u)) == u
  {
    if u != [] {
      assert IsUpperCase(u[1..]) by {
        forall i | 0 <= i < |u[1..]| ensures !IsLowerAscii(u[1..][i]) {
          assert u[1..][i] == u[i + 1];
        }
      }
      ToUpperToLower(u[1..]);
      assert ToLower(u) == [LowerChar(u[0])] + ToLower(u[1..]);
      assert ToUpper(ToLower(u)) == [UpperChar(LowerChar(u[0]))] + ToUpper(ToLower(u[1..]));
    }
  }

  /** Expanding the intended flattening of a signal that expanding produced gives that signal back. */
  lemma SignalRoundTrip(s: Signal)
    requires NormalSignal(s)
    ensures SignalOf(FlattenSignal(s).entries) == s
  {
    if s.name.Some? {
      ToUpperToLower(s.name.value);
    }
  }

  lemma SignalsRoundTrip(items: seq<Value>)
    requires forall i :: 0 <= i < |items| ==> items[i].Map?
    ensures ExpandSignals(FlattenSignals(Some(ExpandSignals(items)))) == ExpandSignals(items)
  {
    var signals := ExpandSignals(items);
    var flat := FlattenSignals(Some(signals));
    assert forall i :: 0 <= i < |flat| ==> flat[i] == FlattenSignal(signals[i]);
    var back := ExpandSignals(flat);
    forall i | 0 <= i < |signals| ensures back[i] == signals[i] {
      assert back[i] == SignalOf(flat[i].entries);
      SignalRoundTrip(signals[i]);
    }
    assert back == signals;
  }

  // ---------------------------------------------------------------------------------------------
  // Revert to spot

  /** `expandAWSGroupRevertToSpot`: the list's first element must be a map. */
  function ExpandRevertToSpot(items: seq<Value>): (r: RevertToSpot)
    requires |items| > 0 && items[0].Map?
    ensures r.performAt == StrAt(items[0].entries, PerformAt)
    ensures var m := items[0].entries;
      r.timeWindows.Some? <==> TimeWindow in m && m[TimeWindow].List? && m[TimeWindow].items != []
    ensures r.timeWindows.Some? ==>
      forall w :: w in r.timeWindows.value <==> w != "" && Str(w) in items[0].entries[TimeWindow].items
    ensures r.timeWindows.Some? ==> r.timeWindows.value == ExpandSubnetIds(items[0].entries[TimeWindow].items)
  {
    var m := items[0].entries;
    RevertToSpot(
      StrAt(m, PerformAt),
      if TimeWindow in m && m[TimeWindow].List? && |m[TimeWindow].items| > 0
      then
        SubnetIdsMembers(m[TimeWindow].items);
        Some(ExpandSubnetIds(m[TimeWindow].items))  // the same non-empty-string filter
      else None)
  }

  /**
   * Configured time windows that are all non-empty come back as the same list: same order, same
   * duplicates.
   */
  lemma RevertToSpotKeepsWindows(items: seq<Value>, windows: seq<string>)
    requires |items| > 0 && items[0].Map?
    requires TimeWindow in items[0].entries && items[0].entries[TimeWindow] == List(StringList(windows))
    requires windows != [] && forall w :: w in windows ==> w != ""
    ensures ExpandRevertToSpot(items).timeWindows == Some(windows)
  {
    SubnetIdsOfNonEmptyStrings(windows);
  }

  // ---------------------------------------------------------------------------------------------
  // Multai target sets

  /** One multai target set: the upper-cased multai type and each id only when non-empty. */
  function MultaiBalancerOf(m: map<string, Value>): (b: LoadBalancer)
    ensures b.typ == Some(TypeName(MultaiTargetSet))
    ensures b.targetSetId == NonEmpty(StrAt(m, MultaiTargetSetId))
    ensures b.balancerId == NonEmpty(StrAt(m, MultaiBalancerId))
    ensures b.name.None? && b.arn.None?
  {
    LoadBalancer(Some(TypeName(MultaiTargetSet)), None, None,
      NonEmpty(StrAt(m, MultaiTargetSetId)), NonEmpty(StrAt(m, MultaiBalancerId)))
  }

  /** `expandAWSGroupMultaiTargetSets`: every element must be a map. */
  function ExpandMultaiTargetSets(items: seq<Value>): (r: seq<LoadBalancer>)
    requires forall i :: 0 <= i < |items| ==> items[i].Map?
    ensures |r| == |items|
    ensures forall i :: 0 <= i < |r| ==> r[i] == MultaiBalancerOf(items[i].entries)
  {
    seq(|items|, i requires 0 <= i < |items| => MultaiBalancerOf(items[i].entries))
  }

  function FlattenMultaiBalancer(b: LoadBalancer): Value {
    Map(map[MultaiTargetSetId := Str(StringValue(b.targetSetId)), MultaiBalancerId := Str(StringValue(b.balancerId))])
  }

  /** `flattenAWSGroupMultaiTargetSets`: the balancers whose type is exactly the multai constant, in order. */
  function FlattenMultaiTargetSets(bs: seq<LoadBalancer>): (r: seq<Value>)
    ensures |r| <= |bs|
    ensures forall v :: v in r <==> exists b :: b in bs && StringValue(b.typ) == TypeName(MultaiTargetSet) && v == FlattenMultaiBalancer(b)
  {
    if bs == [] then []
    else
      (if StringValue(bs[0].typ) == TypeName(MultaiTargetSet) then [FlattenMultaiBalancer(bs[0])] else []) +
      FlattenMultaiTargetSets(bs[1..])
  }

  /** Flattening a concatenation flattens each part: the multai balancers keep their order. */
  lemma {:induction false} FlattenMultaiAppend(a: seq<LoadBalancer>, b: seq<LoadBalancer>)
    ensures FlattenMultaiTargetSets(a + b) == FlattenMultaiTargetSets(a) + FlattenMultaiTargetSets(b)
  {
    if a != [] {
      assert (a + b)[0] == a[0] && (a + b)[1..] == a[1..] + b;
      FlattenMultaiAppend(a[1..], b);
      var head := if StringValue(a[0].typ) == TypeName(MultaiTargetSet) then [FlattenMultaiBalancer(a[0])] else [];
      assert head + (FlattenMultaiTargetSets(a[1..]) + FlattenMultaiTargetSets(b)) ==
        (head + FlattenMultaiTargetSets(a[1..])) + FlattenMultaiTargetSets(b);
    } else {
      assert a + b == b;
    }
  }

  /** One balancer flattens to one map when its type is exactly the multai constant, else to nothing. */
  lemma FlattenMultaiSingle(b: LoadBalancer)
    ensures StringValue(b.typ) == TypeName(MultaiTargetSet) ==> FlattenMultaiTargetSets([b]) == [FlattenMultaiBalancer(b)]
    ensures StringValue(b.typ) != TypeName(MultaiTargetSet) ==> FlattenMultaiTargetSets([b]) == []
  {
    assert [b][1..] == [];
  }

  /** A configured target set whose two ids are both given, as strings: the shape flatten produces. */
  predicate TargetSetEntry(v: Value) {
    v.Map? && v.entries.Keys == {MultaiTargetSetId, MultaiBalancerId} &&
    v.entries[MultaiTargetSetId].Str? && v.entries[MultaiBalancerId].Str?
  }

  lemma MultaiEntryRoundTrip(v: Value)
    requires TargetSetEntry(v)
    ensures FlattenMultaiBalancer(MultaiBalancerOf(v.entries)) == v
  {
    var m := v.entries;
    var b := MultaiBalancerOf(m);
    assert StringValue(b.targetSetId) == m[MultaiTargetSetId].s;
    assert StringValue(b.balancerId) == m[MultaiBalancerId].s;
    var f := FlattenMultaiBalancer(b).entries;
    assert f.Keys == m.Keys;
    assert forall k | k in m :: f[k] == m[k];
  }

  /** Flatten after expand returns the configured id pairs. */
  lemma {:induction false} MultaiRoundTrip(items: seq<Value>)
    requires forall i :: 0 <= i < |items| ==> items[i].Map? && TargetSetEntry(items[i])
    ensures FlattenMultaiTargetSets(ExpandMultaiTargetSets(items)) == items
  {
    if items != [] {
      MultaiEntryRoundTrip(items[0]);
      MultaiRoundTrip(items[1..]);
      assert ExpandMultaiTargetSets(items)[1..] == ExpandMultaiTargetSets(items[1..]);
      assert items == [items[0]] + items[1..];
    }
  }

  // ---------------------------------------------------------------------------------------------
  // Balancers

  /** The constructor `extractBalancers` passes for classic load balancer names. */
  function ClassicBalancer(name: string): (r: Result<LoadBalancer, Error>)
    ensures r.Ok? && r.value.typ == Some(TypeName(Classic)) && r.value.name == Some(name)
  {
    Ok(LoadBalancer(Some(TypeName(Classic)), Some(name), None, None, None))
  }

  /** The constructor for target group ARNs: it fails when no name can be extracted from the ARN. */
  function TargetGroupBalancer(arn: string): (r: Result<LoadBalancer, Error>)
    ensures r.Ok? <==> TargetGroupArn.ExtractTargetGroupFromArn(arn).Ok?
    ensures r.Ok? ==> r.value.typ == Some(TypeName(TargetGroup)) && r.value.arn == Some(arn) &&
                      r.value.name == Some(TargetGroupArn.ExtractTargetGroupFromArn(arn).value)
    ensures r.Err? ==> r.error == TargetGroupArn.NoNameError
  {
    match TargetGroupArn.ExtractTargetGroupFromArn(arn)
    case Err(e) => Err(e)
    case Ok(name) => Ok(LoadBalancer(Some(TypeName(TargetGroup)), Some(name), Some(arn), None, None))
  }

  /**
   * The loop of `expandBalancersContent` over the identifiers it keeps (the non-empty strings, the
   * filter of `ExpandSubnetIds`): one balancer per identifier, or the first constructor error.
   */
  function ConstructAll(ids: seq<string>, fn: string -> Result<LoadBalancer, Error>): (r: Result<seq<LoadBalancer>, Error>)
    ensures r.Ok? <==> forall i :: 0 <= i < |ids| ==> fn(ids[i]).Ok?
    ensures r.Ok? ==> |r.value| == |ids| && forall i :: 0 <= i < |ids| ==> fn(ids[i]) == Ok(r.value[i])
    ensures r.Err? ==> exists i :: 0 <= i < |ids| && fn(ids[i]) == Err(r.error) && forall j :: 0 <= j < i ==> fn(ids[j]).Ok?
  {
    if ids == [] then Ok([])
    else match fn(ids[0])
      case Err(e) => Err(e)
      case Ok(lb) =>
        match ConstructAll(ids[1..], fn)
        case Err(e) =>
          var rest := ids[1..];
          ghost var i :| 0 <= i < |rest| && fn(rest[i]) == Err(e) && forall j :: 0 <= j < i ==> fn(rest[j]).Ok?;
          assert ids[i + 1] == rest[i];
          assert forall j :: 0 <= j < i + 1 ==> fn(ids[j]).Ok? by {
            forall j | 0 <= j < i + 1 ensures fn(ids[j]).Ok? {
              if j > 0 { assert ids[j] == rest[j - 1]; }
            }
          }
          Err(e)
        case Ok(bs) => Ok([lb] + bs)
  }

  /** `expandBalancersContent`: nil identifiers give no balancers; otherwise they must be a list. */
  function ExpandBalancersContent(ids: Value, fn: string -> Result<LoadBalancer, Error>): (r: Result<Option<seq<LoadBalancer>>, Error>)
    requires ids.Nil? || ids.List?
    ensures r == Ok(None) <==> ids.Nil?
    ensures ids.List? ==> match ConstructAll(ExpandSubnetIds(ids.items), fn)
      case Ok(bs) => r == Ok(Some(bs))
      case Err(e) => r == Err(e)
  {
    if ids.Nil? then Ok(None)
    else match ConstructAll(ExpandSubnetIds(ids.items), fn)
      case Ok(bs) => Ok(Some(bs))
      case Err(e) => Err(e)
  }

  /** The configuration field that lists balancers of a kind. */
  function ConfigField(kind: BalancerKind): string {
    match kind
    case Classic => ElasticLoadBalancers
    case TargetGroup => TargetGroupArns
    case MultaiTargetSet => MultaiTargetSets
  }

  /** What `extractBalancers` asserts about the configuration of the kind it is asked for. */
  predicate ConfigShaped(kind: BalancerKind, d: Snapshot) {
    var f := ConfigField(kind);
    GetOk(d, f).Some? ==>
      if kind == MultaiTargetSet then d[f].Set? && forall i :: 0 <= i < |d[f].elems| ==> d[f].elems[i].Map?
      else d[f].List?
  }

  /** The balancers of `bs` whose type is exactly `kind`'s constant, in order. */
  function OfType(bs: seq<LoadBalancer>, kind: BalancerKind): (r: seq<LoadBalancer>)
    ensures |r| <= |bs|
  {
    if bs == [] then []
    else Kept(bs[0], kind) + OfType(bs[1..], kind)
  }

  /** The balancer alone when it has the type of `kind`, else nothing. */
  function Kept(b: LoadBalancer, kind: BalancerKind): seq<LoadBalancer> {
    if StringValue(b.typ) == TypeName(kind) then [b] else []
  }

  /** The balancers of `kind` that the configuration asks for. */
  function ConfigBalancers(kind: BalancerKind, d: Snapshot): (r: Result<seq<LoadBalancer>, Error>)
    requires ConfigShaped(kind, d)
    ensures r.Ok? ==> forall b :: b in r.value ==> b.typ == Some(TypeName(kind))
    ensures GetOk(d, ConfigField(kind)).None? ==> r == Ok([])
    ensures r.Err? ==> kind == TargetGroup && r.error == TargetGroupArn.NoNameError
  {
    match GetOk(d, ConfigField(kind))
    case None => Ok([])
    case Some(v) =>
      if kind == MultaiTargetSet then Ok(ExpandMultaiTargetSets(v.elems))
      else
        var fn := if kind == Classic then ClassicBalancer else TargetGroupBalancer;
        match ExpandBalancersContent(v, fn)
        case Err(e) => Err(e)
        case Ok(o) =>
          assert forall b :: b in Elements(o) ==> b.typ == Some(TypeName(kind)) by {
            forall b | b in Elements(o) ensures b.typ == Some(TypeName(kind)) {
              var ids := ExpandSubnetIds(v.items);
              var i :| 0 <= i < |Elements(o)| && Elements(o)[i] == b;
              assert fn(ids[i]) == Ok(b);
            }
          }
          Ok(Elements(o))
  }

  /**
   * `extractBalancers`: the configured balancers of `kind` followed by the existing balancers of that
   * kind; balancers of the other kinds never appear.
   */
  function ExtractBalancers(kind: BalancerKind, existing: Option<seq<LoadBalancer>>, d: Snapshot): (r: Result<seq<LoadBalancer>, Error>)
    requires ConfigShaped(kind, d)
    ensures r.Err? <==> ConfigBalancers(kind, d).Err?
    ensures r.Err? ==> r.error == ConfigBalancers(kind, d).error
    ensures r.Ok? ==> forall b :: b in r.value ==> b.typ == Some(TypeName(kind))
    ensures r.Ok? ==> r.value == ConfigBalancers(kind, d).value + OfType(Elements(existing), kind)
  {
    match ConfigBalancers(kind, d)
    case Err(e) => Err(e)
    case Ok(configured) =>
      OfTypeMembers(Elements(existing), kind);
      Ok(configured + OfType(Elements(existing), kind))
  }

  /** Distinct kinds have distinct type constants, so a balancer belongs to one kind at most. */
  lemma TypeNamesDistinct(k1: BalancerKind, k2: BalancerKind)
    requires k1 != k2
    ensures TypeName(k1) != TypeName(k2)
  {
    assert TypeName(k1)[0] != TypeName(k2)[0] || |TypeName(k1)| != |TypeName(k2)|;
  }

  /** Balancers of one kind hold none of another. */
  lemma OfOtherType(bs: seq<LoadBalancer>, k1: BalancerKind, k2: BalancerKind)
    requires k1 != k2
    requires forall b :: b in bs ==> b.typ == Some(TypeName(k1))
    ensures OfType(bs, k2) == []
  {
    TypeNamesDistinct(k1, k2);
  }

  /** `OfType` keeps exactly the balancers whose type is the kind's. */
  lemma {:induction false} OfTypeMembers(bs: seq<LoadBalancer>, kind: BalancerKind)
    ensures forall b :: b in OfType(bs, kind) <==> b in bs && b.typ == Some(TypeName(kind))
  {
    TypeNameIsUpperCase(kind);
    if bs != [] {
      OfTypeMembers(bs[1..], kind);
      assert OfType(bs, kind) == Kept(bs[0], kind) + OfType(bs[1..], kind);
      assert bs == [bs[0]] + bs[1..];
    }
  }

  /** Filtering a concatenation filters each part. */
  lemma {:induction false} OfTypeAppend(a: seq<LoadBalancer>, b: seq<LoadBalancer>, kind: BalancerKind)
    ensures OfType(a + b, kind) == OfType(a, kind) + OfType(b, kind)
  {
    if a != [] {
      assert (a + b)[0] == a[0] && (a + b)[1..] == a[1..] + b;
      assert OfType(a + b, kind) == Kept(a[0], kind) + OfType(a[1..] + b, kind);
      assert OfType(a, kind) == Kept(a[0], kind) + OfType(a[1..], kind);
      OfTypeAppend(a[1..], b, kind);
      assert Kept(a[0], kind) + (OfType(a[1..], kind) + OfType(b, kind))
          == (Kept(a[0], kind) + OfType(a[1..], kind)) + OfType(b, kind);
    } else {
      assert a + b == b;
    }
  }

  // ---------------------------------------------------------------------------------------------
  // Balancer read callbacks

  /** The name of a balancer whose upper-cased type is the classic constant, else nothing. */
  function ClassicNameIn(b: LoadBalancer): seq<string> {
    if ToUpper(StringValue(b.typ)) == TypeName(Classic) then [StringValue(b.name)] else []
  }

  /** What the elastic_load_balancers read callback reports: the classic balancers' names, in order. */
  function ClassicNames(bs: seq<LoadBalancer>): (r: seq<string>)
    ensures |r| <= |bs|
  {
    if bs == [] then [] else ClassicNameIn(bs[0]) + ClassicNames(bs[1..])
  }

  /** The ARN of a balancer whose type is exactly the target-group constant, else nothing. */
  function TargetGroupArnIn(b: LoadBalancer): seq<string> {
    if StringValue(b.typ) == TypeName(TargetGroup) then [StringValue(b.arn)] else []
  }

  /** What the target_group_arns read callback reports: the target groups' ARNs, in order. */
  function TargetGroupArnsOf(bs: seq<LoadBalancer>): (r: seq<string>)
    ensures |r| <= |bs|
  {
    if bs == [] then [] else TargetGroupArnIn(bs[0]) + TargetGroupArnsOf(bs[1..])
  }

  /** A name is reported exactly when it is the name of some balancer whose upper-cased type is classic. */
  lemma {:induction false} ClassicNamesMembers(bs: seq<LoadBalancer>)
    ensures forall n :: n in ClassicNames(bs) <==> exists i :: 0 <= i < |bs| && n in ClassicNameIn(bs[i])
  {
    if bs != [] {
      ClassicNamesMembers(bs[1..]);
      forall n | n in ClassicNames(bs)
        ensures exists i :: 0 <= i < |bs| && n in ClassicNameIn(bs[i])
      {
        if n !in ClassicNameIn(bs[0]) {
          assert ClassicNames(bs) == ClassicNameIn(bs[0]) + ClassicNames(bs[1..]);
          assert n in ClassicNames(bs[1..]);
          var i :| 0 <= i < |bs[1..]| && n in ClassicNameIn(bs[1..][i]);
          assert bs[1..][i] == bs[i + 1];
        }
      }
      forall n, i | 0 <= i < |bs| && n in ClassicNameIn(bs[i])
        ensures n in ClassicNames(bs)
      {
        if i > 0 {
          assert bs[i] == bs[1..][i - 1];
        }
      }
    }
  }

  /** An ARN is reported exactly when it is the ARN of some balancer whose type is the target-group one. */
  lemma {:induction false} TargetGroupArnsMembers(bs: seq<LoadBalancer>)
    ensures forall a :: a in TargetGroupArnsOf(bs) <==> exists i :: 0 <= i < |bs| && a in TargetGroupArnIn(bs[i])
  {
    if bs != [] {
      TargetGroupArnsMembers(bs[1..]);
      forall a | a in TargetGroupArnsOf(bs)
        ensures exists i :: 0 <= i < |bs| && a in TargetGroupArnIn(bs[i])
      {
        if a !in TargetGroupArnIn(bs[0]) {
          assert TargetGroupArnsOf(bs) == TargetGroupArnIn(bs[0]) + TargetGroupArnsOf(bs[1..]);
          assert a in TargetGroupArnsOf(bs[1..]);
          var i :| 0 <= i < |bs[1..]| && a in TargetGroupArnIn(bs[1..][i]);
          assert bs[1..][i] == bs[i + 1];
        }
      }
      forall a, i | 0 <= i < |bs| && a in TargetGroupArnIn(bs[i])
        ensures a in TargetGroupArnsOf(bs)
      {
        if i > 0 {
          assert bs[i] == bs[1..][i - 1];
        }
      }
    }
  }

  /** Reading back the classic balancers built from some names reports exactly those names. */
  lemma {:induction false} ClassicNamesRoundTrip(names: seq<string>)
    ensures ConstructAll(names, ClassicBalancer).Ok?
    ensures ClassicNames(ConstructAll(names, ClassicBalancer).value) == names
  {
    if names != [] {
      ClassicNamesRoundTrip(names[1..]);
      TypeNameIsUpperCase(Classic);
      var bs := ConstructAll(names, ClassicBalancer).value;
      assert bs[1..] == ConstructAll(names[1..], ClassicBalancer).value;
      assert ClassicNameIn(bs[0]) == [names[0]];
    }
  }

  /** Reading back the target groups built from some ARNs reports exactly those ARNs. */
  lemma {:induction false} TargetGroupArnsRoundTrip(arns: seq<string>)
    requires ConstructAll(arns, TargetGroupBalancer).Ok?
    ensures TargetGroupArnsOf(ConstructAll(arns, TargetGroupBalancer).value) == arns
  {
    if arns != [] {
      var rest := ConstructAll(arns[1..], TargetGroupBalancer);
      var b := TargetGroupBalancer(arns[0]);
      assert b.Ok? && rest.Ok?;
      TargetGroupArnsRoundTrip(arns[1..]);
      assert ConstructAll(arns, TargetGroupBalancer).value == [b.value] + rest.value;
      assert TargetGroupArnIn(b.value) == [arns[0]];
    }
  }

  /** The classic balancers configured reach the read callback as the configured non-empty names. */
  lemma ClassicConfigReadsBack(d: Snapshot)
    requires ConfigShaped(Classic, d) && GetOk(d, ElasticLoadBalancers).Some?
    ensures ClassicNames(ConfigBalancers(Classic, d).value) == ExpandSubnetIds(d[ElasticLoadBalancers].items)
  {
    ClassicNamesRoundTrip(ExpandSubnetIds(d[ElasticLoadBalancers].items));
  }

  /** The target groups configured, when every ARN names one, reach the read callback as the configured non-empty ARNs. */
  lemma TargetGroupConfigReadsBack(d: Snapshot)
    requires ConfigShaped(TargetGroup, d) && GetOk(d, TargetGroupArns).Some? && ConfigBalancers(TargetGroup, d).Ok?
    ensures TargetGroupArnsOf(ConfigBalancers(TargetGroup, d).value) == ExpandSubnetIds(d[TargetGroupArns].items)
  {
    TargetGroupArnsRoundTrip(ExpandSubnetIds(d[TargetGroupArns].items));
  }

  /**
   * The classic read compares the upper-cased type and the update's partition compares it exactly,
   * so a balancer typed in lower case is reported as classic yet never kept by `extractBalancers`.
   */
  lemma LowerCaseClassicReadButNotKept(b: LoadBalancer)
    requires b.typ == Some(ToLower(TypeName(Classic)))
    ensures ClassicNames([b]) == [StringValue(b.name)]
    ensures OfType([b], Classic) == []
  {
    ToUpperIsUpperCase(TypeName(Classic));
    TypeNameIsUpperCase(Classic);
    ToUpperToLower(TypeName(Classic));
    assert ToLower(TypeName(Classic))[0] == 'c';
  }
}
