/**
 * The generic dispatch of the Ocean AKS resource: `OnCreate`, `OnRead` and `OnUpdate` walk the
 * resource's registry of field descriptors and invoke each field's callback on one shared cluster
 * wrapper, stopping at the first error.
 *
 * A Go map is ranged over in no fixed order; each entry point therefore takes the order as a
 * parameter, any arrangement of the registry's keys (`IsOrderOf`). The callbacks are opaque state
 * transformers: a create or update callback reads the configuration and turns the wrapped cluster
 * into a new one, a read callback reads the cluster and the configuration and may change both (it
 * is handed the same wrapper as every other read callback), and any callback may fail. The names an entry point logs before invoking a callback are returned as its trace.
 */
module OceanAks {
  import opened Common
  import opened Terraform

  type FieldName = string

  datatype Login = Login(userName: Option<string>, sshPublicKey: Option<string>)
  datatype LaunchSpecification = LaunchSpecification(login: Option<Login>)
  datatype VirtualNodeGroupTemplate = VirtualNodeGroupTemplate(launchSpecification: Option<LaunchSpecification>)

  /** `azure.Cluster`: the part of the launch template the wrapper pre-allocates, and every other attribute by name. */
  datatype Cluster = Cluster(
    virtualNodeGroupTemplate: Option<VirtualNodeGroupTemplate>,
    attributes: map<string, Value>)

  /** A callback's effect: the new state, and the error it returned, if any. */
  datatype Step<S> = Step(state: S, err: Option<Error>)

  /** What a read callback can change: the shared wrapper's cluster and the resource data. */
  datatype ReadState = ReadState(cluster: Option<Cluster>, values: Snapshot)

  /** A `GenericField` as the dispatch sees it: three optional callbacks and the change test. */
  datatype GenericField = GenericField(
    onRead: Option<(Option<Cluster>, Snapshot) -> Step<ReadState>>,
    onCreate: Option<(Option<Cluster>, Snapshot) -> Step<Option<Cluster>>>,
    onUpdate: Option<(Option<Cluster>, Snapshot) -> Step<Option<Cluster>>>,
    hasFieldChange: Snapshot -> bool)

  const CannotCreate := Message("resource fields are nil or empty, cannot create")
  const CannotRead := Message("resource fields are nil or empty, cannot read")
  const CannotUpdate := Message("resource fields are nil or empty, cannot update")

  /** The cluster `NewAKSClusterWrapper` allocates: only the template, its launch specification and an empty login. */
  function Skeleton(): (c: Cluster)
    ensures c.virtualNodeGroupTemplate.Some? && c.virtualNodeGroupTemplate.value.launchSpecification.Some?
    ensures c.virtualNodeGroupTemplate.value.launchSpecification.value.login == Some(Login(None, None))
    ensures c.attributes == map[]
  {
    Cluster(Some(VirtualNodeGroupTemplate(Some(LaunchSpecification(Some(Login(None, None)))))), map[])
  }

  /** `AKSClusterWrapper`: the one cluster every callback of a dispatch works on. */
  class AKSClusterWrapper {
    var cluster: Option<Cluster>

    /** `NewAKSClusterWrapper`. */
    constructor ()
      ensures cluster == Some(Skeleton())
    {
      cluster := Some(Skeleton());
    }

    method GetCluster() returns (c: Option<Cluster>)
      ensures c == cluster
    {
      c := cluster;
    }

    method SetCluster(c: Option<Cluster>)
      modifies this
      ensures cluster == c
    {
      cluster := c;
    }
  }

  /** `order` visits every key of the registry exactly once. */
  ghost predicate IsOrderOf(order: seq<FieldName>, fieldsMap: map<FieldName, GenericField>) {
    (forall i :: 0 <= i < |order| ==> order[i] in fieldsMap) &&
    (forall k :: k in fieldsMap ==> k in order) &&
    Distinct(order)
  }

  /** What a walk over the fields ends with: the state, the error that stopped it, the fields invoked. */
  datatype Run<S> = Run(state: S, err: Option<Error>, invoked: seq<FieldName>)

  /**
   * The loop shared by the three entry points, from index `i` of `order` on, with `logged` the fields
   * invoked so far: a field that `pick` gives a callback is logged and invoked on the current state,
   * and the first error ends the walk.
   */
  function RunFrom<S>(order: seq<FieldName>, i: nat, pick: FieldName -> Option<S -> Step<S>>, s: S, logged: seq<FieldName>): (r: Run<S>)
    requires i <= |order|
    // the fields already logged stay first in the log
    ensures |logged| <= |r.invoked| && r.invoked[..|logged|] == logged
    // every field logged by the walk is one of the remaining fields and has a callback
    ensures forall j :: |logged| <= j < |r.invoked| ==> r.invoked[j] in order[i..] && pick(r.invoked[j]).Some?
    // an error comes from a callback, whose field was logged before it ran
    ensures r.err.Some? ==> |r.invoked| > |logged|
    decreases |order| - i
  {
    if i == |order| then Run(s, None, logged)
    else match pick(order[i])
      case None => RunFrom(order, i + 1, pick, s, logged)
      case Some(cb) =>
        var st := cb(s);
        if st.err.Some? then Run(st.state, st.err, logged + [order[i]])
        else RunFrom(order, i + 1, pick, st.state, logged + [order[i]])
  }

  /** A whole walk over `order`, starting from state `s`. */
  function RunFields<S>(order: seq<FieldName>, pick: FieldName -> Option<S -> Step<S>>, s: S): (r: Run<S>)
    ensures forall k :: k in r.invoked ==> k in order && pick(k).Some?
    ensures r.err.Some? ==> r.invoked != []
  {
    assert order[0..] == order;
    RunFrom(order, 0, pick, s, [])
  }

  /** The fields of `order[lo..hi]` that `pick` gives a callback, in order. */
  function Picked<S>(order: seq<FieldName>, lo: nat, hi: nat, pick: FieldName -> Option<S -> Step<S>>): seq<FieldName>
    requires lo <= hi <= |order|
    decreases hi - lo
  {
    if lo == hi then []
    else (if pick(order[lo]).Some? then [order[lo]] else []) + Picked(order, lo + 1, hi, pick)
  }

  /** `Picked` keeps exactly the fields of the range that have a callback. */
  lemma {:induction false} PickedMembers<S>(order: seq<FieldName>, lo: nat, hi: nat, pick: FieldName -> Option<S -> Step<S>>)
    requires lo <= hi <= |order|
    ensures forall k :: k in Picked(order, lo, hi, pick) <==> k in order[lo..hi] && pick(k).Some?
    decreases hi - lo
  {
    if lo < hi {
      PickedMembers(order, lo + 1, hi, pick);
      assert order[lo..hi] == [order[lo]] + order[lo + 1..hi];
    }
  }

  predicate Distinct(s: seq<FieldName>) {
    forall i, j :: 0 <= i < j < |s| ==> s[i] != s[j]
  }

  lemma {:induction false} PickedDistinct<S>(order: seq<FieldName>, lo: nat, hi: nat, pick: FieldName -> Option<S -> Step<S>>)
    requires lo <= hi <= |order| && Distinct(order)
    ensures Distinct(Picked(order, lo, hi, pick))
    decreases hi - lo
  {
    if lo < hi {
      PickedDistinct(order, lo + 1, hi, pick);
      PickedMembers(order, lo + 1, hi, pick);
    }
  }

  /** A field without a callback is passed over. */
  lemma SkipStep<S>(order: seq<FieldName>, i: nat, pick: FieldName -> Option<S -> Step<S>>, s: S, logged: seq<FieldName>)
    requires i < |order| && pick(order[i]).None?
    ensures RunFrom(order, i, pick, s, logged) == RunFrom(order, i + 1, pick, s, logged)
    ensures Picked(order, i, |order|, pick) == Picked(order, i + 1, |order|, pick)
  {
  }

  /** A field whose callback succeeds is logged, and the walk goes on from the callback's state. */
  lemma InvokeStep<S>(order: seq<FieldName>, i: nat, pick: FieldName -> Option<S -> Step<S>>, s: S, logged: seq<FieldName>)
    requires i < |order| && pick(order[i]).Some? && pick(order[i]).value(s).err.None?
    ensures RunFrom(order, i, pick, s, logged) == RunFrom(order, i + 1, pick, pick(order[i]).value(s).state, logged + [order[i]])
    ensures Picked(order, i, |order|, pick) == [order[i]] + Picked(order, i + 1, |order|, pick)
  {
  }

  /** A walk that ends without error has invoked exactly the remaining fields with a callback, in order. */
  lemma {:induction false} CompleteRunInvokesAll<S>(order: seq<FieldName>, i: nat, pick: FieldName -> Option<S -> Step<S>>, s: S, logged: seq<FieldName>)
    requires i <= |order| && RunFrom(order, i, pick, s, logged).err.None?
    ensures RunFrom(order, i, pick, s, logged).invoked == logged + Picked(order, i, |order|, pick)
    decreases |order| - i
  {
    if i < |order| {
      match pick(order[i])
      case None =>
        SkipStep(order, i, pick, s, logged);
        CompleteRunInvokesAll(order, i + 1, pick, s, logged);
      case Some(cb) =>
        InvokeStep(order, i, pick, s, logged);
        CompleteRunInvokesAll(order, i + 1, pick, cb(s).state, logged + [order[i]]);
        assert (logged + [order[i]]) + Picked(order, i + 1, |order|, pick)
            == logged + ([order[i]] + Picked(order, i + 1, |order|, pick));
    } else {
      assert logged + [] == logged;
    }
  }

  /** The index of the field whose callback fails first, from `i` on, or `|order|` when none fails. */
  function FailingField<S>(order: seq<FieldName>, i: nat, pick: FieldName -> Option<S -> Step<S>>, s: S): nat
    requires i <= |order|
    decreases |order| - i
  {
    if i == |order| then |order|
    else match pick(order[i])
      case None => FailingField(order, i + 1, pick, s)
      case Some(cb) => if cb(s).err.Some? then i else FailingField(order, i + 1, pick, cb(s).state)
  }

  /**
   * A walk fails exactly when some callback fails, and it stops at the first one: it has invoked the
   * fields with a callback up to and including that one, and no field after it.
   */
  lemma {:induction false} FailedRunStopsAtError<S>(order: seq<FieldName>, i: nat, pick: FieldName -> Option<S -> Step<S>>, s: S, logged: seq<FieldName>)
    requires i <= |order|
    ensures var j := FailingField(order, i, pick, s);
      i <= j <= |order| &&
      (RunFrom(order, i, pick, s, logged).err.Some? <==> j < |order|) &&
      (j < |order| ==> pick(order[j]).Some? && RunFrom(order, i, pick, s, logged).invoked == logged + Picked(order, i, j + 1, pick))
    decreases |order| - i
  {
    if i < |order| {
      match pick(order[i])
      case None =>
        FailedRunStopsAtError(order, i + 1, pick, s, logged);
      case Some(cb) =>
        var st := cb(s);
        if st.err.Some? {
          assert Picked(order, i, i + 1, pick) == [order[i]];
        } else {
          FailedRunStopsAtError(order, i + 1, pick, st.state, logged + [order[i]]);
          var j := FailingField(order, i + 1, pick, st.state);
          if j < |order| {
            assert (logged + [order[i]]) + Picked(order, i + 1, j + 1, pick) ==
              logged + ([order[i]] + Picked(order, i + 1, j + 1, pick));
          }
        }
    }
  }

  /** The create callbacks of a registry. */
  function CreatePick(fieldsMap: map<FieldName, GenericField>, d: Snapshot): FieldName -> Option<Option<Cluster> -> Step<Option<Cluster>>> {
    k => if k in fieldsMap && fieldsMap[k].onCreate.Some? then Some(c => fieldsMap[k].onCreate.value(c, d)) else None
  }

  /** The update callbacks of the fields whose change predicate holds. */
  function UpdatePick(fieldsMap: map<FieldName, GenericField>, d: Snapshot): FieldName -> Option<Option<Cluster> -> Step<Option<Cluster>>> {
    k => if k in fieldsMap && fieldsMap[k].onUpdate.Some? && fieldsMap[k].hasFieldChange(d)
         then Some(c => fieldsMap[k].onUpdate.value(c, d)) else None
  }

  /** The read callbacks, each handed the shared wrapper's cluster as the callbacks before it left it. */
  function ReadPick(fieldsMap: map<FieldName, GenericField>): FieldName -> Option<ReadState -> Step<ReadState>> {
    k => if k in fieldsMap && fieldsMap[k].onRead.Some? then Some((s: ReadState) => fieldsMap[k].onRead.value(s.cluster, s.values)) else None
  }

  /** The cluster `OnCreate` starts from: the imported one, or the wrapper's skeleton. */
  function StartCluster(importedCluster: Option<Cluster>): (c: Option<Cluster>)
    ensures importedCluster.Some? ==> c == importedCluster
    ensures importedCluster.None? ==> c == Some(Skeleton())
  {
    if importedCluster.Some? then importedCluster else Some(Skeleton())
  }

  /** `OceanAKSTerraformResource`; `fieldsMap` is `None` when the resource's fields or their map are nil. */
  class OceanAKSResource {
    const fieldsMap: Option<map<FieldName, GenericField>>

    /** `NewOceanAKSResource`. */
    constructor (fieldsMap: map<FieldName, GenericField>)
      ensures this.fieldsMap == Some(fieldsMap)
    {
      this.fieldsMap := Some(fieldsMap);
    }

    predicate HasFields() {
      fieldsMap.Some? && |fieldsMap.value| > 0
    }

    method OnCreate(importedCluster: Option<Cluster>, d: Snapshot, order: seq<FieldName>)
      returns (cluster: Option<Cluster>, err: Option<Error>, logged: seq<FieldName>)
      requires fieldsMap.Some? ==> IsOrderOf(order, fieldsMap.value)
      ensures !HasFields() ==> cluster.None? && err == Some(CannotCreate) && logged == []
      ensures HasFields() ==>
        var run := RunFields(order, CreatePick(fieldsMap.value, d), StartCluster(importedCluster));
        logged == run.invoked && err == run.err && cluster == (if run.err.Some? then None else run.state)
    {
      if fieldsMap.None? || |fieldsMap.value| == 0 {
        return None, Some(CannotCreate), [];
      }
      var fields := fieldsMap.value;
      var wrapper := new AKSClusterWrapper();
      if importedCluster.Some? {
        wrapper.SetCluster(importedCluster);
      }
      ghost var pick := CreatePick(fields, d);
      assert wrapper.cluster == StartCluster(importedCluster);
      ghost var whole := RunFields(order, pick, wrapper.cluster);
      logged := [];
      var i := 0;
      while i < |order|
        invariant 0 <= i <= |order|
        invariant RunFrom(order, i, pick, wrapper.cluster, logged) == whole
      {
        var field := fields[order[i]];
        if field.onCreate.Some? {
          var st := field.onCreate.value(wrapper.cluster, d);
          assert pick(order[i]).value(wrapper.cluster) == st;
          logged := logged + [order[i]];
          if st.err.Some? {
            return None, st.err, logged;
          }
          wrapper.SetCluster(st.state);
        }
        i := i + 1;
      }
      cluster := wrapper.GetCluster();
      err := None;
    }

    method OnRead(cluster: Option<Cluster>, rd: ResourceData, order: seq<FieldName>)
      returns (err: Option<Error>, logged: seq<FieldName>)
      requires fieldsMap.Some? ==> IsOrderOf(order, fieldsMap.value)
      modifies rd`values
      ensures !HasFields() ==> err == Some(CannotRead) && logged == [] && rd.values == old(rd.values)
      ensures HasFields() ==>
        var run := RunFields(order, ReadPick(fieldsMap.value), ReadState(cluster, old(rd.values)));
        logged == run.invoked && err == run.err && rd.values == run.state.values
    {
      if fieldsMap.None? || |fieldsMap.value| == 0 {
        return Some(CannotRead), [];
      }
      var fields := fieldsMap.value;
      var wrapper := new AKSClusterWrapper();
      wrapper.SetCluster(cluster);
      ghost var pick := ReadPick(fields);
      ghost var whole := RunFields(order, pick, ReadState(wrapper.cluster, rd.values));
      logged := [];
      var i := 0;
      while i < |order|
        invariant 0 <= i <= |order|
        invariant RunFrom(order, i, pick, ReadState(wrapper.cluster, rd.values), logged) == whole
      {
        var field := fields[order[i]];
        if field.onRead.Some? {
          var st := field.onRead.value(wrapper.cluster, rd.values);
          assert pick(order[i]).value(ReadState(wrapper.cluster, rd.values)) == st;
          logged := logged + [order[i]];
          wrapper.SetCluster(st.state.cluster);
          rd.values := st.state.values;
          if st.err.Some? {
            return st.err, logged;
          }
        }
        i := i + 1;
      }
      err := None;
    }

    method OnUpdate(d: Snapshot, order: seq<FieldName>)
      returns (hasChanged: bool, cluster: Option<Cluster>, err: Option<Error>, logged: seq<FieldName>)
      requires fieldsMap.Some? ==> IsOrderOf(order, fieldsMap.value)
      ensures !HasFields() ==> !hasChanged && cluster.None? && err == Some(CannotUpdate) && logged == []
      ensures HasFields() ==>
        var run := RunFields(order, UpdatePick(fieldsMap.value, d), Some(Skeleton()));
        logged == run.invoked && err == run.err &&
        hasChanged == (run.err.None? && run.invoked != []) &&
        cluster == (if run.err.Some? then None else run.state)
    {
      if fieldsMap.None? || |fieldsMap.value| == 0 {
        return false, None, Some(CannotUpdate), [];
      }
      var fields := fieldsMap.value;
      var wrapper := new AKSClusterWrapper();
      ghost var pick := UpdatePick(fields, d);
      ghost var whole := RunFields(order, pick, Some(Skeleton()));
      hasChanged := false;
      logged := [];
      var i := 0;
      while i < |order|
        invariant 0 <= i <= |order|
        invariant hasChanged == (logged != [])
        invariant RunFrom(order, i, pick, wrapper.cluster, logged) == whole
      {
        var field := fields[order[i]];
        if field.onUpdate.Some? && field.hasFieldChange(d) {
          var st := field.onUpdate.value(wrapper.cluster, d);
          assert pick(order[i]).value(wrapper.cluster) == st;
          logged := logged + [order[i]];
          if st.err.Some? {
            return false, None, st.err, logged;
          }
          wrapper.SetCluster(st.state);
          hasChanged := true;
        }
        i := i + 1;
      }
      cluster := wrapper.GetCluster();
      err := None;
    }
  }

  /** Without an error, `OnCreate` has invoked every field with a create callback exactly once, and no other. */
  lemma CreateInvokesEveryCallbackOnce(fieldsMap: map<FieldName, GenericField>, order: seq<FieldName>, c: Option<Cluster>, d: Snapshot)
    requires IsOrderOf(order, fieldsMap)
    requires RunFields(order, CreatePick(fieldsMap, d), c).err.None?
    ensures var invoked := RunFields(order, CreatePick(fieldsMap, d), c).invoked;
      Distinct(invoked) && forall k :: k in invoked <==> k in fieldsMap && fieldsMap[k].onCreate.Some?
  {
    CompleteRunInvokesAll(order, 0, CreatePick(fieldsMap, d), c, []);
    PickedDistinct(order, 0, |order|, CreatePick(fieldsMap, d));
    PickedMembers(order, 0, |order|, CreatePick(fieldsMap, d));
    assert order[0..|order|] == order;
    assert [] + Picked(order, 0, |order|, CreatePick(fieldsMap, d)) == Picked(order, 0, |order|, CreatePick(fieldsMap, d));
  }

  /** The fields `OnUpdate` invokes are those with an update callback whose change predicate holds, each once. */
  lemma UpdateInvokesChangedFields(fieldsMap: map<FieldName, GenericField>, order: seq<FieldName>, d: Snapshot)
    requires IsOrderOf(order, fieldsMap)
    requires RunFields(order, UpdatePick(fieldsMap, d), Some(Skeleton())).err.None?
    ensures var invoked := RunFields(order, UpdatePick(fieldsMap, d), Some(Skeleton())).invoked;
      Distinct(invoked) &&
      forall k :: k in invoked <==> k in fieldsMap && fieldsMap[k].onUpdate.Some? && fieldsMap[k].hasFieldChange(d)
  {
    CompleteRunInvokesAll(order, 0, UpdatePick(fieldsMap, d), Some(Skeleton()), []);
    PickedDistinct(order, 0, |order|, UpdatePick(fieldsMap, d));
    PickedMembers(order, 0, |order|, UpdatePick(fieldsMap, d));
    assert order[0..|order|] == order;
    assert [] + Picked(order, 0, |order|, UpdatePick(fieldsMap, d)) == Picked(order, 0, |order|, UpdatePick(fieldsMap, d));
  }

  /** Without an error, `OnRead` has invoked every field with a read callback exactly once, and no other. */
  lemma ReadInvokesEveryCallbackOnce(fieldsMap: map<FieldName, GenericField>, order: seq<FieldName>, c: Option<Cluster>, d: Snapshot)
    requires IsOrderOf(order, fieldsMap)
    requires RunFields(order, ReadPick(fieldsMap), ReadState(c, d)).err.None?
    ensures var invoked := RunFields(order, ReadPick(fieldsMap), ReadState(c, d)).invoked;
      Distinct(invoked) && forall k :: k in invoked <==> k in fieldsMap && fieldsMap[k].onRead.Some?
  {
    CompleteRunInvokesAll(order, 0, ReadPick(fieldsMap), ReadState(c, d), []);
    PickedDistinct(order, 0, |order|, ReadPick(fieldsMap));
    PickedMembers(order, 0, |order|, ReadPick(fieldsMap));
    assert order[0..|order|] == order;
    assert [] + Picked(order, 0, |order|, ReadPick(fieldsMap)) == Picked(order, 0, |order|, ReadPick(fieldsMap));
  }

  /** Some field has an update callback and a change. */
  ghost predicate AnyChanged(fieldsMap: map<FieldName, GenericField>, d: Snapshot) {
    exists k :: k in fieldsMap && fieldsMap[k].onUpdate.Some? && fieldsMap[k].hasFieldChange(d)
  }

  /**
   * `OnUpdate` reports a change exactly when some field has an update callback and a change, in
   * whatever order the registry is walked.
   */
  lemma UpdateReportsAnyChange(fieldsMap: map<FieldName, GenericField>, order: seq<FieldName>, d: Snapshot)
    requires IsOrderOf(order, fieldsMap)
    requires RunFields(order, UpdatePick(fieldsMap, d), Some(Skeleton())).err.None?
    ensures RunFields(order, UpdatePick(fieldsMap, d), Some(Skeleton())).invoked != [] <==> AnyChanged(fieldsMap, d)
  {
    var invoked := RunFields(order, UpdatePick(fieldsMap, d), Some(Skeleton())).invoked;
    UpdateInvokesChangedFields(fieldsMap, order, d);
    if AnyChanged(fieldsMap, d) {
      var k :| k in fieldsMap && fieldsMap[k].onUpdate.Some? && fieldsMap[k].hasFieldChange(d);
      assert k in invoked;
    }
    if invoked != [] {
      var k := invoked[0];
      assert k in invoked;
    }
  }

  /**
   * The first error ends a create walk: the failing field is the last one invoked, after the fields
   * with a create callback that precede it, and no field after it runs.
   */
  lemma CreateStopsAtFirstError(fieldsMap: map<FieldName, GenericField>, order: seq<FieldName>, c: Option<Cluster>, d: Snapshot)
    requires RunFields(order, CreatePick(fieldsMap, d), c).err.Some?
    ensures var j := FailingField(order, 0, CreatePick(fieldsMap, d), c);
      j < |order| && order[j] in fieldsMap && fieldsMap[order[j]].onCreate.Some? &&
      RunFields(order, CreatePick(fieldsMap, d), c).invoked == Picked(order, 0, j + 1, CreatePick(fieldsMap, d))
  {
    var pick := CreatePick(fieldsMap, d);
    FailedRunStopsAtError(order, 0, pick, c, []);
    var j := FailingField(order, 0, pick, c);
    assert [] + Picked(order, 0, j + 1, pick) == Picked(order, 0, j + 1, pick);
  }
}
