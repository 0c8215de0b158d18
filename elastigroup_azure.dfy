/**
 * The identity and capacity fields of an Azure elastigroup: each field's read, create and update
 * callbacks over the wrapped group.
 *
 * `AzureGroup` holds the parts of the SDK's Azure group these callbacks touch. `capacity` and
 * `compute` are pointers the reads test for nil; the create and update callbacks dereference them
 * without a test, so those callbacks require them to be allocated whenever they write through them.
 */
module ElastigroupAzure {
  import opened Common
  import opened Terraform
  import ElastigroupAwsGroup

  const Name := "name"
  const Region := "region"
  const ResourceGroupName := "resource_group_name"
  const MinSize := "min_size"
  const MaxSize := "max_size"
  const DesiredCapacity := "desired_capacity"
  const OS := "os"

  datatype Capacity = Capacity(minimum: Option<int>, maximum: Option<int>, target: Option<int>)

  datatype Compute = Compute(os: Option<string>)

  /** `resourceData.Get(key).(int)` that is `ok` and at least 0: the guard of every capacity write. */
  function NonNegative(d: Snapshot, key: string): (r: Option<int>)
    ensures r.Some? <==> GetInt(d, key).Some? && GetInt(d, key).value >= 0
    ensures r.Some? ==> r == GetInt(d, key)
  {
    ElastigroupAwsGroup.NonNegativeInt(d, key)
  }

  /** A capacity sub-field as its read reports it: 0 when the capacity or the sub-field is nil. */
  function Reported(c: Option<Capacity>, field: Capacity -> Option<int>): (i: int)
    ensures c.None? ==> i == 0
    ensures c.Some? && field(c.value).None? ==> i == 0
    ensures c.Some? && field(c.value).Some? ==> i == field(c.value).value
  {
    if c.Some? then IntValue(field(c.value)) else 0
  }

  function Minimum(c: Capacity): Option<int> { c.minimum }
  function Maximum(c: Capacity): Option<int> { c.maximum }
  function Target(c: Capacity): Option<int> { c.target }

  /** `c` with its target replaced: `Capacity.SetTarget` on an allocated capacity. */
  function WithTarget(c: Option<Capacity>, t: int): (r: Option<Capacity>)
    requires c.Some?
    ensures r.Some? && r.value.target == Some(t)
    ensures r.value.minimum == c.value.minimum && r.value.maximum == c.value.maximum
  {
    Some(c.value.(target := Some(t)))
  }

  class AzureGroup {
    var name: Option<string>
    var region: Option<string>
    var resourceGroupName: Option<string>
    var capacity: Option<Capacity>
    var compute: Option<Compute>

    constructor (capacity: Option<Capacity>, compute: Option<Compute>)
      ensures name.None? && region.None? && resourceGroupName.None?
      ensures this.capacity == capacity && this.compute == compute
    {
      name, region, resourceGroupName := None, None, None;
      this.capacity, this.compute := capacity, compute;
    }

    // --- name -----------------------------------------------------------------------------------

    method ReadName(rd: ResourceData)
      modifies rd`values
      ensures rd.values == PutString(old(rd.values), Name, name)
    {
      rd.values := PutString(rd.values, Name, name);
    }

    /** The name create and update callbacks (they are the same): the configured name, "" included, is always copied. */
    method SetName(d: Snapshot)
      requires HoldsString(d, Name)
      modifies this`name
      ensures name == Some(GetString(d, Name))
    {
      name := Some(GetString(d, Name));
    }

    // --- region ---------------------------------------------------------------------------------

    method ReadRegion(rd: ResourceData)
      modifies rd`values
      ensures rd.values == PutString(old(rd.values), Region, region)
    {
      rd.values := PutString(rd.values, Region, region);
    }

    /** The region create and update callbacks: written only when `GetOk` reports it set. */
    method SetRegion(d: Snapshot)
      requires HoldsString(d, Region)
      modifies this`region
      ensures GetOk(d, Region).Some? ==> region == Some(GetString(d, Region)) && region.value != ""
      ensures GetOk(d, Region).None? ==> region == old(region)
    {
      var v := GetOk(d, Region);
      if v.Some? {
        region := Some(v.value.s);
      }
    }

    // --- resource group name --------------------------------------------------------------------

    method ReadResourceGroupName(rd: ResourceData)
      modifies rd`values
      ensures rd.values == PutString(old(rd.values), ResourceGroupName, resourceGroupName)
    {
      rd.values := PutString(rd.values, ResourceGroupName, resourceGroupName);
    }

    method CreateResourceGroupName(d: Snapshot)
      requires HoldsString(d, ResourceGroupName)
      modifies this`resourceGroupName
      ensures resourceGroupName == Some(GetString(d, ResourceGroupName))
    {
      resourceGroupName := Some(GetString(d, ResourceGroupName));
    }

    /** The resource group cannot change once the group exists; the group is not touched. */
    method UpdateResourceGroupName(d: Snapshot) returns (err: Error)
      ensures err == UpdateNotAllowed(ResourceGroupName)
    {
      err := UpdateNotAllowed(ResourceGroupName);
    }

    // --- os -------------------------------------------------------------------------------------

    method ReadOS(rd: ResourceData)
      modifies rd`values
      ensures rd.values == PutString(old(rd.values), OS, if compute.Some? then compute.value.os else None)
    {
      var value := if compute.Some? then compute.value.os else None;
      rd.values := PutString(rd.values, OS, value);
    }

    method CreateOS(d: Snapshot)
      requires HoldsString(d, OS) && compute.Some?
      modifies this`compute
      ensures compute == Some(old(compute.value).(os := Some(GetString(d, OS))))
    {
      compute := Some(compute.value.(os := Some(GetString(d, OS))));
    }

    /** The OS cannot change once the group exists; the group is not touched. */
    method UpdateOS(d: Snapshot) returns (err: Error)
      ensures err == UpdateNotAllowed(OS)
    {
      err := UpdateNotAllowed(OS);
    }

    // --- capacity -------------------------------------------------------------------------------

    method ReadMinSize(rd: ResourceData)
      modifies rd`values
      ensures rd.values == old(rd.values)[MinSize := Int(Reported(capacity, Minimum))]
    {
      var value := if capacity.Some? then capacity.value.minimum else None;
      rd.values := rd.values[MinSize := Int(IntValue(value))];
    }

    method ReadMaxSize(rd: ResourceData)
      modifies rd`values
      ensures rd.values == old(rd.values)[MaxSize := Int(Reported(capacity, Maximum))]
    {
      var value := if capacity.Some? then capacity.value.maximum else None;
      rd.values := rd.values[MaxSize := Int(IntValue(value))];
    }

    /** The min_size create and update callbacks (they are the same): only a value >= 0 is written. */
    method SetMinSize(d: Snapshot)
      requires NonNegative(d, MinSize).Some? ==> capacity.Some?
      modifies this`capacity
      ensures NonNegative(d, MinSize).Some? ==> capacity == Some(old(capacity.value).(minimum := NonNegative(d, MinSize)))
      ensures NonNegative(d, MinSize).None? ==> capacity == old(capacity)
    {
      var v := GetInt(d, MinSize);
      if v.Some? && v.value >= 0 {
        capacity := Some(capacity.value.(minimum := Some(v.value)));
      }
    }

    /** The max_size create and update callbacks. */
    method SetMaxSize(d: Snapshot)
      requires NonNegative(d, MaxSize).Some? ==> capacity.Some?
      modifies this`capacity
      ensures NonNegative(d, MaxSize).Some? ==> capacity == Some(old(capacity.value).(maximum := NonNegative(d, MaxSize)))
      ensures NonNegative(d, MaxSize).None? ==> capacity == old(capacity)
    {
      var v := GetInt(d, MaxSize);
      if v.Some? && v.value >= 0 {
        capacity := Some(capacity.value.(maximum := Some(v.value)));
      }
    }

    /** The desired_capacity create and update callbacks. */
    method SetDesiredCapacity(d: Snapshot)
      requires NonNegative(d, DesiredCapacity).Some? ==> capacity.Some?
      modifies this`capacity
      ensures NonNegative(d, DesiredCapacity).Some? ==> capacity == WithTarget(old(capacity), NonNegative(d, DesiredCapacity).value)
      ensures NonNegative(d, DesiredCapacity).None? ==> capacity == old(capacity)
    {
      var v := GetInt(d, DesiredCapacity);
      if v.Some? && v.value >= 0 {
        capacity := WithTarget(capacity, v.value);
      }
    }

    /**
     * The desired_capacity read callback as the source writes it: after storing the target (0 when
     * nil) it reads the stored value back and, being at least 0, writes it into `Capacity.Target`.
     * With a nil capacity that write dereferences nil: `panicked` reports it, and nothing is written.
     */
    method ReadDesiredCapacityAsWritten(rd: ResourceData) returns (panicked: bool)
      modifies this`capacity, rd`values
      ensures rd.values == old(rd.values)[DesiredCapacity := Int(Reported(old(capacity), Target))]
      ensures panicked <==> old(capacity).None?
      ensures old(capacity).Some? ==> capacity == DesiredWriteBack(old(capacity))
      ensures old(capacity).None? ==> capacity.None?
    {
      var value := if capacity.Some? then capacity.value.target else None;
      rd.values := rd.values[DesiredCapacity := Int(IntValue(value))];
      panicked := false;
      var v := GetInt(rd.values, DesiredCapacity);
      if v.Some? && v.value >= 0 {
        if capacity.None? {
          panicked := true;
        } else {
          capacity := WithTarget(capacity, v.value);
        }
      }
    }

    /** The desired_capacity read callback with the write-back guarded by the nil test the read itself makes. */
    method ReadDesiredCapacity(rd: ResourceData)
      modifies this`capacity, rd`values
      ensures rd.values == old(rd.values)[DesiredCapacity := Int(Reported(old(capacity), Target))]
      ensures capacity == DesiredWriteBack(old(capacity))
    {
      var value := if capacity.Some? then capacity.value.target else None;
      rd.values := rd.values[DesiredCapacity := Int(IntValue(value))];
      var v := GetInt(rd.values, DesiredCapacity);
      if capacity.Some? && v.Some? && v.value >= 0 {
        capacity := WithTarget(capacity, v.value);
      }
    }
  }

  /** The capacity after the desired-capacity read writes the reported target back. */
  function DesiredWriteBack(c: Option<Capacity>): (r: Option<Capacity>)
    ensures c.None? ==> r.None?
    ensures c.Some? ==> r.Some? && r.value.minimum == c.value.minimum && r.value.maximum == c.value.maximum
    ensures c.Some? && Reported(c, Target) < 0 ==> r == c
  {
    if c.Some? && Reported(c, Target) >= 0 then WithTarget(c, Reported(c, Target)) else c
  }

  /**
   * After the read, a present capacity's target is set and equals the value stored in the state; a
   * nil target becomes 0.
   */
  lemma ReadKeepsTargetAndState(c: Option<Capacity>)
    requires c.Some?
    ensures DesiredWriteBack(c).value.target == Some(Reported(c, Target))
    ensures c.value.target.None? ==> DesiredWriteBack(c).value.target == Some(0)
  {
  }

  /** The write-back changes nothing the read did not already hold, except that a nil target becomes 0. */
  lemma WriteBackIdempotent(c: Option<Capacity>)
    ensures DesiredWriteBack(DesiredWriteBack(c)) == DesiredWriteBack(c)
  {
  }

  /** As written, the read with no capacity stores 0, which passes the write-back's guard, so the write reaches nil. */
  lemma NilCapacityReachesWriteBack(values: Snapshot)
    ensures Reported(None, Target) == 0
    ensures GetInt(values[DesiredCapacity := Int(Reported(None, Target))], DesiredCapacity) == Some(0)
  {
  }
}
