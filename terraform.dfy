/**
 * The slice of Terraform's plugin SDK that the field callbacks use: the dynamically typed values a
 * configuration surfaces (`interface{}` in Go), the `ResourceData` snapshot with its `Get`/`GetOk`
 * accessors, and the errors the callbacks return.
 *
 * A `Snapshot` maps a field name to its current value. A key that is absent is a field that is not set;
 * a typed `Get` of such a field yields the zero value of the field's schema type, as Terraform does.
 */
module Terraform {
  import opened Common

  /** An IEEE-754 double, kept opaque: only its sign and zero-ness are ever inspected. */
  datatype Float64 = Float64(bits: bv64)

  /** `v > 0` on a float64: a positive finite number or +Inf (NaN and both zeros are not positive). */
  predicate IsPositive(f: Float64) {
    0 < f.bits <= 0x7FF0_0000_0000_0000
  }

  /**
   * A configuration value as it reaches a callback: `Nil` is a nil `interface{}`, `List` is a
   * `[]interface{}`, `Set` is a `*schema.Set` (its elements in `List()` order) and `Map` a
   * `map[string]interface{}`.
   */
  datatype Value =
    | Nil
    | Str(s: string)
    | Int(i: int)
    | Bool(b: bool)
    | Float(f: Float64)
    | List(items: seq<Value>)
    | Set(elems: seq<Value>)
    | Map(entries: map<string, Value>)

  /** A Terraform resource's values by field name. */
  type Snapshot = map<string, Value>

  /** The zero value of each kind, which `GetOk` reports as "not set". */
  predicate IsZero(v: Value) {
    match v
    case Nil => true
    case Str(s) => s == ""
    case Int(i) => i == 0
    case Bool(b) => !b
    case Float(f) => f.bits == 0
    case List(items) => items == []
    case Set(elems) => elems == []
    case Map(entries) => entries == map[]
  }

  /** `resourceData.GetOk(key)`: the value, when it is set and not the zero value. */
  function GetOk(d: Snapshot, key: string): (r: Option<Value>)
    ensures r.Some? <==> key in d && !IsZero(d[key])
    ensures r.Some? ==> r.value == d[key]
  {
    if key in d && !IsZero(d[key]) then Some(d[key]) else None
  }

  /** `resourceData.Get(key).(int)` with its `ok`: an unset int field reads as 0. */
  function GetInt(d: Snapshot, key: string): (r: Option<int>)
    ensures key !in d ==> r == Some(0)
    ensures key in d ==> (r.Some? <==> d[key].Int?)
    ensures key in d && d[key].Int? ==> r == Some(d[key].i)
  {
    if key !in d then Some(0) else if d[key].Int? then Some(d[key].i) else None
  }

  /** The shape `resourceData.Get(key).(string)` demands: a string, or unset. */
  predicate HoldsString(d: Snapshot, key: string) {
    key in d ==> d[key].Str?
  }

  /** `resourceData.Get(key).(string)`: an unset string field reads as "". */
  function GetString(d: Snapshot, key: string): (s: string)
    requires HoldsString(d, key)
    ensures key in d ==> d[key] == Str(s)
    ensures key !in d ==> s == ""
  {
    if key in d then d[key].s else ""
  }

  /** `resourceData.Set(key, v)` with a `*string`: nil leaves the field unset, so it reads back as "". */
  function PutString(d: Snapshot, key: string, o: Option<string>): (r: Snapshot)
    ensures HoldsString(r, key) && GetString(r, key) == StringValue(o)
    ensures forall k :: k != key ==> (k in r <==> k in d) && (k in r ==> r[k] == d[k])
  {
    if o.Some? then d[key := Str(o.value)] else d - {key}
  }

  /** `m[key].(string)` with its `ok`, on a configuration map. */
  function StrAt(m: map<string, Value>, key: string): (r: Option<string>)
    ensures r.Some? <==> key in m && m[key].Str?
    ensures r.Some? ==> m[key] == Str(r.value)
  {
    if key in m && m[key].Str? then Some(m[key].s) else None
  }

  /** `m[key].(int)` with its `ok`. */
  function IntAt(m: map<string, Value>, key: string): (r: Option<int>)
    ensures r.Some? <==> key in m && m[key].Int?
    ensures r.Some? ==> m[key] == Int(r.value)
  {
    if key in m && m[key].Int? then Some(m[key].i) else None
  }

  /** `m[key].(bool)` with its `ok`. */
  function BoolAt(m: map<string, Value>, key: string): (r: Option<bool>)
    ensures r.Some? <==> key in m && m[key].Bool?
    ensures r.Some? ==> m[key] == Bool(r.value)
  {
    if key in m && m[key].Bool? then Some(m[key].b) else None
  }

  /** A `[]string` as a configuration list. */
  function StringList(xs: seq<string>): (r: seq<Value>)
    ensures |r| == |xs| && forall i :: 0 <= i < |xs| ==> r[i] == Str(xs[i])
  {
    seq(|xs|, i requires 0 <= i < |xs| => Str(xs[i]))
  }

  /** The map elements of a configuration list, in order: what an expander's `v.(map[string]interface{})` loop visits. */
  function MapEntries(items: seq<Value>): (r: seq<map<string, Value>>)
    ensures |r| <= |items|
  {
    if items == [] then []
    else
      var last := items[|items| - 1];
      MapEntries(items[..|items| - 1]) + (if last.Map? then [last.entries] else [])
  }

  /** An expander's loop: one `T` per map element of `items`, in order; other elements are skipped. */
  function MapsOf<T>(items: seq<Value>, make: map<string, Value> -> T): (r: seq<T>)
    ensures |r| == |MapEntries(items)|
  {
    if items == [] then []
    else
      var last := items[|items| - 1];
      MapsOf(items[..|items| - 1], make) + (if last.Map? then [make(last.entries)] else [])
  }

  /** Each `T` is made from the map at the same position. */
  lemma {:induction false} MapsOfElements<T>(items: seq<Value>, make: map<string, Value> -> T)
    ensures forall i :: 0 <= i < |MapsOf(items, make)| ==> MapsOf(items, make)[i] == make(MapEntries(items)[i])
  {
    if items != [] {
      MapsOfElements(items[..|items| - 1], make);
    }
  }

  /** Appending one element adds at most one `T`. */
  lemma MapsOfSnoc<T>(items: seq<Value>, v: Value, make: map<string, Value> -> T)
    ensures MapsOf(items + [v], make) == MapsOf(items, make) + (if v.Map? then [make(v.entries)] else [])
  {
    assert (items + [v])[..|items|] == items;
  }

  /** The errors the callbacks and handlers return. */
  datatype Error =
    | UpdateNotAllowed(field: string)       // commons.FieldUpdateNotAllowedPattern with the field name
    | Message(text: string)                 // an error built by errors.New or fmt.Errorf
    | Wrapped(prefix: string, cause: Error) // fmt.Errorf("<prefix> %s", cause)
    | Api(code: string, message: string)    // one element of the vendor SDK's client.Errors
    | Errors(list: seq<Error>)              // the vendor SDK's client.Errors itself

  /** The `*schema.ResourceData` a handler or read callback writes into. */
  class ResourceData {
    var values: Snapshot
    var id: string

    constructor (values: Snapshot, id: string)
      ensures this.values == values && this.id == id
    {
      this.values := values;
      this.id := id;
    }

    /** `resourceData.Set(key, v)`. */
    method Set(key: string, v: Value)
      modifies this
      ensures values == old(values)[key := v]
      ensures id == old(id)
    {
      values := values[key := v];
    }

    /** `resourceData.SetId(newId)`; an empty id tells Terraform the resource is gone. */
    method SetId(newId: string)
      modifies this
      ensures id == newId
      ensures values == old(values)
    {
      id := newId;
    }
  }
}
