/** Optional values (Go pointers that may be nil) and results (Go's value-or-error returns). */
module Common {

  /** A Go pointer: `None` is nil. */
  datatype Option<+T> = None | Some(value: T)

  /** A Go `(value, error)` pair where exactly one side is meaningful. */
  datatype Result<+T, +E> = Ok(value: T) | Err(error: E)

  /** A Go slice that may be nil; ranging over a nil slice visits nothing. */
  function Elements<T>(o: Option<seq<T>>): (s: seq<T>)
    ensures o.Some? ==> s == o.value
    ensures o.None? ==> s == []
  {
    if o.Some? then o.value else []
  }

  /** `spotinst.StringValue`: the pointed-to string, or "" for nil. */
  function StringValue(o: Option<string>): (s: string)
    ensures o.None? ==> s == ""
    ensures o.Some? ==> s == o.value
  {
    if o.Some? then o.value else ""
  }

  /** `spotinst.IntValue`: the pointed-to int, or 0 for nil. */
  function IntValue(o: Option<int>): (i: int)
    ensures o.None? ==> i == 0
    ensures o.Some? ==> i == o.value
  {
    if o.Some? then o.value else 0
  }

  /** `spotinst.BoolValue`: the pointed-to bool, or false for nil. */
  function BoolValue(o: Option<bool>): (b: bool)
    ensures b <==> o == Some(true)
  {
    o.Some? && o.value
  }
}
