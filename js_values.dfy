/**
 * The JavaScript values that travel in request payloads, and the two pieces of
 * JavaScript semantics the actions rely on: `Object.assign` (later sources win)
 * and the truthiness of an optional string.
 */
module JsValues {
  import opened Wrappers

  datatype Value =
    | Undefined
    | Null
    | Bool(b: bool)
    | Int(i: int)
    | Str(s: string)
    | Obj(fields: map<string, Value>)

  /** A plain object, as a map from property names to values. */
  type Object = map<string, Value>

  /** `Object.assign({ }, target, source)`: every key of both, the source's value winning. */
  function Assign(target: Object, source: Object): (r: Object)
    ensures r.Keys == target.Keys + source.Keys
    ensures forall k :: k in source ==> r[k] == source[k]
    ensures forall k :: k in target && k !in source ==> r[k] == target[k]
  {
    target + source
  }

  /** An optional id as a payload value: `undefined` when absent. */
  function IdValue(id: Option<int>): (v: Value)
    ensures v == Undefined <==> id.None?
    ensures id.Some? ==> v == Int(id.value)
  {
    match id
    case None => Undefined
    case Some(n) => Int(n)
  }

  /** `if ( scope )` on a string argument that may be omitted: only a non-empty string is truthy. */
  predicate Truthy(s: Option<string>)
  {
    s.Some? && s.value != ""
  }
}
