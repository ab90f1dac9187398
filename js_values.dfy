/**
 * The JavaScript values that lib/config.ts inspects, and the few operators it
 * applies to them: property access, `== null`, truthiness, `??` and object
 * spread. An object is a map from its own property names to their values, so
 * that "the key is absent" and "the key holds `undefined`" stay distinct.
 */
module JsValues {
  import opened Wrappers
  import Types
  import AuthScopes

  datatype Value =
    | Undefined
    | Null
    | Bool(b: bool)
    | Num(x: real)
    | Str(s: string)
    | Arr(items: seq<Value>)
    | Obj(props: map<string, Value>)
    | Scopes(scopeSet: AuthScopes.ScopeSet)  // an `AuthScopes` instance
    | Severity(level: Types.LogSeverity)     // a `LogSeverity` member
    | Func(name: string)                     // a function value, known by its name only

  type JsObject = map<string, Value>

  /** `o[key]`: a missing property reads as `undefined`. */
  function Get(o: JsObject, key: string): Value
  {
    if key in o then o[key] else Undefined
  }

  /** Whether `key in o`, and if so what it holds. */
  function Lookup(o: JsObject, key: string): Option<Value>
  {
    if key in o then Some(o[key]) else None
  }

  /** `v == null`, which holds of both `null` and `undefined`. */
  predicate Nullish(v: Value)
  {
    v.Undefined? || v.Null?
  }

  /** JavaScript truthiness: `undefined`, `null`, `false`, `0` and `""` are falsy. */
  predicate Truthy(v: Value)
  {
    match v
    case Undefined => false
    case Null => false
    case Bool(b) => b
    case Num(x) => x != 0.0
    case Str(s) => s != ""
    case _ => true
  }

  /** `v ?? fallback` */
  function Coalesce(v: Value, fallback: Value): Value
  {
    if Nullish(v) then fallback else v
  }

  /** The properties `{...v}` copies out of `v`. */
  function OwnProps(v: Value): JsObject
  {
    if v.Obj? then v.props else map[]
  }

}
