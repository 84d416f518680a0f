/**
 * The JavaScript values the adapter inspects: options objects, contexts, helper
 * and partial registrations, and the errors it raises or passes to callbacks.
 */
module JsValues {

  /** A JavaScript function, known only by identity. */
  datatype Callable =
    | UserFunction(id: nat)           // a helper, or a render function handed in by the caller
    | CompiledTemplate(id: nat)       // what the template compiler returns
    | InvokePartialHelper(registry: nat)                // the `_invokePartial` closure stored in the async-helper registry `registry`
    | WrappedAsyncHelper(name: string, registry: nat)   // the wrapper registry `registry` hands out for `name`

  /** A JavaScript value. Objects are plain property maps (own enumerable properties). */
  datatype Value =
    | Undefined
    | Null
    | Bool(b: bool)
    | Num(n: int)
    | Str(s: string)
    | Fun(f: Callable)
    | Obj(props: map<string, Value>)

  /** An error object; only its message is observable. */
  datatype Error = Error(message: string) | TypeError(message: string)

  /** JavaScript truthiness (`if (v)`, `v || {}`); numbers are integers here, so NaN does not arise. */
  predicate Truthy(v: Value)
  {
    match v
    case Undefined => false
    case Null => false
    case Bool(b) => b
    case Num(n) => n != 0
    case Str(s) => s != ""
    case Fun(_) => true
    case Obj(_) => true
  }

  /** The `typeof` operator. */
  function TypeOf(v: Value): string
  {
    match v
    case Undefined => "undefined"
    case Null => "object"
    case Bool(_) => "boolean"
    case Num(_) => "number"
    case Str(_) => "string"
    case Fun(_) => "function"
    case Obj(_) => "object"
  }

  /** Property read `v[key]`: an object's own property, `undefined` otherwise. */
  function Get(v: Value, key: string): Value
  {
    if v.Obj? && key in v.props then v.props[key] else Undefined
  }

  /** The pairs a `for (var k in v)` loop visits and reads back with `v[k]`. */
  function Entries(v: Value): map<string, Value>
  {
    if v.Obj? then v.props else map[]
  }

  /**
   * `extend({}, base, over)` from extend-shallow: a fresh object holding the own
   * properties of `base` and then those of `over`, later ones winning. Sources that
   * are not objects are skipped; functions are extendable but carry no properties here.
   */
  function Extend(base: Value, over: Value): (m: map<string, Value>)
    ensures forall k :: k in m <==> k in Entries(base) || k in Entries(over)
    ensures forall k :: k in Entries(over) ==> m[k] == Entries(over)[k]
    ensures forall k :: k in Entries(base) && k !in Entries(over) ==> m[k] == Entries(base)[k]
  {
    Entries(base) + Entries(over)
  }
}
