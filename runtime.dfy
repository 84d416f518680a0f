/**
 * The parts of Handlebars the adapter calls but does not define. They are parameters
 * of the model: each is an arbitrary function, so whatever is proved holds for every
 * template compiler and runtime behind them.
 */
module HandlebarsRuntime {
  import opened Wrappers
  import opened JsValues

  /** The helper and partial registries a template runs against. */
  datatype Registry = Registry(helpers: map<string, Value>, partials: map<string, Value>)

  /** The `options` object of a partial invocation, as far as the adapter reads or writes it. */
  datatype PartialCall = PartialCall(
    name: string,                       // options.name
    hash: Option<map<string, Value>>,   // options.hash, None when absent
    ids: Option<seq<Value>>,            // options.ids, None when absent
    partials: map<string, Value>,       // options.partials
    indent: string)                     // options.indent, "" when absent

  /**
   * The template library's entry points. A thrown exception is a `Failure`; a
   * `null` or `undefined` partial result is `None`.
   */
  datatype Runtime = Runtime(
    compile: (Value, Option<PartialCall>) -> Result<Callable, Error>,    // handlebars.compile(input, options), options absent for a template
    execute: (Callable, Registry, Value, Option<PartialCall>) -> Result<string, Error>, // fn(context), or fn(context, options) for a partial
    resolvePartial: (Value, Value, PartialCall) -> Value,                 // VM.resolvePartial(partial, context, options)
    invokePartial: (Value, Value, PartialCall) -> Result<Option<string>, Error>,   // the library's own VM.invokePartial
    callHelper: (Callable, Value, Value, PartialCall) -> Result<Option<string>, Error>, // a helper applied to (partial, context, options)
    hasCompiler: bool)                                                    // `handlebars.compile` exists (not a runtime-only build)

  /**
   * What `handlebars.VM.invokePartial` currently is: the library's own function under some
   * number of interceptors, each holding the `hasAsyncId` test of the async-helper registry
   * that installed it.
   */
  datatype Hook = Original | Intercepted(hasAsyncId: string -> bool, inner: Hook)

  /** The async-id tests of the stacked interceptors, outermost first. */
  function Layers(hook: Hook): seq<string -> bool>
  {
    match hook
    case Original => []
    case Intercepted(hasAsyncId, inner) => [hasAsyncId] + Layers(inner)
  }
}
