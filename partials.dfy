/**
 * Invoking a partial once async-helper support is installed (index.js, inside
 * `initAsyncHelpers`): the interceptor that replaces `VM.invokePartial`, and
 * `invokePartialWrapper` with its hash merge, compile-and-cache fallback and
 * indentation fix-up.
 */
module Partials {
  import opened Wrappers
  import opened JsValues
  import opened HandlebarsRuntime
  import opened Indent

  /** The name under which the partial-invoking helper is registered. */
  const INVOKE_PARTIAL := "_invokePartial"

  /** The error raised when no partial output can be produced. */
  function NotCompiled(name: string): Error
  {
    Error("The partial " + name + " could not be compiled when running in runtime-only mode")
  }

  /** `handlebars.helpers._invokePartial.apply(this, arguments)`: a TypeError unless that helper is a function. */
  function CallInvokePartialHelper(rt: Runtime, helpers: map<string, Value>, partial: Value, context: Value, call: PartialCall)
    : Result<Option<string>, Error>
  {
    if INVOKE_PARTIAL in helpers && helpers[INVOKE_PARTIAL].Fun? then
      rt.callHelper(helpers[INVOKE_PARTIAL].f, partial, context, call)
    else
      Failure(TypeError("handlebars.helpers._invokePartial is not a function"))
  }

  /** Some interceptor in `hook` recognises an async id in `name`. */
  predicate Claimed(hook: Hook, name: string)
  {
    match hook
    case Original => false
    case Intercepted(hasAsyncId, inner) => hasAsyncId(name) || Claimed(inner, name)
  }

  /** A name is claimed exactly when one of the stacked registries' async-id tests holds of it. */
  lemma {:induction false} ClaimedByLayer(hook: Hook, name: string)
    ensures Claimed(hook, name) <==> exists i :: 0 <= i < |Layers(hook)| && Layers(hook)[i](name)
  {
    match hook
    case Original =>
    case Intercepted(hasAsyncId, inner) =>
      ClaimedByLayer(inner, name);
      assert Layers(hook) == [hasAsyncId] + Layers(inner);
      if hasAsyncId(name) {
        assert Layers(hook)[0](name);
      } else if Claimed(inner, name) {
        var i :| 0 <= i < |Layers(inner)| && Layers(inner)[i](name);
        assert Layers(hook)[i + 1](name);
      } else {
        forall i | 0 <= i < |Layers(hook)|
          ensures !Layers(hook)[i](name)
        {
          if i > 0 {
            assert Layers(hook)[i] == Layers(inner)[i - 1];
          }
        }
      }
  }

  /**
   * Calling `handlebars.VM.invokePartial` when it is `hook`. Each interceptor sends a
   * name in which its own registry finds an async id to the `_invokePartial` helper of
   * the shared Handlebars instance, and everything else, with the same arguments, to the
   * function it replaced: the helper is reached when any layer claims the name.
   */
  function Invoke(rt: Runtime, hook: Hook, helpers: map<string, Value>,
                  partial: Value, context: Value, call: PartialCall): (r: Result<Option<string>, Error>)
    ensures Claimed(hook, call.name) ==> r == CallInvokePartialHelper(rt, helpers, partial, context, call)
    ensures !Claimed(hook, call.name) ==> r == rt.invokePartial(partial, context, call)
    decreases hook
  {
    match hook
    case Original => rt.invokePartial(partial, context, call)
    case Intercepted(hasAsyncId, inner) =>
      if hasAsyncId(call.name) then CallInvokePartialHelper(rt, helpers, partial, context, call)
      else Invoke(rt, inner, helpers, partial, context, call)
  }

  /**
   * Two registries installed on one Handlebars instance: a name only the first (inner)
   * registry recognises still passes the outer interceptor and reaches the helper.
   */
  lemma InnerInterceptorClaims(rt: Runtime, first: string -> bool, second: string -> bool, helpers: map<string, Value>,
                               partial: Value, context: Value, call: PartialCall)
    requires first(call.name) && !second(call.name)
    ensures Invoke(rt, Intercepted(second, Intercepted(first, Original)), helpers, partial, context, call)
            == CallInvokePartialHelper(rt, helpers, partial, context, call)
  {
  }

  /** The context a partial with a hash runs in: a fresh object, the context's properties overridden by the hash's. */
  function PartialContext(context: Value, hash: Option<map<string, Value>>): (ctx: Value)
    ensures hash == None ==> ctx == context
    ensures hash != None ==> ctx.Obj?
    ensures hash != None ==> forall k :: k in ctx.props <==> k in hash.value || k in Entries(context)
    ensures hash != None ==> forall k :: k in hash.value ==> ctx.props[k] == hash.value[k]
    ensures hash != None ==> forall k :: k in Entries(context) && k !in hash.value ==> ctx.props[k] == Entries(context)[k]
  {
    if hash.Some? then Obj(Extend(context, Obj(hash.value))) else context
  }

  /** `ids[0] = true` on a JavaScript array: the first slot is overwritten, or created when the array is empty. */
  function MarkFirstId(ids: seq<Value>): (r: seq<Value>)
    ensures |r| == if ids == [] then 1 else |ids|
    ensures r[0] == Bool(true)
    ensures forall i :: 0 < i < |ids| ==> r[i] == ids[i]
  {
    if ids == [] then [Bool(true)] else [Bool(true)] + ids[1..]
  }

  /** The options after the hash step: `ids[0]` is set when there is a hash and an `ids` array. */
  function PrepareCall(call: PartialCall): (c: PartialCall)
    ensures c.(ids := call.ids) == call
    ensures call.hash != None && call.ids != None ==> c.ids == Some(MarkFirstId(call.ids.value))
    ensures !(call.hash != None && call.ids != None) ==> c == call
  {
    if call.hash.Some? && call.ids.Some? then call.(ids := Some(MarkFirstId(call.ids.value))) else call
  }

  /** The partial after `VM.resolvePartial`, given the merged context and the prepared options. */
  function Resolved(rt: Runtime, partial: Value, context: Value, call: PartialCall): Value
  {
    rt.resolvePartial(partial, PartialContext(context, call.hash), PrepareCall(call))
  }

  /** The result of the first `VM.invokePartial` call the wrapper makes, before any fallback. */
  function FirstResult(rt: Runtime, hook: Hook, helpers: map<string, Value>,
                       partial: Value, context: Value, call: PartialCall): Result<Option<string>, Error>
  {
    Invoke(rt, hook, helpers, Resolved(rt, partial, context, call),
           PartialContext(context, call.hash), PrepareCall(call))
  }

  /**
   * The compile fallback, for a partial the invocation left null: compile the resolved
   * partial with the options, cache it under `options.name`, and run it in the merged
   * context. The result and the options afterwards.
   */
  function Fallback(rt: Runtime, helpers: map<string, Value>, resolved: Value, ctx: Value, c: PartialCall)
    : (Result<Option<string>, Error>, PartialCall)
  {
    match rt.compile(resolved, Some(c))
    case Failure(e) => (Failure(e), c)
    case Success(fn) =>
      var cached := c.(partials := c.partials[c.name := Fun(fn)]);
      match rt.execute(fn, Registry(helpers, cached.partials), ctx, Some(cached))
      case Failure(e) => (Failure(e), cached)
      case Success(s) => (Success(Some(s)), cached)
  }

  /** The end of the wrapper: a non-null result with the indent fix-up, or the not-compiled error. */
  function Finish(result: Result<Option<string>, Error>, name: string, indent: string): Result<string, Error>
  {
    match result
    case Failure(e) => Failure(e)
    case Success(Some(s)) => Success(FixIndent(s, indent))
    case Success(None) => Failure(NotCompiled(name))
  }

  /**
   * `invokePartialWrapper(partial, context, options)`: the partial's output (or the error
   * it throws) and the options object afterwards.
   */
  function PartialWrapper(rt: Runtime, hook: Hook, helpers: map<string, Value>,
                          partial: Value, context: Value, call: PartialCall): (out: (Result<string, Error>, PartialCall))
    // only ids and partials of the options change
    ensures out.1.(partials := call.partials) == PrepareCall(call)
    // an error thrown by the invocation is passed on, and nothing is cached
    ensures var first := FirstResult(rt, hook, helpers, partial, context, call);
            first.Failure? ==> out == (Failure(first.error), PrepareCall(call))
    // a non-null result is returned, indented when an indent is set and unchanged otherwise
    ensures var first := FirstResult(rt, hook, helpers, partial, context, call);
            first.Success? && first.value.Some? ==>
              out == (Success(FixIndent(first.value.value, call.indent)), PrepareCall(call))
    // still null with no compiler to fall back on: the error names the partial
    ensures var first := FirstResult(rt, hook, helpers, partial, context, call);
            first == Success(None) && !rt.hasCompiler ==>
              out == (Failure(NotCompiled(call.name)), PrepareCall(call))
    // the fallback caches the compiled partial under its name and renders it in the merged context
    ensures var first := FirstResult(rt, hook, helpers, partial, context, call);
            var compiled := rt.compile(Resolved(rt, partial, context, call), Some(PrepareCall(call)));
            first == Success(None) && rt.hasCompiler && compiled.Success? ==>
              && out.1.partials == call.partials[call.name := Fun(compiled.value)]
              && var rendered := rt.execute(compiled.value, Registry(helpers, out.1.partials), PartialContext(context, call.hash), Some(out.1));
                 out.0 == if rendered.Success? then Success(FixIndent(rendered.value, call.indent)) else Failure(rendered.error)
    // a compile error in the fallback is passed on, and nothing is cached
    ensures var first := FirstResult(rt, hook, helpers, partial, context, call);
            var compiled := rt.compile(Resolved(rt, partial, context, call), Some(PrepareCall(call)));
            first == Success(None) && rt.hasCompiler && compiled.Failure? ==>
              out == (Failure(compiled.error), PrepareCall(call))
  {
    var c := PrepareCall(call);
    var first := FirstResult(rt, hook, helpers, partial, context, call);
    var (second, after) :=
      if first == Success(None) && rt.hasCompiler
      then Fallback(rt, helpers, Resolved(rt, partial, context, call), PartialContext(context, call.hash), c)
      else (first, c);
    (Finish(second, c.name, c.indent), after)
  }

  /** `PartialWrapper` as the sequence of steps the wrapper takes: hash step, resolve, invoke, fallback, finish. */
  lemma StagedWrapper(rt: Runtime, hook: Hook, helpers: map<string, Value>,
                      partial: Value, context: Value, call: PartialCall)
    ensures var c := PrepareCall(call);
            var ctx := PartialContext(context, call.hash);
            var resolved := rt.resolvePartial(partial, ctx, c);
            var first := Invoke(rt, hook, helpers, resolved, ctx, c);
            var next := if first == Success(None) && rt.hasCompiler then Fallback(rt, helpers, resolved, ctx, c) else (first, c);
            PartialWrapper(rt, hook, helpers, partial, context, call) == (Finish(next.0, c.name, c.indent), next.1)
  {
  }
}
