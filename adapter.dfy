/**
 * The engine object of index.js: `compile`, `render`, `renderFile`, `renderSync`,
 * and the async-helper installation with the two partial-invoking closures it creates.
 * The Handlebars instance and the async-helper registry are objects whose registries
 * the engine updates in place.
 */
module Adapter {
  import opened Wrappers
  import opened JsValues
  import opened HandlebarsRuntime
  import opened Partials
  import Indent

  /** The message `renderFile` passes to its callback for an argument that is not a vinyl file. */
  const NOT_A_VINYL_FILE := "expected a vinyl file."

  /** `typeof m[k] === 'function'`. */
  predicate IsFunctionAt(m: map<string, Value>, k: string)
  {
    k in m && m[k].Fun?
  }

  /** `options || {}`. */
  function OrEmpty(options: Value): (r: Value)
    ensures Truthy(r)
  {
    if Truthy(options) then options else Obj(map[])
  }

  /** The locals of `render(str, locals, cb)`: a function in second place is the callback, and the locals are `{}`. */
  function CallbackLocals(locals: Value): (r: Value)
    ensures TypeOf(r) != "function"
  {
    if TypeOf(locals) == "function" then Obj(map[]) else locals
  }

  /** The shared Handlebars instance: its helper and partial registries and its `VM.invokePartial`. */
  class Handlebars {
    const runtime: Runtime
    var helpers: map<string, Value>
    var partials: map<string, Value>
    var invokePartial: Hook

    constructor (runtime: Runtime)
      ensures this.runtime == runtime
      ensures helpers == map[] && partials == map[] && invokePartial == Original
    {
      this.runtime := runtime;
      helpers, partials, invokePartial := map[], map[], Original;
    }

    /** `handlebars.registerHelper(name, fn)`. */
    method RegisterHelper(name: string, fn: Value)
      modifies this
      ensures helpers == old(helpers)[name := fn]
      ensures partials == old(partials) && invokePartial == old(invokePartial)
    {
      helpers := helpers[name := fn];
    }

    /** `handlebars.registerPartial(name, partial)`. */
    method RegisterPartial(name: string, partial: Value)
      modifies this
      ensures partials == old(partials)[name := partial]
      ensures helpers == old(helpers) && invokePartial == old(invokePartial)
    {
      partials := partials[name := partial];
    }

    /** `for (var partial in partials) registerPartial(partial, partials[partial])`. */
    method RegisterPartials(entries: map<string, Value>)
      modifies this
      ensures partials == old(partials) + entries
      ensures helpers == old(helpers) && invokePartial == old(invokePartial)
    {
      var pending := entries.Keys;
      while pending != {}
        invariant pending <= entries.Keys
        invariant partials == old(partials) + (entries - pending)
        invariant helpers == old(helpers) && invokePartial == old(invokePartial)
        decreases pending
      {
        var name :| name in pending;
        RegisterPartial(name, entries[name]);
        pending := pending - {name};
      }
    }

    /** `for (var helper in helpers) registerHelper(helper, helpers[helper])`. */
    method RegisterHelpers(entries: map<string, Value>)
      modifies this
      ensures helpers == old(helpers) + entries
      ensures partials == old(partials) && invokePartial == old(invokePartial)
    {
      var pending := entries.Keys;
      while pending != {}
        invariant pending <= entries.Keys
        invariant helpers == old(helpers) + (entries - pending)
        invariant partials == old(partials) && invokePartial == old(invokePartial)
        decreases pending
      {
        var name :| name in pending;
        RegisterHelper(name, entries[name]);
        pending := pending - {name};
      }
    }
  }

  /** The async-helper registry attached to the engine. */
  class AsyncHelpers {
    const id: nat                                  // identifies this registry among others
    const hasAsyncId: string -> bool
    const resolveIds: string -> Result<string, Error>
    var helpers: map<string, Value>

    constructor (id: nat, hasAsyncId: string -> bool, resolveIds: string -> Result<string, Error>)
      ensures this.id == id && this.hasAsyncId == hasAsyncId && this.resolveIds == resolveIds
      ensures helpers == map[]
    {
      this.id, this.hasAsyncId, this.resolveIds := id, hasAsyncId, resolveIds;
      helpers := map[];
    }

    /** `asyncHelpers.set(name, fn)`. */
    method Set(name: string, fn: Value)
      modifies this
      ensures helpers == old(helpers)[name := fn]
    {
      helpers := helpers[name := fn];
    }
  }

  /** The `options` object of one partial invocation. */
  class PartialOptions {
    var name: string
    var hash: Option<map<string, Value>>
    var ids: Option<seq<Value>>
    var partials: map<string, Value>
    var indent: string

    constructor (call: PartialCall)
      ensures Call() == call
    {
      name, hash, ids, partials, indent := call.name, call.hash, call.ids, call.partials, call.indent;
    }

    /** The options as a value. */
    function Call(): PartialCall
      reads this
    {
      PartialCall(name, hash, ids, partials, indent)
    }
  }

  /** An object handed to `renderFile`, through the properties the engine reads and writes. */
  class VinylFile {
    var isVinyl: Value           // file._isVinyl
    var isView: Value            // file.isView
    var fn: Value                // file.fn
    var contents: Option<string> // file.contents, None when null
    var data: Value              // file.data

    constructor (isVinyl: Value, isView: Value, fn: Value, contents: Option<string>, data: Value)
      ensures this.isVinyl == isVinyl && this.isView == isView && this.fn == fn
      ensures this.contents == contents && this.data == data
    {
      this.isVinyl, this.isView, this.fn, this.contents, this.data := isVinyl, isView, fn, contents, data;
    }

    /** `file._isVinyl || file.isView`. */
    predicate LooksLikeFile()
      reads this
    {
      Truthy(isVinyl) || Truthy(isView)
    }
  }

  /** A value that is not an object reference. */
  type NonObject = v: Value | !v.Obj? witness Undefined

  /** The first argument of `renderFile`: a primitive (or null), or an object. */
  datatype FileArgument = Primitive(value: NonObject) | ObjectArg(file: VinylFile)

  /** How `renderFile` ends: through its callback, or by throwing before it is reached. */
  datatype Delivery = Delivered(result: Result<VinylFile, Error>) | Threw(error: Error)

  /** The objects of a `renderFile` argument. */
  function FileFrame(arg: FileArgument): set<VinylFile>
  {
    if arg.ObjectArg? then {arg.file} else {}
  }

  /** The engine: a Handlebars instance and, when attached, an async-helper registry. */
  class Engine {
    const handlebars: Handlebars
    const asyncHelpers: AsyncHelpers?

    constructor (handlebars: Handlebars, asyncHelpers: AsyncHelpers?)
      ensures this.handlebars == handlebars && this.asyncHelpers == asyncHelpers
    {
      this.handlebars, this.asyncHelpers := handlebars, asyncHelpers;
    }

    /** The objects whose state the engine's operations change. */
    ghost function Repr(): set<object>
    {
      {handlebars} + (if asyncHelpers == null then {} else {asyncHelpers})
    }

    /** The install guard: `_invokePartial` is a function in both registries. */
    predicate Installed()
      reads Repr()
    {
      asyncHelpers != null && IsFunctionAt(handlebars.helpers, INVOKE_PARTIAL) && IsFunctionAt(asyncHelpers.helpers, INVOKE_PARTIAL)
    }

    /** `initAsyncHelpers(engine)`: wrap `VM.invokePartial` once and register `_invokePartial` on both sides. */
    method InitAsyncHelpers()
      modifies Repr()
      ensures asyncHelpers == null || old(Installed()) ==> unchanged(Repr())
      ensures asyncHelpers != null ==> Installed()
      ensures asyncHelpers != null && !old(Installed()) ==>
                handlebars.invokePartial == Intercepted(asyncHelpers.hasAsyncId, old(handlebars.invokePartial))
      ensures asyncHelpers != null && !old(Installed()) ==>
                handlebars.helpers == old(handlebars.helpers)[INVOKE_PARTIAL := Fun(WrappedAsyncHelper(INVOKE_PARTIAL, asyncHelpers.id))]
      ensures asyncHelpers != null && !old(Installed()) ==>
                asyncHelpers.helpers == old(asyncHelpers.helpers)[INVOKE_PARTIAL := Fun(InvokePartialHelper(asyncHelpers.id))]
      ensures handlebars.partials == old(handlebars.partials)
      ensures |Layers(handlebars.invokePartial)| <= |Layers(old(handlebars.invokePartial))| + 1
    {
      if asyncHelpers == null {
        return;
      }
      if IsFunctionAt(handlebars.helpers, INVOKE_PARTIAL) && IsFunctionAt(asyncHelpers.helpers, INVOKE_PARTIAL) {
        return;
      }
      handlebars.invokePartial := Intercepted(asyncHelpers.hasAsyncId, handlebars.invokePartial);
      asyncHelpers.Set(INVOKE_PARTIAL, Fun(InvokePartialHelper(asyncHelpers.id)));
      handlebars.RegisterHelper(INVOKE_PARTIAL, Fun(WrappedAsyncHelper(INVOKE_PARTIAL, asyncHelpers.id)));
    }

    /**
     * The state `compile(str, options)` leaves: async helpers installed unless they
     * already were, then every entry of `options.partials` and `options.helpers` registered.
     */
    twostate predicate Registered(options: Value)
      reads Repr()
    {
      var opts := OrEmpty(options);
      var installs := asyncHelpers != null && !old(Installed());
      && handlebars.invokePartial
           == (if installs then Intercepted(asyncHelpers.hasAsyncId, old(handlebars.invokePartial)) else old(handlebars.invokePartial))
      && handlebars.partials == old(handlebars.partials) + Entries(Get(opts, "partials"))
      && handlebars.helpers
           == (if installs then old(handlebars.helpers)[INVOKE_PARTIAL := Fun(WrappedAsyncHelper(INVOKE_PARTIAL, asyncHelpers.id))]
               else old(handlebars.helpers)) + Entries(Get(opts, "helpers"))
      && (asyncHelpers != null ==>
            asyncHelpers.helpers
              == if installs then old(asyncHelpers.helpers)[INVOKE_PARTIAL := Fun(InvokePartialHelper(asyncHelpers.id))]
                 else old(asyncHelpers.helpers))
    }

    /** `engine.compile(str, options)`. */
    method Compile(str: Value, options: Value) returns (r: Result<Callable, Error>)
      modifies Repr()
      ensures Registered(options)
      ensures r == if str.Fun? then Success(str.f) else handlebars.runtime.compile(str, None)
    {
      var opts := OrEmpty(options);
      InitAsyncHelpers();

      handlebars.RegisterPartials(Entries(Get(opts, "partials")));
      handlebars.RegisterHelpers(Entries(Get(opts, "helpers")));
      if str.Fun? {
        return Success(str.f);
      }
      r := handlebars.runtime.compile(str, None);
    }
  

    /** What a render function produces for `context` against the registries as they are now. */
    function Execute(fn: Callable, context: Value): Result<string, Error>
      reads handlebars
    {
      handlebars.runtime.execute(fn, Registry(handlebars.helpers, handlebars.partials), context, None)
    }

    /** The rendered output for a template source: compiled unless it is already a function, then run. */
    function Output(str: Value, context: Value): Result<string, Error>
      reads handlebars
    {
      if str.Fun? then Execute(str.f, context)
      else
        match handlebars.runtime.compile(str, None)
        case Failure(e) => Failure(e)
        case Success(fn) => Execute(fn, context)
    }

    /**
     * `engine.render(str, locals, cb)`, the callback's arguments as the result. A source that
     * is already a function is run as it is, without registering anything; any error from
     * compiling or running goes to the callback.
     */
    method Render(str: Value, locals: Value) returns (r: Result<string, Error>)
      modifies Repr()
      ensures str.Fun? ==> unchanged(Repr())
      ensures !str.Fun? ==> Registered(CallbackLocals(locals))
      ensures r == Output(str, CallbackLocals(locals))
    {
      var context := CallbackLocals(locals);
      var fn: Callable;
      if str.Fun? {
        fn := str.f;
      } else {
        var compiled := Compile(str, context);
        if compiled.Failure? {
          return Failure(compiled.error);
        }
        fn := compiled.value;
      }
      r := handlebars.runtime.execute(fn, Registry(handlebars.helpers, handlebars.partials), context, None);
    }

    /** `engine.renderSync(str, options)`: the rendered string, or the error it caught, returned as a value. */
    method RenderSync(str: Value, options: Value) returns (r: Result<string, Error>)
      modifies Repr()
      ensures str.Fun? ==> unchanged(Repr())
      ensures !str.Fun? ==> Registered(options)
      ensures r == Output(str, OrEmpty(options))
    {
      var opts := OrEmpty(options);
      var fn: Callable;
      if str.Fun? {
        fn := str.f;
      } else {
        var compiled := Compile(str, opts);
        if compiled.Failure? {
          return Failure(compiled.error);
        }
        fn := compiled.value;
      }
      r := handlebars.runtime.execute(fn, Registry(handlebars.helpers, handlebars.partials), opts, None);
    }

    /**
     * `engine.renderFile(file, locals, cb)`. An argument that is not an object, or an object
     * with neither `_isVinyl` nor `isView`, is refused before `contents` is read; `null` passes
     * the `typeof` test and throws on the property read. Otherwise the file's compiled `fn`, or
     * else its `contents`, is rendered with `file.data` over the locals, and a successful output
     * replaces `contents`.
     */
    method RenderFile(file: FileArgument, locals: Value) returns (d: Delivery)
      modifies Repr(), FileFrame(file)
      ensures file.Primitive? && file.value != Null ==>
                d == Delivered(Failure(Error(NOT_A_VINYL_FILE))) && unchanged(Repr())
      ensures file.Primitive? && file.value == Null ==> d.Threw? && d.error.TypeError? && unchanged(Repr())
      ensures file.ObjectArg? && !old(file.file.LooksLikeFile()) ==>
                d == Delivered(Failure(Error(NOT_A_VINYL_FILE))) && unchanged(Repr()) && unchanged(file.file)
      ensures file.ObjectArg? && old(file.file.LooksLikeFile()) && !old(file.file.fn).Fun? && old(file.file.contents) == None ==>
                d.Threw? && d.error.TypeError? && unchanged(Repr()) && unchanged(file.file)
      ensures file.ObjectArg? && old(file.file.LooksLikeFile()) && (old(file.file.fn).Fun? || old(file.file.contents) != None) ==>
                var f := file.file;
                var src := if old(f.fn).Fun? then old(f.fn) else Str(old(f.contents).value);
                var context := Obj(Extend(CallbackLocals(locals), old(f.data)));
                && (src.Fun? ==> unchanged(Repr()))
                && (!src.Fun? ==> Registered(context))
                && f.isVinyl == old(f.isVinyl) && f.isView == old(f.isView)
                && f.fn == old(f.fn) && f.data == old(f.data)
                && match Output(src, context)
                   case Failure(e) => d == Delivered(Failure(e)) && f.contents == old(f.contents)
                   case Success(s) => d == Delivered(Success(f)) && f.contents == Some(s)
    {
      var context := CallbackLocals(locals);
      if file.Primitive? {
        if file.value == Null {
          return Threw(TypeError("Cannot read properties of null (reading '_isVinyl')"));
        }
        return Delivered(Failure(Error(NOT_A_VINYL_FILE)));
      }
      var f := file.file;
      if !f.LooksLikeFile() {
        return Delivered(Failure(Error(NOT_A_VINYL_FILE)));
      }
      var src: Value;
      if f.fn.Fun? {
        src := f.fn;
      } else {
        if f.contents.None? {
          return Threw(TypeError("Cannot read properties of null (reading 'toString')"));
        }
        src := Str(f.contents.value);
      }
      var merged := Obj(Extend(context, f.data));
      var r := Render(src, merged);
      if r.Failure? {
        return Delivered(Failure(r.error));
      }
      f.contents := Some(r.value);
      d := Delivered(Success(f));
    }

    /** `invokePartialWrapper(partial, context, options)`, the closure created by `initAsyncHelpers`. */
    method InvokePartialWrapper(partial: Value, context: Value, options: PartialOptions) returns (r: Result<string, Error>)
      modifies options
      ensures (r, options.Call())
           == PartialWrapper(handlebars.runtime, handlebars.invokePartial, handlebars.helpers,
                             partial, context, old(options.Call()))
    {
      var rt := handlebars.runtime;
      ghost var call0 := options.Call();
      StagedWrapper(rt, handlebars.invokePartial, handlebars.helpers, partial, context, call0);
      var ctx := MergeHash(context, options);
      var call := options.Call();
      var resolved := rt.resolvePartial(partial, ctx, call);
      var result := Invoke(rt, handlebars.invokePartial, handlebars.helpers, resolved, ctx, call);
      if result == Success(None) && rt.hasCompiler {
        result := CompileAndCache(resolved, ctx, options);
      }
      r := FinishPartial(result, options.name, options.indent);
    }

    /** The hash step of `invokePartialWrapper`: merge the hash into a fresh context and mark `ids[0]`. */
    static method MergeHash(context: Value, options: PartialOptions) returns (ctx: Value)
      modifies options
      ensures ctx == PartialContext(context, old(options.hash))
      ensures options.Call() == PrepareCall(old(options.Call()))
    {
      ctx := context;
      if options.hash.Some? {
        ctx := Obj(Extend(context, Obj(options.hash.value)));
        if options.ids.Some? {
          options.ids := Some(MarkFirstId(options.ids.value));
        }
      }
    }

    /**
     * The compile fallback of `invokePartialWrapper`: compile the resolved partial with the
     * options, store it in `options.partials` under `options.name`, and run it.
     */
    method CompileAndCache(resolved: Value, ctx: Value, options: PartialOptions) returns (result: Result<Option<string>, Error>)
      modifies options
      ensures (result, options.Call()) == Fallback(handlebars.runtime, handlebars.helpers, resolved, ctx, old(options.Call()))
    {
      var rt := handlebars.runtime;
      var compiled := rt.compile(resolved, Some(options.Call()));
      if compiled.Failure? {
        return Failure(compiled.error);
      }
      options.partials := options.partials[options.name := Fun(compiled.value)];
      var rendered := rt.execute(options.partials[options.name].f, Registry(handlebars.helpers, options.partials), ctx, Some(options.Call()));
      if rendered.Failure? {
        return Failure(rendered.error);
      }
      result := Success(Some(rendered.value));
    }

    /** The end of `invokePartialWrapper`: an error passed on, a non-null output indented when an indent is set, or the not-compiled error. */
    static method FinishPartial(result: Result<Option<string>, Error>, name: string, indent: string) returns (r: Result<string, Error>)
      ensures result.Failure? ==> r == Failure(result.error)
      ensures result.Success? && result.value.Some? ==> r == Success(Indent.FixIndent(result.value.value, indent))
      ensures result == Success(None) ==> r == Failure(NotCompiled(name))
    {
      if result.Failure? {
        return Failure(result.error);
      }
      if result.value.Some? {
        var s := result.value.value;
        if indent != "" {
          s := Indent.IndentPartialOutput(s, indent);
        }
        return Success(s);
      }
      return Failure(NotCompiled(name));
    }

    /**
     * `_invokePartial(partial, context, options, cb)`: resolve the async ids in the partial's
     * name, put the resolved name into `options.name`, and run the wrapper. A resolution
     * error, or an error the wrapper throws, is the callback's error and no output is produced.
     */
    method InvokePartialAsync(partial: Value, context: Value, options: PartialOptions) returns (r: Result<string, Error>)
      requires asyncHelpers != null
      modifies options
      ensures var name := asyncHelpers.resolveIds(old(options.name));
              name.Failure? ==> r == Failure(name.error) && unchanged(options)
      ensures var name := asyncHelpers.resolveIds(old(options.name));
              name.Success? ==>
                (r, options.Call())
                == PartialWrapper(handlebars.runtime, handlebars.invokePartial, handlebars.helpers,
                                  partial, context, old(options.Call()).(name := name.value))
    {
      var name := asyncHelpers.resolveIds(options.name);
      if name.Failure? {
        return Failure(name.error);
      }
      options.name := name.value;
      r := InvokePartialWrapper(partial, context, options);
    }
  }
}
