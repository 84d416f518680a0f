# engine-handlebars, modelled in Dafny

engine-handlebars adapts the Handlebars template library to the consolidate-style
engine interface. Its single module, `index.js`, offers `compile`, `render`,
`renderFile` and `renderSync`. When an async-helper registry is attached to the
engine (`engine.asyncHelpers` is defined), the first compile also installs support
for asynchronous helpers:

- it wraps Handlebars' `VM.invokePartial`, so that a partial whose name still
  carries an async-helper id goes to an `_invokePartial` helper;
- that helper resolves the id and then runs `invokePartialWrapper`;
- `invokePartialWrapper` merges the hash into the context, resolves and invokes
  the partial, and falls back to compiling and caching it. When `options.indent`
  is set, it puts the indent in front of every line of the output except a final
  empty one.

The model is organised as follows:

- `wrappers.dfy`: `Option` and `Result`.
- `js_values.dfy`: the JavaScript values the adapter looks at, with truthiness,
  `typeof`, property reads and the shallow `extend({}, a, b)` merge.
- `runtime.dfy`: the parts of Handlebars the adapter only calls:
  - `compile`;
  - running a compiled template;
  - `VM.resolvePartial`;
  - the library's own `VM.invokePartial`;
  - calling a registered helper;
  - whether a compiler is present at all.

  Each of these is an arbitrary function, so every result holds whatever
  Handlebars does. A compile or a run receives the partial's options where the
  code passes them: on the fallback compile and render of a partial, but not in
  `engine.compile` or `render`. `Hook` records the interceptors stacked on
  `VM.invokePartial`, each with the async-id test of the registry that
  installed it.
- `lines.dfy`: `String.prototype.split('\n')` and `Array.prototype.join('\n')`,
  with both round trips.
- `indent.dfy`: the indentation fix-up:
  - the loop over the `lines` array, kept in place as a method on an `array`;
  - the function that specifies it;
  - line-by-line, line-count, length and strip-the-indent round-trip lemmas.
- `partials.dfy`: the interceptor's dispatch and `invokePartialWrapper` as
  functions over the abstract runtime.
- `adapter.dfy`: the objects the code updates in place, as classes:
  - the Handlebars instance (helper and partial registries, current
    `VM.invokePartial`);
  - the async-helper registry;
  - a partial's `options` object;
  - a vinyl file;
  - the engine, whose methods `Compile`, `Render`, `RenderSync`, `RenderFile`,
    `InitAsyncHelpers`, `InvokePartialWrapper` and `InvokePartialAsync` are proved
    against the functions above.

A thrown exception is a `Failure` result. A callback's `(err, value)` is the
method's result. For `renderFile`, an exception thrown before the callback is
reached is a separate `Threw` outcome.

Three points of the code's behaviour are worth stating outright:

- `render` runs the compiled function and hands its output straight to the
  callback. No pass resolves async placeholders in that output.
- `render` given an already compiled function does not call `compile`, so it
  neither installs async-helper support nor registers anything.
- `renderSync` catches an error and returns it as its value; it does not raise it.

## Model

| member | source | states |
|---|---|---|
| Lines.Split | index.js:221 | `split('\n')` gives at least one piece, no piece holds a newline, and there is exactly one piece more than there are newlines |
| Lines.Join | index.js:229 | `join('\n')` of n ≥ 1 pieces is as long as the pieces together plus n - 1 separators |
| Lines.JoinSplit | index.js:221-229 | joining the pieces of a split gives back the original string |
| Lines.SplitJoin | index.js:221-229 | splitting the join of one or more newline-free pieces gives back the same pieces (zero pieces join to `''`, which splits into one empty piece) |
| Lines.LastPieceEmpty | index.js:223 | the last piece of a split is empty exactly when the string is empty or ends in a newline |
| Indent.IndentLines | index.js:222-228 | the fix-up keeps the number of lines |
| Indent.IndentLinesAt | index.js:222-228 | line i after the fix-up is the indent followed by line i, except that a last line that is empty stays empty (empty lines elsewhere are prefixed) |
| Indent.IndentInPlace | index.js:222-228 | the loop rewrites the array in place into exactly the fixed-up lines |
| Indent.IndentPartialOutput | index.js:221-229 | split, the in-place loop, then join give the fixed-up output |
| Indent.FixIndent | index.js:220-231 | with no indent (an empty, falsy one), the output is returned unchanged |
| Indent.IndentedLines | index.js:221-229 | for an indent without newlines, the lines of the fixed-up output are the fixed-up lines of the output |
| Indent.IndentedLine | index.js:220-229 | for an indent without newlines, the fix-up keeps the number of lines and of newlines; each line of the result is the indent followed by the original line, except a final empty line when the output was empty or ended in a newline |
| Indent.UnindentIndent | index.js:221-229 | for an indent without newlines, stripping the indent from every line that carries it gives back the partial's output |
| Indent.IndentLinesLength | index.js:222-228 | the fixed-up lines are longer by exactly one indent per prefixed line |
| Indent.IndentOutputLength | index.js:221-229 | the fixed-up output is the output's length plus one indent for every line but a final empty one |
| Partials.Invoke | index.js:188-196 | under any stack of interceptors, each testing its own registry, a name that some layer's registry finds an async id in goes to the shared `_invokePartial` helper (a TypeError when that is not a function); any other name goes to the original `invokePartial` with the same arguments |
| Partials.ClaimedByLayer | index.js:180-195 | a name is claimed by the interceptor stack exactly when the async-id test of one of the installed registries holds of it |
| Partials.InnerInterceptorClaims | index.js:180-195 | with two registries installed on one Handlebars instance, a name only the inner registry recognises passes the outer interceptor and still reaches the helper |
| Partials.PartialContext | index.js:204-205 | with a hash, the context is a fresh object holding the keys of both, with hash values winning; without one it is the context itself |
| Partials.MarkFirstId | index.js:207 | `ids[0] = true` sets the first slot, or creates it in an empty array, and keeps all other entries |
| Partials.PrepareCall | index.js:204-209 | the options change only in `ids`, which is marked exactly when both a hash and ids are present |
| Partials.PartialWrapper | index.js:203-235 | covers each outcome of the wrapper: (1) an invocation error is passed on; (2) a non-null result is returned, indented when an indent is set; (3) a null result with no compiler raises "The partial <name> could not be compiled when running in runtime-only mode"; (4) otherwise the partial is compiled with the partial's options, cached under `options.name` and rendered in the merged context with the options after the cache write; (5) a compile error is passed on; (6) only `ids` and `partials` of the options ever change |
| JsValues.Extend | index.js:138 | `extend({}, a, b)` holds exactly the keys of both objects, with `b` winning and `a` kept elsewhere; non-objects contribute nothing |
| Adapter.Handlebars.RegisterPartial | index.js:58 | one partial registered by name, the other registries unchanged |
| Adapter.Handlebars.RegisterHelper | index.js:61 | one helper registered by name, the other registries unchanged |
| Adapter.Handlebars.RegisterPartials | index.js:57-59 | every entry of `options.partials` is registered over the old registry, and the helpers are untouched |
| Adapter.Handlebars.RegisterHelpers | index.js:60-62 | every entry of `options.helpers` is registered over the old registry, and the partials are untouched |
| Adapter.AsyncHelpers.Set | index.js:258 | `asyncHelpers.set` stores the function under its name |
| Adapter.Engine.InitAsyncHelpers | index.js:175-259 | nothing changes when no async-helper registry is attached or `_invokePartial` is already a function on both sides; otherwise `VM.invokePartial` gains exactly one interceptor, holding this registry's async-id test, and `_invokePartial` is registered on both sides: this registry's closure in the registry, and this registry's wrapper on Handlebars, replacing any earlier registry's wrapper; afterwards the guard holds, so a second run is a no-op |
| Adapter.Engine.Compile | index.js:51-65 | installs async-helper support as above, registers every option partial and helper, and returns a given function unchanged without compiling, or else the compiler's result |
| Adapter.Engine.Render | index.js:83-98 | a function in the locals position means empty locals; a compiled function is run directly and nothing is registered; otherwise the source is compiled with the locals as options; the result is the output, or the compile or run error |
| Adapter.Engine.RenderSync | index.js:161-169 | like render with the options, or `{}` when they are falsy, as locals; the error is returned as the value |
| Adapter.Engine.RenderFile | index.js:124-145 | a non-object (or an object with neither `_isVinyl` nor `isView`) gets "expected a vinyl file." and nothing changes; `null` and a missing `contents` throw; otherwise `file.fn`, or else `contents`, is rendered with `file.data` over the locals, and `contents` is replaced on success only |
| Adapter.Engine.InvokePartialWrapper | index.js:203-235 | the wrapper's result and the options it leaves behind are those of `Partials.PartialWrapper` |
| Adapter.Engine.MergeHash | index.js:204-209 | with a hash, the context becomes the fresh merge with the hash winning and `ids[0]` is marked; the options change in `ids` only |
| Adapter.Engine.CompileAndCache | index.js:214-216 | the null result's fallback: compile with the options, store under `options.name` in `options.partials`, then run in the merged context and pass the options after that write; a compile error leaves the options unchanged |
| Adapter.Engine.FinishPartial | index.js:219-234 | an error is passed on; a non-null output is returned, indented when there is an indent; a null one raises the not-compiled error naming the partial |
| Adapter.Engine.InvokePartialAsync | index.js:241-255 | a resolution error is passed on with the options untouched; otherwise `options.name` becomes the resolved name and the result is the wrapper's, including any error it throws |

## Left out

- The async-helpers library is represented by two parameters: `hasAsyncId` (does a name carry an id?) and `resolveIds` (resolve an id to a name, or fail). The following are not modelled:
  - how ids are generated and how placeholders in output are substituted;
  - the `.async` marker on `_invokePartial`;
  - the helper that `get('_invokePartial', {wrap: true})` hands out, which is the opaque `WrappedAsyncHelper`, called through `Runtime.callHelper`.
- The Handlebars parser, compiler, runtime and `VM.resolvePartial` are arbitrary functions, so no property of template output is claimed.
- `engine.options`, `engine.Handlebars`, the `requires` cache, `engine-utils.fromStringRenderer` and `__express` are not modelled. They contain no logic beyond loading modules and `fs.readFileSync`.
- File contents are strings: `Buffer` and `toString()` are not modelled.
- Callbacks are results. Two consequences:
  - scheduling is not modelled;
  - neither is the quirk that an exception thrown by `render`'s callback is caught and delivered to the same callback a second time.
- `for..in` visits only own properties of plain objects. The model does not capture:
  - the indexed characters of a string given as `options.partials`;
  - inherited enumerable properties;
  - the order in which keys are registered (the source promises none).
- Handlebars' own refusal to register an `undefined` partial is part of the library and is not modelled.
- An `options.indent` that is not a string (say a number) and a context that is not an object in the hash merge are not modelled. The model keeps an object context's own properties only.
- `options.ids` as an array shared with the caller is modelled as a value: other holders of the same array do not see the `ids[0]` write.
- Numbers are integers, so NaN and its falsiness do not arise.
- Adapter.Engine.InvokePartialAsync: requires an attached async-helper registry, because the source only creates this closure inside `initAsyncHelpers` once one exists and it calls that registry's `resolveIds`.
- `options.partials` is a map owned by the partial's options. When the runtime shares it with the instance's partial registry, the source's cache write becomes visible to later invocations; the model does not capture that sharing.
- Running a compiled template always yields a string or an error. A render function that returns `null` or `undefined` is not modelled, so after a successful fallback compile the wrapper's second null test and its not-compiled error are not reached in the model.
- Registries are told apart by an `id` given to the `AsyncHelpers` constructor; two registries built with the same `id` hand out closures and wrappers the model cannot distinguish.
- An absent async-helper registry is the engine's `asyncHelpers` being `null` in the model, which stands for the property being `undefined`. A registry that is JavaScript `null` passes the `undefined` test and throws a TypeError on `null.helpers`; that case is not modelled.
- Adapter.Engine.RenderFile: for a `null` argument or missing `contents`, the contract states only that a TypeError is thrown, not the engine's exact wording of its message.
