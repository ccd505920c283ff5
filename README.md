# dotnet-ssr: a Dafny model of the server-rendering bridge

The system renders React Router pages on the server from an ASP.NET Core
host. The host embeds a Node.js runtime through `node-api-dotnet`. For each
request, `NodeSsrHost.RenderAsync` imports the server bundle, builds a
JavaScript request object and calls the bundle's default export. It then
turns the settled `Response` into a status and an HTML string. When the
bundle is built, the `dotnetPaths` Vite plugin keeps the .NET interop
modules (`lib/…` and the `node-api-dotnet` package) out of the bundle and
rewrites the `lib/…` import paths to `<outDir>/<name>.mjs`. The one host function exposed to JavaScript
is `SharedMath.Add`.

The model has five modules:

- `Wrappers` (wrappers.dfy): `Option` and `Result`.
- `CsInt` (cs_int.dfy): C#'s 32-bit `int` and unchecked wrap-around.
- `SharedMath` (shared_math.dfy): `Add` and its algebra.
- `ViteConfig` (vite_config.dfy): the plugin's `external` and `paths`
  rules and its two hooks. These are pure functions, like the closures
  they model. Every other field of Rollup's option objects is a generic
  `rest` that the hooks must carry over unchanged.
- `SsrHost` (ssr_host.dfy): header flattening and rendering.
  - `ToJSMap` is an imperative method with nested loops. It fills a
    `JSArray` and a `JSMap` class in place.
  - The spec function of `ToJSMap` is `Collect`, one JS `Map.set` per
    header.
  - `NodeSsrHost.RenderAsync` is a method on a class that holds the
    embedded runtime. The runtime is an opaque input: a function from a
    module specifier to that module's default export.
  - A ghost import log records every import, so the model can state that
    the module is imported on every call.
  - The result shaping is the function `ShapeResult`.

What the bridge does, as the code is written:

- `RenderAsync` imports the server module on every call
  (src/server/NodeSsrHost.cs:45).
- It reads the whole response body with `text()`
  (src/server/NodeSsrHost.cs:75-76).
- It creates an `AbortController` and passes its signal to the handler, but
  never aborts it (src/server/NodeSsrHost.cs:51-52).
- It returns a status and HTML only. The endpoint sets the content type
  (src/server/Program.cs:57), and that endpoint is not part of this model.

## Model

| member | source | states |
|---|---|---|
| CsInt.WrapInt32 | src/shared-lib/SharedMath.cs:9 | the unchecked C# result is congruent to the exact value modulo 2^32, and equals it exactly when the value fits in an `int` |
| CsInt.CongruentInt32Equal | src/shared-lib/SharedMath.cs:9 | two `int`s congruent modulo 2^32 are equal, so the wrapped result is unique |
| SharedMath.Add | src/shared-lib/SharedMath.cs:9 | `Add(a, b)` is congruent to `a + b` modulo 2^32, and equals `a + b` if and only if the sum fits in an `int` |
| SharedMath.AddCommutative | src/shared-lib/SharedMath.cs:9 | `Add(a, b) == Add(b, a)` |
| SharedMath.AddZeroIdentity | src/shared-lib/SharedMath.cs:9 | 0 is a left and right identity |
| SharedMath.AddAssociative | src/shared-lib/SharedMath.cs:9 | wrap-around addition is associative, also when an intermediate sum overflows |
| SharedMath.AddOverflowWraps | src/shared-lib/SharedMath.cs:9 | `int.MaxValue + 1` wraps to `int.MinValue` |
| SharedMath.AddTwoTwo | web/app/routes/home.tsx:24 | the loader's `add(2, 2)` is 4 |
| ViteConfig.StartsWith | web/vite.config.ts:18 | `startsWith` holds exactly when the prefix is a sequence prefix of the id |
| ViteConfig.Slice | web/vite.config.ts:41 | `slice(n)` yields the characters after the first n, so prefix plus rest is the id |
| ViteConfig.Includes | web/vite.config.ts:27-29 | `includes(id)` on an `external` array holds exactly when the array holds the string `id`; RegExp elements never match |
| ViteConfig.IsExternal | web/vite.config.ts:16-31 | an id with the import prefix or the `node-api-dotnet` prefix is external whatever the option says; otherwise it is not external with no option, with a string or with a RegExp; it follows a function option's result coerced to boolean; it is external when an array option holds exactly that id |
| ViteConfig.MakeExternalWrapper | web/vite.config.ts:16-32 | `makeExternalWrapper(existing)` returns a function that never yields null or undefined and says true for every forced id; `OptionsHook` pins down its result for every id as `IsExternal` over `existing` |
| ViteConfig.OptionsHook | web/vite.config.ts:52-57 | `options` keeps every other field, and installs an `external` function that decides every id as `IsExternal` over the old option |
| ViteConfig.OptionsHookIdempotent | web/vite.config.ts:52-57 | applying the `external` wrapper a second time decides every id as the first application does |
| ViteConfig.BaseMapper | web/vite.config.ts:35-37 | a function `paths` is called unchanged; a record gives its entry for the id, or `''` when the key is missing; an absent option gives `''` |
| ViteConfig.ResolvePath | web/vite.config.ts:39-46 | an id with the import prefix maps to `join(outDir, <rest> + ".mjs")`; every other id goes to the base mapper |
| ViteConfig.WrapPaths | web/vite.config.ts:34-47 | `wrapPaths(paths)` returns a function that maps a prefixed id to `join(outDir, <rest> + ".mjs")` and hands every other id to the base mapper over `paths`; `OutputOptionsHook` installs it |
| ViteConfig.PrefixedPathIgnoresExisting | web/vite.config.ts:39-45 | for `importPrefix + name` the result is `join(outDir, name + ".mjs")`, whatever the existing `paths` option is |
| ViteConfig.OutputOptionsHook | web/vite.config.ts:58-63 | `outputOptions` keeps every other field, and installs a `paths` function that maps every id as `ResolvePath` over the old option |
| ViteConfig.OutputOptionsHookIdempotent | web/vite.config.ts:58-63 | applying the `paths` wrapper a second time maps every id as the first application does |
| ViteConfig.ProjectConfiguration | web/vite.config.ts:69-72 | with the project's `lib/` prefix, `lib/<name>` and `node-api-dotnet` are external, and `lib/<name>` maps to `<outDir>/<name>.mjs` |
| SsrHost.NonNull | src/server/NodeSsrHost.cs:97-104 | the array of a header is never longer than its values |
| SsrHost.NonNullMembers | src/server/NodeSsrHost.cs:97-104 | the array holds a string exactly when the header holds it as a non-null value |
| SsrHost.NonNullAppend | src/server/NodeSsrHost.cs:98-104 | the filter distributes over concatenation, so the non-null values keep their original order |
| SsrHost.NonNullAllNull | src/server/NodeSsrHost.cs:97-105 | a header whose values are all null gets an empty array |
| SsrHost.NonNullNoNull | src/server/NodeSsrHost.cs:98-104 | a header without nulls keeps every value, at the same position |
| SsrHost.KeysOf | src/server/NodeSsrHost.cs:105 | the Map's keys, one per entry, in insertion order |
| SsrHost.Lookup | src/server/NodeSsrHost.cs:105 | `get(k)` finds a value exactly when `k` is one of the Map's keys, and the value found is stored under `k` |
| SsrHost.Put | src/server/NodeSsrHost.cs:105 | `set(k, v)` with a key not yet in the Map appends the entry at the end |
| SsrHost.PutKeys | src/server/NodeSsrHost.cs:105 | `set(k, v)` keeps the key order for a known key and appends a new key last |
| SsrHost.PutLookup | src/server/NodeSsrHost.cs:105 | after `set(k, v)`, `k` maps to `v` and every other key keeps its value |
| SsrHost.Collect | src/server/NodeSsrHost.cs:91-108 | the Map `ToJSMap` builds, one `set` per header in dictionary order; it has at most one entry per header, and `CollectOnePerKey`, `CollectLookup` and `CollectKeysDistinct` pin down its contents |
| SsrHost.CollectKeysDistinct | src/server/NodeSsrHost.cs:91-108 | whatever the headers, the Map holds each key at most once |
| SsrHost.CollectOnePerKey | src/server/NodeSsrHost.cs:91-108 | for a header dictionary, the Map has one entry per header, in dictionary order, with the key unchanged and the header's non-null values in order |
| SsrHost.CollectLookup | src/server/NodeSsrHost.cs:91-108 | looking a header key up in the Map gives that header's non-null values; a key that is not a header is absent |
| SsrHost.CollectLookupPresent | src/server/NodeSsrHost.cs:97-105 | for a header dictionary, the key of each header looks up that header's non-null values |
| SsrHost.CollectLookupAbsent | src/server/NodeSsrHost.cs:91-108 | a key that no header carries is absent from the Map |
| SsrHost.JSArray.constructor | src/server/NodeSsrHost.cs:97 | a new array is empty |
| SsrHost.JSArray.Add | src/server/NodeSsrHost.cs:102 | `Add` appends one value at the end |
| SsrHost.JSMap.constructor | src/server/NodeSsrHost.cs:93 | a new Map is empty |
| SsrHost.JSMap.Add | src/server/NodeSsrHost.cs:105 | `Add(key, value)` is `Put` on the entries |
| SsrHost.ToJSMap | src/server/NodeSsrHost.cs:91-109 | the nested loops produce a fresh Map whose entries are `Collect(h)`: one `set` per header in order, each holding that header's non-null values |
| SsrHost.ShapeResult | src/server/NodeSsrHost.cs:55-81 | an exception thrown by the handler call propagates; a non-promise raises `InvalidOperationException` with the source's message; a rejection propagates; a result exists exactly when the promise fulfils, with the response's status and its body text, or `<div>No body</div>` when the body is null or undefined |
| SsrHost.RequestRecord | src/server/NodeSsrHost.cs:46-52 | the request object has the request's display URL and method, at most one header entry per header, and a signal that is not aborted; `RequestRecordFields` pins down the headers |
| SsrHost.RequestRecordFields | src/server/NodeSsrHost.cs:46-52 | the handler's request has the display URL, the method, one header entry per key with its non-null values, and a signal from a fresh AbortController that is not aborted |
| SsrHost.NodeSsrHost.constructor | src/server/NodeSsrHost.cs:18-31 | the host starts with its runtime and no module imported yet |
| SsrHost.NodeSsrHost.ImportAsync | src/server/NodeSsrHost.cs:45 | the import is logged, and yields the runtime's default export for the specifier |
| SsrHost.NodeSsrHost.RenderAsync | src/server/NodeSsrHost.cs:41-83 | every call imports `./build/server/index.js` once more, and its result is `ShapeResult` of that module's handler applied to the request record |
| SsrHost.RenderTwice | src/server/NodeSsrHost.cs:43-45 | two renders import the server module twice: nothing caches the handler between calls |

## Left out

- NodeSsrHost embedding: choosing the platform, creating the runtime and
  its `MainScript` require shim, the inspector started under a debugger,
  `RunAsync` thread marshalling and `DisposeAsync`. These are foreign calls
  and concurrency. The runtime is a constructor parameter instead.
- SsrHost.NodeSsrHost.RenderAsync: the handler is a pure function of the
  request record. A real handler can also read its own state or the clock,
  so two calls with the same request may differ; the model does not capture
  that. The runtime is a function too, which matches Node's module cache
  returning the same module for the same specifier.
- Import failures of `ImportAsync`, and a server module without a callable
  `default` export, are not modelled. Both are JavaScript exceptions raised
  inside the runtime. The model's runtime always yields a handler.
- JS value marshalling is not modelled: the `(int)res["status"]`
  conversion, `As<JSPromise>`, `text()` and awaiting promises. The status
  arrives as an `int`, and the body as its text or as absent.
- A rejection of the `text()` promise is not modelled.
- The Map's value arrays are stored by value. The source stores references
  to `JSArray` objects, but each array is complete and never changed once
  it is added, so the contents are the same.
- `IHeaderDictionary` compares keys case-insensitively. The model asks only
  that the keys are distinct, and compares them exactly.
- ViteConfig.Join: `path.join` normalisation (`..` and `.` segments,
  repeated separators) is not modelled. The join is plain `dir + "/" + file`.
- ViteConfig.BaseMapper: a record lookup that would find an inherited
  property of `Object.prototype` (such as `toString`) is not modelled. The
  record is a plain map.
- Rollup's `boolean | NullValue` result of a user `external` function is an
  `Option<bool>`. Any other value a JavaScript function might return is not
  modelled.
- src/server/Program.cs: the endpoint that writes the result with content
  type `text/html; charset=utf-8`, host setup and static files. This is
  framework I/O.
- web/app/routes: the React components, the loaders and the route table.
  These are UI and timer-driven async code.
- `[JSExport]` marshalling and argument type checks for `SharedMath`. These
  belong to the interop library.
- Body streaming, backpressure and cancellation are not modelled: the code
  does none of them.
