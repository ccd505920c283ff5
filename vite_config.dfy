/**
 * The `dotnetPaths` Vite plugin of web/vite.config.ts. Its `options` hook
 * makes every `importPrefix` module and the `node-api-dotnet` package
 * external to the bundle, deferring to the project's own `external` option
 * for anything else; its `outputOptions` hook rewrites `<importPrefix><name>`
 * imports to `<outDir>/<name>.mjs`, deferring to the project's own `paths`
 * option for anything else.
 */
module ViteConfig {
  import opened Wrappers

  const DotnetNodeApiPackageId: string := "node-api-dotnet"

  /** The plugin's arguments. */
  datatype PluginOptions = PluginOptions(importPrefix: string, outDir: string)

  /** `String.prototype.startsWith`, compared character by character. */
  function StartsWith(s: string, prefix: string): (r: bool)
    ensures r <==> prefix <= s
  {
    if prefix == [] then true
    else if s == [] then false
    else s[0] == prefix[0] && StartsWith(s[1..], prefix[1..])
  }

  /** `s.slice(n)` for 0 <= n: the characters from index n on. */
  function Slice(s: string, n: nat): (r: string)
    ensures n <= |s| ==> s[..n] + r == s
    ensures n > |s| ==> r == []
  {
    if n <= |s| then s[n..] else []
  }

  // ---------------------------------------------------------------------
  // Rollup's `external` option and the plugin's wrapper around it.
  // ---------------------------------------------------------------------

  /** An element of an `external` array: a module id or a RegExp. */
  datatype ExternalItem = ItemString(id: string) | ItemRegExp(source: string)

  /**
   * A user `external` function `(source, importer, isResolved)`, returning
   * `boolean | null | undefined`; null and undefined are `None`.
   */
  type ExternalFunction = (string, Option<string>, bool) -> Option<bool>

  /** Rollup's `ExternalOption`, or its absence (`undefined`). */
  datatype ExternalOption =
    | ExternalUndefined
    | ExternalFn(f: ExternalFunction)
    | ExternalArray(items: seq<ExternalItem>)
    | ExternalString(s: string)
    | ExternalRegExp(source: string)
  {
    /** JavaScript's `!existing`: undefined and the empty string are falsy. */
    predicate Falsy() {
      ExternalUndefined? || (ExternalString? && s == "")
    }
  }

  /** JavaScript's `!!v` for a `boolean | null | undefined` result. */
  predicate Truthy(v: Option<bool>) {
    v == Some(true)
  }

  /**
   * `items.includes(id)`: SameValueZero comparison, under which a string
   * equals only an identical string and never a RegExp.
   */
  function Includes(items: seq<ExternalItem>, id: string): (r: bool)
    ensures r <==> ItemString(id) in items
  {
    if items == [] then false
    else items[0] == ItemString(id) || Includes(items[1..], id)
  }

  /** The ids the plugin always treats as external, whatever the option says. */
  predicate ForcedExternal(opts: PluginOptions, id: string) {
    opts.importPrefix <= id || DotnetNodeApiPackageId <= id
  }

  /**
   * The closure built by `makeExternalWrapper(existing)`, applied to
   * `(id, parentId, isResolved)`.
   */
  function IsExternal(opts: PluginOptions, existing: ExternalOption,
                      id: string, parentId: Option<string>, isResolved: bool): (r: bool)
    ensures ForcedExternal(opts, id) ==> r
    ensures !ForcedExternal(opts, id) && existing.ExternalUndefined? ==> !r
    ensures !ForcedExternal(opts, id) && existing.ExternalFn? ==>
              (r <==> existing.f(id, parentId, isResolved) == Some(true))
    ensures !ForcedExternal(opts, id) && existing.ExternalArray? ==>
              (r <==> ItemString(id) in existing.items)
    ensures !ForcedExternal(opts, id) && (existing.ExternalString? || existing.ExternalRegExp?) ==> !r
  {
    if StartsWith(id, opts.importPrefix) || StartsWith(id, DotnetNodeApiPackageId) then true
    else if existing.Falsy() then false
    else match existing
      case ExternalFn(f) => Truthy(f(id, parentId, isResolved))
      case ExternalArray(items) => Includes(items, id)
      case _ => false
  }

  /** `makeExternalWrapper(existing)`: the function installed as `external`. */
  function MakeExternalWrapper(opts: PluginOptions, existing: ExternalOption): (w: ExternalFunction)
    ensures forall id, parentId, isResolved :: w(id, parentId, isResolved).Some?
    ensures forall id, parentId, isResolved ::
              ForcedExternal(opts, id) ==> w(id, parentId, isResolved) == Some(true)
  {
    (id: string, parentId: Option<string>, isResolved: bool) =>
      Some(IsExternal(opts, existing, id, parentId, isResolved))
  }

  /** Rollup's input options: `external` and every other field, kept as `rest`. */
  datatype InputOptions<R> = InputOptions(external: ExternalOption, rest: R)

  /**
   * The `options` hook: `{ ...ro, external: makeExternalWrapper(ro.external) }`.
   * It replaces `external` by a function that decides exactly as the plugin's
   * rule over the old option does, and leaves every other field as it was.
   */
  function OptionsHook<R>(opts: PluginOptions, ro: InputOptions<R>): (r: InputOptions<R>)
    ensures r.rest == ro.rest
    ensures r.external.ExternalFn?
    ensures forall id, parentId, isResolved ::
              r.external.f(id, parentId, isResolved) == Some(IsExternal(opts, ro.external, id, parentId, isResolved))
  {
    InputOptions(ExternalFn(MakeExternalWrapper(opts, ro.external)), ro.rest)
  }

  /**
   * Running the `options` hook a second time (the plugin registered twice)
   * decides every id exactly as running it once does.
   */
  lemma OptionsHookIdempotent<R>(opts: PluginOptions, ro: InputOptions<R>,
                                 id: string, parentId: Option<string>, isResolved: bool)
    ensures IsExternal(opts, OptionsHook(opts, ro).external, id, parentId, isResolved)
         == IsExternal(opts, ro.external, id, parentId, isResolved)
  {
    var once := OptionsHook(opts, ro);
    if !ForcedExternal(opts, id) {
      assert once.external.f(id, parentId, isResolved) == Some(IsExternal(opts, ro.external, id, parentId, isResolved));
    }
  }

  // ---------------------------------------------------------------------
  // Rollup's `output.paths` option and the plugin's wrapper around it.
  // ---------------------------------------------------------------------

  /** Rollup's `OptionsPaths`: a record or a function from id to path, or absent. */
  datatype OptionsPaths =
    | PathsUndefined
    | PathsFn(f: string -> string)
    | PathsRecord(entries: map<string, string>)

  /** `path.join(dir, file)`, without its normalisation of `.`/`..` segments and repeated separators. */
  function Join(dir: string, file: string): string {
    dir + "/" + file
  }

  /**
   * The `baseMapper` of `wrapPaths`: a function `paths` is called as it is;
   * otherwise `(paths && paths[id]) || ''`, in which a missing key, an empty
   * (falsy) value and an absent record all give ''.
   */
  function BaseMapper(paths: OptionsPaths, id: string): (r: string)
    ensures paths.PathsFn? ==> r == paths.f(id)
    ensures paths.PathsRecord? ==> r == if id in paths.entries then paths.entries[id] else ""
    ensures paths.PathsUndefined? ==> r == ""
  {
    match paths
    case PathsFn(f) => f(id)
    case PathsRecord(entries) =>
      var looked := if id in entries then Some(entries[id]) else None;
      if looked.Some? && looked.value != "" then looked.value else ""
    case PathsUndefined => ""
  }

  /** The closure built by `wrapPaths(paths)`, applied to `id`. */
  function ResolvePath(opts: PluginOptions, paths: OptionsPaths, id: string): (r: string)
    ensures opts.importPrefix <= id ==>
              r == Join(opts.outDir, id[|opts.importPrefix|..] + ".mjs")
    ensures !(opts.importPrefix <= id) ==> r == BaseMapper(paths, id)
  {
    if StartsWith(id, opts.importPrefix) then
      var name := Slice(id, |opts.importPrefix|);
      Join(opts.outDir, name + ".mjs")
    else
      BaseMapper(paths, id)
  }

  /** `wrapPaths(paths)`: the function installed as `output.paths`. */
  function WrapPaths(opts: PluginOptions, paths: OptionsPaths): (w: string -> string)
    ensures forall id :: opts.importPrefix <= id ==>
              w(id) == Join(opts.outDir, id[|opts.importPrefix|..] + ".mjs")
    ensures forall id :: !(opts.importPrefix <= id) ==> w(id) == BaseMapper(paths, id)
  {
    (id: string) => ResolvePath(opts, paths, id)
  }

  /**
   * A prefixed id is mapped by the prefix rule alone: the existing `paths`
   * option is never consulted for it.
   */
  lemma PrefixedPathIgnoresExisting(opts: PluginOptions, p1: OptionsPaths, p2: OptionsPaths, name: string)
    ensures ResolvePath(opts, p1, opts.importPrefix + name) == ResolvePath(opts, p2, opts.importPrefix + name)
         == Join(opts.outDir, name + ".mjs")
  {
    var id := opts.importPrefix + name;
    assert opts.importPrefix <= id;
    assert id[|opts.importPrefix|..] == name;
  }

  /** Rollup's output options: `paths` and every other field, kept as `rest`. */
  datatype OutputOptions<R> = OutputOptions(paths: OptionsPaths, rest: R)

  /**
   * The `outputOptions` hook: `{ ...output, paths: wrapPaths(output.paths) }`.
   * It replaces `paths` by the plugin's mapping over the old option and leaves
   * every other field as it was.
   */
  function OutputOptionsHook<R>(opts: PluginOptions, output: OutputOptions<R>): (r: OutputOptions<R>)
    ensures r.rest == output.rest
    ensures r.paths.PathsFn?
    ensures forall id :: r.paths.f(id) == ResolvePath(opts, output.paths, id)
  {
    OutputOptions(PathsFn(WrapPaths(opts, output.paths)), output.rest)
  }

  /** Running the `outputOptions` hook twice maps every id as running it once does. */
  lemma OutputOptionsHookIdempotent<R>(opts: PluginOptions, output: OutputOptions<R>, id: string)
    ensures ResolvePath(opts, OutputOptionsHook(opts, output).paths, id)
         == ResolvePath(opts, output.paths, id)
  {
    var once := OutputOptionsHook(opts, output);
    if !(opts.importPrefix <= id) {
      assert once.paths.f(id) == ResolvePath(opts, output.paths, id);
    }
  }

  /**
   * The plugin as the project configures it (`importPrefix: "lib/"`): a
   * `lib/` module is external and bundled as `<outDir>/<name>.mjs`, and so is
   * the `node-api-dotnet` package, whatever the other options say.
   */
  lemma ProjectConfiguration(outDir: string, existing: ExternalOption, paths: OptionsPaths,
                             name: string, parentId: Option<string>, isResolved: bool)
    ensures IsExternal(PluginOptions("lib/", outDir), existing, "lib/" + name, parentId, isResolved)
    ensures IsExternal(PluginOptions("lib/", outDir), existing, DotnetNodeApiPackageId, parentId, isResolved)
    ensures ResolvePath(PluginOptions("lib/", outDir), paths, "lib/" + name) == outDir + "/" + name + ".mjs"
  {
    var opts := PluginOptions("lib/", outDir);
    assert opts.importPrefix <= "lib/" + name;
    PrefixedPathIgnoresExisting(opts, paths, paths, name);
  }
}
