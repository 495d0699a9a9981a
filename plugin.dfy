/**
 * The Rollup plugin returned by `asc(opts)`: its configuration, the
 * `resolveId` hook that claims `asc:`-tagged specifiers, the `load` hook that
 * serves the `compileStreaming` polyfill or compiles a tagged file, and the
 * text of the module that replaces the tagged import (index.js:18-26, 44-125).
 *
 * The host bundler's side of the hooks is a `PluginContext` object that
 * records the watch files and assets the hooks hand to it.
 */
module Plugin {
  import opened Wrappers
  import opened Text
  import opened CompilerArgs
  import opened Naming

  // ---------------------------------------------------------------------
  // Constants
  // ---------------------------------------------------------------------

  /** The marker put in front of a resolved path so that `load` recognises it. */
  const MARKER: string := "asc:"

  /** The id of the virtual module holding the `compileStreaming` polyfill. */
  const SPECIAL_IMPORT: string := "__" + "rollup-plugin-assemblyscript" + "_compileStreaming"

  /** The source text `load` returns for `SPECIAL_IMPORT`. */
  const POLYFILL: string := "\n          export async function compileStreaming(respP) {\n            if('compileStreaming' in WebAssembly) {\n              return WebAssembly.compileStreaming(respP);\n            }\n            return respP\n              .then(resp => resp.arrayBuffer())\n              .then(buffer => WebAssembly.compile(buffer));\n          }\n        "

  // ---------------------------------------------------------------------
  // Matcher and configuration
  // ---------------------------------------------------------------------

  /** The characters that `.` in a JavaScript regular expression without the `s` flag does not match. */
  predicate IsLineTerminator(c: char)
  {
    c == '\n' || c == '\r' || c == '\U{2028}' || c == '\U{2029}'
  }

  predicate NoLineTerminator(s: string)
  {
    forall i :: 0 <= i < |s| ==> !IsLineTerminator(s[i])
  }

  /**
   * The `matcher` option. `PrefixMatcher` is `/^asc:(.+)$/`; a user-supplied
   * regular expression is represented by what `exec(...)[1]` gives: the
   * captured text of a match, or `None` when there is no match.
   */
  datatype Matcher = PrefixMatcher | CustomMatcher(exec: string -> Option<string>)

  /** `/^asc:(.+)$/.exec(rawId)[1]`: the non-empty, single-line rest after `asc:`. */
  function PrefixMatch(rawId: string): (m: Option<string>)
    ensures m.Some? ==> rawId == MARKER + m.value && m.value != "" && NoLineTerminator(m.value)
    ensures !StartsWith(rawId, MARKER) ==> m.None?
  {
    if StartsWith(rawId, MARKER) && |rawId| > |MARKER| && NoLineTerminator(rawId[|MARKER|..]) then
      assert rawId == MARKER + rawId[|MARKER|..];
      Some(rawId[|MARKER|..])
    else None
  }

  /** The capture group of `matcher.exec(rawId)`, or `None` when it does not match. */
  function Exec(matcher: Matcher, rawId: string): (m: Option<string>)
    ensures matcher.PrefixMatcher? && m.Some? ==> rawId == MARKER + m.value && m.value != ""
    ensures matcher.PrefixMatcher? && !StartsWith(rawId, MARKER) ==> m.None?
  {
    match matcher
    case PrefixMatcher => PrefixMatch(rawId)
    case CustomMatcher(exec) => exec(rawId)
  }

  /** The options the plugin reads after merging: `matcher` and the ordered `compilerOptions` entries. */
  datatype Config = Config(matcher: Matcher, compilerOptions: seq<OptionEntry>)

  /** The options a caller passes to `asc(...)`; an absent key is `None`. */
  datatype UserOptions = UserOptions(matcher: Option<Matcher>, compilerOptions: Option<seq<OptionEntry>>)

  /** `asc()` with no argument, or with `{}`. */
  const NO_OPTIONS: UserOptions := UserOptions(None, None)

  /** `{ ...defaultOpts, ...opts }`: every key the caller gives wins, the defaults fill the rest. */
  function Configure(user: UserOptions): (c: Config)
    ensures user.matcher.None? ==> c.matcher.PrefixMatcher?
    ensures user.matcher.Some? ==> c.matcher == user.matcher.value
    ensures user.compilerOptions.None? ==> c.compilerOptions == []
    ensures user.compilerOptions.Some? ==> c.compilerOptions == user.compilerOptions.value
  {
    Config(
      match user.matcher case Some(m) => m case None => PrefixMatcher,
      match user.compilerOptions case Some(o) => o case None => [])
  }

  /** With the default empty `compilerOptions`, the compiler is called with exactly the path and `-b`. */
  lemma DefaultParams(path: string)
    ensures Params(path, Configure(NO_OPTIONS).compilerOptions) == [path, "-b"]
  {
  }

  // ---------------------------------------------------------------------
  // resolveId
  // ---------------------------------------------------------------------

  /** What `resolveId` gives the host: a decline (`undefined`), an id, or the error thrown when the host finds nothing. */
  datatype ResolveOutcome = Declined | Resolved(id: string) | ResolutionFailed

  /** The outcome of one `resolveId` call, with the watch file it registers, if any. */
  datatype ResolveStep = ResolveStep(outcome: ResolveOutcome, watch: Option<string>)

  /**
   * `resolveId(rawId, importer)`. `hostResolve` is `this.resolve`: the id the
   * host resolves a specifier to, or `None` when it resolves to `null` (then
   * `const { id } = null` throws before any watch file is added).
   */
  function ResolveIdStep(config: Config, rawId: string, importer: Option<string>,
                         hostResolve: (string, Option<string>) -> Option<string>): (r: ResolveStep)
    ensures r.watch.Some? ==> r.outcome == Resolved(MARKER + r.watch.value)
    ensures r.watch.Some? ==> Exec(config.matcher, rawId).Some?
                              && hostResolve(Exec(config.matcher, rawId).value, importer) == r.watch
    ensures r.outcome.Resolved? && r.watch.None? ==> r.outcome.id == SPECIAL_IMPORT && rawId == SPECIAL_IMPORT
    ensures r.outcome.Declined? ==> rawId != SPECIAL_IMPORT && Exec(config.matcher, rawId).None?
  {
    if rawId == SPECIAL_IMPORT then ResolveStep(Resolved(SPECIAL_IMPORT), None)
    else
      match Exec(config.matcher, rawId)
      case None => ResolveStep(Declined, None)
      case Some(inner) =>
        match hostResolve(inner, importer)
        case None => ResolveStep(ResolutionFailed, None)
        case Some(path) => ResolveStep(Resolved(MARKER + path), Some(path))
  }

  /** The watch files one step registers. */
  function WatchList(watch: Option<string>): (files: seq<string>)
    ensures |files| <= 1
    ensures watch.Some? ==> files == [watch.value]
    ensures watch.None? ==> files == []
  {
    match watch case Some(p) => [p] case None => []
  }

  /** The polyfill id is returned as it is, whatever the matcher, and nothing is watched. */
  lemma ResolveSpecialImport(config: Config, importer: Option<string>,
                             hostResolve: (string, Option<string>) -> Option<string>)
    ensures ResolveIdStep(config, SPECIAL_IMPORT, importer, hostResolve) == ResolveStep(Resolved(SPECIAL_IMPORT), None)
  {
  }

  /** A specifier the matcher rejects (and that is not the polyfill id) is declined, and nothing is watched. */
  lemma ResolveDeclines(config: Config, rawId: string, importer: Option<string>,
                        hostResolve: (string, Option<string>) -> Option<string>)
    requires rawId != SPECIAL_IMPORT && Exec(config.matcher, rawId).None?
    ensures ResolveIdStep(config, rawId, importer, hostResolve) == ResolveStep(Declined, None)
  {
  }

  /** With the default matcher, everything not of the form `asc:<path>` is declined. */
  lemma DefaultResolveDeclinesUntagged(rawId: string, importer: Option<string>,
                                       hostResolve: (string, Option<string>) -> Option<string>)
    requires rawId != SPECIAL_IMPORT && !StartsWith(rawId, MARKER)
    ensures ResolveIdStep(Configure(NO_OPTIONS), rawId, importer, hostResolve) == ResolveStep(Declined, None)
  {
  }

  /** A matched specifier whose capture the host resolves to `path` watches `path` once and becomes `asc:path`. */
  lemma ResolveMatched(config: Config, rawId: string, importer: Option<string>,
                       hostResolve: (string, Option<string>) -> Option<string>, path: string)
    requires rawId != SPECIAL_IMPORT && Exec(config.matcher, rawId).Some?
    requires hostResolve(Exec(config.matcher, rawId).value, importer) == Some(path)
    ensures ResolveIdStep(config, rawId, importer, hostResolve) == ResolveStep(Resolved(MARKER + path), Some(path))
    ensures WatchList(ResolveIdStep(config, rawId, importer, hostResolve).watch) == [path]
  {
  }

  /** The default matcher takes `asc:<inner>` exactly when `inner` is non-empty and on one line, and captures `inner`. */
  lemma PrefixMatchMarked(inner: string)
    ensures PrefixMatch(MARKER + inner) == if inner != "" && NoLineTerminator(inner) then Some(inner) else None
  {
  }

  /** A specifier the host cannot resolve makes `resolveId` fail before it watches anything. */
  lemma ResolveFailsWithoutWatch(config: Config, rawId: string, importer: Option<string>,
                                 hostResolve: (string, Option<string>) -> Option<string>)
    requires ResolveIdStep(config, rawId, importer, hostResolve).outcome.ResolutionFailed?
    ensures ResolveIdStep(config, rawId, importer, hostResolve).watch.None?
    ensures Exec(config.matcher, rawId).Some? && hostResolve(Exec(config.matcher, rawId).value, importer).None?
  {
  }

  // ---------------------------------------------------------------------
  // load
  // ---------------------------------------------------------------------

  /** What `load(id)` sets out to do before it calls the compiler. */
  datatype LoadPlan =
    | NotMine
    | ServePolyfill
    | Compile(path: string, assetName: string, params: seq<string>)

  /** `load(id)` up to the compiler call: polyfill first, then the marker test, then strip and name. */
  function PlanLoad(config: Config, id: string): (plan: LoadPlan)
    ensures plan.NotMine? <==> id != SPECIAL_IMPORT && !StartsWith(id, MARKER)
    ensures plan.ServePolyfill? <==> id == SPECIAL_IMPORT
    ensures plan.Compile? ==> id == MARKER + plan.path
  {
    if id == SPECIAL_IMPORT then ServePolyfill
    else if !StartsWith(id, MARKER) then NotMine
    else
      var path := id[|MARKER|..];
      assert id == MARKER + path;
      Compile(path, AssetName(StripExtension(BaseName(path))), Params(path, config.compilerOptions))
  }

  /** The polyfill id does not carry the marker, so the two tests of `load` never both apply. */
  lemma SpecialImportUnmarked()
    ensures !StartsWith(SPECIAL_IMPORT, MARKER)
  {
    assert SPECIAL_IMPORT[..|MARKER|][0] != MARKER[0];
  }

  /**
   * Handing `load` the id that `resolveId` produced for a tagged specifier
   * compiles exactly the path the host resolved and watched, names the asset
   * after that path's base name, and passes the configured options.
   */
  lemma ResolveLoadRoundTrip(config: Config, rawId: string, importer: Option<string>,
                             hostResolve: (string, Option<string>) -> Option<string>)
    requires rawId != SPECIAL_IMPORT
    requires ResolveIdStep(config, rawId, importer, hostResolve).outcome.Resolved?
    ensures var step := ResolveIdStep(config, rawId, importer, hostResolve);
            var plan := PlanLoad(config, step.outcome.id);
            && step.watch.Some?
            && plan == Compile(step.watch.value,
                               AssetName(StripExtension(BaseName(step.watch.value))),
                               Params(step.watch.value, config.compilerOptions))
  {
    var step := ResolveIdStep(config, rawId, importer, hostResolve);
    var path := step.watch.value;
    StartsWithConcat(MARKER, path);
    assert step.outcome.id != SPECIAL_IMPORT by {
      SpecialImportUnmarked();
    }
  }

  /** The text ahead of the reference id in the synthesized module; it imports `compileStreaming` from the polyfill. */
  const IMPORT_PREFIX: string := "\n        import {compileStreaming} from \""
  const MODULE_HEAD: string := IMPORT_PREFIX + SPECIAL_IMPORT + "\";\n        const wasmUrl = import.meta.ROLLUP_FILE_URL_"

  /** The text after the reference id: the lazy module and instance promises and the exports. */
  const MODULE_TAIL: string := "\n        const modulePromise = /*@__PURE__*/(() => compileStreaming(fetch(wasmUrl)))();\n        const instancePromise = /*@__PURE__*/(() => modulePromise.then(module => WebAssembly.instantiate(module, {})))();\n        export default wasmUrl;\n        export {wasmUrl, modulePromise, instancePromise};\n      "

  /** The module that replaces a tagged import, for the asset with `referenceId`. */
  function ModuleText(referenceId: string): (text: string)
    ensures |text| == |MODULE_HEAD| + |referenceId| + |MODULE_TAIL|
    ensures text[..|IMPORT_PREFIX| + |SPECIAL_IMPORT|] == IMPORT_PREFIX + SPECIAL_IMPORT
  {
    MODULE_HEAD + referenceId + MODULE_TAIL
  }

  /** The reference id a synthesized module points at, if `text` is one. */
  function ReferenceIdOf(text: string): Option<string>
  {
    if |text| >= |MODULE_HEAD| + |MODULE_TAIL| && StartsWith(text, MODULE_HEAD)
       && text[|text| - |MODULE_TAIL|..] == MODULE_TAIL
    then Some(text[|MODULE_HEAD|..|text| - |MODULE_TAIL|])
    else None
  }

  /** The synthesized module names exactly the asset it was made for. */
  lemma ModuleTextRoundTrip(referenceId: string)
    ensures ReferenceIdOf(ModuleText(referenceId)) == Some(referenceId)
  {
  }

  /** Different assets give different modules. */
  lemma ModuleTextInjective(a: string, b: string)
    requires ModuleText(a) == ModuleText(b)
    ensures a == b
  {
    ModuleTextRoundTrip(a);
    ModuleTextRoundTrip(b);
  }

  /**
   * The synthesized module imports from the polyfill id, and this plugin
   * serves that import itself: `resolveId` keeps the id and `load` returns
   * the polyfill.
   */
  lemma ModuleImportIsServed(config: Config, referenceId: string, importer: Option<string>,
                             hostResolve: (string, Option<string>) -> Option<string>)
    ensures var text := ModuleText(referenceId);
            text[|IMPORT_PREFIX|..|IMPORT_PREFIX| + |SPECIAL_IMPORT|] == SPECIAL_IMPORT
    ensures ResolveIdStep(config, SPECIAL_IMPORT, importer, hostResolve).outcome == Resolved(SPECIAL_IMPORT)
    ensures PlanLoad(config, SPECIAL_IMPORT) == ServePolyfill
  {
  }

  // ---------------------------------------------------------------------
  // Host state and the hooks
  // ---------------------------------------------------------------------

  newtype byte = x: int | 0 <= x < 256

  /** An asset handed to `emitFile`, with the reference id the host gave it. */
  datatype Asset = Asset(referenceId: string, name: string, source: seq<byte>)

  /** What `load` returns: `undefined` or module source text. */
  datatype LoadResult = NotHandled | Code(text: string)

  /** The host's plugin context (`this` in a hook), reduced to what the hooks change. */
  class PluginContext {
    /** Paths passed to `addWatchFile`, oldest first. */
    var watchFiles: seq<string>
    /** Assets passed to `emitFile`, oldest first. */
    var emittedAssets: seq<Asset>
    /** The host's choice of reference id for the n-th emitted asset. */
    const mintReferenceId: nat -> string

    constructor (mint: nat -> string)
      ensures watchFiles == [] && emittedAssets == [] && mintReferenceId == mint
    {
      watchFiles := [];
      emittedAssets := [];
      mintReferenceId := mint;
    }

    /** `this.addWatchFile(path)`. */
    method AddWatchFile(path: string)
      modifies this`watchFiles
      ensures watchFiles == old(watchFiles) + [path]
    {
      watchFiles := watchFiles + [path];
    }

    /** `this.emitFile({ type: "asset", name, source })`. */
    method EmitFile(name: string, source: seq<byte>) returns (referenceId: string)
      modifies this`emittedAssets
      ensures referenceId == mintReferenceId(|old(emittedAssets)|)
      ensures emittedAssets == old(emittedAssets) + [Asset(referenceId, name, source)]
    {
      referenceId := mintReferenceId(|emittedAssets|);
      emittedAssets := emittedAssets + [Asset(referenceId, name, source)];
    }
  }

  /** The plugin object `asc(opts)` returns. */
  class AscPlugin {
    const config: Config

    /** `asc(opts)`: merge the caller's options over the defaults. */
    constructor (user: UserOptions)
      ensures config == Configure(user)
    {
      config := Configure(user);
    }

    /** The `resolveId` hook. */
    method ResolveId(ctx: PluginContext, rawId: string, importer: Option<string>,
                     hostResolve: (string, Option<string>) -> Option<string>) returns (r: ResolveOutcome)
      modifies ctx
      ensures r == ResolveIdStep(config, rawId, importer, hostResolve).outcome
      ensures ctx.watchFiles == old(ctx.watchFiles) + WatchList(ResolveIdStep(config, rawId, importer, hostResolve).watch)
      ensures ctx.emittedAssets == old(ctx.emittedAssets)
    {
      if rawId == SPECIAL_IMPORT {
        return Resolved(SPECIAL_IMPORT);
      }
      var matches := Exec(config.matcher, rawId);
      if matches.None? {
        return Declined;
      }
      var resolved := hostResolve(matches.value, importer);
      if resolved.None? {
        return ResolutionFailed;
      }
      var id := resolved.value;
      ctx.AddWatchFile(id);
      return Resolved(MARKER + id);
    }

    /**
     * The `load` hook. `compile` is what the compiler writes to its output
     * stream for an argument list: the binary, since `-b` has no file.
     */
    method Load(ctx: PluginContext, id: string, compile: seq<string> -> seq<byte>) returns (r: LoadResult)
      modifies ctx
      ensures ctx.watchFiles == old(ctx.watchFiles)
      ensures match PlanLoad(config, id)
              case NotMine =>
                r == NotHandled && ctx.emittedAssets == old(ctx.emittedAssets)
              case ServePolyfill =>
                r == Code(POLYFILL) && ctx.emittedAssets == old(ctx.emittedAssets)
              case Compile(path, assetName, params) =>
                var referenceId := ctx.mintReferenceId(|old(ctx.emittedAssets)|);
                && ctx.emittedAssets == old(ctx.emittedAssets) + [Asset(referenceId, assetName, compile(params))]
                && r == Code(ModuleText(referenceId))
    {
      if id == SPECIAL_IMPORT {
        return Code(POLYFILL);
      }
      if !StartsWith(id, MARKER) {
        return NotHandled;
      }
      var path := id[|MARKER|..];
      var fileName := StripExtension(BaseName(path));
      var params := Params(path, config.compilerOptions);
      var binary := compile(params);
      var referenceId := ctx.EmitFile(AssetName(fileName), binary);
      return Code(ModuleText(referenceId));
    }
  }
}
