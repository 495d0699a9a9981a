# rollup-plugin-assemblyscript, modelled in Dafny

This project models the pure string and id logic of the Rollup plugin in
`index.js` that lets a module import an AssemblyScript file as
`asc:./file.ts`. It covers four parts:

- **Option serialiser.** The ordered `compilerOptions` entries become compiler
  arguments: any boolean gives `--name`, anything else gives `--name=value`. The full
  argument list is `[path, "-b", ...options]`.
- **`resolveId` hook.** The polyfill id passes through unchanged. A specifier
  the matcher rejects is declined. A matched specifier's capture is resolved by the host,
  registered as a watch file and returned as `asc:` + path.
- **`load` hook.** The polyfill id gets the polyfill source. An id without the
  `asc:` marker is declined. Otherwise the marker is stripped, the compiler is
  called, one asset named `<base name without extension>.wasm` is emitted, and
  the synthesized module text is returned.
- **Option defaults.** `{ ...defaultOpts, ...opts }`: the default matcher is
  `/^asc:(.+)$/` and the default `compilerOptions` is empty.

Files:

- `wrappers.dfy`: `Option`.
- `text.dfy`: prefix tests, first and last index of a character, and decimal rendering of integers with its inverse.
- `compiler_args.dfy`: option values, the serialiser, the parameter list, and a reader for the arguments it produces.
- `naming.dfy`: base name, extension stripping, and a literal reading of the regular expression to check it against.
- `plugin.dfy`: the constants, the matcher, the defaults merge, the `resolveId`
  and `load` specifications, the synthesized module text, and two classes.
  `PluginContext` is the host's side: `addWatchFile` and `emitFile` append to its
  `watchFiles` and `emittedAssets`. `AscPlugin` holds the merged configuration and the two hooks as methods.

The host's `this.resolve` is a function parameter. It returns `None` where Rollup
resolves to `null`; the destructuring `const { id } = ...` then throws before any watch
file is added. The compiler is also a function parameter, from the argument list to the
bytes it writes to its output stream. The host's reference id for the n-th
emitted asset is the context's `mintReferenceId(n)`.

Any boolean, `false` included, renders as `--name`, because index.js:87 tests
`typeof val === "boolean"` (`CompilerArgs.BooleanRendersAsFlag`).

Integer option values are limited to magnitudes up to 2^53 (`CompilerArgs.SafeInteger`),
the range where a JavaScript number holds the integer exactly and `${val}` writes its exact decimal.

## Model

| member | source | states |
|---|---|---|
| `Text.StartsWith` | index.js:74 | an id that passes the test is the prefix followed by the rest; `StartsWithConcat` gives the converse |
| `Text.StartsWithConcat` | index.js:74 | `prefix + rest` starts with `prefix`, and slicing off the prefix gives back `rest` |
| `Text.IntToDecimal` | index.js:90 | the text is non-empty, starts with `-` exactly for negatives, and is otherwise all digits; `IntToDecimalRoundTrip` proves it reads back as the integer |
| `Text.NatToDecimal` | index.js:90 | the decimal text of a number is non-empty, all digits, has no leading zero and is `"0"` exactly for zero |
| `Text.NatToDecimalRoundTrip` | index.js:90 | reading the decimal text back gives the number |
| `Text.IntToDecimalRoundTrip` | index.js:90 | a signed integer's text is a well-formed signed numeral that reads back as that integer |
| `Text.IntToDecimalInjective` | index.js:90 | distinct integer option values give distinct text |
| `Text.LastIndexOf` | index.js:78 | the result is -1 or the position of the character, and no occurrence comes after it |
| `Text.IndexOf` | index.js:90 | a helper for the reader of the arguments rendered at index.js:88-90: the result is -1 or the position of the character, and no occurrence comes before it |
| `CompilerArgs.RenderOption` | index.js:87-90 | an argument starts with `--`; after that comes the name for a boolean, and `name=value` otherwise |
| `CompilerArgs.Serialise` | index.js:86-91 | one argument per entry, and the i-th argument is the rendering of the i-th entry |
| `CompilerArgs.Params` | index.js:83-92 | the list is the path, then `-b`, then entry i's argument at position i+2; its length is 2 plus the number of entries |
| `CompilerArgs.SerialiseConcat` | index.js:86-91 | serialising concatenated entries concatenates the arguments, so entry order is argument order |
| `CompilerArgs.BooleanRendersAsFlag` | index.js:87-89 | `true` and `false` both render as `--name` |
| `CompilerArgs.ValueText` | index.js:90 | a string value is written verbatim; an integer value is written as a signed numeral that reads back as the integer |
| `CompilerArgs.ParseArg` | index.js:88-90 | a reader for the arguments rendered at index.js:88-90, there to state the round trip: an argument parses exactly when it starts with `--`, and it is rebuilt from the parsed name and text |
| `CompilerArgs.ParseRenderedOption` | index.js:87-90 | for a name without `=`, the argument reads back as that name, plus the value's text when the value is not boolean |
| `CompilerArgs.SerialiseReadsBack` | index.js:86-91 | every entry of the options can be recovered from the argument at its own index |
| `CompilerArgs.TestConfigurationArguments` | test/rollup.config.js:14-17 | `{optimizeLevel: 3, runtime: "none"}` serialises to `["--optimizeLevel=3", "--runtime=none"]` |
| `Naming.BaseName` | index.js:78 | the base name has no `/`, is a suffix of the path, and follows a `/` when it is shorter than the path |
| `Naming.BaseNameAfterSlash` | index.js:78 | the base name of `dir/name` is `name` |
| `Naming.StripExtension` | index.js:78 | when the pattern `\.[^.]+$` matches at k the result is the text before k; otherwise the name is unchanged |
| `Naming.StripWithoutDot` | index.js:78 | a name without a dot is unchanged |
| `Naming.StripTrailingDot` | index.js:78 | a name ending in `.` is unchanged |
| `Naming.StripFinalExtension` | index.js:78 | `stem.ext` with a non-empty, dot-free `ext` becomes `stem`, so only the final extension goes |
| `Naming.StripExamples` | index.js:78 | `subtraction.ts` becomes `subtraction`; `a.b.c` becomes `a.b` |
| `Naming.AssetName` | index.js:113 | the asset name is the file name followed by exactly `.wasm`; `AssetNameRoundTrip` proves that stripping the extension gives the file name back |
| `Naming.AssetNameRoundTrip` | index.js:113 | stripping the extension from the asset name `<name>.wasm` gives back `name` |
| `Naming.LeftmostMatchSound` | index.js:78 | the leftmost-match search finds a genuine match, and reports none only when no match exists from that point |
| `Naming.ExtensionAtUnique` | index.js:78 | the pattern matches at most one position |
| `Naming.StripExtensionIsRegexReplace` | index.js:78 | extension stripping equals a literal first-match `replace` with the empty string |
| `Plugin.PrefixMatch` | index.js:19 | a match means the id is `asc:` plus a non-empty capture with no line terminator; an id without `asc:` never matches |
| `Plugin.PrefixMatchMarked` | index.js:19 | `asc:inner` matches exactly when `inner` is non-empty and on one line, and the capture is `inner` |
| `Plugin.Exec` | index.js:53 | with the default matcher, a match means the id is `asc:` plus a non-empty capture, and an id without `asc:` never matches |
| `Plugin.Configure` | index.js:20-23 | a missing matcher becomes the prefix matcher, and missing compiler options become empty; a matcher or compiler options the caller gives are kept as given |
| `Plugin.DefaultParams` | index.js:45 | with the default options, the compiler arguments are exactly `[path, "-b"]` |
| `Plugin.ResolveIdStep` | index.js:49-60 | a watched path means the result is `asc:` + that path and it is the host's resolution of the capture; the only result without a watch file is the polyfill id; a decline means the id is neither the polyfill id nor matched. `ResolveSpecialImport`, `ResolveDeclines`, `ResolveMatched` and `ResolveFailsWithoutWatch` state each branch |
| `Plugin.ResolveSpecialImport` | index.js:50-52 | the polyfill id resolves to itself with no watch file, whatever the matcher |
| `Plugin.ResolveDeclines` | index.js:53-56 | a specifier the matcher rejects is declined and adds no watch file |
| `Plugin.DefaultResolveDeclinesUntagged` | index.js:53-56 | with the default matcher, a specifier without `asc:` is declined and adds no watch file |
| `Plugin.ResolveMatched` | index.js:57-59 | a matched specifier resolved to `p` watches exactly `[p]` and returns `asc:` + `p` |
| `Plugin.ResolveFailsWithoutWatch` | index.js:57 | a failing resolve came from a matched specifier the host could not resolve, and watched nothing |
| `Plugin.PlanLoad` | index.js:61-78 | load declines exactly the ids that are neither the polyfill id nor marked; it serves the polyfill exactly for the polyfill id; it compiles only ids of the form `asc:` + path |
| `Plugin.SpecialImportUnmarked` | index.js:26 | the polyfill id does not start with `asc:` |
| `Plugin.ResolveLoadRoundTrip` | index.js:57-86 | load, given the id resolveId returned, compiles exactly the watched path, with that path's asset name and the configured arguments |
| `Plugin.ModuleText` | index.js:116-123 | the text is the head, the reference id and the tail, in that length, and it opens with the import from the polyfill id; `ModuleTextRoundTrip`, `ModuleTextInjective` and `ModuleImportIsServed` state what it means |
| `Plugin.ModuleTextRoundTrip` | index.js:116-123 | the reference id can be read back out of the synthesized module |
| `Plugin.ModuleTextInjective` | index.js:118 | different reference ids give different module texts |
| `Plugin.ModuleImportIsServed` | index.js:117 | the module imports from the polyfill id, which resolves to itself and loads as the polyfill |
| `Plugin.PluginContext.constructor` | index.js:57-58 | a fresh host context has no watch files and no assets, and uses the given reference-id scheme |
| `Plugin.PluginContext.AddWatchFile` | index.js:58 | appends the path to the watch files and changes nothing else |
| `Plugin.PluginContext.EmitFile` | index.js:111-115 | appends one asset with the host's next reference id, name and source, and returns that id |
| `Plugin.AscPlugin.constructor` | index.js:44-45 | the plugin's configuration is the caller's options merged over the defaults |
| `Plugin.AscPlugin.ResolveId` | index.js:49-60 | returns the outcome `ResolveIdStep` specifies and emits nothing; it appends that step's watch file, so one call registers at most one watch file, and exactly the resolved path when there is one |
| `Plugin.AscPlugin.Load` | index.js:61-123 | declined and polyfill loads change nothing; a compile appends exactly one asset and returns the module text for its reference id; watch files never change |

## Left out

- The compiler invocation (`asCompiler.ready`, `asCompiler.main`) is left out because it is a foreign call. The model replaces it with a function from the argument list to the output bytes, so readiness, diagnostics and the compiler's own semantics are not modelled.
- `streamCollector` is left out because it is Node stream plumbing. The bytes the compiler writes to its output are the function's result.
- The failure path of `load` is left out: the error callback rejects with the diagnostic text while the output promise resolves unconditionally. Which one settles first depends on asynchronous scheduling, so the model follows only the success path. Whether an asset is emitted when compilation fails is not stated.
- The runtime behaviour of the polyfill and the synthesized module is left out: `compileStreaming`, `fetch`, instantiation and the `/*@__PURE__*/` hint. Both are modelled as text only, and the text is copied exactly.
- Custom `matcher` regular expressions are left out because full JavaScript regex semantics are not modelled. A custom matcher is a function giving the capture of `exec(...)[1]`. JavaScript strings are UTF-16, but the model's strings are sequences of Unicode scalar values.
- The Node `path.basename` edge cases are left out: trailing slashes and Windows separators. The base name is the part after the last `/`.
- Option values other than booleans, integers and strings are left out, such as fractions, `null` and objects.
- Integers beyond 2^53 in magnitude are left out (`SafeInteger`). JavaScript does not render them as their exact decimal: it writes the shortest digits that round to the same double, and it switches to exponent form from 10^21 up.
- The option entries are taken in the order given. JavaScript's `Object.entries` puts integer-like keys first, in ascending order, and that reordering is not modelled.
- A key given explicitly as `undefined` in the options overrides the default in the spread. That case is not modelled: an absent key is `None`.
- The `fileExtension` option is left out because `index.js` never reads it.
- The host's `ResolvedId` fields other than `id` (such as `external`) are left out because the hook ignores them. The host's reference-id scheme is left out because it is opaque to the plugin.
- A `this.resolve` that re-enters this plugin, or has effects of its own, is not modelled: `hostResolve` is a pure function. Rollup's `this.resolve` runs every plugin's `resolveId`, this one included, because index.js:57 passes no `skipSelf`. With the default matcher, `asc:asc:./x` would then register the inner path and `asc:` + that path, that is, two watch files for one outer call.
- The hooks are `async` in the source. The model runs each hook call as one sequential step, so interleaving between calls is not modelled.
- Source maps, file-based compilation with temporary paths, and as-bind are not part of this model: `index.js` has no code for them.
