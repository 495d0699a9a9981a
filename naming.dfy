/**
 * How the loader names the emitted binary: the base name of the source path
 * with its final extension removed by `replace(/\.[^.]+$/, "")`, followed by
 * `.wasm` (index.js:78, 113).
 */
module Naming {
  import opened Wrappers
  import opened Text

  /** The part of `path` after its last `/` (the whole path when it has none). */
  function BaseName(path: string): (name: string)
    ensures '/' !in name
    ensures |name| <= |path| && path[|path| - |name|..] == name
    ensures |name| < |path| ==> path[|path| - |name| - 1] == '/'
  {
    path[LastIndexOf(path, '/') + 1..]
  }

  /**
   * `/\.[^.]+$/` matches `s` at `k`: a dot followed by at least one
   * character, none of them a dot, up to the end of `s`.
   */
  predicate ExtensionAt(s: string, k: int)
  {
    0 <= k < |s| - 1 && s[k] == '.' && forall j :: k < j < |s| ==> s[j] != '.'
  }

  /** `s.replace(/\.[^.]+$/, "")`: drop the last dot and what follows it, when something follows it. */
  function StripExtension(s: string): (r: string)
    ensures forall k :: ExtensionAt(s, k) ==> r == s[..k]
    ensures (forall k :: !ExtensionAt(s, k)) ==> r == s
  {
    var k := LastIndexOf(s, '.');
    if 0 <= k < |s| - 1 then assert ExtensionAt(s, k); s[..k] else s
  }

  /** `${fileName}.wasm`. */
  function AssetName(fileName: string): (name: string)
    ensures StartsWith(name, fileName)
    ensures |name| == |fileName| + 5 && name[|fileName|..] == ".wasm"
  {
    fileName + ".wasm"
  }

  /** A name with no dot keeps its name. */
  lemma StripWithoutDot(s: string)
    requires '.' !in s
    ensures StripExtension(s) == s
  {
  }

  /** A name ending in a dot keeps its name. */
  lemma StripTrailingDot(s: string)
    requires |s| > 0 && s[|s| - 1] == '.'
    ensures StripExtension(s) == s
  {
  }

  /** Only the final `.ext` goes: `stem + "." + ext` with a non-empty, dot-free `ext` gives `stem`. */
  lemma StripFinalExtension(stem: string, ext: string)
    requires ext != [] && '.' !in ext
    ensures StripExtension(stem + "." + ext) == stem
  {
    var s := stem + "." + ext;
    forall j | |stem| < j < |s| ensures s[j] != '.' {
      assert s[j] == ext[j - |stem| - 1];
    }
    assert ExtensionAt(s, |stem|);
    assert s[..|stem|] == stem;
  }

  /** The loader's naming recovers the base file name from the asset name it produces. */
  lemma AssetNameRoundTrip(fileName: string)
    ensures StripExtension(AssetName(fileName)) == fileName
  {
    assert AssetName(fileName) == fileName + "." + "wasm";
    StripFinalExtension(fileName, "wasm");
  }

  /** The examples `subtraction.ts` and `a.b.c`. */
  lemma StripExamples()
    ensures StripExtension("subtraction.ts") == "subtraction"
    ensures StripExtension("a.b.c") == "a.b"
  {
    assert "subtraction.ts" == "subtraction" + "." + "ts";
    StripFinalExtension("subtraction", "ts");
    assert "a.b.c" == "a.b" + "." + "c";
    StripFinalExtension("a.b", "c");
  }

  /** The base name of `dir/name` is `name` when `name` has no slash. */
  lemma BaseNameAfterSlash(dir: string, name: string)
    requires '/' !in name
    ensures BaseName(dir + "/" + name) == name
  {
    var path := dir + "/" + name;
    var b := BaseName(path);
    assert path[|dir|] == '/';
    assert path[|path| - |name|..] == name;
  }

  /* A reference reading of the regular expression: JavaScript tries each start position in turn and replaces the first match. */

  /** The first position at or after `i` where the extension pattern matches. */
  ghost function LeftmostExtensionMatch(s: string, i: nat): (r: Option<nat>)
    ensures r.Some? ==> i <= r.value < |s|
    decreases |s| - i
  {
    if i >= |s| then None
    else if ExtensionAt(s, i) then Some(i)
    else LeftmostExtensionMatch(s, i + 1)
  }

  /** `s.replace(re, "")` for the first match of `re`, read literally. */
  ghost function RegexReplaceExtension(s: string): string
  {
    match LeftmostExtensionMatch(s, 0)
    case None => s
    case Some(k) => s[..k] + "" + s[|s|..]
  }

  lemma {:induction false} LeftmostMatchSound(s: string, i: nat)
    ensures LeftmostExtensionMatch(s, i).Some? ==> ExtensionAt(s, LeftmostExtensionMatch(s, i).value)
    ensures LeftmostExtensionMatch(s, i).None? ==> forall k :: i <= k ==> !ExtensionAt(s, k)
    decreases |s| - i
  {
    if i < |s| && !ExtensionAt(s, i) {
      LeftmostMatchSound(s, i + 1);
    }
  }

  /** The pattern matches at no more than one position: the last dot. */
  lemma ExtensionAtUnique(s: string, k1: int, k2: int)
    requires ExtensionAt(s, k1) && ExtensionAt(s, k2)
    ensures k1 == k2
  {
  }

  /** The last-dot computation is exactly the regular-expression replacement. */
  lemma StripExtensionIsRegexReplace(s: string)
    ensures StripExtension(s) == RegexReplaceExtension(s)
  {
    LeftmostMatchSound(s, 0);
    match LeftmostExtensionMatch(s, 0)
    case None =>
    case Some(k) =>
      assert s[..k] + "" + s[|s|..] == s[..k];
  }
}
