/**
 * The option serialiser of the AssemblyScript plugin: the entries of the
 * `compilerOptions` object, in insertion order, become command-line
 * arguments of the compiler, and the full argument list is the source path,
 * the binary-output flag `-b`, then those arguments (index.js:83-92).
 */
module CompilerArgs {
  import opened Wrappers
  import opened Text

  /** 2^53: every integer of at most this magnitude is a JavaScript number, and `${n}` writes it exactly. */
  const MAX_SAFE_MAGNITUDE: int := 0x20_0000_0000_0000

  /** The integers a JavaScript number holds exactly and renders digit for digit. */
  type SafeInteger = i: int | -MAX_SAFE_MAGNITUDE <= i <= MAX_SAFE_MAGNITUDE

  /** A value of the `compilerOptions` object. */
  datatype OptionValue = Bool(b: bool) | Int(i: SafeInteger) | Str(s: string)

  /** One `[name, value]` pair of `Object.entries(compilerOptions)`. */
  datatype OptionEntry = OptionEntry(name: string, value: OptionValue)

  /** The text a template literal gives a non-boolean value: decimal for a number, the string itself otherwise. */
  function ValueText(v: OptionValue): (t: string)
    requires !v.Bool?
    ensures v.Str? ==> t == v.s
    ensures v.Int? ==> IsSignedDecimal(t) && SignedDecimalValue(t) == v.i
  {
    match v
    case Int(i) => IntToDecimalRoundTrip(i); IntToDecimal(i)
    case Str(s) => s
  }

  /** One option as one argument: `--name` for any boolean, `--name=value` for anything else. */
  function RenderOption(e: OptionEntry): (arg: string)
    ensures StartsWith(arg, "--")
    ensures arg[2..] == if e.value.Bool? then e.name else e.name + "=" + ValueText(e.value)
  {
    if e.value.Bool? then "--" + e.name else "--" + e.name + "=" + ValueText(e.value)
  }

  /** `Object.entries(compilerOptions).map(...)`: one argument per entry, in entry order. */
  function Serialise(entries: seq<OptionEntry>): (args: seq<string>)
    ensures |args| == |entries|
    ensures forall i :: 0 <= i < |entries| ==> args[i] == RenderOption(entries[i])
  {
    if entries == [] then [] else [RenderOption(entries[0])] + Serialise(entries[1..])
  }

  /** The compiler's argument list for the source at `path`. */
  function Params(path: string, entries: seq<OptionEntry>): (params: seq<string>)
    ensures |params| == 2 + |entries|
    ensures params[0] == path && params[1] == "-b"
    ensures forall i :: 0 <= i < |entries| ==> params[i + 2] == RenderOption(entries[i])
  {
    [path, "-b"] + Serialise(entries)
  }

  /** Serialising a concatenation of entry lists concatenates the argument lists. */
  lemma SerialiseConcat(a: seq<OptionEntry>, b: seq<OptionEntry>)
    ensures Serialise(a + b) == Serialise(a) + Serialise(b)
  {
  }

  /** `true` and `false` give the same argument: the value of a boolean is not passed on. */
  lemma BooleanRendersAsFlag(name: string, b: bool)
    ensures RenderOption(OptionEntry(name, Bool(b))) == "--" + name
    ensures RenderOption(OptionEntry(name, Bool(true))) == RenderOption(OptionEntry(name, Bool(false)))
  {
  }

  /** What the compiler reads back from one argument. */
  datatype ParsedArg = Flag(name: string) | Valued(name: string, text: string)

  /** Splits `--name` or `--name=text` at the first `=`; anything else is not an option. */
  function ParseArg(arg: string): (p: Option<ParsedArg>)
    ensures p.Some? <==> StartsWith(arg, "--")
    ensures p.Some? && p.value.Flag? ==> arg == "--" + p.value.name
    ensures p.Some? && p.value.Valued? ==> arg == "--" + p.value.name + "=" + p.value.text
  {
    if !StartsWith(arg, "--") then None
    else
      var body := arg[2..];
      var k := IndexOf(body, '=');
      assert arg == arg[..2] + body;
      if k < 0 then Some(Flag(body))
      else
        assert body == body[..k] + "=" + body[k + 1..];
        Some(Valued(body[..k], body[k + 1..]))
  }

  /** For an option name without `=`, the rendered argument reads back as its name and value text. */
  lemma ParseRenderedOption(e: OptionEntry)
    requires '=' !in e.name
    ensures ParseArg(RenderOption(e)) ==
            Some(if e.value.Bool? then Flag(e.name) else Valued(e.name, ValueText(e.value)))
  {
    var arg := RenderOption(e);
    var body := arg[2..];
    if e.value.Bool? {
      assert body == e.name;
    } else {
      assert body == e.name + "=" + ValueText(e.value);
      assert body[|e.name|] == '=';
      var k := IndexOf(body, '=');
      assert k == |e.name|;
      assert body[..k] == e.name;
      assert body[k + 1..] == ValueText(e.value);
    }
  }

  /** Entries whose names have no `=` are recovered, one per argument, from the serialised list. */
  lemma SerialiseReadsBack(entries: seq<OptionEntry>, i: int)
    requires 0 <= i < |entries|
    requires forall j :: 0 <= j < |entries| ==> '=' !in entries[j].name
    ensures ParseArg(Serialise(entries)[i]) ==
            Some(if entries[i].value.Bool? then Flag(entries[i].name)
                 else Valued(entries[i].name, ValueText(entries[i].value)))
  {
    ParseRenderedOption(entries[i]);
  }

  /** The plugin's own test configuration `{optimizeLevel: 3, runtime: "none"}`. */
  lemma TestConfigurationArguments()
    ensures Serialise([OptionEntry("optimizeLevel", Int(3)), OptionEntry("runtime", Str("none"))])
            == ["--optimizeLevel=3", "--runtime=none"]
  {
    var entries := [OptionEntry("optimizeLevel", Int(3)), OptionEntry("runtime", Str("none"))];
    assert IntToDecimal(3) == "3" by {
      assert DigitChar(3) == '3';
    }
    assert RenderOption(entries[0]) == "--optimizeLevel=3";
    assert RenderOption(entries[1]) == "--runtime=none";
  }
}
