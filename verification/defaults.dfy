/**
 * dhpython/_defaults.py: where the default and supported CPython versions
 * come from.  The environment (`DEBPYTHON3_DEFAULT`, `DEBPYTHON3_SUPPORTED`)
 * wins; a missing or empty value is taken from
 * `/usr/share/python3/debian_defaults`; malformed text leaves that slot
 * `None`; the module-level tables keep their built-in `(3, 8)` unless a parse
 * succeeds.  The `__main__` printer is the inverse of the parser.
 */
module Defaults {
  import opened Wrappers
  import opened Text

  /** A version tuple such as `(3, 8)`. */
  type VersionTuple = seq<int>

  // ---------------------------------------------------------------- parsing

  /** `int(i)` for every element; `None` as soon as one raises. */
  function ParseInts(parts: seq<string>): (r: Option<VersionTuple>)
    ensures r.Some? ==> |r.value| == |parts|
  {
    if parts == [] then Some([])
    else
      var head := ParseInt(parts[0]);
      var tail := ParseInts(parts[1..]);
      if head.Some? && tail.Some? then Some([head.value] + tail.value) else None
  }

  /** Parsing succeeds with the element-wise values when every element parses. */
  lemma {:induction false} ParseIntsAll(parts: seq<string>, v: VersionTuple)
    requires |parts| == |v| && forall i :: 0 <= i < |parts| ==> ParseInt(parts[i]) == Some(v[i])
    ensures ParseInts(parts) == Some(v)
  {
    if parts != [] {
      var t, w := parts[1..], v[1..];
      assert forall i :: 0 <= i < |t| ==> t[i] == parts[i + 1] && w[i] == v[i + 1];
      ParseIntsAll(t, w);
      assert ParseInt(parts[0]) == Some(v[0]);
      assert ParseInts(parts) == Some([v[0]] + w);
      assert [v[0]] + w == v;
    }
  }

  /** A single element that does not parse makes the whole tuple `None`. */
  lemma {:induction false} ParseIntsFails(parts: seq<string>, k: nat)
    requires k < |parts| && ParseInt(parts[k]).None?
    ensures ParseInts(parts).None?
  {
    if k > 0 {
      assert parts[1..][k - 1] == parts[k];
      ParseIntsFails(parts[1..], k - 1);
    }
  }

  /** `tuple(int(i) for i in s.split('.'))`, as applied to the default version. */
  function ParseVersion(s: string): (r: Option<VersionTuple>)
    ensures r.Some? ==> |r.value| == |Split(s, '.')| >= 1
  {
    ParseInts(Split(s, '.'))
  }

  /** Every entry of `s.split(',')`, stripped and parsed as a version. */
  function ParseEntries(entries: seq<string>): (r: Option<seq<VersionTuple>>)
    ensures r.Some? ==> |r.value| == |entries|
    ensures r.Some? ==> forall i :: 0 <= i < |r.value| ==> |r.value[i]| >= 1
  {
    if entries == [] then Some([])
    else
      var head := ParseVersion(Strip(entries[0]));
      var tail := ParseEntries(entries[1..]);
      if head.Some? && tail.Some? then Some([head.value] + tail.value) else None
  }

  lemma {:induction false} ParseEntriesAll(entries: seq<string>, vs: seq<VersionTuple>)
    requires |entries| == |vs| && forall i :: 0 <= i < |entries| ==> ParseVersion(Strip(entries[i])) == Some(vs[i])
    ensures ParseEntries(entries) == Some(vs)
  {
    if entries != [] {
      ParseEntriesAll(entries[1..], vs[1..]);
      assert vs == [vs[0]] + vs[1..];
    }
  }

  /** The supported-versions list: comma-separated versions, blanks around them ignored. */
  function ParseSupported(s: string): (r: Option<seq<VersionTuple>>)
    ensures r.Some? ==> |r.value| >= 1 && forall i :: 0 <= i < |r.value| ==> |r.value[i]| >= 1
  {
    ParseEntries(Split(s, ','))
  }

  // ---------------------------------------------------------------- printing

  /** `'.'.join(str(i) for i in v)`. */
  function FormatVersion(v: VersionTuple): string
  {
    Join(seq(|v|, i requires 0 <= i < |v| => IntToString(v[i])), '.')
  }

  /** `','.join('.'.join(str(i) for i in v) for v in vs)`. */
  function FormatSupported(vs: seq<VersionTuple>): string
  {
    Join(seq(|vs|, i requires 0 <= i < |vs| => FormatVersion(vs[i])), ',')
  }

  lemma JoinNoSep(parts: seq<string>, sep: char, c: char)
    requires c != sep && forall i :: 0 <= i < |parts| ==> c !in parts[i]
    ensures c !in Join(parts, sep)
  {
  }

  /** The printed default version parses back to the same tuple. */
  lemma {:induction false} VersionRoundTrip(v: VersionTuple)
    requires |v| >= 1
    ensures ParseVersion(FormatVersion(v)) == Some(v)
  {
    var parts := seq(|v|, i requires 0 <= i < |v| => IntToString(v[i]));
    forall i | 0 <= i < |parts| ensures '.' !in parts[i] && ParseInt(parts[i]) == Some(v[i]) {
      IntToStringRoundTrip(v[i]);
    }
    SplitJoin(parts, '.');
    ParseIntsAll(parts, v);
  }

  lemma FormatVersionShape(v: VersionTuple)
    requires |v| >= 1
    ensures var s := FormatVersion(v); ',' !in s && Strip(s) == s
  {
    var parts := seq(|v|, i requires 0 <= i < |v| => IntToString(v[i]));
    JoinNoSep(parts, '.', ',');
    var s := FormatVersion(v);
    JoinEnds(parts, '.');
    assert !IsSpace('-') && !IsSpace(s[0]) && !IsSpace(s[|s| - 1]);
    StripNoSpaceEnds(s);
  }

  lemma {:induction false} JoinEnds(parts: seq<string>, sep: char)
    requires |parts| >= 1 && forall i :: 0 <= i < |parts| ==> |parts[i]| >= 1
    ensures var s := Join(parts, sep);
      |s| >= 1 && s[0] == parts[0][0] && s[|s| - 1] == parts[|parts| - 1][|parts[|parts| - 1]| - 1]
  {
    if |parts| > 1 {
      JoinEnds(parts[1..], sep);
    }
  }

  /** The printed supported list parses back to the same list of tuples. */
  lemma {:induction false} SupportedRoundTrip(vs: seq<VersionTuple>)
    requires |vs| >= 1 && forall i :: 0 <= i < |vs| ==> |vs[i]| >= 1
    ensures ParseSupported(FormatSupported(vs)) == Some(vs)
  {
    var entries := seq(|vs|, i requires 0 <= i < |vs| => FormatVersion(vs[i]));
    forall i | 0 <= i < |entries|
      ensures ',' !in entries[i] && ParseVersion(Strip(entries[i])) == Some(vs[i])
    {
      FormatVersionShape(vs[i]);
      VersionRoundTrip(vs[i]);
    }
    SplitJoin(entries, ',');
    ParseEntriesAll(entries, vs);
  }

  // ---------------------------------------------------------------- sources

  /** `environ.get(key)` as the code uses it: an absent variable behaves like an empty one. */
  function EnvValue(environ: map<string, string>, key: string): string
  {
    if key in environ then environ[key] else ""
  }

  /** `config.get('DEFAULT', key, fallback='')` after `config.read(path)`; a
      missing file reads as an empty configuration.  `files` maps each
      existing path to its DEFAULT section. */
  function ConfigValue(files: map<string, map<string, string>>, path: string, key: string): string
  {
    if path in files && key in files[path] then files[path][key] else ""
  }

  function ConfigPath(major: nat): string
  {
    "/usr/share/python" + NatToString(major) + "/debian_defaults"
  }

  /** The text the default version is parsed from. */
  function DefaultSource(major: nat, environ: map<string, string>, files: map<string, map<string, string>>): (s: string)
    ensures EnvValue(environ, "DEBPYTHON" + NatToString(major) + "_DEFAULT") != "" ==>
              s == EnvValue(environ, "DEBPYTHON" + NatToString(major) + "_DEFAULT")
    ensures var cfg := ConfigValue(files, ConfigPath(major), "default-version");
      EnvValue(environ, "DEBPYTHON" + NatToString(major) + "_DEFAULT") == "" ==>
        (|cfg| < 6 ==> s == "") && (|cfg| >= 6 ==> cfg == cfg[..6] + s)
  {
    var env := EnvValue(environ, "DEBPYTHON" + NatToString(major) + "_DEFAULT");
    if env != "" then env else DropPrefix(ConfigValue(files, ConfigPath(major), "default-version"), 6)
  }

  /** The text the supported versions are parsed from. */
  function SupportedSource(major: nat, environ: map<string, string>, files: map<string, map<string, string>>): (s: string)
    ensures EnvValue(environ, "DEBPYTHON" + NatToString(major) + "_SUPPORTED") != "" ==>
              s == EnvValue(environ, "DEBPYTHON" + NatToString(major) + "_SUPPORTED")
    ensures var cfg := ConfigValue(files, ConfigPath(major), "supported-versions");
      EnvValue(environ, "DEBPYTHON" + NatToString(major) + "_SUPPORTED") == "" ==>
        && |s| <= |cfg| && (forall c :: c in s ==> c in cfg)
        && ('p' !in cfg ==> s == cfg)
  {
    var env := EnvValue(environ, "DEBPYTHON" + NatToString(major) + "_SUPPORTED");
    if env != "" then env
    else
      var cfg := ConfigValue(files, ConfigPath(major), "supported-versions");
      var r := RemoveAll(cfg, "python");
      RemoveAllChars(cfg, "python");
      if 'p' in cfg then r else RemoveAllAbsent(cfg, "python"); r
  }

  /** The first slot of `cpython_versions(major)`: the parsed default version,
      `None` when there is no text or it does not parse. */
  function DefaultResult(major: nat, environ: map<string, string>, files: map<string, map<string, string>>): (r: Option<VersionTuple>)
    ensures r.Some? ==> |r.value| >= 1
  {
    var s := DefaultSource(major, environ, files);
    if s == "" then None else ParseVersion(s)
  }

  /** The second slot of `cpython_versions(major)`: the parsed supported list. */
  function SupportedResult(major: nat, environ: map<string, string>, files: map<string, map<string, string>>): (r: Option<seq<VersionTuple>>)
    ensures r.Some? ==> |r.value| >= 1 && forall i :: 0 <= i < |r.value| ==> |r.value[i]| >= 1
  {
    var s := SupportedSource(major, environ, files);
    if s == "" then None else ParseSupported(s)
  }

  /** `cpython_versions(major)`: fills the two result slots one after the
      other; a slot stays `None` when its text is empty or does not parse. */
  method CpythonVersions(major: nat, environ: map<string, string>, files: map<string, map<string, string>>)
    returns (default: Option<VersionTuple>, supported: Option<seq<VersionTuple>>)
    requires major > 2
    ensures default == DefaultResult(major, environ, files)
    ensures supported == SupportedResult(major, environ, files)
  {
    default, supported := None, None;
    var ver := NatToString(major);
    var supportedText := EnvValue(environ, "DEBPYTHON" + ver + "_SUPPORTED");
    var defaultText := EnvValue(environ, "DEBPYTHON" + ver + "_DEFAULT");
    if supportedText == "" || defaultText == "" {
      var path := "/usr/share/python" + ver + "/debian_defaults";
      if defaultText == "" {
        defaultText := DropPrefix(ConfigValue(files, path, "default-version"), 6);
      }
      if supportedText == "" {
        supportedText := RemoveAll(ConfigValue(files, path, "supported-versions"), "python");
      }
    }
    if defaultText != "" {
      default := ParseVersion(defaultText);
    }
    if supportedText != "" {
      supported := ParseSupported(supportedText);
    }
  }

  /** The configuration file is read only for values the environment lacks. */
  lemma EnvironmentWins(major: nat, environ: map<string, string>, files1: map<string, map<string, string>>,
                        files2: map<string, map<string, string>>)
    requires EnvValue(environ, "DEBPYTHON" + NatToString(major) + "_DEFAULT") != ""
    requires EnvValue(environ, "DEBPYTHON" + NatToString(major) + "_SUPPORTED") != ""
    ensures DefaultSource(major, environ, files1) == DefaultSource(major, environ, files2)
    ensures SupportedSource(major, environ, files1) == SupportedSource(major, environ, files2)
  {
  }

  // A `debian_defaults` file in its usual form: the default slot parsed, the
  // supported slot with its `python` prefixes removed.

  /** `default-version = python3.11`, `supported-versions = python3.11, python3.12`. */
  function ExampleFiles(): map<string, map<string, string>>
  {
    map[ConfigPath(3) := map["default-version" := "python3.11",
                             "supported-versions" := "python3.11, python3.12"]]
  }
  lemma FormatExample()
    ensures FormatVersion([3, 11]) == "3.11"
  {
    assert DigitChar(1) == '1' && DigitChar(3) == '3';
    assert NatToString(11) == "11";
    assert IntToString(3) == "3" && IntToString(11) == "11";
    var p := seq(2, i requires 0 <= i < 2 => IntToString([3, 11][i]));
    assert p[0] == "3" && p[1] == "11";
    assert p == ["3", "11"];
    assert Join(["11"], '.') == "11";
  }
  /** The default slot of the example file reads `(3, 11)`. */
  lemma ConfigDefaultExample()
    ensures DefaultResult(3, map[], ExampleFiles()) == Some([3, 11])
  {
    assert EnvValue(map[], "DEBPYTHON" + NatToString(3) + "_DEFAULT") == "";
    assert DropPrefix("python3.11", 6) == "3.11";
    assert DefaultSource(3, map[], ExampleFiles()) == "3.11";
    FormatExample();
    VersionRoundTrip([3, 11]);
  }
  lemma RemovePythonLast()
    ensures RemoveAll("python3.12", "python") == "3.12"
  {
    assert "python3.12" == "python" + "3.12";
    RemoveAllLeading("python", "3.12");
    RemoveAllAbsent("3.12", "python");
  }
  lemma RemovePythonTail()
    ensures RemoveAll("3.11, python3.12", "python") == "3.11, 3.12"
  {
    assert "3.11, python3.12" == "3.11, " + "python3.12";
    RemoveAllKeepPrefix("3.11, ", "python3.12", "python");
    RemovePythonLast();
    assert "3.11, " + "3.12" == "3.11, 3.12";
  }
  lemma RemovePythonExample()
    ensures RemoveAll("python3.11, python3.12", "python") == "3.11, 3.12"
  {
    assert "python3.11, python3.12" == "python" + "3.11, python3.12";
    RemoveAllLeading("python", "3.11, python3.12");
    RemovePythonTail();
  }
  /** The supported slot of the example file, before parsing, reads `3.11, 3.12`. */
  lemma ConfigSupportedSource()
    ensures SupportedSource(3, map[], ExampleFiles()) == "3.11, 3.12"
  {
    assert EnvValue(map[], "DEBPYTHON" + NatToString(3) + "_SUPPORTED") == "";
    RemovePythonExample();
  }

  // ---------------------------------------------------------------- module state

  /** A table entry after module initialisation: the built-in value unless
      `cpython_versions(3)` filled the slot with a non-empty value. */
  function Override<T>(builtin: seq<T>, found: Option<seq<T>>): (v: seq<T>)
    ensures found.Some? && |found.value| > 0 ==> v == found.value
    ensures found.None? || |found.value| == 0 ==> v == builtin
  {
    if found.Some? && |found.value| > 0 then found.value else builtin
  }

  /** The `DEFAULT['cpython3']` entry after module initialisation. */
  function DefaultEntry(environ: map<string, string>, files: map<string, map<string, string>>): (v: VersionTuple)
    ensures |v| >= 1
  {
    Override([3, 8], DefaultResult(3, environ, files))
  }

  /** The `SUPPORTED['cpython3']` entry after module initialisation. */
  function SupportedEntry(environ: map<string, string>, files: map<string, map<string, string>>): (vs: seq<VersionTuple>)
    ensures |vs| >= 1 && forall i :: 0 <= i < |vs| ==> |vs[i]| >= 1
  {
    Override([[3, 8]], SupportedResult(3, environ, files))
  }

  /** Every table entry is a non-empty tuple (list of tuples), so printing it can be parsed back. */
  predicate ValidTables(defaults: map<string, VersionTuple>, supported: map<string, seq<VersionTuple>>)
  {
    && (forall k :: k in defaults ==> |defaults[k]| >= 1)
    && (forall k :: k in supported ==> |supported[k]| >= 1 && forall i :: 0 <= i < |supported[k]| ==> |supported[k][i]| >= 1)
  }

  /** The module-level overrides: each table keeps its built-in entry unless
      the matching slot of `cpython_versions(3)` holds a non-empty value. */
  method ApplyOverrides(d: Option<VersionTuple>, s: Option<seq<VersionTuple>>)
    returns (defaults: map<string, VersionTuple>, supported: map<string, seq<VersionTuple>>)
    requires d.Some? ==> |d.value| >= 1
    requires s.Some? ==> forall i :: 0 <= i < |s.value| ==> |s.value[i]| >= 1
    ensures defaults.Keys == {"cpython3"} && defaults["cpython3"] == Override([3, 8], d)
    ensures supported.Keys == {"cpython3"} && supported["cpython3"] == Override([[3, 8]], s)
    ensures ValidTables(defaults, supported)
  {
    defaults := map["cpython3" := [3, 8]];
    supported := map["cpython3" := [[3, 8]]];
    if d.Some? && |d.value| > 0 {
      defaults := defaults["cpython3" := d.value];
    }
    if s.Some? && |s.value| > 0 {
      supported := supported["cpython3" := s.value];
    }
  }

  /** Module initialisation of the `DEFAULT` and `SUPPORTED` tables: the
      built-in `(3, 8)` / `[(3, 8)]`, each overridden only by a non-empty
      result of `cpython_versions(3)`. */
  method InitTables(environ: map<string, string>, files: map<string, map<string, string>>)
    returns (defaults: map<string, VersionTuple>, supported: map<string, seq<VersionTuple>>)
    ensures defaults.Keys == {"cpython3"} && defaults["cpython3"] == DefaultEntry(environ, files)
    ensures supported.Keys == {"cpython3"} && supported["cpython3"] == SupportedEntry(environ, files)
    ensures ValidTables(defaults, supported)
  {
    var d, s := CpythonVersions(3, environ, files);
    defaults, supported := ApplyOverrides(d, s);
  }

  // ---------------------------------------------------------------- __main__

  datatype MainOutcome =
    | UsageError        // wrong number of arguments: message on stderr, exit status 1
    | Printed(line: string)
    | UnknownImplementation  // KeyError from the table lookup
    | NothingPrinted

  /** `python3 -m dhpython._defaults (default|supported) IMPL`; `argv[0]` is the program. */
  function MainOutput(argv: seq<string>, defaults: map<string, VersionTuple>,
                      supported: map<string, seq<VersionTuple>>): (r: MainOutcome)
    ensures |argv| != 3 <==> r.UsageError?
  {
    if |argv| != 3 then UsageError
    else if argv[1] == "default" then
      (if argv[2] in defaults then Printed(FormatVersion(defaults[argv[2]])) else UnknownImplementation)
    else if argv[1] == "supported" then
      (if argv[2] in supported then Printed(FormatSupported(supported[argv[2]])) else UnknownImplementation)
    else NothingPrinted
  }

  /** What the printer writes for a valid table is exactly what the parser reads back. */
  lemma MainRoundTrip(prog: string, impl: string, defaults: map<string, VersionTuple>,
                      supported: map<string, seq<VersionTuple>>)
    requires impl in defaults && |defaults[impl]| >= 1
    requires impl in supported && |supported[impl]| >= 1
    requires forall i :: 0 <= i < |supported[impl]| ==> |supported[impl][i]| >= 1
    ensures var d := MainOutput([prog, "default", impl], defaults, supported);
      d.Printed? && ParseVersion(d.line) == Some(defaults[impl])
    ensures var s := MainOutput([prog, "supported", impl], defaults, supported);
      s.Printed? && ParseSupported(s.line) == Some(supported[impl])
  {
    VersionRoundTrip(defaults[impl]);
    SupportedRoundTrip(supported[impl]);
    assert MainOutput([prog, "default", impl], defaults, supported) == Printed(FormatVersion(defaults[impl]));
    assert MainOutput([prog, "supported", impl], defaults, supported) == Printed(FormatSupported(supported[impl]));
  }
}
