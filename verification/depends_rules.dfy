/**
 * What `Dependencies.parse` (dhpython/depends.py) derives from the facts a
 * scan of the package found: which relation strings it hands to `depend`,
 * `recommend`, `suggest` and `rtscript`, and in which order.  Relation
 * strings use the syntax of section 7.1 of Debian Policy: `pkg (>= v~)`,
 * `pkg (<< v)`, and the `:any` architecture qualifier.
 *
 * `Version`, `VersionRange`, `default`, `supported`, `guess_dependency`,
 * `parse_pydep` and `parse_requires_dist` live in modules that are not part
 * of this model; their results enter through the `Oracle` record.
 */
module DependsRules {
  import opened Wrappers
  import opened Text
  import opened Shell
  import opened Sorting

  // ---------------------------------------------------------------- versions

  /** An interpreter version `major.minor`. */
  datatype Version = Version(major: nat, minor: nat)

  /** Versions compare as `(major, minor)` tuples. */
  predicate VersionLess(a: Version, b: Version)
  {
    a.major < b.major || (a.major == b.major && a.minor < b.minor)
  }

  predicate VersionLe(a: Version, b: Version)
  {
    a == b || VersionLess(a, b)
  }

  lemma VersionLessOrder()
    ensures StrictTotalOrder(VersionLess)
  {
  }

  /** `str(v)`: `"3.11"`. */
  function VersionStr(v: Version): (s: string)
    ensures |s| >= 3 && IsDigit(s[0]) && IsDigit(s[|s| - 1])
  {
    NatToString(v.major) + "." + NatToString(v.minor)
  }

  /** `v + 1`: the next minor release. */
  function Succ(v: Version): (r: Version)
    ensures VersionLess(v, r)
    ensures forall w :: !(VersionLess(v, w) && VersionLess(w, r))
  {
    Version(v.major, v.minor + 1)
  }

  /** `VersionRange(minver, maxver)`; it is true when either bound is given. */
  datatype VersionRange = VersionRange(minver: Option<Version>, maxver: Option<Version>)

  predicate RangeGiven(r: VersionRange)
  {
    r.minver.Some? || r.maxver.Some?
  }

  /** `sorted(versions)` */
  function SortedVersions(vs: seq<Version>): (r: seq<Version>)
    ensures multiset(r) == multiset(vs) && |r| == |vs|
  {
    Sort(vs, VersionLess)
  }

  /** The first and last of the sorted versions are the least and the greatest. */
  lemma SortedEnds(vs: seq<Version>)
    requires vs != []
    ensures var s := SortedVersions(vs);
      && s[0] in vs && s[|s| - 1] in vs
      && forall v :: v in vs ==> VersionLe(s[0], v) && VersionLe(v, s[|s| - 1])
  {
    var s := SortedVersions(vs);
    VersionLessOrder();
    SortSorted(vs, VersionLess);
    assert s[0] in multiset(vs) && s[|s| - 1] in multiset(vs);
    forall v | v in vs ensures VersionLe(s[0], v) && VersionLe(v, s[|s| - 1]) {
      assert v in multiset(s);
      var k :| 0 <= k < |s| && s[k] == v;
      assert k == 0 || !VersionLess(s[k], s[0]);
      assert k == |s| - 1 || !VersionLess(s[|s| - 1], s[k]);
    }
  }

  // ---------------------------------------------------------------- inputs

  /** The version in a shebang: `/usr/bin/python3` names no minor version. */
  datatype ShebangVersion = ShebangVersion(major: nat, minor: Option<nat>)

  /** What the scan found in one private directory; a missing key reads as empty. */
  datatype PrivateDir = PrivateDir(
    shebangs: seq<Option<ShebangVersion>>,   // the `version` of each shebang interpreter
    extVers: seq<Version>,                   // the `ext_vers` set
    extNoVersion: bool,
    compile: bool)

  /** The `stats` dictionary of a scanned package. */
  datatype Stats = Stats(
    compile: bool,
    publicVers: seq<Version>,
    extVers: seq<Version>,
    extNoVersion: bool,
    shebangs: seq<string>,                     // `str()` of each shebang interpreter
    privateDirs: seq<(string, PrivateDir)>,    // in dictionary order
    requiresTxt: seq<string>,
    eggInfo: seq<string>,
    distInfo: seq<string>)

  /** The command-line options `parse` reads. */
  datatype Options = Options(
    vrange: VersionRange,      // a missing `-V` is the range with no bounds
    regexpr: seq<string>,      // the patterns of the `-X` expressions
    guessDeps: bool,
    depends: seq<string>,
    recommends: seq<string>,
    suggests: seq<string>,
    requiresFiles: seq<string>)

  /** The three lists `parse_pydep` and `parse_requires_dist` return. */
  datatype DepLists = DepLists(depends: seq<string>, recommends: seq<string>, suggests: seq<string>)

  function Cat(a: DepLists, b: DepLists): (r: DepLists)
    ensures |r.depends| == |a.depends| + |b.depends|
  {
    DepLists(a.depends + b.depends, a.recommends + b.recommends, a.suggests + b.suggests)
  }

  const NoDeps := DepLists([], [], [])

  /** Results of code outside this model, fixed for one call of `parse`. */
  datatype Oracle = Oracle(
    defaultVersion: Version,             // default(impl)
    supportedVersions: seq<Version>,     // supported(impl)
    rangeStr: VersionRange -> string,    // str(VersionRange)
    guess: string -> string,             // guess_dependency(req=...); "" when it finds nothing
    pydep: string -> DepLists,           // parse_pydep(impl, path, ...)
    requiresDist: string -> DepLists,    // parse_requires_dist(impl, path, ...)
    lines: string -> seq<string>,        // the lines of a text file
    fileExists: string -> bool)          // os.path.exists

  // ---------------------------------------------------------------- package names

  /** A `%s` template such as `python%s-dbg`. */
  datatype Template = Template(before: string, after: string)

  function Fill(t: Template, s: string): string
  {
    t.before + s + t.after
  }

  /** The attributes `__init__` derives from the package name, the
      implementation and the build dependencies. */
  datatype Names = Names(
    impl: string,
    package: string,
    isDebugPackage: bool,
    vtpl: Template,
    tpl: string,
    tplMa: string,
    vtplMa: Template,
    pythonDevInBd: bool)

  /** The build dependencies that mean extensions are built. */
  const PythonDevPackages: set<string> := {"python-dev", "python-all-dev", "python3-dev", "python3-all-dev"}

  function NamesFor(package: string, impl: string, bdep: set<string>): (n: Names)
    ensures n.impl == impl && n.package == package
    ensures n.isDebugPackage <==> EndsWith(package, "-dbg")
    ensures n.pythonDevInBd <==> exists d :: d in bdep && d in PythonDevPackages
  {
    var dbg := EndsWith(package, "-dbg");
    var vtpl := if dbg then Template("python", "-dbg") else Template("python", "");
    var tpl := if dbg then "python3-dbg" else "python3";
    Names(impl, package, dbg, vtpl, tpl, tpl + ":any", Template(vtpl.before, vtpl.after + ":any"),
          "python-dev" in bdep || "python-all-dev" in bdep || "python3-dev" in bdep || "python3-all-dev" in bdep)
  }

  /** The `:any` variants are the plain templates with `:any` appended. */
  lemma NamesAny(package: string, impl: string, bdep: set<string>, s: string)
    ensures var n := NamesFor(package, impl, bdep);
      n.tplMa == n.tpl + ":any" && Fill(n.vtplMa, s) == Fill(n.vtpl, s) + ":any"
  {
  }

  /** Exactly the packages named `*-dbg` depend on the `-dbg` interpreters. */
  lemma NamesDebug(package: string, impl: string, bdep: set<string>, v: Version)
    ensures var n := NamesFor(package, impl, bdep);
      && (EndsWith(package, "-dbg") <==> EndsWith(n.tpl, "-dbg"))
      && (EndsWith(package, "-dbg") <==> EndsWith(Fill(n.vtpl, VersionStr(v)), "-dbg"))
      && StartsWith(n.tpl, "python3") && StartsWith(Fill(n.vtpl, VersionStr(v)), "python" + VersionStr(v))
  {
    var n := NamesFor(package, impl, bdep);
    var s := VersionStr(v);
    var f := Fill(n.vtpl, s);
    if !EndsWith(package, "-dbg") {
      assert f == "python" + s + "";
      assert f[|f| - 1] == s[|s| - 1];
      assert !IsDigit('g');
    } else {
      assert f == "python" + s + "-dbg";
    }
    assert f[..|"python" + s|] == "python" + s;
  }

  // ---------------------------------------------------------------- relation strings

  /** `"%s (>= %s~)" % (tpl, v)` */
  function AtLeast(tpl: string, v: Version): string
  {
    tpl + " (>= " + VersionStr(v) + "~)"
  }

  /** `"%s (<< %s)" % (tpl, v)` */
  function Below(tpl: string, v: Version): string
  {
    tpl + " (<< " + VersionStr(v) + ")"
  }

  /** A lower bound never reads as an upper bound. */
  lemma AtLeastNotBelow(t: string, v: Version, u: string, w: Version)
    requires |t| == |u|
    ensures AtLeast(t, v) != Below(u, w)
  {
    assert AtLeast(t, v)[|t| + 2] == '>';
    assert Below(u, w)[|u| + 2] == '<';
  }

  /** `"python3:any"` for a bound differs from the plain `"python3"` bound. */
  lemma AtLeastTemplates(t: string, u: string, v: Version, w: Version)
    requires |t| < |u| && u[|t|] == ':'
    ensures AtLeast(t, v) != AtLeast(u, w) && Below(t, v) != Below(u, w)
  {
    assert AtLeast(t, v)[|t|] == ' ' && Below(t, v)[|t|] == ' ';
    assert AtLeast(u, w)[|t|] == ':' && Below(u, w)[|t|] == ':';
  }

  // ---------------------------------------------------------------- the version range

  /** Any of the facts that tie a package to an interpreter. */
  predicate InterpreterRelevant(st: Stats)
  {
    st.compile || st.publicVers != [] || st.extVers != [] || st.extNoVersion || st.shebangs != []
  }

  /** The facts that need an interpreter for the build architecture: `:any`. */
  predicate RunsInterpreter(st: Stats)
  {
    st.compile || st.publicVers != [] || st.shebangs != []
  }

  function BoundTemplate(n: Names, st: Stats): string
  {
    if RunsInterpreter(st) then n.tplMa else n.tpl
  }

  /** The bounds from `-V`: open upper bound, so the maximum is not incremented. */
  function RangeDeps(n: Names, st: Stats, vrange: VersionRange): seq<string>
  {
    if !(RangeGiven(vrange) && InterpreterRelevant(st)) then []
    else if vrange.minver == vrange.maxver then [Fill(n.vtpl, VersionStr(vrange.minver.value))]
    else
      var t := BoundTemplate(n, st);
      (if vrange.minver.Some? then [AtLeast(t, vrange.minver.value)] else [])
      + (if vrange.maxver.Some? then [Below(t, vrange.maxver.value)] else [])
  }

  /** A one-version range gives exactly that interpreter and no bounds. */
  lemma RangeSingle(n: Names, st: Stats, v: Version)
    requires InterpreterRelevant(st)
    ensures RangeDeps(n, st, VersionRange(Some(v), Some(v))) == [Fill(n.vtpl, VersionStr(v))]
  {
  }

  /** A wider range gives a `>=` bound for the minimum and a `<<` bound at the
      maximum itself, both on the `:any` template exactly when something runs
      the interpreter. */
  lemma RangeBounds(package: string, impl: string, bdep: set<string>, st: Stats, vrange: VersionRange)
    requires InterpreterRelevant(st) && vrange.minver != vrange.maxver
    ensures var n := NamesFor(package, impl, bdep);
      var d := RangeDeps(n, st, vrange);
      var t := BoundTemplate(n, st);
      && (EndsWith(t, ":any") <==> RunsInterpreter(st))
      && |d| == (if vrange.minver.Some? then 1 else 0) + (if vrange.maxver.Some? then 1 else 0)
      && (vrange.minver.Some? ==> d[0] == AtLeast(t, vrange.minver.value))
      && (vrange.maxver.Some? ==> d[|d| - 1] == Below(t, vrange.maxver.value))
  {
    var n := NamesFor(package, impl, bdep);
    assert n.tpl[|n.tpl| - 1] != ':' && EndsWith(n.tplMa, ":any");
  }

  // ---------------------------------------------------------------- extensions

  /** Bounds from the extension ABI versions, relative to the default interpreter. */
  function ExtDeps(n: Names, extVers: seq<Version>, default: Version): seq<string>
  {
    if extVers == [] then []
    else
      var s := SortedVersions(extVers);
      (if VersionLe(s[0], default) then [AtLeast(n.tpl, s[0])] else [])
      + (if VersionLe(default, s[|s| - 1]) then [Below(n.tpl, Succ(s[|s| - 1]))] else [])
  }

  /** The lower bound is the least extension version and appears iff it is at
      most the default; the upper bound is one past the greatest and appears iff
      that is at least the default. */
  lemma ExtBounds(n: Names, extVers: seq<Version>, default: Version)
    requires extVers != []
    ensures exists lo, hi ::
      && lo in extVers && hi in extVers
      && (forall v :: v in extVers ==> VersionLe(lo, v) && VersionLe(v, hi))
      && (AtLeast(n.tpl, lo) in ExtDeps(n, extVers, default) <==> VersionLe(lo, default))
      && (Below(n.tpl, Succ(hi)) in ExtDeps(n, extVers, default) <==> VersionLe(default, hi))
      && |ExtDeps(n, extVers, default)| <= 2
  {
    SortedEnds(extVers);
    var s := SortedVersions(extVers);
    var lo, hi := s[0], s[|s| - 1];
    AtLeastNotBelow(n.tpl, lo, n.tpl, Succ(hi));
    assert AtLeast(n.tpl, lo) in ExtDeps(n, extVers, default) <==> VersionLe(lo, default);
    assert Below(n.tpl, Succ(hi)) in ExtDeps(n, extVers, default) <==> VersionLe(default, hi);
  }

  /** `MINPYCDEP.get(impl)`: the package providing `py3compile`. */
  function MinPyCDep(impl: string): seq<string>
  {
    if impl == "cpython3" then ["python3:any"] else []
  }

  /** One `:any` dependency per shebang interpreter. */
  function ShebangDeps(shebangs: seq<string>): (r: seq<string>)
    ensures |r| == |shebangs| && forall i :: 0 <= i < |r| ==> r[i] == shebangs[i] + ":any"
  {
    seq(|shebangs|, i requires 0 <= i < |shebangs| => shebangs[i] + ":any")
  }

  // ---------------------------------------------------------------- private directories

  /** The shebang versions with a (non-zero) minor version, in order. */
  function ShebangVersions(shebangs: seq<Option<ShebangVersion>>): (r: seq<Version>)
    ensures |r| <= |shebangs|
  {
    if shebangs == [] then []
    else
      var last := shebangs[|shebangs| - 1];
      ShebangVersions(shebangs[..|shebangs| - 1])
      + (if last.Some? && last.value.minor.Some? && last.value.minor.value != 0
         then [Version(last.value.major, last.value.minor.value)] else [])
  }

  /** A version is listed exactly when some shebang names it with a non-zero minor version. */
  lemma {:induction false} ShebangVersionsMembers(shebangs: seq<Option<ShebangVersion>>, v: Version)
    ensures v in ShebangVersions(shebangs) <==> Some(ShebangVersion(v.major, Some(v.minor))) in shebangs && v.minor != 0
  {
    if shebangs != [] {
      var init, last := shebangs[..|shebangs| - 1], shebangs[|shebangs| - 1];
      ShebangVersionsMembers(init, v);
      assert shebangs == init + [last];
    }
  }

  /** A shebang naming no version, or no minor version: `/usr/bin/python3`. */
  predicate HasUnversioned(shebangs: seq<Option<ShebangVersion>>)
  {
    exists i :: 0 <= i < |shebangs| && (shebangs[i].None? || shebangs[i].value.minor.None?)
  }

  /** `vtpl_ma % v` for each shebang version that is still supported. */
  function SupportedDeps(vtplMa: Template, versions: seq<Version>, supported: seq<Version>): (r: seq<string>)
    ensures |r| <= |versions|
  {
    if versions == [] then []
    else
      var v := versions[|versions| - 1];
      SupportedDeps(vtplMa, versions[..|versions| - 1], supported)
      + (if v in supported then [Fill(vtplMa, VersionStr(v))] else [])
  }

  /** Every supported shebang version gets its `:any` interpreter, and nothing else comes in. */
  lemma {:induction false} SupportedDepsMembers(vtplMa: Template, versions: seq<Version>, supported: seq<Version>, d: string)
    ensures d in SupportedDeps(vtplMa, versions, supported) <==>
      exists v :: v in versions && v in supported && d == Fill(vtplMa, VersionStr(v))
  {
    if versions != [] {
      var init := versions[..|versions| - 1];
      SupportedDepsMembers(vtplMa, init, supported, d);
      assert versions == init + [versions[|versions| - 1]];
    }
  }

  /** `sorted(details['ext_vers'])`, looked at only when a `python3-dev` build dependency exists. */
  function DirExtensions(n: Names, dir: PrivateDir): seq<Version>
  {
    if n.pythonDevInBd then SortedVersions(dir.extVers) else []
  }

  function DirExtDeps(n: Names, dir: PrivateDir, default: Version): seq<string>
  {
    var ext := DirExtensions(n, dir);
    if ext != [] then [AtLeast(n.tpl, ext[0]), Below(n.tpl, Succ(ext[|ext| - 1]))]
    else if n.pythonDevInBd && dir.extNoVersion then [AtLeast(n.tpl, default), Below(n.tpl, Succ(default))]
    else []
  }

  /** Where the `-V` argument of the byte-compilation script comes from. */
  datatype VSource =
    | FromExtensions(lo: Version, hi: Version)
    | FromShebang(v: Version)
    | FromDefault
    | FromRange
    | NoVersion

  function VChoice(n: Names, dir: PrivateDir, vrange: VersionRange): VSource
  {
    var ext := DirExtensions(n, dir);
    var versions := ShebangVersions(dir.shebangs);
    if ext != [] then FromExtensions(ext[0], ext[|ext| - 1])
    else if |versions| == 1 then FromShebang(versions[0])
    else if dir.extNoVersion then FromDefault
    else if RangeGiven(vrange) then FromRange
    else NoVersion
  }

  /** The priority: extension range, then a single shebang version, then the
      default for unversioned extensions, then `-V`; each source is used only
      when all earlier ones are absent. */
  lemma VChoicePriority(n: Names, dir: PrivateDir, vrange: VersionRange)
    ensures var c := VChoice(n, dir, vrange);
      var ext := DirExtensions(n, dir);
      var versions := ShebangVersions(dir.shebangs);
      && (c.FromExtensions? <==> n.pythonDevInBd && dir.extVers != [])
      && (c.FromExtensions? ==> (forall v :: v in dir.extVers ==> VersionLe(c.lo, v) && VersionLe(v, c.hi)))
      && (c.FromShebang? <==> !c.FromExtensions? && |versions| == 1)
      && (c.FromShebang? ==> c.v == versions[0])
      && (c.FromDefault? <==> !c.FromExtensions? && |versions| != 1 && dir.extNoVersion)
      && (c.FromRange? <==> !c.FromExtensions? && |versions| != 1 && !dir.extNoVersion && RangeGiven(vrange))
  {
    if n.pythonDevInBd && dir.extVers != [] {
      SortedEnds(dir.extVers);
    }
  }

  function VArg(c: VSource, vrange: VersionRange, o: Oracle): string
  {
    match c
    case FromExtensions(lo, hi) => "-V " + o.rangeStr(VersionRange(Some(lo), Some(hi)))
    case FromShebang(v) => "-V " + VersionStr(v)
    case FromDefault => "-V " + VersionStr(o.defaultVersion)
    case FromRange => "-V " + o.rangeStr(vrange)
    case NoVersion => ""
  }

  /** The dependencies the `-V` branch adds: here the upper bound is `maxver + 1`. */
  function ExplicitRangeDeps(n: Names, vrange: VersionRange): seq<string>
    requires RangeGiven(vrange)
  {
    if vrange.minver == vrange.maxver then [Fill(n.vtpl, VersionStr(vrange.minver.value))]
    else
      (if vrange.minver.Some? then [AtLeast(n.tplMa, vrange.minver.value)] else [])
      + (if vrange.maxver.Some? then [Below(n.tplMa, Succ(vrange.maxver.value))] else [])
  }

  /** The same range bounds its interpreter one release higher for a private
      directory than for the package as a whole. */
  lemma RangeUpperBounds(package: string, impl: string, bdep: set<string>, st: Stats, lo: Version, hi: Version)
    requires lo != hi && RunsInterpreter(st)
    ensures var n := NamesFor(package, impl, bdep);
      var r := VersionRange(Some(lo), Some(hi));
      && RangeDeps(n, st, r) == [AtLeast(n.tplMa, lo), Below(n.tplMa, hi)]
      && ExplicitRangeDeps(n, r) == [AtLeast(n.tplMa, lo), Below(n.tplMa, Succ(hi))]
  {
  }

  /** ` -X '<pattern>'` for each pattern, each `'` written as `'\''`. */
  function XArgs(patterns: seq<string>): string
  {
    if patterns == [] then ""
    else XArgs(patterns[..|patterns| - 1]) + " -X '" + EscapeRegex(patterns[|patterns| - 1]) + "'"
  }

  /** Each `-X` word reads back, through the shell, as its pattern. */
  lemma XArgsWords(patterns: seq<string>, p: string)
    ensures exists w :: XArgs(patterns + [p]) == XArgs(patterns) + " -X " + w && ReadWord(w) == Some(p)
  {
    assert (patterns + [p])[..|patterns + [p]| - 1] == patterns;
    RegexQuoteRoundTrip(p);
    var w := "'" + EscapeRegex(p) + "'";
    assert XArgs(patterns + [p]) == XArgs(patterns) + " -X " + w;
  }

  /** The arguments recorded for the private directory's byte-compilation script. */
  function RtArgs(n: Names, dir: PrivateDir, vrange: VersionRange, regexpr: seq<string>, o: Oracle): string
  {
    VArg(VChoice(n, dir, vrange), vrange, o) + XArgs(regexpr)
  }

  /** Everything one private directory adds to `depends`, in call order. */
  function DirDeps(n: Names, dir: PrivateDir, vrange: VersionRange, o: Oracle): seq<string>
  {
    var versions := ShebangVersions(dir.shebangs);
    SupportedDeps(n.vtplMa, versions, o.supportedVersions)
    + (if HasUnversioned(dir.shebangs) then [n.tplMa] else [])
    + DirExtDeps(n, dir, o.defaultVersion)
    + (if !dir.compile then []
       else MinPyCDep(n.impl) + (if VChoice(n, dir, vrange).FromRange? then ExplicitRangeDeps(n, vrange) else []))
  }

  /** An unversioned shebang makes the package depend on the `:any` interpreter. */
  lemma UnversionedShebang(n: Names, dir: PrivateDir, vrange: VersionRange, o: Oracle)
    requires HasUnversioned(dir.shebangs)
    ensures n.tplMa in DirDeps(n, dir, vrange, o)
  {
  }

  function DirScripts(name: string, n: Names, dir: PrivateDir, vrange: VersionRange, regexpr: seq<string>, o: Oracle)
    : seq<(string, string)>
  {
    if dir.compile then [(name, RtArgs(n, dir, vrange, regexpr, o))] else []
  }

  function PrivateDirsDeps(n: Names, dirs: seq<(string, PrivateDir)>, vrange: VersionRange, o: Oracle): seq<string>
  {
    if dirs == [] then []
    else PrivateDirsDeps(n, dirs[..|dirs| - 1], vrange, o) + DirDeps(n, dirs[|dirs| - 1].1, vrange, o)
  }

  function PrivateDirsScripts(n: Names, dirs: seq<(string, PrivateDir)>, vrange: VersionRange, regexpr: seq<string>,
                              o: Oracle): seq<(string, string)>
  {
    if dirs == [] then []
    else
      var last := dirs[|dirs| - 1];
      PrivateDirsScripts(n, dirs[..|dirs| - 1], vrange, regexpr, o) + DirScripts(last.0, n, last.1, vrange, regexpr, o)
  }

  /** Taking one more directory appends that directory's share. */
  lemma PrivateDirsStep(n: Names, dirs: seq<(string, PrivateDir)>, k: nat, vrange: VersionRange, regexpr: seq<string>,
                        o: Oracle)
    requires k < |dirs|
    ensures PrivateDirsDeps(n, dirs[..k + 1], vrange, o)
            == PrivateDirsDeps(n, dirs[..k], vrange, o) + DirDeps(n, dirs[k].1, vrange, o)
    ensures PrivateDirsScripts(n, dirs[..k + 1], vrange, regexpr, o)
            == PrivateDirsScripts(n, dirs[..k], vrange, regexpr, o) + DirScripts(dirs[k].0, n, dirs[k].1, vrange, regexpr, o)
  {
    ghost var prefix := dirs[..k + 1];
    assert prefix[..k] == dirs[..k] && prefix[k] == dirs[k];
  }

  /** Exactly the byte-compiled directories get a script, each under its own
      name with the arguments worked out for it. */
  lemma {:induction false} PrivateDirsScriptsMembers(n: Names, dirs: seq<(string, PrivateDir)>, vrange: VersionRange,
                                                     regexpr: seq<string>, o: Oracle, p: (string, string))
    ensures p in PrivateDirsScripts(n, dirs, vrange, regexpr, o) <==>
      exists e :: e in dirs && e.1.compile && p == (e.0, RtArgs(n, e.1, vrange, regexpr, o))
  {
    if dirs != [] {
      var init, last := dirs[..|dirs| - 1], dirs[|dirs| - 1];
      PrivateDirsScriptsMembers(n, init, vrange, regexpr, o, p);
      var here := DirScripts(last.0, n, last.1, vrange, regexpr, o);
      assert PrivateDirsScripts(n, dirs, vrange, regexpr, o) == PrivateDirsScripts(n, init, vrange, regexpr, o) + here;
      assert p in here <==> last.1.compile && p == (last.0, RtArgs(n, last.1, vrange, regexpr, o));
      assert forall e :: e in dirs <==> e in init || e == last;
    }
  }

  // ---------------------------------------------------------------- guessed dependencies

  /** `guess_deps(req=r)` for each requirement, in order. */
  function Guessed(o: Oracle, reqs: seq<string>): (r: seq<string>)
    ensures |r| == |reqs| && forall i :: 0 <= i < |r| ==> r[i] == o.guess(reqs[i])
  {
    seq(|reqs|, i requires 0 <= i < |reqs| => o.guess(reqs[i]))
  }

  /** The requirement of each `Requires: ` line of an egg-info file, stripped. */
  function RequiresLines(lines: seq<string>): seq<string>
  {
    if lines == [] then []
    else
      var line := lines[|lines| - 1];
      RequiresLines(lines[..|lines| - 1])
      + (if StartsWith(line, "Requires: ") then [Strip(DropPrefix(line, 10))] else [])
  }

  /** One more line adds its requirement when it is a `Requires: ` line. */
  lemma RequiresLinesStep(lines: seq<string>, k: nat)
    requires k < |lines|
    ensures RequiresLines(lines[..k + 1]) == RequiresLines(lines[..k])
      + (if StartsWith(lines[k], "Requires: ") then [Strip(DropPrefix(lines[k], 10))] else [])
  {
    assert lines[..k + 1][..k] == lines[..k];
  }

  lemma {:induction false} RequiresLinesMembers(lines: seq<string>, r: string)
    ensures r in RequiresLines(lines) <==>
      exists line :: line in lines && StartsWith(line, "Requires: ") && r == Strip(DropPrefix(line, 10))
  {
    if lines != [] {
      RequiresLinesMembers(lines[..|lines| - 1], r);
      assert lines == lines[..|lines| - 1] + [lines[|lines| - 1]];
    }
  }

  /** `parse_pydep` over each `requires.txt`, concatenated. */
  function PydepAll(o: Oracle, files: seq<string>): DepLists
  {
    if files == [] then NoDeps else Cat(PydepAll(o, files[..|files| - 1]), o.pydep(files[|files| - 1]))
  }

  function RequiresDistAll(o: Oracle, files: seq<string>): DepLists
  {
    if files == [] then NoDeps else Cat(RequiresDistAll(o, files[..|files| - 1]), o.requiresDist(files[|files| - 1]))
  }

  function EggInfoDeps(o: Oracle, files: seq<string>): seq<string>
  {
    if files == [] then []
    else EggInfoDeps(o, files[..|files| - 1]) + Guessed(o, RequiresLines(o.lines(files[|files| - 1])))
  }

  /** What `--guess-deps` contributes: `requires.txt` files, then egg-info, then dist-info. */
  function GuessedDeps(st: Stats, guessDeps: bool, o: Oracle): DepLists
  {
    if !guessDeps then NoDeps
    else Cat(Cat(PydepAll(o, st.requiresTxt), DepLists(EggInfoDeps(o, st.eggInfo), [], [])), RequiresDistAll(o, st.distInfo))
  }

  /** `--depends`, `--recommends` and `--suggests`, each requirement guessed. */
  function OptionDeps(opts: Options, o: Oracle): DepLists
  {
    DepLists(Guessed(o, opts.depends), Guessed(o, opts.recommends), Guessed(o, opts.suggests))
  }

  /** Where a `--requires` file is read from: `debian/<package>/<fn>` when it exists, else `fn`. */
  function RequiresPath(package: string, fn: string, o: Oracle): (r: Option<string>)
    ensures r.Some? ==> o.fileExists(r.value)
  {
    var p := JoinPath(JoinPath("debian", package), fn);
    if o.fileExists(p) then Some(p) else if o.fileExists(fn) then Some(fn) else None
  }

  /** The package's own copy wins; the plain name is used only when that copy is
      missing; a file missing in both places is skipped. */
  lemma RequiresPathChoice(package: string, fn: string, o: Oracle)
    ensures var p := JoinPath(JoinPath("debian", package), fn);
      && (o.fileExists(p) ==> RequiresPath(package, fn, o) == Some(p))
      && (!o.fileExists(p) && o.fileExists(fn) ==> RequiresPath(package, fn, o) == Some(fn))
      && (RequiresPath(package, fn, o).None? <==> !o.fileExists(p) && !o.fileExists(fn))
      && (!StartsWith(fn, "/") ==> EndsWith(p, "/" + fn))
  {
    var d := JoinPath("debian", package);
    if !StartsWith(fn, "/") {
      assert d != [] by {
        assert EndsWith(d, package);
        if StartsWith(package, "/") { assert d == package; } else { assert |d| >= |"debian"|; }
      }
      JoinPathSeparated(d, fn);
    }
  }

  function RequiresDeps(package: string, fns: seq<string>, o: Oracle): DepLists
  {
    if fns == [] then NoDeps
    else
      var path := RequiresPath(package, fns[|fns| - 1], o);
      Cat(RequiresDeps(package, fns[..|fns| - 1], o), if path.Some? then o.pydep(path.value) else NoDeps)
  }

  // ---------------------------------------------------------------- all of parse

  /** What the interpreter facts add to `depends`, in call order. */
  function InterpreterDeps(n: Names, st: Stats, vrange: VersionRange, o: Oracle): seq<string>
  {
    RangeDeps(n, st, vrange)
    + ExtDeps(n, st.extVers, o.defaultVersion)
    + (if st.compile then MinPyCDep(n.impl) else [])
    + ShebangDeps(st.shebangs)
    + PrivateDirsDeps(n, st.privateDirs, vrange, o)
  }

  /** What the package metadata and the options add: guessed requirements,
      then `--depends`/`--recommends`/`--suggests`, then `--requires` files. */
  function ExternalDeps(n: Names, st: Stats, opts: Options, o: Oracle): DepLists
  {
    Cat(Cat(GuessedDeps(st, opts.guessDeps, o), OptionDeps(opts, o)), RequiresDeps(n.package, opts.requiresFiles, o))
  }

  /** Every value `parse` passes to `depend`, in call order. */
  function ParseDepends(n: Names, st: Stats, opts: Options, o: Oracle): seq<string>
  {
    InterpreterDeps(n, st, opts.vrange, o) + ExternalDeps(n, st, opts, o).depends
  }

  function ParseRecommends(n: Names, st: Stats, opts: Options, o: Oracle): seq<string>
  {
    ExternalDeps(n, st, opts, o).recommends
  }

  function ParseSuggests(n: Names, st: Stats, opts: Options, o: Oracle): seq<string>
  {
    ExternalDeps(n, st, opts, o).suggests
  }

  function ParseRtscripts(n: Names, st: Stats, opts: Options, o: Oracle): seq<(string, string)>
  {
    PrivateDirsScripts(n, st.privateDirs, opts.vrange, opts.regexpr, o)
  }
}
