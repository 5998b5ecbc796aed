/**
 * The `Dependencies` class of dhpython/depends.py: one set (`depends`) and
 * five lists of relations of a binary package, filled by `parse` and written
 * out as debhelper substitution variables by `export_to`.
 */
module Depends {
  import opened Wrappers
  import opened Text
  import opened Sorting
  import opened Shell
  import opened Relations
  import opened DependsRules

  // ---------------------------------------------------------------- export

  /** A call `export_to` makes on the debhelper object. */
  datatype SinkCall =
    | AddSubstvar(package: string, name: string, value: string)
    | AddRtupdate(package: string, script: (string, string))

  /** `PKG_PREFIX_MAP.get(impl, 'misc')` */
  function Prefix(impl: string): string
  {
    if impl == "cpython3" then "python3" else "misc"
  }

  /** One `addsubstvar` call per value, in order. */
  function Substvars(package: string, name: string, values: seq<string>): (r: seq<SinkCall>)
    ensures |r| == |values|
  {
    seq(|values|, i requires 0 <= i < |values| => AddSubstvar(package, name, values[i]))
  }

  /** One `add_rtupdate` call per script, in order. */
  function Rtupdates(package: string, scripts: seq<(string, string)>): (r: seq<SinkCall>)
    ensures |r| == |scripts|
  {
    seq(|scripts|, i requires 0 <= i < |scripts| => AddRtupdate(package, scripts[i]))
  }

  /** Some listing of a set, each element once. */
  ghost function SetToSeq(s: set<string>): (r: seq<string>)
    ensures multiset(r) == multiset(s)
    decreases |s|
  {
    if s == {} then []
    else
      var x :| x in s;
      assert multiset(s) == multiset{x} + multiset(s - {x});
      [x] + SetToSeq(s - {x})
  }

  /** `sorted(st)` for a set of strings. */
  ghost function SortedSet(s: set<string>): (r: seq<string>)
    ensures SortedBy(r, StrLess) && multiset(r) == multiset(s)
  {
    StrLessOrder();
    SortSorted(SetToSeq(s), StrLess);
    Sort(SetToSeq(s), StrLess)
  }

  /** The calls for relations already put in order: Depends, Recommends,
      Suggests, Enhances, Breaks, then the rtupdate scripts. */
  function Calls(package: string, prefix: string, d: seq<string>, r: seq<string>, s: seq<string>,
                 e: seq<string>, b: seq<string>, rt: seq<(string, string)>): (calls: seq<SinkCall>)
    ensures |calls| == |d| + |r| + |s| + |e| + |b| + |rt|
    ensures calls[..|d|] == Substvars(package, prefix + ":Depends", d)
    ensures calls[|d|..|d| + |r|] == Substvars(package, prefix + ":Recommends", r)
    ensures var i := |d| + |r|; calls[i..i + |s|] == Substvars(package, prefix + ":Suggests", s)
    ensures var i := |d| + |r| + |s|; calls[i..i + |e|] == Substvars(package, prefix + ":Enhances", e)
    ensures var i := |d| + |r| + |s| + |e|; calls[i..i + |b|] == Substvars(package, prefix + ":Breaks", b)
    ensures calls[|calls| - |rt|..] == Rtupdates(package, rt)
  {
    var front := Substvars(package, prefix + ":Depends", d) + Substvars(package, prefix + ":Recommends", r);
    var sc := Substvars(package, prefix + ":Suggests", s);
    var ec := Substvars(package, prefix + ":Enhances", e);
    var bc := Substvars(package, prefix + ":Breaks", b);
    var middle := sc + ec + bc;
    var tail := Rtupdates(package, rt);
    var all := front + middle + tail;
    assert all[..|d| + |r|] == front;
    assert all[|front|..|front| + |middle|] == middle;
    assert middle[..|sc|] == sc && middle[|sc|..|sc| + |ec|] == ec && middle[|sc| + |ec|..] == bc;
    all
  }

  /** One call per relation value, once every relation is put in order. */
  lemma ExportedLength(package: string, impl: string, depends: set<string>, recommends: seq<string>,
                       suggests: seq<string>, enhances: seq<string>, breaks: seq<string>,
                       rtscripts: seq<(string, string)>)
    ensures |Calls(package, Prefix(impl), SortedSet(depends), Sort(recommends, StrLess), Sort(suggests, StrLess),
                   Sort(enhances, StrLess), Sort(breaks, StrLess), Sort(rtscripts, PairLess))|
            == |depends| + |recommends| + |suggests| + |enhances| + |breaks| + |rtscripts|
  {
    var d := SortedSet(depends);
    assert |d| == |multiset(depends)| == |depends|;
  }

  /** `Depends` goes out first, whatever the other relations hold: every
      element of the set once, in sorted order. */
  lemma ExportedDepends(package: string, impl: string, depends: set<string>, r: seq<string>,
                        s: seq<string>, e: seq<string>, b: seq<string>, rt: seq<(string, string)>)
    ensures var d := SortedSet(depends);
      var calls := Calls(package, Prefix(impl), d, r, s, e, b, rt);
      && |d| == |depends| && calls[..|d|] == Substvars(package, Prefix(impl) + ":Depends", d)
      && SortedBy(d, StrLess) && multiset(d) == multiset(depends)
  {
    var d := SortedSet(depends);
    assert |d| == |multiset(depends)| == |depends|;
  }

  /** `Recommends` follows the dependencies, whatever the other relations
      hold: the list in sorted order. */
  lemma ExportedRecommends(package: string, impl: string, d: seq<string>, recommends: seq<string>,
                           s: seq<string>, e: seq<string>, b: seq<string>, rt: seq<(string, string)>)
    ensures var r := Sort(recommends, StrLess);
      var calls := Calls(package, Prefix(impl), d, r, s, e, b, rt);
      && calls[|d|..|d| + |r|] == Substvars(package, Prefix(impl) + ":Recommends", r)
      && SortedBy(r, StrLess) && multiset(r) == multiset(recommends)
  {
    SortStrings(recommends);
  }

  /** The rtupdate scripts go out last, whatever the other relations hold,
      sorted by directory name and then arguments. */
  lemma ExportedRtupdates(package: string, impl: string, d: seq<string>, r: seq<string>,
                          s: seq<string>, e: seq<string>, b: seq<string>, rtscripts: seq<(string, string)>)
    ensures var rt := Sort(rtscripts, PairLess);
      var calls := Calls(package, Prefix(impl), d, r, s, e, b, rt);
      && calls[|calls| - |rt|..] == Rtupdates(package, rt)
      && SortedBy(rt, PairLess) && multiset(rt) == multiset(rtscripts)
  {
    PairLessOrder();
    SortSorted(rtscripts, PairLess);
  }

  /** The sorted listing of a set is the only sorted listing of it. */
  lemma SortedSetUnique(s: set<string>, r: seq<string>)
    requires SortedBy(r, StrLess) && multiset(r) == multiset(s)
    ensures r == SortedSet(s)
  {
    StrLessOrder();
    SortedUnique(r, SortedSet(s), StrLess);
  }

  /** No relation holds an empty value, and no list holds a value twice. */
  ghost predicate Clean(depends: set<string>, recommends: seq<string>, suggests: seq<string>, enhances: seq<string>,
                        breaks: seq<string>, rtscripts: seq<(string, string)>)
  {
    && "" !in depends
    && NoDup(recommends) && "" !in recommends
    && NoDup(suggests) && "" !in suggests
    && NoDup(enhances) && "" !in enhances
    && NoDup(breaks) && "" !in breaks
    && NoDup(rtscripts)
  }

  /** Runs of `depend`, `recommend`, `suggest` and `rtscript` calls keep the relations clean. */
  lemma AddingKeepsClean(d: set<string>, r: seq<string>, s: seq<string>, e: seq<string>, b: seq<string>,
                         rt: seq<(string, string)>, ds: seq<string>, rs: seq<string>, ss: seq<string>,
                         rts: seq<(string, string)>)
    requires Clean(d, r, s, e, b, rt)
    ensures Clean(d + NonEmpty(ds), AddAll(r, rs), AddAll(s, ss), e, b, AddAllNew(rt, rts))
  {
    AddAllNoDup(r, rs);
    AddAllNoDup(s, ss);
    AddAllNewNoDup(rt, rts);
  }

  /** Two runs of `depend` calls add the non-empty values of both, and never the empty string. */
  lemma DependsInTwoRuns(d0: set<string>, a: seq<string>, b: seq<string>, d1: set<string>, d2: set<string>)
    requires "" !in d0 && d1 == d0 + NonEmpty(a) && d2 == d1 + NonEmpty(b)
    ensures d2 == d0 + NonEmpty(a + b) && "" !in d2
  {
    NonEmptyAppend(a, b);
  }

  /** Adding two results one after the other adds their concatenation. */
  lemma CatStep(d0: set<string>, r0: seq<string>, s0: seq<string>, a: DepLists, b: DepLists)
    ensures d0 + NonEmpty(a.depends) + NonEmpty(b.depends) == d0 + NonEmpty(Cat(a, b).depends)
    ensures AddAll(AddAll(r0, a.recommends), b.recommends) == AddAll(r0, Cat(a, b).recommends)
    ensures AddAll(AddAll(s0, a.suggests), b.suggests) == AddAll(s0, Cat(a, b).suggests)
  {
    NonEmptyAppend(a.depends, b.depends);
    AddAllAppend(r0, a.recommends, b.recommends);
    AddAllAppend(s0, a.suggests, b.suggests);
  }

  /** The interpreter dependencies, as a set, are the union of their five sources. */
  lemma InterpreterDepsParts(n: Names, st: Stats, vrange: VersionRange, o: Oracle)
    ensures NonEmpty(InterpreterDeps(n, st, vrange, o))
            == NonEmpty(RangeDeps(n, st, vrange)) + NonEmpty(ExtDeps(n, st.extVers, o.defaultVersion))
               + NonEmpty(if st.compile then MinPyCDep(n.impl) else []) + NonEmpty(ShebangDeps(st.shebangs))
               + NonEmpty(PrivateDirsDeps(n, st.privateDirs, vrange, o))
  {
    var a := RangeDeps(n, st, vrange);
    var b := ExtDeps(n, st.extVers, o.defaultVersion);
    var c := if st.compile then MinPyCDep(n.impl) else [];
    var d := ShebangDeps(st.shebangs);
    var e := PrivateDirsDeps(n, st.privateDirs, vrange, o);
    NonEmptyAppend(a, b);
    NonEmptyAppend(a + b, c);
    NonEmptyAppend(a + b + c, d);
    NonEmptyAppend(a + b + c + d, e);
  }

  /** `sorted(self.depends)`: the set listed in order. */
  method SortedElements(s: set<string>) returns (r: seq<string>)
    ensures r == SortedSet(s)
  {
    var xs: seq<string> := [];
    var rest := s;
    while rest != {}
      invariant multiset(xs) + multiset(rest) == multiset(s)
      decreases |rest|
    {
      var x :| x in rest;
      assert multiset(rest) == multiset{x} + multiset(rest - {x});
      xs := xs + [x];
      rest := rest - {x};
    }
    r := Sort(xs, StrLess);
    StrLessOrder();
    SortSorted(xs, StrLess);
    SortedSetUnique(s, r);
  }

  // ---------------------------------------------------------------- the class

  class Dependencies {
    const impl: string
    const package: string
    const bdep: set<string>
    const isDebugPackage: bool
    const ipkgVtpl: Template
    const ipkgTpl: string
    const ipkgTplMa: string
    const ipkgVtplMa: Template
    const pythonDevInBd: bool

    var depends: set<string>
    var recommends: seq<string>
    var suggests: seq<string>
    var enhances: seq<string>
    var breaks: seq<string>
    var rtscripts: seq<(string, string)>

    /** The attributes fixed by `__init__`. */
    function Names(): Names
    {
      DependsRules.Names(impl, package, isDebugPackage, ipkgVtpl, ipkgTpl, ipkgTplMa, ipkgVtplMa, pythonDevInBd)
    }

    /** No relation holds an empty value, and no list holds a value twice. */
    ghost predicate Valid()
      reads this
    {
      Clean(depends, recommends, suggests, enhances, breaks, rtscripts)
    }

    constructor (package: string, impl: string, bdep: set<string>)
      ensures Valid()
      ensures this.impl == impl && this.package == package && this.bdep == bdep
      ensures Names() == NamesFor(package, impl, bdep)
      ensures depends == {} && recommends == [] && suggests == [] && enhances == [] && breaks == [] && rtscripts == []
    {
      this.impl := impl;
      this.package := package;
      this.bdep := bdep;
      var dbg := EndsWith(package, "-dbg");
      isDebugPackage := dbg;
      ipkgVtpl := if dbg then Template("python", "-dbg") else Template("python", "");
      ipkgTpl := if dbg then "python3-dbg" else "python3";
      ipkgTplMa := (if dbg then "python3-dbg" else "python3") + ":any";
      ipkgVtplMa := if dbg then Template("python", "-dbg:any") else Template("python", ":any");
      pythonDevInBd := "python-dev" in bdep || "python-all-dev" in bdep || "python3-dev" in bdep || "python3-all-dev" in bdep;
      depends := {};
      recommends := [];
      suggests := [];
      enhances := [];
      breaks := [];
      rtscripts := [];
    }

    // ------------------------------------------------------------ adding one relation

    method Depend(value: string)
      modifies this`depends
      ensures depends == AddToSet(old(depends), value)
      ensures old(Valid()) ==> Valid()
    {
      if value != "" && value !in depends {
        depends := depends + {value};
      }
    }

    method Recommend(value: string)
      modifies this`recommends
      ensures recommends == AddNonEmpty(old(recommends), value)
      ensures old(Valid()) ==> Valid()
    {
      if value != "" && value !in recommends {
        recommends := recommends + [value];
      }
    }

    method Suggest(value: string)
      modifies this`suggests
      ensures suggests == AddNonEmpty(old(suggests), value)
      ensures old(Valid()) ==> Valid()
    {
      if value != "" && value !in suggests {
        suggests := suggests + [value];
      }
    }

    method Enhance(value: string)
      modifies this`enhances
      ensures enhances == AddNonEmpty(old(enhances), value)
      ensures old(Valid()) ==> Valid()
    {
      if value != "" && value !in enhances {
        enhances := enhances + [value];
      }
    }

    method Break(value: string)
      modifies this`breaks
      ensures breaks == AddNonEmpty(old(breaks), value)
      ensures old(Valid()) ==> Valid()
    {
      if value != "" && value !in breaks {
        breaks := breaks + [value];
      }
    }

    method Rtscript(value: (string, string))
      modifies this`rtscripts
      ensures rtscripts == AddNew(old(rtscripts), value)
      ensures old(Valid()) ==> Valid()
    {
      if value !in rtscripts {
        rtscripts := rtscripts + [value];
      }
    }

    // ------------------------------------------------------------ adding runs of relations

    /** `[self.depend(i) for i in values]` */
    method DependAll(values: seq<string>)
      modifies this`depends
      ensures depends == old(depends) + NonEmpty(values)
    {
      for k := 0 to |values|
        invariant depends == old(depends) + NonEmpty(values[..k])
      {
        Depend(values[k]);
        assert values[..k + 1] == values[..k] + [values[k]];
        NonEmptyAppend(values[..k], [values[k]]);
      }
      assert values[..|values|] == values;
    }

    method RecommendAll(values: seq<string>)
      modifies this`recommends
      ensures recommends == AddAll(old(recommends), values)
    {
      for k := 0 to |values|
        invariant recommends == AddAll(old(recommends), values[..k])
      {
        Recommend(values[k]);
        assert values[..k + 1][..k] == values[..k];
      }
      assert values[..|values|] == values;
    }

    method SuggestAll(values: seq<string>)
      modifies this`suggests
      ensures suggests == AddAll(old(suggests), values)
    {
      for k := 0 to |values|
        invariant suggests == AddAll(old(suggests), values[..k])
      {
        Suggest(values[k]);
        assert values[..k + 1][..k] == values[..k];
      }
      assert values[..|values|] == values;
    }

    /** `depends`, `recommends` and `suggests` have grown from the given values by `x`. */
    ghost predicate Grown(d0: set<string>, r0: seq<string>, s0: seq<string>, x: DepLists)
      reads this
    {
      depends == d0 + NonEmpty(x.depends) && recommends == AddAll(r0, x.recommends) && suggests == AddAll(s0, x.suggests)
    }

    /** The three lists of a `parse_pydep`/`parse_requires_dist` result. */
    method AddDepLists(d: DepLists)
      modifies this`depends, this`recommends, this`suggests
      ensures Grown(old(depends), old(recommends), old(suggests), d)
    {
      DependAll(d.depends);
      RecommendAll(d.recommends);
      SuggestAll(d.suggests);
    }

    // ------------------------------------------------------------ parse, step by step

    /** The bounds from `-V`. */
    method ParseRange(st: Stats, vrange: VersionRange)
      modifies this`depends
      ensures depends == old(depends) + NonEmpty(RangeDeps(Names(), st, vrange))
    {
      if RangeGiven(vrange) && InterpreterRelevant(st) {
        var tplTmp := if RunsInterpreter(st) then ipkgTplMa else ipkgTpl;
        var minv, maxv := vrange.minver, vrange.maxver;
        var added: seq<string> := [];
        if minv == maxv {
          added := [Fill(ipkgVtpl, VersionStr(minv.value))];
          minv, maxv := None, None;
        }
        if minv.Some? {
          added := added + [AtLeast(tplTmp, minv.value)];
        }
        if maxv.Some? {
          added := added + [Below(tplTmp, maxv.value)];
        }
        assert added == RangeDeps(Names(), st, vrange);
        DependAll(added);
      }
    }

    /** The bounds from the extension versions of the public directories. */
    method ParseExtensions(extVers: seq<Version>, default: Version)
      modifies this`depends
      ensures depends == old(depends) + NonEmpty(ExtDeps(Names(), extVers, default))
    {
      if extVers != [] {
        var sortedVers := SortedVersions(extVers);
        var minv, maxv := sortedVers[0], sortedVers[|sortedVers| - 1];
        var lower := if VersionLe(minv, default) then [AtLeast(ipkgTpl, minv)] else [];
        var upper := if VersionLe(default, maxv) then [Below(ipkgTpl, Succ(maxv))] else [];
        DependAll(lower + upper);
      }
    }

    /** The `:any` interpreter of each supported shebang version, in order. */
    static method SupportedShebangs(vtplMa: Template, versions: seq<Version>, supported: seq<Version>)
      returns (added: seq<string>)
      ensures added == SupportedDeps(vtplMa, versions, supported)
    {
      added := [];
      for k := 0 to |versions|
        invariant added == SupportedDeps(vtplMa, versions[..k], supported)
      {
        assert versions[..k + 1][..k] == versions[..k];
        if versions[k] in supported {
          added := added + [Fill(vtplMa, VersionStr(versions[k]))];
        }
      }
      assert versions[..|versions|] == versions;
    }

    /** The `args` string of a byte-compiled private directory. */
    static method CompileArgs(choice: VSource, vrange: VersionRange, regexpr: seq<string>, o: Oracle)
      returns (args: string)
      ensures args == VArg(choice, vrange, o) + XArgs(regexpr)
    {
      args := VArg(choice, vrange, o);
      ghost var start := args;
      for k := 0 to |regexpr|
        invariant args == start + XArgs(regexpr[..k])
      {
        assert regexpr[..k + 1][..k] == regexpr[..k];
        args := args + " -X '" + EscapeRegex(regexpr[k]) + "'";
      }
      assert regexpr[..|regexpr|] == regexpr;
    }

    /** Every value one private directory passes to `depend`, in order. */
    static method DirDepends(n: Names, dir: PrivateDir, vrange: VersionRange, o: Oracle)
      returns (added: seq<string>)
      ensures added == DirDeps(n, dir, vrange, o)
    {
      added := SupportedShebangs(n.vtplMa, ShebangVersions(dir.shebangs), o.supportedVersions);
      added := added + (if HasUnversioned(dir.shebangs) then [n.tplMa] else []);
      added := added + DirExtDeps(n, dir, o.defaultVersion);
      if dir.compile {
        var fromRange := if VChoice(n, dir, vrange).FromRange? then ExplicitRangeDeps(n, vrange) else [];
        added := added + (MinPyCDep(n.impl) + fromRange);
      } else {
        added := added + [];
      }
    }

    /** One private directory: its dependencies and, when it is byte-compiled,
        the arguments of its rtupdate script. */
    method ParsePrivateDir(name: string, dir: PrivateDir, vrange: VersionRange, regexpr: seq<string>, o: Oracle)
      modifies this`depends, this`rtscripts
      ensures depends == old(depends) + NonEmpty(DirDeps(Names(), dir, vrange, o))
      ensures rtscripts == AddAllNew(old(rtscripts), DirScripts(name, Names(), dir, vrange, regexpr, o))
    {
      var n := Names();
      var added := DirDepends(n, dir, vrange, o);
      DependAll(added);
      if dir.compile {
        var args := CompileArgs(VChoice(n, dir, vrange), vrange, regexpr, o);
        Rtscript((name, args));
      }
    }

    method ParsePrivateDirs(dirs: seq<(string, PrivateDir)>, vrange: VersionRange, regexpr: seq<string>, o: Oracle)
      modifies this`depends, this`rtscripts
      ensures depends == old(depends) + NonEmpty(PrivateDirsDeps(Names(), dirs, vrange, o))
      ensures rtscripts == AddAllNew(old(rtscripts), PrivateDirsScripts(Names(), dirs, vrange, regexpr, o))
    {
      for k := 0 to |dirs|
        invariant depends == old(depends) + NonEmpty(PrivateDirsDeps(Names(), dirs[..k], vrange, o))
        invariant rtscripts == AddAllNew(old(rtscripts), PrivateDirsScripts(Names(), dirs[..k], vrange, regexpr, o))
      {
        ghost var n := Names();
        PrivateDirsStep(n, dirs, k, vrange, regexpr, o);
        ghost var before := PrivateDirsScripts(n, dirs[..k], vrange, regexpr, o);
        ParsePrivateDir(dirs[k].0, dirs[k].1, vrange, regexpr, o);
        NonEmptyAppend(PrivateDirsDeps(n, dirs[..k], vrange, o), DirDeps(n, dirs[k].1, vrange, o));
        AddAllNewAppend(old(rtscripts), before, DirScripts(dirs[k].0, n, dirs[k].1, vrange, regexpr, o));
      }
      assert dirs[..|dirs|] == dirs;
    }

    /** `parse_pydep` for each `requires.txt` file. */
    method AddPydepFiles(files: seq<string>, o: Oracle)
      modifies this`depends, this`recommends, this`suggests
      ensures Grown(old(depends), old(recommends), old(suggests), PydepAll(o, files))
    {
      for k := 0 to |files|
        invariant Grown(old(depends), old(recommends), old(suggests), PydepAll(o, files[..k]))
      {
        assert files[..k + 1][..k] == files[..k];
        AddDepLists(o.pydep(files[k]));
        CatStep(old(depends), old(recommends), old(suggests), PydepAll(o, files[..k]), o.pydep(files[k]));
      }
      assert files[..|files|] == files;
    }

    /** `parse_requires_dist` for each dist-info directory. */
    method AddRequiresDistFiles(files: seq<string>, o: Oracle)
      modifies this`depends, this`recommends, this`suggests
      ensures Grown(old(depends), old(recommends), old(suggests), RequiresDistAll(o, files))
    {
      for k := 0 to |files|
        invariant Grown(old(depends), old(recommends), old(suggests), RequiresDistAll(o, files[..k]))
      {
        assert files[..k + 1][..k] == files[..k];
        AddDepLists(o.requiresDist(files[k]));
        CatStep(old(depends), old(recommends), old(suggests), RequiresDistAll(o, files[..k]), o.requiresDist(files[k]));
      }
      assert files[..|files|] == files;
    }

    /** The guessed requirement of each `Requires: ` line of one egg-info file. */
    method AddEggInfoFile(lines: seq<string>, o: Oracle)
      modifies this`depends
      ensures depends == old(depends) + NonEmpty(Guessed(o, RequiresLines(lines)))
    {
      for k := 0 to |lines|
        invariant depends == old(depends) + NonEmpty(Guessed(o, RequiresLines(lines[..k])))
      {
        var line := lines[k];
        ghost var before := RequiresLines(lines[..k]);
        RequiresLinesStep(lines, k);
        if StartsWith(line, "Requires: ") {
          var req := Strip(DropPrefix(line, 10));
          Depend(o.guess(req));
          assert Guessed(o, before + [req]) == Guessed(o, before) + [o.guess(req)];
          NonEmptyAppend(Guessed(o, before), [o.guess(req)]);
        } else {
          assert before + [] == before;
        }
      }
      assert lines[..|lines|] == lines;
    }

    method AddEggInfoFiles(files: seq<string>, o: Oracle)
      modifies this`depends
      ensures depends == old(depends) + NonEmpty(EggInfoDeps(o, files))
    {
      for k := 0 to |files|
        invariant depends == old(depends) + NonEmpty(EggInfoDeps(o, files[..k]))
      {
        assert files[..k + 1][..k] == files[..k];
        AddEggInfoFile(o.lines(files[k]), o);
        NonEmptyAppend(EggInfoDeps(o, files[..k]), Guessed(o, RequiresLines(o.lines(files[k]))));
      }
      assert files[..|files|] == files;
    }

    /** `--requires`: each file that can be found is read with `parse_pydep`. */
    method AddRequiresFiles(fns: seq<string>, o: Oracle)
      modifies this`depends, this`recommends, this`suggests
      ensures Grown(old(depends), old(recommends), old(suggests), RequiresDeps(package, fns, o))
    {
      for k := 0 to |fns|
        invariant Grown(old(depends), old(recommends), old(suggests), RequiresDeps(package, fns[..k], o))
      {
        assert fns[..k + 1][..k] == fns[..k];
        var fn := fns[k];
        var fpath := JoinPath(JoinPath("debian", package), fn);
        var found := true;
        if !o.fileExists(fpath) {
          fpath := fn;
          if !o.fileExists(fpath) {
            found := false;
          }
        }
        var d := if found then o.pydep(fpath) else NoDeps;
        assert RequiresPath(package, fn, o) == (if found then Some(fpath) else None);
        if found {
          AddDepLists(d);
        }
        CatStep(old(depends), old(recommends), old(suggests), RequiresDeps(package, fns[..k], o), d);
      }
      assert fns[..|fns|] == fns;
    }

    /** The dependencies that follow from the interpreter facts, and the
        rtupdate scripts of the private directories. */
    method ParseInterpreter(st: Stats, vrange: VersionRange, regexpr: seq<string>, o: Oracle)
      modifies this`depends, this`rtscripts
      ensures depends == old(depends) + NonEmpty(InterpreterDeps(Names(), st, vrange, o))
      ensures rtscripts == AddAllNew(old(rtscripts), PrivateDirsScripts(Names(), st.privateDirs, vrange, regexpr, o))
    {
      var n := Names();
      ParseBounds(st, vrange, o.defaultVersion);
      DependAll(ShebangDeps(st.shebangs));
      ParsePrivateDirs(st.privateDirs, vrange, regexpr, o);
      InterpreterDepsParts(n, st, vrange, o);
    }

    /** The version bounds from the range and the extensions, then the byte-compiler. */
    method ParseBounds(st: Stats, vrange: VersionRange, default: Version)
      modifies this`depends
      ensures depends == old(depends) + NonEmpty(RangeDeps(Names(), st, vrange))
                         + NonEmpty(ExtDeps(Names(), st.extVers, default))
                         + NonEmpty(if st.compile then MinPyCDep(impl) else [])
    {
      ParseRange(st, vrange);
      ParseExtensions(st.extVers, default);
      // make sure the byte-compiler is available
      DependAll(if st.compile then MinPyCDep(impl) else []);
    }

    /** With `--guess-deps`: `requires.txt`, then egg-info `Requires:` lines, then dist-info. */
    method ParseGuessed(st: Stats, guessDeps: bool, o: Oracle)
      modifies this`depends, this`recommends, this`suggests
      ensures Grown(old(depends), old(recommends), old(suggests), GuessedDeps(st, guessDeps, o))
    {
      if guessDeps {
        AddPydepFiles(st.requiresTxt, o);
        ghost var d2, r2, s2 := depends, recommends, suggests;
        ghost var egg := DepLists(EggInfoDeps(o, st.eggInfo), [], []);
        AddEggInfoFiles(st.eggInfo, o);
        assert Grown(d2, r2, s2, egg);
        CatStep(old(depends), old(recommends), old(suggests), PydepAll(o, st.requiresTxt), egg);
        AddRequiresDistFiles(st.distInfo, o);
        CatStep(old(depends), old(recommends), old(suggests), Cat(PydepAll(o, st.requiresTxt), egg),
                RequiresDistAll(o, st.distInfo));
      }
    }

    /** `--depends`, `--recommends`, `--suggests`, each requirement guessed. */
    method ParseOptions(opts: Options, o: Oracle)
      modifies this`depends, this`recommends, this`suggests
      ensures Grown(old(depends), old(recommends), old(suggests), OptionDeps(opts, o))
    {
      DependAll(Guessed(o, opts.depends));
      RecommendAll(Guessed(o, opts.recommends));
      SuggestAll(Guessed(o, opts.suggests));
    }

    /** `parse(stats, options)`: every relation the package's contents and the
        options call for, added to what is already recorded. */
    method Parse(st: Stats, opts: Options, o: Oracle)
      requires Valid()
      modifies this`depends, this`recommends, this`suggests, this`rtscripts
      ensures Valid()
      ensures depends == old(depends) + NonEmpty(ParseDepends(Names(), st, opts, o))
      ensures recommends == AddAll(old(recommends), ParseRecommends(Names(), st, opts, o))
      ensures suggests == AddAll(old(suggests), ParseSuggests(Names(), st, opts, o))
      ensures rtscripts == AddAllNew(old(rtscripts), ParseRtscripts(Names(), st, opts, o))
    {
      var n := Names();
      ghost var ext := ExternalDeps(n, st, opts, o);
      ParseInterpreter(st, opts.vrange, opts.regexpr, o);
      ghost var d1 := depends;
      ParseExternal(st, opts, o);
      DependsInTwoRuns(old(depends), InterpreterDeps(n, st, opts.vrange, o), ext.depends, d1, depends);
      AddingKeepsClean(old(depends), old(recommends), old(suggests), enhances, breaks, old(rtscripts),
                       ParseDepends(n, st, opts, o), ext.recommends, ext.suggests, ParseRtscripts(n, st, opts, o));
    }

    /** Guessed requirements, then the command-line relations, then `--requires` files. */
    method ParseExternal(st: Stats, opts: Options, o: Oracle)
      modifies this`depends, this`recommends, this`suggests
      ensures Grown(old(depends), old(recommends), old(suggests), ExternalDeps(Names(), st, opts, o))
    {
      ParseGuessed(st, opts.guessDeps, o);
      ParseOptions(opts, o);
      CatStep(old(depends), old(recommends), old(suggests), GuessedDeps(st, opts.guessDeps, o), OptionDeps(opts, o));
      AddRequiresFiles(opts.requiresFiles, o);
      CatStep(old(depends), old(recommends), old(suggests), Cat(GuessedDeps(st, opts.guessDeps, o), OptionDeps(opts, o)),
              RequiresDeps(package, opts.requiresFiles, o));
    }

    /** `export_to(dh)`: the calls made on debhelper, in order. */
    method ExportTo() returns (calls: seq<SinkCall>)
      ensures calls == Calls(package, Prefix(impl), SortedSet(depends), Sort(recommends, StrLess), Sort(suggests, StrLess),
                             Sort(enhances, StrLess), Sort(breaks, StrLess), Sort(rtscripts, PairLess))
    {
      var prefix := Prefix(impl);
      var sortedDepends := SortedElements(depends);
      calls := Calls(package, prefix, sortedDepends, Sort(recommends, StrLess), Sort(suggests, StrLess),
                     Sort(enhances, StrLess), Sort(breaks, StrLess), Sort(rtscripts, PairLess));
    }
  }
}
