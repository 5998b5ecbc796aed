/**
 * The generic part of pybuild's build-system plugins (dhpython/build/base.py):
 * how a plugin scores its fitness for a source tree, which test runner it
 * picks, how it finds the wheel it built, how `shell_command` runs what a
 * plugin method returns, and how test files are copied next to the build.
 *
 * The file system is a set of existing paths (`FileSystem.paths`) and a
 * glob function; commands are run by nobody: their exit code is an input.
 */
module BuildBase {
  import opened Wrappers
  import opened Text
  import opened Shell

  // ================================================================ plugin attributes

  /** The class attributes a build-system plugin declares. */
  datatype Plugin = Plugin(
    requiredFiles: seq<string>,        // REQUIRED_FILES; a template may list `|`-separated alternatives
    optionalFiles: seq<(string, int)>, // OPTIONAL_FILES: glob template and score, in dict order;
                                       // the globs are distinct, being the keys of a dict (see UniqueGlobs)
    cleanFiles: set<string>)           // CLEAN_FILES

  /** No glob is listed twice in OPTIONAL_FILES, as no key occurs twice in a dict. */
  predicate UniqueGlobs(opts: seq<(string, int)>)
  {
    forall i, j :: 0 <= i < j < |opts| ==> opts[i].0 != opts[j].0
  }

  const BaseCleanFiles: set<string> := {".pytest_cache", ".coverage"}

  /** `glob1(context['dir'], pattern)`: the names in the source directory matching a pattern. */
  type Glob = string -> seq<string>

  /** The pybuild options a plugin consults. */
  datatype Config = Config(
    testNose2: bool, testNose: bool, testPytest: bool, testTox: bool,
    testStestr: bool, testCustom: bool,
    quiet: bool, reallyQuiet: bool)

  // ================================================================ detection

  /** Everything the alternatives of a required template match, in order. */
  function Matches(alts: seq<string>, glob: Glob): seq<string>
  {
    if alts == [] then [] else Matches(alts[..|alts| - 1], glob) + glob(alts[|alts| - 1])
  }

  /** Nothing is collected exactly when no alternative matches. */
  lemma {:induction false} MatchesNone(alts: seq<string>, glob: Glob)
    ensures Matches(alts, glob) == [] <==> forall a :: a in alts ==> glob(a) == []
  {
    if alts != [] {
      var init := alts[..|alts| - 1];
      MatchesNone(init, glob);
      assert forall a :: a in alts <==> a in init || a == alts[|alts| - 1];
    }
  }

  /** A required template is found when any of its `|`-separated alternatives matches. */
  predicate Found(tpl: string, glob: Glob)
  {
    exists a :: a in Split(tpl, '|') && glob(a) != []
  }

  /** How many required templates are found. */
  function FoundCount(tpls: seq<string>, glob: Glob): (n: nat)
    ensures n <= |tpls|
    ensures n == |tpls| <==> forall t :: t in tpls ==> Found(t, glob)
  {
    if tpls == [] then 0
    else
      var init := tpls[..|tpls| - 1];
      assert forall t :: t in tpls ==> t in init || t == tpls[|tpls| - 1];
      FoundCount(init, glob) + (if Found(tpls[|tpls| - 1], glob) then 1 else 0)
  }

  /** `int(found / total * 50)`, computed exactly; nothing when there are no required files. */
  function RequiredScore(found: nat, total: nat): int
  {
    if total == 0 then 0 else (found * 50) / total
  }

  /** The sum of the scores of the optional globs that match. */
  function OptionalScore(opts: seq<(string, int)>, glob: Glob): int
  {
    if opts == [] then 0
    else
      var last := opts[|opts| - 1];
      OptionalScore(opts[..|opts| - 1], glob) + (if glob(last.0) != [] then last.1 else 0)
  }

  /** `Base.detect`: required files give up to 50 points, each matching optional glob its score; at most 100. */
  function DetectScore(p: Plugin, glob: Glob): int
  {
    var r := RequiredScore(FoundCount(p.requiredFiles, glob), |p.requiredFiles|)
             + OptionalScore(p.optionalFiles, glob);
    if r > 100 then 100 else r
  }

  /** The required files contribute between 0 and 50 points: 0 when none is declared or none is found, 50 when all are found. */
  lemma RequiredScoreBounds(found: nat, total: nat)
    requires found <= total
    ensures 0 <= RequiredScore(found, total) <= 50
    ensures total == 0 || found == 0 ==> RequiredScore(found, total) == 0
    ensures 0 < total && found == total ==> RequiredScore(found, total) == 50
  {
    if total > 0 {
      assert found * 50 <= total * 50;
      DivMonotone(found * 50, total * 50, total);
      assert (total * 50) / total == 50;
    }
  }

  lemma {:induction false} MulMonotone(x: nat, y: nat, d: nat)
    ensures x <= y ==> x * d <= y * d
  {
    if x < y {
      MulMonotone(x, y - 1, d);
      assert y * d == (y - 1) * d + d;
    }
  }

  lemma DivMonotone(a: nat, b: nat, d: nat)
    requires a <= b && d > 0
    ensures a / d <= b / d
  {
    var q, r := a / d, b / d;
    MulMonotone(r + 1, q, d);
    assert q * d <= a && b < (r + 1) * d;
  }

  /** Each optional glob adds its score once: the score of a concatenation is the sum of the scores. */
  lemma {:induction false} OptionalScoreAppend(a: seq<(string, int)>, b: seq<(string, int)>, glob: Glob)
    ensures OptionalScore(a + b, glob) == OptionalScore(a, glob) + OptionalScore(b, glob)
  {
    if b == [] {
      assert a + b == a;
    } else {
      assert (a + b)[..|a + b| - 1] == a + b[..|b| - 1];
      OptionalScoreAppend(a, b[..|b| - 1], glob);
    }
  }

  /** With non-negative scores the optional part lies between 0 and the sum of all scores. */
  lemma {:induction false} OptionalScoreBounds(opts: seq<(string, int)>, glob: Glob)
    requires forall i :: 0 <= i < |opts| ==> opts[i].1 >= 0
    ensures 0 <= OptionalScore(opts, glob) <= OptionalScore(opts, _ => ["*"])
    ensures (forall i :: 0 <= i < |opts| ==> glob(opts[i].0) == []) ==> OptionalScore(opts, glob) == 0
  {
    if opts != [] {
      OptionalScoreBounds(opts[..|opts| - 1], glob);
    }
  }

  /** `detect` never exceeds 100, and with non-negative optional scores it is never negative. */
  lemma DetectScoreBounds(p: Plugin, glob: Glob)
    ensures DetectScore(p, glob) <= 100
    ensures (forall i :: 0 <= i < |p.optionalFiles| ==> p.optionalFiles[i].1 >= 0) ==> DetectScore(p, glob) >= 0
  {
    RequiredScoreBounds(FoundCount(p.requiredFiles, glob), |p.requiredFiles|);
    if forall i :: 0 <= i < |p.optionalFiles| ==> p.optionalFiles[i].1 >= 0 {
      OptionalScoreBounds(p.optionalFiles, glob);
    }
  }

  // ---------------------------------------------------------------- DETECTED_* dictionaries

  /** `d.setdefault(key, []).extend(res)` when `res` is non-empty. */
  function Record(d: map<string, seq<string>>, key: string, res: seq<string>): (r: map<string, seq<string>>)
    ensures r.Keys == if res == [] then d.Keys else d.Keys + {key}
  {
    if res == [] then d else d[key := (if key in d then d[key] else []) + res]
  }

  /** What the alternatives of one template add to DETECTED_REQUIRED_FILES. */
  function RecordAlts(d: map<string, seq<string>>, tpl: string, alts: seq<string>, glob: Glob): map<string, seq<string>>
  {
    if alts == [] then d
    else Record(RecordAlts(d, tpl, alts[..|alts| - 1], glob), tpl, glob(alts[|alts| - 1]))
  }

  /** DETECTED_REQUIRED_FILES after the loop over REQUIRED_FILES. */
  function RecordRequired(d: map<string, seq<string>>, tpls: seq<string>, glob: Glob): map<string, seq<string>>
  {
    if tpls == [] then d
    else
      var tpl := tpls[|tpls| - 1];
      RecordAlts(RecordRequired(d, tpls[..|tpls| - 1], glob), tpl, Split(tpl, '|'), glob)
  }

  /** DETECTED_OPTIONAL_FILES after the loop over OPTIONAL_FILES. */
  function RecordOptional(d: map<string, seq<string>>, opts: seq<(string, int)>, glob: Glob): map<string, seq<string>>
  {
    if opts == [] then d
    else
      var g := opts[|opts| - 1].0;
      Record(RecordOptional(d, opts[..|opts| - 1], glob), g, glob(g))
  }

  /** One template's entry gains everything its alternatives match, in order, and nothing else changes. */
  /** Extending an entry twice extends it by both lists, in order. */
  lemma RecordTwice(d: map<string, seq<string>>, key: string, a: seq<string>, b: seq<string>)
    ensures Record(Record(d, key, a), key, b) == Record(d, key, a + b)
  {
    var old0 := if key in d then d[key] else [];
    if a == [] {
      assert a + b == b;
    } else if b == [] {
      assert a + b == a;
    } else {
      var m1 := d[key := old0 + a];
      assert m1[key] == old0 + a;
      assert old0 + a + b == old0 + (a + b);
      assert m1[key := m1[key] + b] == d[key := old0 + (a + b)];
    }
  }

  lemma {:induction false} RecordAltsSpec(d: map<string, seq<string>>, tpl: string, alts: seq<string>, glob: Glob)
    ensures RecordAlts(d, tpl, alts, glob) == Record(d, tpl, Matches(alts, glob))
  {
    if alts != [] {
      var init := alts[..|alts| - 1];
      RecordAltsSpec(d, tpl, init, glob);
      RecordTwice(d, tpl, Matches(init, glob), glob(alts[|alts| - 1]));
    }
  }

  /** DETECTED_REQUIRED_FILES has exactly the found templates as keys. */
  lemma {:induction false} RecordRequiredKeys(tpls: seq<string>, glob: Glob)
    ensures forall k :: k in RecordRequired(map[], tpls, glob) <==> k in tpls && Found(k, glob)
  {
    if tpls != [] {
      var init := tpls[..|tpls| - 1];
      var tpl := tpls[|tpls| - 1];
      RecordRequiredKeys(init, glob);
      RecordAltsSpec(RecordRequired(map[], init, glob), tpl, Split(tpl, '|'), glob);
      MatchesNone(Split(tpl, '|'), glob);
      assert forall t :: t in tpls <==> t in init || t == tpl;
    }
  }

  /** DETECTED_OPTIONAL_FILES has exactly the matching optional globs as keys. */
  lemma {:induction false} RecordOptionalKeys(opts: seq<(string, int)>, glob: Glob)
    ensures forall k :: k in RecordOptional(map[], opts, glob) <==> glob(k) != [] && exists e :: e in opts && e.0 == k
  {
    if opts != [] {
      var init := opts[..|opts| - 1];
      RecordOptionalKeys(init, glob);
      assert forall e :: e in opts <==> e in init || e == opts[|opts| - 1];
    }
  }

  /** With distinct globs, as a dict guarantees, each entry of DETECTED_OPTIONAL_FILES is exactly what its glob matches. */
  lemma {:induction false} RecordOptionalEntries(opts: seq<(string, int)>, glob: Glob)
    requires UniqueGlobs(opts)
    ensures forall k :: k in RecordOptional(map[], opts, glob) ==> RecordOptional(map[], opts, glob)[k] == glob(k)
  {
    if opts != [] {
      var init := opts[..|opts| - 1];
      var g := opts[|opts| - 1].0;
      RecordOptionalEntries(init, glob);
      RecordOptionalKeys(init, glob);
      assert g !in RecordOptional(map[], init, glob);
    }
  }

  // ================================================================ choosing the test command

  datatype Runner = Nose2 | Nose | Pytest | Tox | Stestr | Custom | Unittest

  /** The runners `Base.test` tries, in this order; unittest is the fallback. */
  const RunnerOrder: seq<Runner> := [Nose2, Nose, Pytest, Tox, Stestr, Custom]

  predicate Enabled(cfg: Config, r: Runner)
  {
    match r
    case Nose2 => cfg.testNose2
    case Nose => cfg.testNose
    case Pytest => cfg.testPytest
    case Tox => cfg.testTox
    case Stestr => cfg.testStestr
    case Custom => cfg.testCustom
    case Unittest => true
  }

  /** The first enabled runner in `RunnerOrder`, unittest when none is. */
  function SelectRunner(cfg: Config): (r: Runner)
    ensures r == Unittest <==> forall i :: 0 <= i < |RunnerOrder| ==> !Enabled(cfg, RunnerOrder[i])
    ensures r != Unittest ==> exists i :: 0 <= i < |RunnerOrder| && RunnerOrder[i] == r && Enabled(cfg, r)
                                && forall j :: 0 <= j < i ==> !Enabled(cfg, RunnerOrder[j])
  {
    if cfg.testNose2 then assert Enabled(cfg, RunnerOrder[0]); Nose2
    else if cfg.testNose then assert Enabled(cfg, RunnerOrder[1]); Nose
    else if cfg.testPytest then assert Enabled(cfg, RunnerOrder[2]); Pytest
    else if cfg.testTox then assert Enabled(cfg, RunnerOrder[3]); Tox
    else if cfg.testStestr then assert Enabled(cfg, RunnerOrder[4]); Stestr
    else if cfg.testCustom then assert Enabled(cfg, RunnerOrder[5]); Custom
    else Unittest
  }

  /** The command template of every runner but tox. */
  function RunnerCommand(r: Runner): string
    requires r != Tox
  {
    match r
    case Nose2 => "cd {build_dir}; {interpreter} -m nose2 -v {args}"
    case Nose => "cd {build_dir}; {interpreter} -m nose -v {args}"
    case Pytest => "cd {build_dir}; {interpreter} -m pytest {args}"
    case Stestr =>
      "cd {build_dir};stestr --config {dir}/.stestr.conf init;PYTHON=python{version} stestr --config {dir}/.stestr.conf run"
    case Custom => "cd {build_dir}; {args}"
    case Unittest => "cd {build_dir}; {interpreter} -m unittest discover -v {args}"
  }

  // ---------------------------------------------------------------- tox

  /** The tox configurations looked for in the source directory, in order of preference. */
  const ToxConfigNames: seq<string> := ["tox.ini", "pyproject.toml", "setup.cfg"]

  /** The index of the first name present in `dir` from position `k` on, if any. */
  function FirstPresent(dir: string, names: seq<string>, present: set<string>, k: nat): (r: Option<nat>)
    requires k <= |names|
    ensures r.None? <==> forall j :: k <= j < |names| ==> JoinPath(dir, names[j]) !in present
    ensures r.Some? ==> k <= r.value < |names| && JoinPath(dir, names[r.value]) in present
                        && forall j :: k <= j < r.value ==> JoinPath(dir, names[j]) !in present
    decreases |names| - k
  {
    if k == |names| then None
    else if JoinPath(dir, names[k]) in present then Some(k)
    else FirstPresent(dir, names, present, k + 1)
  }

  /** The first tox configuration present, as a `{dir}` template; an error when there is none. */
  function ToxConfig(dir: string, present: set<string>): (r: Result<string>)
    ensures r.Failure? <==> forall j :: 0 <= j < |ToxConfigNames| ==> JoinPath(dir, ToxConfigNames[j]) !in present
    ensures r.Success? ==> exists i :: 0 <= i < |ToxConfigNames| && r.value == "{dir}/" + ToxConfigNames[i]
                             && JoinPath(dir, ToxConfigNames[i]) in present
                             && forall j :: 0 <= j < i ==> JoinPath(dir, ToxConfigNames[j]) !in present
  {
    match FirstPresent(dir, ToxConfigNames, present, 0)
    case Some(i) => Success("{dir}/" + ToxConfigNames[i])
    case None => Failure("tox config not found. Expected to find tox.ini, pyproject.toml, or setup.cfg")
  }

  /** The words of the tox command line, before they are joined with spaces. */
  function ToxWords(config: string, autopkgtest: bool, installWheel: bool): (w: seq<string>)
    ensures |w| == 10 + (if autopkgtest then 1 else 0) + (if installWheel then 2 else 0)
    ensures w[..3] == ["cd {build_dir};", "tox", "-c"] && w[3] == config && w[|w| - 1] == "{args}"
    ensures autopkgtest <==> w[9] == "--skip-pkg-install"
    ensures installWheel <==> w[|w| - 3] == "--installpkg"
    ensures installWheel ==> w[|w| - 2] == "{wheel}"
  {
    ["cd {build_dir};", "tox", "-c", config, "--sitepackages", "-e", "py{version.major}{version.minor}",
     "-x", "testenv.passenv+=_PYTHON_HOST_PLATFORM"]
    + (if autopkgtest then ["--skip-pkg-install"] else [])
    + (if installWheel then ["--installpkg", "{wheel}"] else [])
    + ["{args}"]
  }

  /** The major version in the output of `tox --version --quiet`: the integer before the first `.`. */
  function ToxMajor(stdout: string, stderr: string): (r: Result<int>)
  {
    match ParseInt(Split(stdout, '.')[0])
    case Some(n) => Success(n)
    case None => Failure("tox was installed but broken: stdout='" + stdout + "', stderr='" + stderr + "'")
  }

  /** A version printed as `<major>.<rest>` yields its major number. */
  lemma ToxMajorOfVersion(major: int, rest: string, stderr: string)
    ensures ToxMajor(IntToString(major) + "." + rest, stderr) == Success(major)
  {
    var m := IntToString(major);
    assert '.' !in m by {
      forall k | 0 <= k < |m| ensures m[k] != '.' {
        if k > 0 { assert IsDigit(m[k]); }
      }
    }
    SplitPrefix(m, rest, '.');
    assert (m + "." + rest) == m + ['.'] + rest;
    IntToStringRoundTrip(major);
  }

  /** `built_wheel`: the wheel in the home directory, none, or an error when there are several. */
  function BuiltWheel(wheels: seq<string>): (r: Result<Option<string>>)
    ensures r.Failure? <==> |wheels| > 1
    ensures r.Failure? ==> r.error == "Expecting to have built exactly 1 wheel, but found " + IntToString(|wheels|)
    ensures r == Success(None) <==> wheels == []
    ensures r.Success? && r.value.Some? ==> wheels == [r.value.value]
  {
    if |wheels| > 1 then Failure("Expecting to have built exactly 1 wheel, but found " + IntToString(|wheels|))
    else if |wheels| == 1 then Success(Some(wheels[0]))
    else Success(None)
  }

  /** What the tox branch of `Base.test` decides. */
  datatype ToxPlan = ToxPlan(
    command: string,
    removeDistutilsCfg: bool,      // delete `{home_dir}/.pydistutils.cfg` (tox 3 installs with pip)
    buildWheel: bool,              // call the plugin's `build_wheel` first
    wheel: Option<Option<string>>) // the value given to `args['wheel']`, when one is

  /**
   * The tox branch calls the plugin's `build_wheel`: a configuration exists,
   * `tox --version` parses to 4 or later, this is not autopkgtest and no
   * wheel was there before.  The call happens whether or not the second
   * look for the wheel then raises.
   */
  predicate ToxBuildsWheel(config: Result<string>, autopkgtest: bool, major: Result<int>, before: seq<string>)
  {
    config.Success? && major.Success? && major.value >= 4 && !autopkgtest && BuiltWheel(before) == Success(None)
  }

  /**
   * The tox branch: a configuration must exist and `tox --version` must
   * parse; tox 4 outside autopkgtest installs the built wheel, building it
   * first when there is none.
   */
  function ToxOutcome(config: Result<string>, autopkgtest: bool, major: Result<int>,
                      before: seq<string>, after: seq<string>): (r: Result<ToxPlan>)
    ensures config.Failure? ==> r == Failure(config.error)
    ensures r.Success? ==> config.Success? && major.Success?
    ensures r.Success? ==> (r.value.removeDistutilsCfg <==> major.value < 4)
    ensures r.Success? ==> (r.value.wheel.Some? <==> major.value >= 4 && !autopkgtest)
    ensures r.Success? && r.value.buildWheel ==> r.value.wheel.Some? && BuiltWheel(before) == Success(None)
    ensures r.Success? ==> (r.value.buildWheel <==> ToxBuildsWheel(config, autopkgtest, major, before))
    ensures ToxBuildsWheel(config, autopkgtest, major, before) ==> (r.Failure? <==> BuiltWheel(after).Failure?)
    ensures r.Success? && r.value.wheel.Some? && !r.value.buildWheel ==> Success(r.value.wheel.value) == BuiltWheel(before)
    ensures r.Success? ==> r.value.command == Join(ToxWords(config.value, autopkgtest, r.value.wheel.Some?), ' ')
  {
    if config.Failure? then Failure(config.error)
    else if major.Failure? then Failure(major.error)
    else if major.value < 4 then
      Success(ToxPlan(Join(ToxWords(config.value, autopkgtest, false), ' '), true, false, None))
    else if autopkgtest then
      Success(ToxPlan(Join(ToxWords(config.value, autopkgtest, false), ' '), false, false, None))
    else
      match BuiltWheel(before)
      case Failure(e) => Failure(e)
      case Success(Some(w)) =>
        Success(ToxPlan(Join(ToxWords(config.value, false, true), ' '), false, false, Some(Some(w))))
      case Success(None) =>
        match BuiltWheel(after)
        case Failure(e) => Failure(e)
        case Success(w) => Success(ToxPlan(Join(ToxWords(config.value, false, true), ' '), false, true, Some(w)))
  }

  /** With tox 4, no wheel before the build and two after it, the build is called and then `built_wheel` raises. */
  lemma ToxBuildThenRaise(config: string)
    ensures ToxBuildsWheel(Success(config), false, Success(4), [])
    ensures ToxOutcome(Success(config), false, Success(4), [], ["a.whl", "b.whl"])
            == Failure("Expecting to have built exactly 1 wheel, but found 2")
  {
    assert IntToString(2) == "2";
  }

  /** `str(wheel)` as it lands in `args['wheel']`: the path, or `None` when no wheel was built. */
  function WheelText(w: Option<string>): string
  {
    match w
    case Some(p) => p
    case None => "None"
  }

  // ================================================================ running commands

  /** Where `execute` sends the command's output. */
  datatype LogFile = LogNone | LogFalse | LogPath(path: string)

  /** One command handed to the process runner. */
  datatype Invocation = Invocation(command: string, cwd: string, env: map<string, string>, log: LogFile)

  /** `str.format(**values)` on a command template. */
  type Format = (string, map<string, string>) -> string

  /** `env = dict(context['ENV']); env.update(args['ENV'])`: the arguments' entries win. */
  function MergeEnv(ctxEnv: map<string, string>, argsEnv: Option<map<string, string>>): (r: map<string, string>)
    ensures forall k :: k in r <==> k in ctxEnv || (argsEnv.Some? && k in argsEnv.value)
    ensures forall k :: k in r ==> r[k] == if argsEnv.Some? && k in argsEnv.value then argsEnv.value[k] else ctxEnv[k]
  {
    if argsEnv.Some? then ctxEnv + argsEnv.value else ctxEnv
  }

  /** `Base.execute`: the command is formatted with the arguments and run in the source directory. */
  function Execute(cfg: Config, ctxDir: string, ctxEnv: map<string, string>, args: map<string, string>,
                   argsEnv: Option<map<string, string>>, command: string, log: LogFile, fmt: Format): Invocation
  {
    Invocation(fmt(command, args), ctxDir, MergeEnv(ctxEnv, argsEnv),
               if log == LogFalse && cfg.reallyQuiet then LogNone else log)
  }

  /** The runner writes no log only when none was asked for, or when a
      really quiet run was given `False`; a log path is always kept. */
  lemma ExecuteLog(cfg: Config, ctxDir: string, ctxEnv: map<string, string>, args: map<string, string>,
                   argsEnv: Option<map<string, string>>, command: string, log: LogFile, fmt: Format)
    ensures var inv := Execute(cfg, ctxDir, ctxEnv, args, argsEnv, command, log, fmt);
      && (inv.log == LogNone <==> log == LogNone || (log == LogFalse && cfg.reallyQuiet))
      && (log.LogPath? ==> inv.log == log)
      && inv.cwd == ctxDir && inv.env == MergeEnv(ctxEnv, argsEnv)
  {
  }

  /** The argument keys whose values `shell_command` shell-quotes. */
  predicate QuotedKey(k: string)
  {
    k == "dir" || k == "destdir" || EndsWith(k, "_dir")
  }

  /** The arguments as `shell_command` formats a command with them. */
  function QuoteArgs(args: map<string, string>): (r: map<string, string>)
    ensures r.Keys == args.Keys
    ensures forall k :: k in args && !QuotedKey(k) ==> r[k] == args[k]
  {
    map k | k in args :: if QuotedKey(k) then Quote(args[k]) else args[k]
  }

  /** A quoted value reads back, as one shell word, as exactly the original value. */
  lemma QuoteArgsRoundTrip(args: map<string, string>, k: string)
    requires k in args && QuotedKey(k)
    ensures ReadWord(QuoteArgs(args)[k]) == Some(args[k])
  {
    QuoteRoundTrip(args[k]);
  }

  /** What a method wrapped in `shell_command` returned. */
  datatype Produced = IntResult(n: int) | CommandText(text: string) | NoCommand

  /** How a `shell_command` call ends. */
  datatype ShellOutcome = Returned(n: int) | Missing | Succeeded | Raised(message: string)

  datatype ShellRun = ShellRun(outcome: ShellOutcome, invocation: Option<Invocation>)

  /** The exit codes `shell_command` accepts: 0, and 5 ("no tests ran") when the unittest fallback asked for it. */
  predicate ExitAccepted(returncode: int, ignoreNoTests: bool)
  {
    returncode == 0 || (returncode == 5 && ignoreNoTests)
  }

  /** How `shell_command` judges an exit code; the error names the code and the command, and the log when there is one. */
  function ExitOutcome(returncode: int, ignoreNoTests: bool, command: string, log: LogFile): (o: ShellOutcome)
    ensures o == Succeeded <==> ExitAccepted(returncode, ignoreNoTests)
    ensures o != Succeeded ==> o.Raised? && StartsWith(o.message, "exit code=" + IntToString(returncode) + ": " + command)
                                          && StartsWith(o.message, "exit code=" + IntToString(returncode) + ": ")
  {
    if returncode == 5 && ignoreNoTests then Succeeded
    else if returncode != 0 then
      var head := "exit code=" + IntToString(returncode) + ": ";
      var msg := head + command;
      var full := if log.LogPath? then msg + "\nfull command log is available in " + log.path else msg;
      assert full[..|msg|] == msg && msg[..|head|] == head && full[..|head|] == head;
      Raised(full)
    else Succeeded
  }

  /**
   * `shell_command`: a `command` keyword argument (`override`, empty when not
   * given) replaces the method; an int from the method is its result as is;
   * otherwise the command is formatted with quoted directories, run, and
   * judged by its exit code.
   */
  function ShellCommand(cfg: Config, methodName: string, override: string, produced: Produced,
                        ctxDir: string, ctxEnv: map<string, string>, args: map<string, string>,
                        argsEnv: Option<map<string, string>>, ignoreNoTests: bool, fmt: Format,
                        returncode: int): (r: ShellRun)
    requires cfg.quiet ==> "home_dir" in args
    ensures override == "" && produced.IntResult? ==> r == ShellRun(Returned(produced.n), None)
    ensures r.invocation.None? <==> r.outcome.Returned? || r.outcome.Missing?
    ensures r.outcome.Missing? <==> override == "" && (produced.NoCommand? || produced == CommandText(""))
    ensures r.invocation.Some? ==> (r.outcome == Succeeded <==> ExitAccepted(returncode, ignoreNoTests))
    ensures r.outcome.Raised? ==> StartsWith(r.outcome.message, "exit code=" + IntToString(returncode) + ": ")
    ensures r.invocation.Some? ==>
      var command := if override != "" then override else produced.text;
      r.invocation.value.command == fmt(fmt(command, QuoteArgs(args)), args)
      && r.invocation.value.env == MergeEnv(ctxEnv, argsEnv) && r.invocation.value.cwd == ctxDir
  {
    if override == "" && produced.IntResult? then ShellRun(Returned(produced.n), None)
    else
      var command := if override != "" then override else if produced.CommandText? then produced.text else "";
      if command == "" then ShellRun(Missing, None)
      else
        var log := if cfg.quiet then LogPath(JoinPath(args["home_dir"], methodName + "_cmd.log")) else LogFalse;
        var formatted := fmt(command, QuoteArgs(args));
        var o := ExitOutcome(returncode, ignoreNoTests, formatted, log);
        ShellRun(o, Some(Execute(cfg, ctxDir, ctxEnv, args, argsEnv, formatted, log, fmt)))
  }

  // ================================================================ copying test files

  /** The names copied when no `.testfiles` list exists (a set: iteration order is not fixed). */
  const DefaultTestFiles: seq<string> := ["pyproject.toml", "pytest.ini", "test", "tests"]

  /** The names that may become the runner's `{args}`. */
  const AddToArgs: seq<string> := ["test", "tests"]

  /** `debian/pybuild_<interpreter><version>.testfiles`, then `..._<interpreter><major>...`, then `debian/pybuild.testfiles`. */
  function TestfilesCandidates(dir: string, interpreter: string, version: string, major: string): seq<string>
  {
    [JoinPath(dir, "debian/pybuild_" + interpreter + version + ".testfiles"),
     JoinPath(dir, "debian/pybuild_" + interpreter + major + ".testfiles"),
     JoinPath(dir, "debian/pybuild.testfiles")]
  }

  /** The stripped lines of a `.testfiles` list that do not start with `#`. */
  function TestfileNames(lines: seq<string>): (r: seq<string>)
    ensures forall n :: n in r <==> exists l :: l in lines && !StartsWith(l, "#") && n == Strip(l)
  {
    if lines == [] then []
    else
      var init := lines[..|lines| - 1];
      var l := lines[|lines| - 1];
      assert forall x :: x in lines <==> x in init || x == l;
      TestfileNames(init) + (if StartsWith(l, "#") then [] else [Strip(l)])
  }

  /** The names to copy: those of the first `.testfiles` list that exists, else the defaults. */
  function FilesToCopy(candidates: seq<string>, testfiles: map<string, seq<string>>, defaults: seq<string>): (r: seq<string>)
    ensures (forall c :: c in candidates ==> c !in testfiles) ==> r == defaults
    ensures forall i :: 0 <= i < |candidates| && candidates[i] in testfiles
                        && (forall j :: 0 <= j < i ==> candidates[j] !in testfiles)
                        ==> r == TestfileNames(testfiles[candidates[i]])
  {
    if candidates == [] then defaults
    else if candidates[0] in testfiles then TestfileNames(testfiles[candidates[0]])
    else
      var r := FilesToCopy(candidates[1..], testfiles, defaults);
      assert forall i :: 1 <= i < |candidates| ==> candidates[i] == candidates[1..][i - 1];
      r
  }

  /** The file system, the removal list and `args['args']` while the names are copied. */
  datatype CopyState = CopyState(present: set<string>, toRemove: set<string>, testArgs: string)

  /**
   * One name: copied into `dest` under its last path component when it
   * exists in `dir` and is not already there; it becomes `args['args']` when
   * that is still empty, `argsEligible` holds and it is `test` or `tests`.
   */
  function CopyStep(st: CopyState, dir: string, dest: string, argsEligible: bool, name: string): CopyState
  {
    var src := JoinPath(dir, name);
    var dst := JoinPath(dest, Basename(name));
    if src !in st.present then st
    else
      var copied := if dst in st.present then st
                    else CopyState(st.present + {dst}, st.toRemove + {dst + "\n"}, st.testArgs);
      if st.testArgs == "" && argsEligible && name in AddToArgs then copied.(testArgs := name) else copied
  }

  function CopyAll(st: CopyState, dir: string, dest: string, argsEligible: bool, names: seq<string>): CopyState
  {
    if names == [] then st
    else CopyStep(CopyAll(st, dir, dest, argsEligible, names[..|names| - 1]), dir, dest, argsEligible, names[|names| - 1])
  }

  /** The removal list holds exactly the paths created since `before`, each followed by a newline. */
  predicate RecordsCreated(st: CopyState, before: set<string>)
  {
    && before <= st.present
    && (forall t :: t in st.toRemove ==> |t| > 0 && t[|t| - 1] == '\n' && t[..|t| - 1] in st.present - before)
    && (forall p :: p in st.present - before ==> p + "\n" in st.toRemove)
  }

  /** Creating one absent path and recording it keeps `RecordsCreated`. */
  lemma AddCreated(st: CopyState, before: set<string>, dst: string, testArgs: string)
    requires RecordsCreated(st, before) && dst !in st.present
    ensures RecordsCreated(CopyState(st.present + {dst}, st.toRemove + {dst + "\n"}, testArgs), before)
  {
    var t := dst + "\n";
    assert t[..|t| - 1] == dst;
    var st' := CopyState(st.present + {dst}, st.toRemove + {t}, testArgs);
    forall u | u in st'.toRemove
      ensures |u| > 0 && u[|u| - 1] == '\n' && u[..|u| - 1] in st'.present - before
    {
      if u != t {
        assert u in st.toRemove;
      }
    }
  }

  /** One step keeps `RecordsCreated`. */
  lemma CopyStepCreates(st: CopyState, before: set<string>, dir: string, dest: string, argsEligible: bool, name: string)
    requires RecordsCreated(st, before)
    ensures RecordsCreated(CopyStep(st, dir, dest, argsEligible, name), before)
  {
    var dst := JoinPath(dest, Basename(name));
    if JoinPath(dir, name) in st.present && dst !in st.present {
      AddCreated(st, before, dst, st.testArgs);
      AddCreated(st, before, dst, name);
    }
  }

  /** Copying never overwrites: only paths absent before are created, and each one lands in the removal list. */
  lemma {:induction false} CopyAllCreates(before: set<string>, testArgs: string, dir: string, dest: string,
                                          argsEligible: bool, names: seq<string>)
    ensures RecordsCreated(CopyAll(CopyState(before, {}, testArgs), dir, dest, argsEligible, names), before)
  {
    if names != [] {
      var init := names[..|names| - 1];
      CopyAllCreates(before, testArgs, dir, dest, argsEligible, init);
      CopyStepCreates(CopyAll(CopyState(before, {}, testArgs), dir, dest, argsEligible, init), before,
                      dir, dest, argsEligible, names[|names| - 1]);
    }
  }

  /** Where each name would be copied: the build directory plus the name's last path component. */
  function Destinations(dest: string, names: seq<string>): seq<string>
  {
    if names == [] then [] else Destinations(dest, names[..|names| - 1]) + [JoinPath(dest, Basename(names[|names| - 1]))]
  }

  /** A step creates nothing but its own destination. */
  lemma CopyStepGrows(st: CopyState, dir: string, dest: string, argsEligible: bool, name: string)
    ensures var r := CopyStep(st, dir, dest, argsEligible, name);
      st.present <= r.present <= st.present + {JoinPath(dest, Basename(name))}
  {
    var dst := JoinPath(dest, Basename(name));
    var r := CopyStep(st, dir, dest, argsEligible, name);
    assert r.present == st.present || r.present == st.present + {dst};
  }

  /** Every path created is the destination of one of the names. */
  lemma {:induction false} CopyAllDestinations(st: CopyState, dir: string, dest: string, argsEligible: bool, names: seq<string>)
    ensures var r := CopyAll(st, dir, dest, argsEligible, names);
      st.present <= r.present && forall p :: p in r.present - st.present ==> p in Destinations(dest, names)
  {
    if names != [] {
      var init := names[..|names| - 1];
      CopyAllDestinations(st, dir, dest, argsEligible, init);
      CopyStepGrows(CopyAll(st, dir, dest, argsEligible, init), dir, dest, argsEligible, names[|names| - 1]);
    }
  }

  /** `p` is the destination of a name whose source path exists in `present`. */
  ghost predicate CreatedFrom(p: string, present: set<string>, dir: string, dest: string, names: seq<string>)
  {
    exists i :: 0 <= i < |names| && p == JoinPath(dest, Basename(names[i])) && JoinPath(dir, names[i]) in present
  }

  /** A step creates its destination only when the source exists. */
  lemma CopyStepFromSource(st: CopyState, dir: string, dest: string, argsEligible: bool, name: string)
    ensures var r := CopyStep(st, dir, dest, argsEligible, name);
      st.present <= r.present
      && (r.present != st.present ==> JoinPath(dir, name) in st.present
                                      && r.present == st.present + {JoinPath(dest, Basename(name))})
  {
    var src := JoinPath(dir, name);
    var dst := JoinPath(dest, Basename(name));
    var r := CopyStep(st, dir, dest, argsEligible, name);
    if src !in st.present {
      assert r == st;
    } else {
      assert r.present == st.present || r.present == st.present + {dst};
    }
  }

  /** A destination created from a prefix of the names is still created from the names, once more paths exist. */
  lemma CreatedFromPrefix(p: string, mid: set<string>, r: set<string>, dir: string, dest: string, names: seq<string>)
    requires names != [] && mid <= r
    requires CreatedFrom(p, mid, dir, dest, names[..|names| - 1])
    ensures CreatedFrom(p, r, dir, dest, names)
  {
    var init := names[..|names| - 1];
    var i :| 0 <= i < |init| && p == JoinPath(dest, Basename(init[i])) && JoinPath(dir, init[i]) in mid;
    assert names[i] == init[i];
    var src := JoinPath(dir, names[i]);
    assert src in mid;
    assert 0 <= i < |names| && p == JoinPath(dest, Basename(names[i])) && src in r;
  }

  /** A file is copied only when its source exists: every created path is the destination of a name whose source is there. */
  lemma {:induction false} CopyAllFromSources(st: CopyState, dir: string, dest: string, argsEligible: bool, names: seq<string>)
    ensures var r := CopyAll(st, dir, dest, argsEligible, names);
      st.present <= r.present && forall p :: p in r.present - st.present ==> CreatedFrom(p, r.present, dir, dest, names)
  {
    if names != [] {
      var k := |names| - 1;
      var mid := CopyAll(st, dir, dest, argsEligible, names[..k]);
      var r := CopyStep(mid, dir, dest, argsEligible, names[k]);
      assert r == CopyAll(st, dir, dest, argsEligible, names);
      CopyAllFromSources(st, dir, dest, argsEligible, names[..k]);
      CopyStepFromSource(mid, dir, dest, argsEligible, names[k]);
      forall p | p in r.present - st.present
        ensures CreatedFrom(p, r.present, dir, dest, names)
      {
        if p in mid.present {
          CreatedFromPrefix(p, mid.present, r.present, dir, dest, names);
        } else {
          assert p == JoinPath(dest, Basename(names[k])) && JoinPath(dir, names[k]) in r.present;
        }
      }
    }
  }

  /** `args['args']` keeps a non-empty value; an empty one becomes the first eligible `test`/`tests` name, or stays empty. */
  lemma {:induction false} CopyAllArgs(st: CopyState, dir: string, dest: string, argsEligible: bool, names: seq<string>)
    ensures var r := CopyAll(st, dir, dest, argsEligible, names);
      (st.testArgs != "" ==> r.testArgs == st.testArgs)
      && (r.testArgs != st.testArgs ==> argsEligible && r.testArgs in names && r.testArgs in AddToArgs)
  {
    if names != [] {
      CopyAllArgs(st, dir, dest, argsEligible, names[..|names| - 1]);
    }
  }

  /** Copying only adds paths. */
  lemma {:induction false} CopyAllGrows(st: CopyState, dir: string, dest: string, argsEligible: bool, names: seq<string>)
    ensures st.present <= CopyAll(st, dir, dest, argsEligible, names).present
  {
    if names != [] {
      var k := |names| - 1;
      CopyAllGrows(st, dir, dest, argsEligible, names[..k]);
      CopyStepFromSource(CopyAll(st, dir, dest, argsEligible, names[..k]), dir, dest, argsEligible, names[k]);
    }
  }

  /** A step sets `args['args']` only to its own name, only when it is empty, eligible and the source exists. */
  lemma CopyStepArgs(st: CopyState, dir: string, dest: string, argsEligible: bool, name: string)
    ensures CopyStep(st, dir, dest, argsEligible, name).testArgs
            == if JoinPath(dir, name) in st.present && st.testArgs == "" && argsEligible && name in AddToArgs
               then name else st.testArgs
  {
  }

  /** The name put in `args['args']` is one whose source exists. */
  lemma {:induction false} CopyAllArgsSource(st: CopyState, dir: string, dest: string, argsEligible: bool,
                                             names: seq<string>)
    ensures var r := CopyAll(st, dir, dest, argsEligible, names);
      r.testArgs != st.testArgs ==> JoinPath(dir, r.testArgs) in r.present
  {
    if names != [] {
      var k := |names| - 1;
      var mid := CopyAll(st, dir, dest, argsEligible, names[..k]);
      CopyAllArgsSource(st, dir, dest, argsEligible, names[..k]);
      CopyStepArgs(mid, dir, dest, argsEligible, names[k]);
      CopyStepFromSource(mid, dir, dest, argsEligible, names[k]);
    }
  }

  /** When the last name is an eligible `test`/`tests` directory present from the start, `args['args']` ends up set. */
  lemma CopyAllArgsLast(st: CopyState, dir: string, dest: string, argsEligible: bool, names: seq<string>)
    requires st.testArgs == "" && argsEligible && names != []
    requires names[|names| - 1] in AddToArgs && JoinPath(dir, names[|names| - 1]) in st.present
    ensures CopyAll(st, dir, dest, argsEligible, names).testArgs in AddToArgs
  {
    var k := |names| - 1;
    var mid := CopyAll(st, dir, dest, argsEligible, names[..k]);
    CopyAllArgs(st, dir, dest, argsEligible, names[..k]);
    CopyAllGrows(st, dir, dest, argsEligible, names[..k]);
    CopyStepArgs(mid, dir, dest, argsEligible, names[k]);
  }

  /** A `test`/`tests` directory present from the start is never passed over when `args['args']` may be set. */
  lemma {:induction false} CopyAllArgsTaken(st: CopyState, dir: string, dest: string, argsEligible: bool,
                                            names: seq<string>, j: nat)
    requires st.testArgs == "" && argsEligible
    requires j < |names| && names[j] in AddToArgs && JoinPath(dir, names[j]) in st.present
    ensures CopyAll(st, dir, dest, argsEligible, names).testArgs in AddToArgs
  {
    var k := |names| - 1;
    if j < k {
      var init := names[..k];
      assert init[j] == names[j];
      CopyAllArgsTaken(st, dir, dest, argsEligible, init, j);
      CopyStepArgs(CopyAll(st, dir, dest, argsEligible, init), dir, dest, argsEligible, names[k]);
    } else {
      CopyAllArgsLast(st, dir, dest, argsEligible, names);
    }
  }

  /** The tox branch of `Base.test`, carrying out what `ToxOutcome` decides. */
  method TestTox(args: Args, fs: FileSystem, toxStdout: string, toxStderr: string,
                 wheelsBefore: seq<string>, wheelsAfter: seq<string>) returns (r: Result<string>, buildWheel: bool)
    requires "dir" in args.values && "home_dir" in args.values
    modifies args`values, fs`paths
    ensures
      var t := ToxOutcome(ToxConfig(old(args.values)["dir"], old(fs.paths)), args.autopkgtest,
                          ToxMajor(toxStdout, toxStderr), wheelsBefore, wheelsAfter);
      && buildWheel == ToxBuildsWheel(ToxConfig(old(args.values)["dir"], old(fs.paths)), args.autopkgtest,
                                      ToxMajor(toxStdout, toxStderr), wheelsBefore)
      && (t.Failure? ==> r == Failure(t.error) && fs.paths == old(fs.paths) && args.values == old(args.values))
      && (t.Success? ==>
            && r == Success(t.value.command) && buildWheel == t.value.buildWheel
            && fs.paths == (if t.value.removeDistutilsCfg
                            then old(fs.paths) - {JoinPath(old(args.values)["home_dir"], ".pydistutils.cfg")}
                            else old(fs.paths))
            && args.values == (if t.value.wheel.Some?
                               then old(args.values)["wheel" := WheelText(t.value.wheel.value)]
                               else old(args.values)))
  {
    var config, major := ToxConfig(args.values["dir"], fs.paths), ToxMajor(toxStdout, toxStderr);
    buildWheel := ToxBuildsWheel(config, args.autopkgtest, major, wheelsBefore);
    var t := ToxOutcome(config, args.autopkgtest, major, wheelsBefore, wheelsAfter);
    if t.Failure? {
      r := Failure(t.error);
      return;
    }
    if t.value.removeDistutilsCfg {
      fs.paths := fs.paths - {JoinPath(args.values["home_dir"], ".pydistutils.cfg")};
    }
    if t.value.wheel.Some? {
      args.values := args.values["wheel" := WheelText(t.value.wheel.value)];
    }
    r := Success(t.value.command);
  }

  /** The copying loop of `copy_test_files`, one `CopyStep` per name. */
  method CopyNames(args: Args, fs: FileSystem, dir: string, dest: string, eligible: bool, names: seq<string>)
    returns (toRemove: set<string>)
    requires "args" in args.values
    modifies fs`paths, args`values
    ensures var st := CopyAll(CopyState(old(fs.paths), {}, old(args.values)["args"]), dir, dest, eligible, names);
      fs.paths == st.present && toRemove == st.toRemove && args.values == old(args.values)["args" := st.testArgs]
  {
    var present, values := fs.paths, args.values;
    var testArgs := values["args"];
    ghost var st0 := CopyState(present, {}, testArgs);
    toRemove := {};
    var i := 0;
    while i < |names|
      invariant 0 <= i <= |names|
      invariant CopyState(present, toRemove, testArgs) == CopyAll(st0, dir, dest, eligible, names[..i])
    {
      ghost var prefix := names[..i + 1];
      assert prefix[..i] == names[..i] && prefix[i] == names[i];
      present, toRemove, testArgs := CopyOne(present, toRemove, testArgs, dir, dest, eligible, names[i]);
      assert CopyAll(st0, dir, dest, eligible, prefix)
          == CopyStep(CopyAll(st0, dir, dest, eligible, names[..i]), dir, dest, eligible, names[i]);
      i := i + 1;
    }
    assert names[..i] == names;
    fs.paths := present;
    args.values := values["args" := testArgs];
  }

  /** One iteration of the copy loop. */
  method CopyOne(present: set<string>, toRemove: set<string>, testArgs: string, dir: string, dest: string,
                 eligible: bool, name: string)
    returns (present': set<string>, toRemove': set<string>, testArgs': string)
    ensures CopyState(present', toRemove', testArgs') == CopyStep(CopyState(present, toRemove, testArgs), dir, dest, eligible, name)
  {
    present', toRemove', testArgs' := present, toRemove, testArgs;
    var src := JoinPath(dir, name);
    var dst := JoinPath(dest, Basename(name));
    if src in present {
      if dst !in present {
        present' := present + {dst};
        toRemove' := toRemove + {dst + "\n"};
      }
      if testArgs == "" && eligible && name in AddToArgs {
        testArgs' := name;
      }
    }
  }

  /** One more alternative extends what is collected and what is recorded by its own matches. */
  lemma AlternativesStep(d: map<string, seq<string>>, tpl: string, alts: seq<string>, j: nat, glob: Glob)
    requires j < |alts|
    ensures Matches(alts[..j + 1], glob) == Matches(alts[..j], glob) + glob(alts[j])
    ensures RecordAlts(d, tpl, alts[..j + 1], glob) == Record(RecordAlts(d, tpl, alts[..j], glob), tpl, glob(alts[j]))
  {
    assert alts[..j + 1][..j] == alts[..j];
  }

  /** The inner loop of `detect` over the `|`-separated alternatives of one
      required template, extending DETECTED_REQUIRED_FILES `d`. */
  method MatchAlternatives(d: map<string, seq<string>>, tpl: string, glob: Glob)
    returns (found: bool, d': map<string, seq<string>>)
    ensures found == Found(tpl, glob)
    ensures d' == RecordAlts(d, tpl, Split(tpl, '|'), glob)
  {
    var alts := Split(tpl, '|');
    d' := d;
    found := false;
    var j := 0;
    while j < |alts|
      invariant 0 <= j <= |alts|
      invariant found == (Matches(alts[..j], glob) != [])
      invariant d' == RecordAlts(d, tpl, alts[..j], glob)
    {
      AlternativesStep(d, tpl, alts, j, glob);
      var res := glob(alts[j]);
      if res != [] {
        found := true;
        d' := d'[tpl := (if tpl in d' then d'[tpl] else []) + res];
      }
      j := j + 1;
    }
    assert alts[..j] == alts;
    MatchesNone(alts, glob);
  }

  // ================================================================ the plugin object

  /** A set of existing paths that copying adds to and removal takes from. */
  class FileSystem {
    var paths: set<string>

    constructor(paths: set<string>)
      ensures this.paths == paths
    {
      this.paths := paths;
    }
  }

  /** `context`: the source directory and the environment commands run with. */
  class Context {
    const dir: string
    var env: map<string, string>

    constructor(dir: string, env: map<string, string>)
      ensures this.dir == dir && this.env == env
    {
      this.dir := dir;
      this.env := env;
    }
  }

  /**
   * `args`: the per-interpreter values commands are formatted with (as
   * text), the `ignore_no_tests` flag, the autopkgtest flag and the extra
   * environment (`args['ENV']`) when there is one.
   */
  class Args {
    var values: map<string, string>
    var ignoreNoTests: bool
    const autopkgtest: bool
    const env: Option<map<string, string>>

    constructor(values: map<string, string>, autopkgtest: bool, env: Option<map<string, string>>)
      ensures this.values == values && !ignoreNoTests && this.autopkgtest == autopkgtest && this.env == env
    {
      this.values := values;
      ignoreNoTests := false;
      this.autopkgtest := autopkgtest;
      this.env := env;
    }
  }

  /**
   * A plugin instance: its class attributes, the pybuild options, and the
   * DETECTED_* dictionaries `detect` fills in.
   */
  class Base {
    const plugin: Plugin
    const cfg: Config
    var detectedRequired: map<string, seq<string>>
    var detectedOptional: map<string, seq<string>>

    constructor(plugin: Plugin, cfg: Config)
      ensures this.plugin == plugin && this.cfg == cfg
      ensures detectedRequired == map[] && detectedOptional == map[]
    {
      this.plugin := plugin;
      this.cfg := cfg;
      detectedRequired := map[];
      detectedOptional := map[];
    }

    /** `Base.detect`: the certainty that this plugin fits the tree, filling DETECTED_* on the way. */
    method Detect(glob: Glob) returns (result: int)
      modifies this`detectedRequired, this`detectedOptional
      ensures result == DetectScore(plugin, glob)
      ensures detectedRequired == RecordRequired(map[], plugin.requiredFiles, glob)
      ensures detectedOptional == RecordOptional(map[], plugin.optionalFiles, glob)
    {
      var requiredNum := CountRequired(glob);
      result := 0;
      if |plugin.requiredFiles| > 0 {
        result := result + (requiredNum * 50) / |plugin.requiredFiles|;
      }
      var optional := ScoreOptional(glob);
      result := result + optional;
      if result > 100 {
        result := 100;
      }
    }

    /**
     * `Base.test`: the command template of the first enabled runner. The
     * unittest fallback also tells `shell_command` to accept exit code 5;
     * tox may delete the pip configuration, name the wheel to install and
     * ask for it to be built.
     */
    method Test(args: Args, fs: FileSystem, toxStdout: string, toxStderr: string,
                wheelsBefore: seq<string>, wheelsAfter: seq<string>) returns (r: Result<string>, buildWheel: bool)
      requires "dir" in args.values && "home_dir" in args.values
      modifies args`values, args`ignoreNoTests, fs`paths
      ensures SelectRunner(cfg) != Tox ==>
        r == Success(RunnerCommand(SelectRunner(cfg))) && !buildWheel
        && fs.paths == old(fs.paths) && args.values == old(args.values)
      ensures args.ignoreNoTests == (old(args.ignoreNoTests) || SelectRunner(cfg) == Unittest)
      ensures SelectRunner(cfg) == Tox ==>
        var t := ToxOutcome(ToxConfig(old(args.values)["dir"], old(fs.paths)), args.autopkgtest,
                            ToxMajor(toxStdout, toxStderr), wheelsBefore, wheelsAfter);
        && buildWheel == ToxBuildsWheel(ToxConfig(old(args.values)["dir"], old(fs.paths)), args.autopkgtest,
                                        ToxMajor(toxStdout, toxStderr), wheelsBefore)
        && (t.Failure? ==> r == Failure(t.error) && fs.paths == old(fs.paths) && args.values == old(args.values))
        && (t.Success? ==>
              && r == Success(t.value.command) && buildWheel == t.value.buildWheel
              && fs.paths == (if t.value.removeDistutilsCfg
                              then old(fs.paths) - {JoinPath(old(args.values)["home_dir"], ".pydistutils.cfg")}
                              else old(fs.paths))
              && args.values == (if t.value.wheel.Some?
                                 then old(args.values)["wheel" := WheelText(t.value.wheel.value)]
                                 else old(args.values)))
    {
      buildWheel := false;
      var runner := SelectRunner(cfg);
      if runner == Tox {
        r, buildWheel := TestTox(args, fs, toxStdout, toxStderr, wheelsBefore, wheelsAfter);
      } else {
        if runner == Unittest {
          args.ignoreNoTests := true;
        }
        r := Success(RunnerCommand(runner));
      }
    }

    /**
     * The `copy_test_files` decorator, run before `test`: picks the names to
     * copy, copies each existing one into the build directory unless it is
     * already there, and may set `args['args']`. Returns the lines to append
     * to the list of files removed before installation.
     */
    method CopyTestFiles(ctx: Context, args: Args, fs: FileSystem, testfiles: map<string, seq<string>>,
                         defaultOrder: seq<string>, interpreter: string, version: string, major: string)
      returns (toRemove: set<string>)
      requires multiset(defaultOrder) == multiset(DefaultTestFiles)
      requires "dir" in args.values && "build_dir" in args.values && "args" in args.values
      modifies fs`paths, args`values
      ensures
        var dir := old(args.values)["dir"];
        var names := FilesToCopy(TestfilesCandidates(dir, interpreter, version, major), testfiles, defaultOrder);
        var eligible := "PYBUILD_TEST_ARGS" !in ctx.env && (cfg.testPytest || cfg.testNose);
        var st := CopyAll(CopyState(old(fs.paths), {}, old(args.values)["args"]), dir, old(args.values)["build_dir"],
                          eligible, names);
        fs.paths == st.present && toRemove == st.toRemove && args.values == old(args.values)["args" := st.testArgs]
    {
      var dir := args.values["dir"];
      var names := FilesToCopy(TestfilesCandidates(dir, interpreter, version, major), testfiles, defaultOrder);
      var eligible := "PYBUILD_TEST_ARGS" !in ctx.env && (cfg.testPytest || cfg.testNose);
      toRemove := CopyNames(args, fs, dir, args.values["build_dir"], eligible, names);
    }

    /** The loop over REQUIRED_FILES. */
    method CountRequired(glob: Glob) returns (requiredNum: nat)
      modifies this`detectedRequired
      ensures requiredNum == FoundCount(plugin.requiredFiles, glob)
      ensures detectedRequired == RecordRequired(map[], plugin.requiredFiles, glob)
    {
      var tpls := plugin.requiredFiles;
      var d := map[];
      requiredNum := 0;
      var i := 0;
      while i < |tpls|
        invariant 0 <= i <= |tpls|
        invariant requiredNum == FoundCount(tpls[..i], glob)
        invariant d == RecordRequired(map[], tpls[..i], glob)
      {
        ghost var prefix := tpls[..i + 1];
        assert prefix[..i] == tpls[..i] && prefix[i] == tpls[i];
        var found;
        found, d := MatchAlternatives(d, tpls[i], glob);
        if found {
          requiredNum := requiredNum + 1;
        }
        i := i + 1;
      }
      assert tpls[..i] == tpls;
      detectedRequired := d;
    }

    /** The loop over OPTIONAL_FILES. */
    method ScoreOptional(glob: Glob) returns (score: int)
      modifies this`detectedOptional
      ensures score == OptionalScore(plugin.optionalFiles, glob)
      ensures detectedOptional == RecordOptional(map[], plugin.optionalFiles, glob)
    {
      var opts := plugin.optionalFiles;
      score := 0;
      detectedOptional := map[];
      var i := 0;
      while i < |opts|
        invariant 0 <= i <= |opts|
        invariant score == OptionalScore(opts[..i], glob)
        invariant detectedOptional == RecordOptional(map[], opts[..i], glob)
      {
        var (ftpl, s) := opts[i];
        var res := glob(ftpl);
        assert opts[..i + 1][..i] == opts[..i];
        if res != [] {
          score := score + s;
          detectedOptional := detectedOptional[ftpl := (if ftpl in detectedOptional then detectedOptional[ftpl] else []) + res];
        }
        i := i + 1;
      }
      assert opts[..i] == opts;
    }
  }
}
