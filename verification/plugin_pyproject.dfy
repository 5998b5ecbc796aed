/**
 * The generic PEP 517 plugin (dhpython/build/plugin_pyproject.py): it
 * requires `pyproject.toml`, scores itself below more specific plugins,
 * builds a wheel with `python -m build` (passing meson-python its
 * configuration) and runs the tests with the wheel's scripts on `PATH`.
 *
 * The declared build backend (`build-system.build-backend` of
 * `pyproject.toml`) and the host multiarch triplet are inputs.
 */
module PluginPyproject {
  import opened Wrappers
  import opened Text
  import opened BuildBase

  /** The plugin's class attributes: `pyproject.toml` is required, no optional globs, and `build` is cleaned too. */
  const Pyproject: Plugin := Plugin(["pyproject.toml"], [], BaseCleanFiles + {"build"})

  /** CLEAN_FILES extends the base set with exactly `build`. */
  lemma CleanFiles()
    ensures Pyproject.cleanFiles == {".pytest_cache", ".coverage", "build"}
    ensures BaseCleanFiles < Pyproject.cleanFiles && Pyproject.cleanFiles - BaseCleanFiles == {"build"}
  {
  }

  // ---------------------------------------------------------------- detection

  /** `_build_backend()` is truthy: a backend is declared and is not empty. */
  predicate Declared(backend: Option<string>)
  {
    backend.Some? && backend.value != ""
  }

  /** `BuildSystem.detect`: the base score lowered by 20, raised by 10 for a declared backend, capped at 100. */
  function PyprojectScore(glob: Glob, backend: Option<string>): int
  {
    var r := DetectScore(Pyproject, glob) - 20 + (if Declared(backend) then 10 else 0);
    if r > 100 then 100 else r
  }

  /**
   * With `pyproject.toml` present the plugin scores 30, 40 with a declared
   * backend; without it, -20 or -10. Nothing clamps the score at 0.
   */
  lemma PyprojectScoreValues(glob: Glob, backend: Option<string>)
    ensures PyprojectScore(glob, backend)
            == (if glob("pyproject.toml") != [] then 30 else -20) + (if Declared(backend) then 10 else 0)
  {
    var tpl := "pyproject.toml";
    SplitNoSep(tpl, '|');
    assert Found(tpl, glob) <==> glob(tpl) != [] by {
      assert forall a :: a in Split(tpl, '|') <==> a == tpl;
    }
    var tpls := [tpl];
    assert tpls[..0] == [];
    assert FoundCount(tpls, glob) == if glob(tpl) != [] then 1 else 0;
  }

  /** `BuildSystem.detect`, with the DETECTED_* dictionaries filled in by the base class. */
  method Detect(b: Base, glob: Glob, backend: Option<string>) returns (result: int)
    requires b.plugin == Pyproject
    modifies b`detectedRequired, b`detectedOptional
    ensures result == PyprojectScore(glob, backend)
    ensures b.detectedRequired == RecordRequired(map[], Pyproject.requiredFiles, glob)
    ensures b.detectedOptional == map[]
  {
    result := b.Detect(glob);
    result := result - 20;
    if Declared(backend) {
      result := result + 10;
    }
    if result > 100 {
      result := 100;
    }
  }

  // ---------------------------------------------------------------- building the wheel

  /** `_backend_config_settings`: meson-python gets its compile and setup arguments; any other backend none. */
  function BackendConfigSettings(backend: Option<string>, multiarch: string): (r: seq<string>)
    ensures backend != Some("mesonpy") ==> r == []
    ensures backend == Some("mesonpy") ==>
      |r| == 6 && r[0] == "compile-args=--verbose" && r[5] == "setup-args=--libdir=lib/" + multiarch
      && forall i :: 1 <= i < 6 ==> StartsWith(r[i], "setup-args=")
  {
    if backend == Some("mesonpy") then
      var setup := ["--wrap-mode=nodownload", "--prefix=/usr", "--sysconfdir=/etc", "--localstatedir=/var",
                    "--libdir=lib/" + multiarch];
      ["compile-args=--verbose"] + seq(5, i requires 0 <= i < 5 => "setup-args=" + setup[i])
    else []
  }

  /** `'--config-setting ' + setting` for each setting, in order. */
  function ConfigFlags(settings: seq<string>): seq<string>
  {
    if settings == [] then []
    else ConfigFlags(settings[..|settings| - 1]) + ["--config-setting " + settings[|settings| - 1]]
  }

  /** The same flags as separate shell words. */
  function ConfigWords(settings: seq<string>): (w: seq<string>)
    ensures |w| == 2 * |settings|
    ensures forall i :: 0 <= i < |settings| ==> w[2 * i] == "--config-setting" && w[2 * i + 1] == settings[i]
  {
    if settings == [] then []
    else
      var init := settings[..|settings| - 1];
      var w0 := ConfigWords(init);
      var w := w0 + ["--config-setting", settings[|settings| - 1]];
      assert forall i :: 0 <= i < |init| ==> w[2 * i] == w0[2 * i] && w[2 * i + 1] == w0[2 * i + 1];
      w
  }

  /** `' '.join(flags)` is the same text as the words joined with spaces. */
  lemma {:induction false} ConfigFlagsAsWords(settings: seq<string>)
    ensures Join(ConfigFlags(settings), ' ') == Join(ConfigWords(settings), ' ')
  {
    if |settings| == 1 {
      assert ConfigFlags(settings) == [] + ["--config-setting " + settings[0]];
      assert ConfigWords(settings) == [] + ["--config-setting", settings[0]];
    } else if |settings| > 1 {
      var init := settings[..|settings| - 1];
      var last := settings[|settings| - 1];
      ConfigFlagsAsWords(init);
      JoinSnoc(ConfigFlags(init), "--config-setting " + last, ' ');
      JoinSnoc(ConfigWords(init), "--config-setting", ' ');
      JoinSnoc(ConfigWords(init) + ["--config-setting"], last, ' ');
      assert ConfigWords(init) + ["--config-setting", last] == ConfigWords(init) + ["--config-setting"] + [last];
    }
  }

  /** The words of space-free settings are space-free. */
  lemma {:induction false} ConfigWordsNoSpace(settings: seq<string>)
    requires forall i :: 0 <= i < |settings| ==> ' ' !in settings[i]
    ensures forall k :: 0 <= k < |ConfigWords(settings)| ==> ' ' !in ConfigWords(settings)[k]
  {
    if settings != [] {
      var init := settings[..|settings| - 1];
      ConfigWordsNoSpace(init);
      var w0 := ConfigWords(init);
      var w := w0 + ["--config-setting", settings[|settings| - 1]];
      assert ' ' !in "--config-setting";
      assert forall k :: 0 <= k < |w0| ==> w[k] == w0[k];
    }
  }

  /** Settings without spaces come back, word by word, when the flags are split at spaces. */
  lemma ConfigWordsSplit(settings: seq<string>)
    requires |settings| > 0 && forall i :: 0 <= i < |settings| ==> ' ' !in settings[i]
    ensures Split(Join(ConfigFlags(settings), ' '), ' ') == ConfigWords(settings)
  {
    ConfigWordsNoSpace(settings);
    ConfigFlagsAsWords(settings);
    SplitJoin(ConfigWords(settings), ' ');
  }

  /** The `python -m build` command: the wheel goes to the home directory, then the config settings, then `{args}`. */
  function BuildWheelCommand(homeDir: string, settings: seq<string>): (r: string)
    ensures StartsWith(r, "{interpreter} -m build --skip-dependency-check --no-isolation --wheel --outdir " + homeDir + " ")
    ensures EndsWith(r, " {args}")
  {
    var front := "{interpreter} -m build --skip-dependency-check --no-isolation --wheel --outdir " + homeDir + " ";
    var r := front + Join(ConfigFlags(settings), ' ') + " {args}";
    assert r[..|front|] == front;
    r
  }

  /**
   * `BuildSystem.build_wheel` before `shell_command` runs it: flit is kept
   * off the network, `HOME` points at the per-interpreter home directory,
   * and the command is returned.
   */
  method BuildWheel(ctx: Context, homeDir: string, backend: Option<string>, multiarch: string) returns (command: string)
    modifies ctx`env
    ensures ctx.env == old(ctx.env)["FLIT_NO_NETWORK" := "1"]["HOME" := homeDir]
    ensures command == BuildWheelCommand(homeDir, BackendConfigSettings(backend, multiarch))
  {
    var settings := BackendConfigSettings(backend, multiarch);
    ctx.env := ctx.env["FLIT_NO_NETWORK" := "1"];
    ctx.env := ctx.env["HOME" := homeDir];
    command := BuildWheelCommand(homeDir, settings);
  }

  // ---------------------------------------------------------------- testing

  /**
   * The environment part of `BuildSystem.test`, before the base class picks
   * the command: the wheel's `scripts` directory goes in front of `PATH`
   * only when it exists (a missing `PATH` is then an error), and `HOME`
   * points at the home directory.
   */
  method PrepareTest(ctx: Context, homeDir: string, present: set<string>) returns (r: Result<()>)
    modifies ctx`env
    ensures var scripts := JoinPath(homeDir, "scripts");
      if scripts in present && "PATH" !in old(ctx.env) then
        r.Failure? && ctx.env == old(ctx.env)
      else
        r.Success?
        && ctx.env == (if scripts in present then old(ctx.env)["PATH" := scripts + ":" + old(ctx.env)["PATH"]]
                       else old(ctx.env))["HOME" := homeDir]
  {
    var scripts := JoinPath(homeDir, "scripts");
    if scripts in present {
      if "PATH" !in ctx.env {
        return Failure("KeyError: 'PATH'");
      }
      ctx.env := ctx.env["PATH" := scripts + ":" + ctx.env["PATH"]];
    }
    ctx.env := ctx.env["HOME" := homeDir];
    r := Success(());
  }
}
