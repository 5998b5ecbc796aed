# dh-python: dependencies, build plugins and interpreter defaults

This project models the core of dh-python, the Debian helper that packages
Python modules. It covers four parts:

- **`Dependencies`** (`dhpython/depends.py`) collects the `Depends`,
  `Recommends`, `Suggests`, `Enhances` and `Breaks` relations of a binary
  package and its rtupdate scripts. `parse` derives them from what the
  package scan found: interpreter versions, extensions, shebangs, private
  directories and byte-compilation. It also reads the requirement files
  that `--guess-deps`, `--depends`, `--recommends`, `--suggests` and
  `--requires` point at. `export_to` hands everything to debhelper, each
  relation in sorted order.
- **The build-system base** (`dhpython/build/base.py`):
  - how a plugin scores its fit for a source tree (`detect`);
  - which test runner `test` picks, including the tox branch with its wheel handling;
  - how `built_wheel` finds the wheel;
  - how `shell_command` quotes, runs and judges a command;
  - how `copy_test_files` copies test files next to the build.
- **The generic PEP 517 plugin** (`dhpython/build/plugin_pyproject.py`):
  - its detection score;
  - its meson-python configuration settings;
  - the `python -m build` command line;
  - the environment it sets for building and testing.
- **Interpreter defaults** (`dhpython/_defaults.py`):
  - reading the default and supported CPython versions from the environment or from `debian_defaults`;
  - the module-level `DEFAULT`/`SUPPORTED` tables;
  - the `__main__` printer, which is proved to be the inverse of the parser.

The files are:

| file | models |
|---|---|
| `wrappers.dfy` | `Option` and `Result` (a `Failure` carries the message of the exception raised) |
| `text.dfy` | `str.split`, `str.join`, `str.strip`, `str.replace`, `int()`, `str()`, `os.path.join`, `rsplit('/', 1)[-1]` |
| `shell.dfy` | `shlex.quote`, the `'\''` escape, and a reader for one POSIX shell word that inverts both |
| `sorting.dfy` | Python's `sorted` on strings and on pairs of strings |
| `relations.dfy` | the add-if-absent rules of `depend`, `recommend`, …, `rtscript` |
| `depends_rules.dfy` | what `parse` derives, as functions of the scan results and the options |
| `depends.dfy` | the `Dependencies` class: its fields, its methods and `export_to` |
| `build_base.dfy` | `copy_test_files`, `Base` and `shell_command` |
| `plugin_pyproject.dfy` | the PEP 517 `BuildSystem` |
| `defaults.dfy` | `_defaults.py` |

Code that dh-python calls but that is not part of this model becomes an
input. This covers:

- `guess_dependency`, `parse_pydep` and `parse_requires_dist`;
- `os.path.exists`, `glob1` and file contents;
- the supported and default versions;
- the exit code and output of commands;
- `str.format`;
- the declared build backend and `DEB_HOST_MULTIARCH`.

State the source updates in place is modelled as classes with `modifies`
clauses:

- `Dependencies`;
- the `Base` object's `DETECTED_*` dictionaries;
- the `args` dictionary;
- the context environment;
- the file system, as a set of existing paths.

Every relation, `recommends`, `suggests`, `enhances` and `breaks`
included, is sorted on export (`depends.py:60-71`), and the model proves
the exported order is the sorted one.

Where dh-python's docstrings and its code disagree, the model follows the
code:

- **Detection range.** The `detect` docstrings promise a certainty from 0
  to 100. Only the upper bound holds:
  - the PEP 517 plugin subtracts 20 and can return -20;
  - the base class goes below 0 with a negative optional score.

  The model keeps these values and proves the exact ranges.

## Model

| member | source | states |
|---|---|---|
| `Relations.AddToSet` | dhpython/depends.py:78-80 | `depend` adds a non-empty value to the set and ignores the empty string |
| `Relations.AddNonEmpty` | dhpython/depends.py:82-84 | `recommend` (and `suggest`, `enhance`, `break_`) appends a value exactly when it is non-empty and absent; the old list stays as a prefix |
| `Relations.AddNew` | dhpython/depends.py:98-100 | `rtscript` appends a value exactly when it is absent, empty or not |
| `Relations.AddToSetIdempotent` | dhpython/depends.py:78-80 | repeating a `depend` call changes nothing |
| `Relations.AddNonEmptyIdempotent` | dhpython/depends.py:82-96 | repeating a `recommend`-style call changes nothing |
| `Relations.AddNewIdempotent` | dhpython/depends.py:98-100 | repeating an `rtscript` call changes nothing |
| `Relations.NonEmpty` | dhpython/depends.py:213 | a run of `depend` calls adds exactly the non-empty values given |
| `Relations.NonEmptyAppend` | dhpython/depends.py:213 | two runs of `depend` calls add the union of what each adds |
| `Relations.AddAllContents` | dhpython/depends.py:214 | a run of `recommend` calls keeps the old list in front and adds exactly the non-empty new values |
| `Relations.AddAllNoDup` | dhpython/depends.py:82-96 | a list without duplicates or empty values stays so after any run of calls |
| `Relations.AddAllAppend` | dhpython/depends.py:213-215 | two runs of calls give the same list as one run over the concatenated values |
| `Relations.AddAllIdempotent` | dhpython/depends.py:214 | repeating a whole run of `recommend` calls changes nothing |
| `Relations.AddAllAbsorbs` | dhpython/depends.py:83 | values already present (or empty) leave the list unchanged |
| `Relations.AddAllNewContents` | dhpython/depends.py:98-100 | a run of `rtscript` calls keeps the old list in front and adds exactly the new pairs |
| `Relations.AddAllNewNoDup` | dhpython/depends.py:99 | `rtscripts` never holds a pair twice |
| `Relations.AddAllNewAppend` | dhpython/depends.py:198 | two runs of `rtscript` calls equal one run over the concatenation |
| `Sorting.Sort` | dhpython/depends.py:62 | `sorted` returns a permutation of its input |
| `Sorting.SortSorted` | dhpython/depends.py:62 | `sorted` returns its input in order, for any strict total order |
| `Sorting.SortedUnique` | dhpython/depends.py:60-70 | two sorted permutations of the same values are equal, so `Sort` is exactly Python's `sorted` |
| `Sorting.StrLessOrder` | dhpython/depends.py:60 | string comparison by code point is a strict total order |
| `Sorting.PairLessOrder` | dhpython/depends.py:70 | comparing `(dir, args)` pairs by first and then second element is a strict total order |
| `Sorting.SortStrings` | dhpython/depends.py:62 | sorting a list of strings yields a sorted list |
| `Depends.Substvars` | dhpython/depends.py:60-61 | one `addsubstvar` call per value |
| `Depends.Rtupdates` | dhpython/depends.py:70-71 | one `add_rtupdate` call per script |
| `Depends.SortedSet` | dhpython/depends.py:60 | `sorted(self.depends)` lists every element of the set once, in order |
| `Depends.SortedSetUnique` | dhpython/depends.py:60 | any sorted listing of the set is `sorted(self.depends)` |
| `Depends.SortedElements` | dhpython/depends.py:60 | computes the sorted listing of the set |
| `Depends.Calls` | dhpython/depends.py:57-71 | the calls come as Depends, Recommends, Suggests, Enhances and Breaks substvars, each block at its own position, with the rtupdate calls last; one call per value |
| `Depends.ExportedLength` | dhpython/depends.py:57-71 | `export_to` makes one call per element of each relation |
| `Depends.ExportedDepends` | dhpython/depends.py:59-61 | the first calls are `<prefix>:Depends` substvars for the set's elements: each once, sorted |
| `Depends.ExportedRecommends` | dhpython/depends.py:62-63 | the `<prefix>:Recommends` calls follow directly and carry the recommendations sorted, as a permutation |
| `Depends.ExportedRtupdates` | dhpython/depends.py:70-71 | the last calls are the rtupdate scripts sorted by directory and then arguments, as a permutation |
| `Depends.Dependencies.ExportTo` | dhpython/depends.py:57-71 | `export_to` makes exactly the calls of `Calls` on the sorted relations, under `PKG_PREFIX_MAP`'s prefix (`python3` or `misc`) |
| `Depends.AddingKeepsClean` | dhpython/depends.py:78-100 | runs of `depend`, `recommend`, `suggest` and `rtscript` calls keep every relation free of empty values and duplicates |
| `Depends.DependsInTwoRuns` | dhpython/depends.py:78-80 | two runs of `depend` calls leave the set as one run over both; it never gains `""` |
| `Depends.CatStep` | dhpython/depends.py:213-251 | feeding two requirement results one after the other adds their concatenation |
| `Depends.InterpreterDepsParts` | dhpython/depends.py:110-198 | the interpreter dependencies, as a set, are the union of range bounds, extension bounds, the byte-compiler, shebangs and private directories |
| `Depends.Dependencies.constructor` | dhpython/depends.py:34-55 | `__init__` derives the templates and the `python-dev` flag from the package and build dependencies; every relation starts empty |
| `Depends.Dependencies.Depend` | dhpython/depends.py:78-80 | updates `depends` as `AddToSet` says and nothing else; keeps `Valid()` (no empty values, no duplicates) |
| `Depends.Dependencies.Recommend` | dhpython/depends.py:82-84 | updates `recommends` as `AddNonEmpty` says; keeps `Valid()` (no empty values, no duplicates) |
| `Depends.Dependencies.Suggest` | dhpython/depends.py:86-88 | updates `suggests` as `AddNonEmpty` says; keeps `Valid()` (no empty values, no duplicates) |
| `Depends.Dependencies.Enhance` | dhpython/depends.py:90-92 | updates `enhances` as `AddNonEmpty` says; keeps `Valid()` (no empty values, no duplicates) |
| `Depends.Dependencies.Break` | dhpython/depends.py:94-96 | updates `breaks` as `AddNonEmpty` says; keeps `Valid()` (no empty values, no duplicates) |
| `Depends.Dependencies.Rtscript` | dhpython/depends.py:98-100 | updates `rtscripts` as `AddNew` says; keeps `Valid()` (no empty values, no duplicates) |
| `Depends.Dependencies.DependAll` | dhpython/depends.py:213 | a comprehension of `depend` calls adds the non-empty values |
| `Depends.Dependencies.RecommendAll` | dhpython/depends.py:214 | a comprehension of `recommend` calls is `AddAll` |
| `Depends.Dependencies.SuggestAll` | dhpython/depends.py:215 | a comprehension of `suggest` calls is `AddAll` |
| `Depends.Dependencies.AddDepLists` | dhpython/depends.py:211-215 | the three lists of a `parse_pydep` result go to `depends`, `recommends` and `suggests` |
| `Depends.Dependencies.ParseRange` | dhpython/depends.py:110-126 | the `-V` bounds (`RangeDeps`) are added to `depends` |
| `Depends.Dependencies.ParseExtensions` | dhpython/depends.py:128-137 | the extension-version bounds (`ExtDeps`) are added |
| `Depends.Dependencies.ParseBounds` | dhpython/depends.py:110-141 | range bounds, then extension bounds, then `MINPYCDEP` when byte-compiling |
| `Depends.Dependencies.SupportedShebangs` | dhpython/depends.py:151-156 | computes the `:any` interpreter of each supported shebang version, in order |
| `Depends.Dependencies.CompileArgs` | dhpython/depends.py:176-197 | the script arguments are the `-V` argument followed by one ` -X '…'` per pattern |
| `Depends.Dependencies.DirDepends` | dhpython/depends.py:149-194 | computes every value one private directory passes to `depend`, in call order |
| `Depends.Dependencies.ParsePrivateDir` | dhpython/depends.py:149-198 | one private directory adds its dependencies and, when byte-compiled, its rtupdate script |
| `Depends.Dependencies.ParsePrivateDirs` | dhpython/depends.py:146-198 | the loop over private directories adds all of their dependencies and scripts |
| `Depends.Dependencies.AddPydepFiles` | dhpython/depends.py:208-215 | each `requires.txt` result is added in order |
| `Depends.Dependencies.AddEggInfoFile` | dhpython/depends.py:217-221 | the guessed package of each `Requires: ` line is added to `depends` |
| `Depends.Dependencies.AddEggInfoFiles` | dhpython/depends.py:216-221 | every egg-info file is read in order |
| `Depends.Dependencies.AddRequiresDistFiles` | dhpython/depends.py:222-228 | each dist-info result is added in order |
| `Depends.Dependencies.AddRequiresFiles` | dhpython/depends.py:239-251 | each `--requires` file that can be found is read with `parse_pydep`; missing ones are skipped |
| `Depends.Dependencies.ParseInterpreter` | dhpython/depends.py:110-198 | everything the interpreter facts and private directories add to `depends` and `rtscripts` |
| `Depends.Dependencies.ParseGuessed` | dhpython/depends.py:207-228 | with `--guess-deps`: `requires.txt`, egg-info, then dist-info; without it nothing |
| `Depends.Dependencies.ParseOptions` | dhpython/depends.py:230-238 | `--depends`, `--recommends` and `--suggests`, each requirement guessed |
| `Depends.Dependencies.ParseExternal` | dhpython/depends.py:200-251 | guessed requirements, then options, then `--requires` files |
| `Depends.Dependencies.Parse` | dhpython/depends.py:102-253 | `parse` adds exactly `ParseDepends`/`ParseRecommends`/`ParseSuggests`/`ParseRtscripts` in call order and keeps every relation free of empty values and duplicates |
| `DependsRules.VersionLessOrder` | dhpython/depends.py:130 | versions compare as `(major, minor)`: a strict total order |
| `DependsRules.Succ` | dhpython/depends.py:137 | `v + 1` is the next version after `v`, with nothing between |
| `DependsRules.SortedVersions` | dhpython/depends.py:130 | `sorted(ext_vers)` is a permutation |
| `DependsRules.SortedEnds` | dhpython/depends.py:130-132 | `sorted_vers[0]` and `sorted_vers[-1]` are the least and the greatest version |
| `DependsRules.NamesFor` | dhpython/depends.py:34-48 | the debug flag is exactly "package ends with `-dbg`"; `python_dev_in_bd` is exactly "one of `python-dev`, `python-all-dev`, `python3-dev`, `python3-all-dev` is a build dependency" |
| `DependsRules.NamesAny` | dhpython/depends.py:42-43 | the `:any` templates are the plain ones with `:any` appended |
| `DependsRules.NamesDebug` | dhpython/depends.py:38-41 | exactly `-dbg` packages depend on the `-dbg` interpreters; templates start with `python3` / `python<version>` |
| `DependsRules.AtLeastNotBelow` | dhpython/depends.py:124-126 | a `>=` bound never reads as a `<<` bound |
| `DependsRules.AtLeastTemplates` | dhpython/depends.py:113-116 | a bound on `python3:any` differs from the same bound on `python3` |
| `DependsRules.RangeSingle` | dhpython/depends.py:120-122 | a one-version `-V` gives exactly `python<v>` and no bounds |
| `DependsRules.RangeBounds` | dhpython/depends.py:110-126 | a wider range gives `>= min~` and `<< max` (open upper bound, not incremented), on `:any` exactly when something runs the interpreter |
| `DependsRules.ExtBounds` | dhpython/depends.py:128-137 | the lower bound is the least extension version, present iff it is at most the default; the upper bound is one past the greatest, present iff that is at least the default |
| `DependsRules.ShebangDeps` | dhpython/depends.py:143-144 | one `<interpreter>:any` per shebang, in order |
| `DependsRules.ShebangVersions` | dhpython/depends.py:149 | at most one version per shebang |
| `DependsRules.ShebangVersionsMembers` | dhpython/depends.py:149 | a version is listed iff some shebang names it with a non-zero minor |
| `DependsRules.SupportedDeps` | dhpython/depends.py:151-156 | at most one dependency per shebang version |
| `DependsRules.SupportedDepsMembers` | dhpython/depends.py:151-156 | a dependency is added iff it is the `:any` interpreter of a supported shebang version; unsupported ones are dropped |
| `DependsRules.UnversionedShebang` | dhpython/depends.py:157-159 | an unversioned shebang adds the `:any` base interpreter (`python3:any`, or `python3-dbg:any` for a `-dbg` package) |
| `DependsRules.VChoicePriority` | dhpython/depends.py:176-187 | the `-V` argument comes from extensions, else a single shebang version, else the default for unversioned extensions, else `--vrange`, each only when all before are absent |
| `DependsRules.RangeUpperBounds` | dhpython/depends.py:188-194 | for a private directory the range's upper bound is `maxver + 1`, one release above the package-wide `<< maxver` |
| `DependsRules.XArgsWords` | dhpython/depends.py:196-197 | each `-X` argument reads back through the shell as exactly its pattern |
| `DependsRules.PrivateDirsScriptsMembers` | dhpython/depends.py:173-198 | exactly the byte-compiled private directories get an rtupdate script, each with its own name and arguments |
| `DependsRules.Guessed` | dhpython/depends.py:221 | one guessed package per requirement, in order |
| `DependsRules.RequiresLinesMembers` | dhpython/depends.py:218-220 | a requirement is read iff some line starts with `Requires: ` and strips to it after the first 10 characters |
| `DependsRules.RequiresPath` | dhpython/depends.py:240-246 | a chosen `--requires` path exists |
| `DependsRules.RequiresPathChoice` | dhpython/depends.py:240-246 | `debian/<package>/<fn>` wins, the plain name is used only when that is missing, and a file missing in both places is skipped |
| `Shell.Quote` | dhpython/build/base.py:352-355 | `shlex.quote` gives `''` for the empty string and leaves safe text alone |
| `Shell.QuoteRoundTrip` | dhpython/build/base.py:352-355 | a quoted value reads back, as one shell word, as exactly the value |
| `Shell.RegexQuoteRoundTrip` | dhpython/depends.py:197 | a pattern escaped with `'\''` inside single quotes reads back as the pattern |
| `Text.Split` | dhpython/_defaults.py:53 | `split` is never empty, no part holds the separator, and joining the parts restores the text |
| `Text.SplitJoin` | dhpython/_defaults.py:59 | splitting a join of separator-free parts gives the parts back |
| `Text.RemoveAllChars` | dhpython/_defaults.py:50 | `replace('python', '')` only deletes: every character left was in the text |
| `Text.RemoveAllAbsent` | dhpython/_defaults.py:50 | `replace('python', '')` leaves text without a `p` unchanged |
| `Text.RemoveAllKeepPrefix` | dhpython/_defaults.py:50 | `replace` keeps a `p`-free prefix in front of what it does to the rest |
| `Text.RemoveAllLeading` | dhpython/_defaults.py:50 | `replace` drops a leading occurrence and carries on after it |
| `Text.ParseTrimmedDigits` | dhpython/_defaults.py:53 | `int()` reads a digit string, or one with a leading `-`, as its value |
| `Text.IntToStringRoundTrip` | dhpython/_defaults.py:89 | `int(str(i)) == i` |
| `Text.JoinPath` | dhpython/depends.py:241 | `os.path.join(a, b)` ends with `b` |
| `Text.JoinPathSeparated` | dhpython/depends.py:241 | a relative name joined to a non-empty directory follows a `/` |
| `Text.DropPrefix` | dhpython/_defaults.py:47 | `s[6:]`: empty for short text, otherwise the characters after the sixth |
| `Text.Basename` | dhpython/build/base.py:61 | `rsplit('/', 1)[-1]` holds no `/`, ends the name and follows its last `/` |
| `BuildBase.MatchesNone` | dhpython/build/base.py:135-138 | a template collects nothing exactly when none of its alternatives matches |
| `BuildBase.FoundCount` | dhpython/build/base.py:133-141 | the required count is at most the number of templates, and equals it iff every template is found |
| `BuildBase.RequiredScoreBounds` | dhpython/build/base.py:142-144 | required files give 0 to 50 points: 0 when none are declared or found, 50 when all are found |
| `BuildBase.OptionalScoreAppend` | dhpython/build/base.py:147-150 | each matching optional glob adds its score once |
| `BuildBase.OptionalScoreBounds` | dhpython/build/base.py:146-151 | with non-negative scores, optional files give from 0 up to the sum of all scores, and 0 when nothing matches |
| `BuildBase.DetectScoreBounds` | dhpython/build/base.py:119-154 | `detect` never exceeds 100 and, with non-negative optional scores, is never negative |
| `BuildBase.Record` | dhpython/build/base.py:139 | `setdefault(key, []).extend(res)` adds the key exactly when `res` is non-empty |
| `BuildBase.RecordTwice` | dhpython/build/base.py:139 | extending an entry twice extends it by both lists in order |
| `BuildBase.RecordAltsSpec` | dhpython/build/base.py:135-139 | one template's entry gains everything its alternatives match, in order |
| `BuildBase.RecordRequiredKeys` | dhpython/build/base.py:132-141 | `DETECTED_REQUIRED_FILES` has exactly the found templates as keys |
| `BuildBase.RecordOptionalEntries` | dhpython/build/base.py:147-151 | with distinct globs, as the keys of `OPTIONAL_FILES` are, each entry of `DETECTED_OPTIONAL_FILES` is exactly what its glob matches |
| `BuildBase.RecordOptionalKeys` | dhpython/build/base.py:146-151 | `DETECTED_OPTIONAL_FILES` has exactly the matching optional globs as keys |
| `BuildBase.MatchAlternatives` | dhpython/build/base.py:134-139 | the inner loop finds a template iff an alternative matches, and records all matches |
| `BuildBase.SelectRunner` | dhpython/build/base.py:224-288 | the runner is the first enabled one of nose2, nose, pytest, tox, stestr and custom; unittest iff none is enabled |
| `BuildBase.FirstPresent` | dhpython/build/base.py:231-237 | finds the first configuration present, or none iff none exists |
| `BuildBase.ToxConfig` | dhpython/build/base.py:231-240 | the first of `tox.ini`, `pyproject.toml`, `setup.cfg` present, as `{dir}/…`; the exception iff none is |
| `BuildBase.ToxWords` | dhpython/build/base.py:242-274 | the tox command words: `-c <config>` third, `--skip-pkg-install` iff autopkgtest, `--installpkg {wheel}` iff a wheel is installed, `{args}` last |
| `BuildBase.ToxMajorOfVersion` | dhpython/build/base.py:254-258 | a version printed as `<major>.<rest>` gives its major number |
| `BuildBase.BuiltWheel` | dhpython/build/base.py:293-302 | an error naming the count iff several wheels exist; `None` iff there are none; otherwise the single wheel |
| `BuildBase.ToxOutcome` | dhpython/build/base.py:230-275 | a missing config or broken tox raises; tox 3 removes `.pydistutils.cfg`; tox 4 outside autopkgtest installs the built wheel, building it only when none is there; when it builds, it fails exactly when the second `built_wheel` raises |
| `BuildBase.ToxBuildThenRaise` | dhpython/build/base.py:266-270 | with no wheel before and two after, the build is called and then `built_wheel` raises |
| `BuildBase.TestTox` | dhpython/build/base.py:230-275 | carries out `ToxOutcome` on `args` and the file system; asks for `build_wheel` exactly when `ToxBuildsWheel` holds, even when the branch then raises; leaves `args` and the file system alone when it raises |
| `BuildBase.MergeEnv` | dhpython/build/base.py:308-310 | the environment has the keys of both; `args['ENV']` wins |
| `BuildBase.ExecuteLog` | dhpython/build/base.py:304-312 | the log is dropped only when none was asked for, or for a really quiet run given `False`; the command runs in the source directory with the merged environment |
| `BuildBase.QuoteArgs` | dhpython/build/base.py:352-354 | same keys; values other than `dir`, `destdir` and `*_dir` are unchanged |
| `BuildBase.QuoteArgsRoundTrip` | dhpython/build/base.py:352-355 | each quoted directory reads back through the shell as its value |
| `BuildBase.ExitOutcome` | dhpython/build/base.py:358-365 | success iff the exit code is 0, or 5 with `ignore_no_tests`; otherwise raises `exit code=<n>: <command>…` |
| `BuildBase.ShellCommand` | dhpython/build/base.py:334-366 | an override replaces the method; an int result passes through unrun; an empty command is returned unrun; otherwise the command is formatted with quoted directories, run with the merged environment and judged by `ExitOutcome` |
| `BuildBase.TestfileNames` | dhpython/build/base.py:54-55 | the names are exactly the stripped lines not starting with `#` |
| `BuildBase.FilesToCopy` | dhpython/build/base.py:44-56 | the first existing `.testfiles` list wins; the defaults are used iff none exists |
| `BuildBase.CopyAllCreates` | dhpython/build/base.py:58-69 | no existing path is lost; every created path, and only those, is on the removal list followed by a newline |
| `BuildBase.CopyAllDestinations` | dhpython/build/base.py:59-69 | every created path is the build-directory destination of one of the names |
| `BuildBase.CopyAllFromSources` | dhpython/build/base.py:58-69 | a file is copied only when its source exists: every created path is the destination of a name whose source path is present |
| `BuildBase.CopyAllArgsSource` | dhpython/build/base.py:62-73 | the name put in `args['args']` is one whose source exists |
| `BuildBase.CopyAllArgsTaken` | dhpython/build/base.py:70-73 | when `args['args']` is empty and may be set, a `test`/`tests` directory present from the start is never passed over |
| `BuildBase.CopyAllArgs` | dhpython/build/base.py:70-73 | a non-empty `args['args']` is kept; it changes only when pytest or nose may take arguments, and then to one of the names, `test` or `tests` |
| `BuildBase.CopyNames` | dhpython/build/base.py:58-73 | the copy loop leaves the file system, the removal list and `args['args']` as `CopyAll` says |
| `BuildBase.Base.constructor` | dhpython/build/base.py:106-107 | a plugin object keeps its class attributes and configuration |
| `BuildBase.Base.Detect` | dhpython/build/base.py:119-154 | the result is `DetectScore`; the two `DETECTED_*` dictionaries are filled as `RecordRequired`/`RecordOptional` say |
| `BuildBase.Base.CountRequired` | dhpython/build/base.py:131-141 | counts the found templates (`FoundCount`) and records their matches |
| `BuildBase.Base.ScoreOptional` | dhpython/build/base.py:146-151 | sums the matching optional scores and records their matches |
| `BuildBase.Base.Test` | dhpython/build/base.py:222-288 | returns the first enabled runner's command; sets `ignore_no_tests` only for the unittest fallback; tox as `TestTox`, the build request included |
| `BuildBase.Base.CopyTestFiles` | dhpython/build/base.py:43-76 | picks the names, copies them as `CopyAll` says into `{build_dir}`, sets `args['args']` only under pytest/nose without `PYBUILD_TEST_ARGS`, and returns the removal lines |
| `PluginPyproject.CleanFiles` | dhpython/build/plugin_pyproject.py:54 | `CLEAN_FILES` is the base set plus exactly `build` |
| `PluginPyproject.PyprojectScoreValues` | dhpython/build/plugin_pyproject.py:56-76 | the score is 30 with `pyproject.toml` and -20 without, plus 10 for a declared backend; it can be negative |
| `PluginPyproject.Detect` | dhpython/build/plugin_pyproject.py:67-76 | the plugin's `detect` is `PyprojectScore`, and the base class fills `DETECTED_*` |
| `PluginPyproject.BackendConfigSettings` | dhpython/build/plugin_pyproject.py:111-124 | meson-python gets `compile-args=--verbose` and five `setup-args=` settings ending in the multiarch libdir; any other backend gets none |
| `PluginPyproject.ConfigWords` | dhpython/build/plugin_pyproject.py:137-138 | each setting becomes the two words `--config-setting` and the setting |
| `PluginPyproject.ConfigFlagsAsWords` | dhpython/build/plugin_pyproject.py:137-138 | the joined flags are the same text as those words joined with spaces |
| `PluginPyproject.ConfigWordsSplit` | dhpython/build/plugin_pyproject.py:137-138 | space-free settings come back word by word when the flags are split at spaces |
| `PluginPyproject.BuildWheelCommand` | dhpython/build/plugin_pyproject.py:134-140 | the command starts with `{interpreter} -m build … --outdir <home_dir> ` and ends with ` {args}` |
| `PluginPyproject.BuildWheel` | dhpython/build/plugin_pyproject.py:126-140 | sets `FLIT_NO_NETWORK=1` and `HOME`, and returns the build command for the backend's settings |
| `PluginPyproject.PrepareTest` | dhpython/build/plugin_pyproject.py:212-218 | prepends the wheel's `scripts` directory to `PATH` only when it exists (a `KeyError` without `PATH`), then sets `HOME` |
| `Defaults.ParseInts` | dhpython/_defaults.py:53 | a parsed tuple has one component per part |
| `Defaults.ParseIntsAll` | dhpython/_defaults.py:51-56 | parsing succeeds with the component values when every part parses |
| `Defaults.ParseIntsFails` | dhpython/_defaults.py:52-56 | one part that `int()` rejects leaves the slot `None` |
| `Defaults.ParseVersion` | dhpython/_defaults.py:53 | the default version has one component per `.`-separated part, at least one |
| `Defaults.ParseEntries` | dhpython/_defaults.py:59-60 | one non-empty tuple per `,`-separated entry |
| `Defaults.ParseEntriesAll` | dhpython/_defaults.py:57-62 | the list parses when every stripped entry parses |
| `Defaults.ParseSupported` | dhpython/_defaults.py:57-62 | a parsed supported list is non-empty and holds non-empty tuples |
| `Defaults.VersionRoundTrip` | dhpython/_defaults.py:89 | the printed default version parses back to the same tuple |
| `Defaults.FormatVersionShape` | dhpython/_defaults.py:92 | a printed tuple holds no `,` and no surrounding blanks |
| `Defaults.SupportedRoundTrip` | dhpython/_defaults.py:92 | the printed supported list parses back to the same list of tuples |
| `Defaults.DefaultSource` | dhpython/_defaults.py:42-47 | a non-empty `DEBPYTHON<major>_DEFAULT` is used as is; otherwise the text is what follows the first six characters of `default-version`, empty when it is shorter |
| `Defaults.SupportedSource` | dhpython/_defaults.py:41-50 | a non-empty `DEBPYTHON<major>_SUPPORTED` is used as is; otherwise the text comes from `supported-versions` by deletion only (no longer, no new characters) and equals it when it holds no `p` |
| `Defaults.DefaultResult` | dhpython/_defaults.py:51-56 | a parsed default has at least one component |
| `Defaults.SupportedResult` | dhpython/_defaults.py:57-62 | a parsed supported list is non-empty with non-empty tuples |
| `Defaults.CpythonVersions` | dhpython/_defaults.py:38-63 | `cpython_versions` returns `[DefaultResult, SupportedResult]` |
| `Defaults.EnvironmentWins` | dhpython/_defaults.py:44-50 | with both variables set, the configuration file does not matter |
| `Defaults.ConfigDefaultExample` | dhpython/_defaults.py:47 | `default-version = python3.11` yields `(3, 11)` |
| `Defaults.RemovePythonExample` | dhpython/_defaults.py:49-50 | `python3.11, python3.12` loses both `python` prefixes |
| `Defaults.ConfigSupportedSource` | dhpython/_defaults.py:49-50 | that file's supported text, before parsing, is `3.11, 3.12` |
| `Defaults.DefaultEntry` | dhpython/_defaults.py:77-78 | `DEFAULT['cpython3']` is a non-empty tuple |
| `Defaults.SupportedEntry` | dhpython/_defaults.py:79-81 | `SUPPORTED['cpython3']` is a non-empty list of non-empty tuples |
| `Defaults.ApplyOverrides` | dhpython/_defaults.py:28-33 | the tables hold only `cpython3`: `(3, 8)` / `[(3, 8)]` unless a non-empty parse result replaces them |
| `Defaults.InitTables` | dhpython/_defaults.py:76-81 | module initialisation yields `DefaultEntry`/`SupportedEntry`, and every entry prints in a form that parses back |
| `Defaults.MainOutput` | dhpython/_defaults.py:84-92 | a usage error iff `sys.argv` does not hold exactly three entries |
| `Defaults.MainRoundTrip` | dhpython/_defaults.py:87-92 | `default` and `supported` print what the parser reads back as the table entry |

## Left out

- Logging, `Dependencies.__str__` and the warnings are not modelled. They have no effect on results.
- Reading files is not modelled. Egg-info lines, `.testfiles` lists and `debian_defaults` are inputs, and the `debian_defaults` file is given as its parsed `DEFAULT` section. `ConfigParser` syntax and interpolation are not modelled.
- The file system is a set of paths. `os.path.exists` and `isdir` are membership tests. `glob1` is an input function.
- Copying is modelled as creating the destination path only. `copytree` copies what is under it as well.
- Writing the removal list to `{home_dir}/testfiles_to_rm_before_install` is not modelled. `CopyTestFiles` returns the lines to append.
- Running processes (`execute`, `tox --version`, `dpkg_architecture`) is not modelled. Exit codes, output and the multiarch triplet are inputs.
- The call that builds a wheel before tox installs it is returned as a flag. The wheels found before and after are inputs.
- `str.format` is an input function (`Format`).
- `guess_dependency`, `parse_pydep`, `parse_requires_dist` and `VersionRange.__str__` are not part of this model. They are the fields of `Oracle`.
- `dhpython.version` is not part of this model. `Version` is reduced to `(major, minor)` with tuple order. `v + 1` is taken as the next minor release. A range is truthy when a bound is given.
- Non-ASCII digits accepted by `int()` are not modelled. ASCII digits, a sign, surrounding whitespace and single underscores are.
- Several places iterate a Python set (`files_to_copy`, `stats['private_dirs']`, `ext_vers`). Their order is a parameter; for the default test files it is constrained to be a permutation of the four names.
- `_build_backend` is not modelled. It reads `pyproject.toml` with `tomllib`; the model takes the declared backend as an input.
- `Base.clean`, `configure`, `install`, `build`, `is_usable` and `print_args` are not modelled. `from_file` and the plugin's `clean`, `configure`, `build`, `unpack_wheel` and `install` are not modelled either. They are file-system and process plumbing outside this core.
- `BuildBase.DetectScore`: `int(found / total * 50)` is computed exactly as `(found * 50) / total`. Floating-point rounding is not modelled.
- `PluginPyproject.PrepareTest`: models only the environment set-up of the plugin's `test`. The command that follows is `Base.Test`, and the two are not composed into one member.
- `Depends.Substvars`: its own contract states only the number of calls. Which value each call carries is stated through `Calls` and the `Exported*` lemmas.
- `Depends.Rtupdates`: its own contract states only the number of calls. Which script each call carries is stated through `Calls` and `ExportedRtupdates`.
- `Defaults.RemovePythonExample`: the example file's supported line is proved to reduce to `3.11, 3.12`. Parsing that text to `[(3, 11), (3, 12)]` is stated only by the general round trip (`SupportedRoundTrip`) and not for this literal.
- Every other plugin is outside this core (flit, meson, distutils, …), as are the rest of pybuild.
