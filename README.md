# Environment resolver of package `env`

This project models the environment resolver of the LaYa service bootstrap
(`env/env.go`). The resolver is a process-wide settings store, and it
resolves each setting lazily on first read:

- the **root path** is set at most once. When it is unset on first read, it
  comes from `LAYA_ROOT_PATH`, or else from auto-detection based on the
  executable's location;
- the **run mode** comes from an explicit set, then `LAYA_RUN_MODE`, then `"debug"`;
- the **application name** and the **configuration-directory name** fall back
  to `"unknown"` and `"config"`;
- the **configuration, data and log roots** are the root path joined with one
  more name;
- the **local IP** and the **process id** are queried once and then cached,
  and the process id is stored together with its decimal rendering.

Modules:

- `FilePath` (`filepath.dfy`) models the part of `path/filepath` that the
  resolver uses. A path is a rooted flag plus a sequence of segments. `Join`
  appends a segment, `Dir` drops the last one, `Base` takes it, and `IsAbs`
  reads the flag. `FilePath.Empty` is `"."`. Every path spells a non-empty
  string, and a string variable that holds a path is an `Env.PathVar`:
  `Unset` stands for `""` and `Value(p)` for the spelling of `p`.
- `StrConv` (`strconv.dfy`) is `strconv.Itoa` on natural numbers, with
  `ParseDecimal` as its inverse.
- `Env` (`env.dfy`) holds the rest:
  - root-path detection as the pure function `DetectRootPath`, checked
    against an independent first-match decision list (`FirstMatch`);
  - the set-once rule as the pure function `SetRoot`;
  - lazy resolution as `ResolvedRoot`;
  - the class `Settings`, whose fields are the package-level variables
    (`envRootPath`, `envRunMode`, `envConfDirName`, `envAppName`, `ip`,
    `pid`, `pidStr`) and whose methods are the package's getters and
    setters.
- `EnvScenarios` (`scenarios.dfy`) holds clients that chain calls using only
  the `Settings` contracts. They show the caching and set-once behaviour
  across calls.

The operating system is an input. A `Host` value carries the two
environment variables, the result of `os.Getwd`, `os.Args[0]`, what `os.Stat`
reports for each path, the result of `utils.LocalIP` and `os.Getpid`. A panic
becomes a `Panic` result with the source's message. A call that panics keeps
the writes it made before the panic and makes none after it. For example,
`ConfRootPath` stores `"config"` before root resolution can panic
(env/env.go:68-71).

Detection looks for a directory literally named `config`
(env/env.go:111 and :118). It ignores the name set with `SetConfDirName`,
and the model keeps that.

On these points the model follows the code:

- `SetRunMode`, `SetAppName` and `SetConfDirName` overwrite their value at
  any time. Only the root path is set-once.
- `SetRootPath` panics whenever a non-empty root is stored and the new value
  differs, and that includes a new value of `""`. Setting `""` while the
  root is unset is accepted and leaves it unset. Setting `"."` fixes the root
  like any other path (`Env.EmptyRootDoesNotFix`).

## Model

| member | source | states |
|---|---|---|
| FilePath.Dir | env/env.go:118-126 | `filepath.Dir` keeps rootedness and removes exactly the last segment; the root and `"."` are their own parent |
| FilePath.Base | env/env.go:125 | `filepath.Base` is the last segment, `"/"` for the root and `"."` for `"."` |
| FilePath.JoinPath | env/env.go:105-108 | joining a relative directory onto the working directory puts its segments after the working directory's and keeps the working directory's root |
| FilePath.Join | env/env.go:71 | joining one non-empty name gives a path whose `Dir` is the original path and whose `Base` is the name; an empty name is ignored |
| FilePath.JoinDirBase | env/env.go:118-126 | `Dir` and `Base` split a path with segments into the parts that `Join` reassembles |
| StrConv.Itoa | env/env.go:157 | `strconv.Itoa` yields a non-empty string of decimal digits with no leading zero, and it is `"0"` exactly for zero |
| StrConv.ParseItoa | env/env.go:157 | parsing what `Itoa` renders gives back the number, so `Itoa` is the decimal rendering |
| StrConv.ItoaInjective | env/env.go:157 | different process ids have different string forms |
| Env.ExeDir | env/env.go:105-108 | the executable directory is `Dir(os.Args[0])`, joined onto the working directory when it is relative, so it is rooted whenever the working directory is |
| Env.DetectRootPath | env/env.go:98-132 | detection panics exactly when the working directory cannot be read; with a rooted working directory it yields a rooted path; the detected root holds a `config` entry (any stat result other than not-exist counts), or is the parent of a `bin` directory, or is the working directory |
| Env.FirstMatch | env/env.go:109-131 | an ordered decision list yields the root of the first rule that fires, or the fallback when none fires |
| Env.DetectIsFirstMatch | env/env.go:109-131 | detection equals the first-match list "E/config exists → E; Dir(E)/config exists → Dir(E); Base(E) is bin → Dir(E)", with the working directory as fallback |
| Env.BinRuleNeedsNoConfig | env/env.go:123-128 | for every layout where neither `E/config` nor `Dir(E)/config` exists and `Base(E)` is `bin`, detection yields `Dir(E)`, which holds no config directory |
| Env.ConfigBesideExecutableWins | env/env.go:109-128 | rule order matters: a `config` beside the executable in `bin` picks `bin` itself, where trying the `bin` rule first would pick its parent |
| Env.SetRoot | env/env.go:25-30 | setting the root panics with "app root path cannot set twice" exactly when a non-empty root is stored and the new value differs; otherwise the new value is stored and equals any non-empty old one |
| Env.SetSameRootRepeatedly | env/env.go:25-30 | any number of sets of the same value, starting unset or already at that value, never panic and leave that value stored |
| Env.StoredRootIsFinal | env/env.go:25-30 | once a non-empty root is stored, any series of sets either keeps it or panics |
| Env.EmptyRootDoesNotFix | env/env.go:25-30 | setting `""` while unset leaves the root unset, so a later different value is accepted; setting `"."` fixes it, so a later different value panics |
| Env.ResolvedRoot | env/env.go:33-42 | the root returned is the stored one when non-empty; else `LAYA_ROOT_PATH` when non-empty; else the detected root; it panics only when nothing is stored, the variable is empty and the working directory is unreadable |
| Env.ResolvedRootIsCached | env/env.go:33-42 | a successful resolution stores a non-empty root, and resolving again from it returns the same root for any later host |
| Env.Below | env/env.go:71 | a derived root fails exactly when the root fails, and otherwise has the root as `Dir` and the name as `Base` |
| Env.Settings.constructor | env/env.go:11-16 | all package variables start at their zero values, and `pidStr` is consistent with `pid` |
| Env.Settings.SetRootPath | env/env.go:25-30 | the result and the new stored root are those `SetRoot` gives; on a panic the stored root is unchanged |
| Env.Settings.RootPath | env/env.go:33-42 | returns `ResolvedRoot` of the old stored root and stores it, or keeps the old root on a panic |
| Env.Settings.SetRunMode | env/env.go:45-47 | overwrites the run mode unconditionally |
| Env.Settings.RunMode | env/env.go:50-59 | returns the stored mode, else `LAYA_RUN_MODE` when non-empty, else `"debug"`; the result is stored and never empty |
| Env.Settings.SetConfDirName | env/env.go:62-64 | overwrites the configuration-directory name |
| Env.Settings.ConfRootPath | env/env.go:67-72 | stores `"config"` as the directory name when empty, even when root resolution then panics; returns the resolved root joined with that name |
| Env.Settings.SetAppName | env/env.go:75-77 | overwrites the application name |
| Env.Settings.AppName | env/env.go:80-85 | returns the stored name, or `"unknown"` when it is empty; the result is stored and never empty |
| Env.Settings.DataRootPath | env/env.go:88-90 | returns the resolved root joined with `"data"` and stores the root as `RootPath` does |
| Env.Settings.LogRootPath | env/env.go:93-95 | returns the resolved root joined with `"log"` and stores the root as `RootPath` does |
| Env.Settings.LocalIP | env/env.go:137-146 | returns the cached address when set; otherwise stores and returns the lookup's result, or `"unknown"` when that is empty; never returns `""` |
| Env.Settings.PID | env/env.go:151-159 | returns the cached id when non-zero; otherwise queries it and stores it with `pidStr = Itoa(pid)`; keeps `pidStr` the rendering of `pid` |
| Env.Settings.PIDString | env/env.go:164-170 | returns `pidStr`, which is always `Itoa(pid)`, querying the id first when `pidStr` is empty |
| EnvScenarios.SetRootPathTwice | env/env.go:25-30 | on fresh settings, the first set succeeds and a second set panics exactly when the first value is non-empty and differs from it |
| EnvScenarios.RootPathIsStable | env/env.go:33-42 | after `RootPath` succeeds, a second call returns the same root whatever the host then reports |
| EnvScenarios.DerivedPathsShareRoot | env/env.go:67-95 | the configuration, data and log roots all have the one stored root as parent, with the names `confDirName`, `"data"` and `"log"`, whichever host the later calls see |
| EnvScenarios.LocalIPIsCached | env/env.go:137-146 | two `LocalIP` calls return the same non-empty string even when the lookup's answer changes between them |
| EnvScenarios.PIDStringRendersPID | env/env.go:151-170 | in either call order, `PIDString` is the decimal rendering of the id `PID` returns |
| EnvScenarios.RunModeDefaultThenOverwrite | env/env.go:45-59 | without `LAYA_RUN_MODE` the run mode is `"debug"`, and a later `SetRunMode` replaces it |

## Left out

- `init.go` is not part of this model. It loads the configuration file and builds the database, cache and localisation clients through external libraries.
- The OS and library calls (`os.Getenv`, `os.Getwd`, `os.Args`, `os.Stat`, `os.Getpid`, `utils.LocalIP`) are not modelled. Their results are fields of `Env.Host`. How `utils.LocalIP` chooses an address is not modelled, and the model drops its error as the source does.
- `RootPath` reads `LAYA_ROOT_PATH` twice (env/env.go:35-36) and `RunMode` reads `LAYA_RUN_MODE` twice (env/env.go:52-53). The model reads each once, so an environment that changes between the two reads is not captured.
- Full `filepath.Join`/`Clean` semantics are not modelled: `.` and `..` collapsing, repeated or trailing separators, and names that contain a separator. A segment is an opaque name.
- The comparison of two non-empty roots at env/env.go:26 is made on paths rather than on their spellings. `SetRootPath("/a")` followed by `SetRootPath("/a/")` is accepted in the model, but it panics in the source. The emptiness tests at env/env.go:26, :34 and :35 are exact.
- A Go panic is modelled as a `Panic` result. The abort of the process that follows it is not modelled.
- `pid` is a natural number rather than Go's `int`. `os.Getpid` never reports a negative id.
- Concurrency is not modelled. The source has no locks and runs single-threaded at startup.
