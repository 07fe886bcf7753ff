/**
 * Clients of the settings that use only the contracts of Env.Settings and
 * show what a caller can rely on across several calls.
 */
module EnvScenarios {
  import opened FilePath
  import opened Env
  import StrConv

  /** Setting the root twice panics exactly when the first value is non-empty and the second differs. */
  method SetRootPathTwice(a: PathVar, b: PathVar) returns (first: Result<()>, second: Result<()>, root: PathVar)
    ensures first == Ok(())
    ensures second.Panic? <==> a != Unset && a != b
    ensures root == if second.Ok? then b else a
  {
    var s := new Settings();
    first := s.SetRootPath(a);
    second := s.SetRootPath(b);
    root := s.rootPath;
  }

  /**
   * Once RootPath has succeeded, a later call returns the same root, even
   * when the environment variable, the working directory or the file system
   * have changed in between.
   */
  method RootPathIsStable(s: Settings, h1: Host, h2: Host) returns (r1: Result<Path>, r2: Result<Path>)
    modifies s`rootPath
    ensures r1.Ok? ==> r2 == r1 && s.rootPath == Value(r1.value)
  {
    r1 := s.RootPath(h1);
    if r1.Ok? {
      ResolvedRootIsCached(old(s.rootPath), h1, h2);
    }
    r2 := s.RootPath(h2);
  }

  /**
   * The configuration, data and log roots all hang below the one stored
   * root, whichever host each call sees after the first succeeded.
   */
  method DerivedPathsShareRoot(s: Settings, h1: Host, h2: Host, h3: Host)
    returns (conf: Result<Path>, data: Result<Path>, log: Result<Path>)
    modifies s`confDirName, s`rootPath
    ensures conf.Ok? ==> data.Ok? && log.Ok?
    ensures conf.Ok? ==> Dir(conf.value) == Dir(data.value) == Dir(log.value)
    ensures conf.Ok? ==> s.rootPath == Value(Dir(conf.value))
    ensures conf.Ok? ==> Base(conf.value) == s.confDirName && Base(data.value) == "data" && Base(log.value) == "log"
  {
    conf := s.ConfRootPath(h1);
    if conf.Ok? {
      ResolvedRootIsCached(old(s.rootPath), h1, h2);
    }
    data := s.DataRootPath(h2);
    log := s.LogRootPath(h3);
  }

  /** The local IP is looked up once: a second call returns the first answer, never "". */
  method LocalIPIsCached(h1: Host, h2: Host) returns (a: string, b: string)
    ensures a == b && a != ""
    ensures h1.localIP != "" ==> a == h1.localIP
  {
    var s := new Settings();
    a := s.LocalIP(h1);
    b := s.LocalIP(h2);
  }

  /** PIDString is the decimal rendering of the number PID returns, in either call order. */
  method PIDStringRendersPID(h1: Host, h2: Host) returns (p: nat, str: string, str2: string, p2: nat)
    ensures str == StrConv.Itoa(p) && p == h1.pid
    ensures str2 == StrConv.Itoa(p2) && p2 == h1.pid
  {
    var s := new Settings();
    p := s.PID(h1);
    str := s.PIDString(h2);
    var t := new Settings();
    str2 := t.PIDString(h1);
    p2 := t.PID(h1);
  }

  /** The run mode defaults to "debug", and a later SetRunMode replaces it without any set-once rule. */
  method RunModeDefaultThenOverwrite(h: Host, mode: string) returns (first: string, second: string)
    requires h.runModeVar == "" && mode != ""
    ensures first == "debug" && second == mode
  {
    var s := new Settings();
    first := s.RunMode(h);
    s.SetRunMode(mode);
    second := s.RunMode(h);
  }
}
