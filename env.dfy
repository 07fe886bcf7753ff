/**
 * The environment resolver of package env: process-wide settings that are
 * resolved lazily on first read (root path, run mode, application name,
 * configuration-directory name, local IP, process identifier), the
 * directories derived from the root path, and the auto-detection of the
 * application root from the executable's location.
 *
 * The operating system is an input: a Host value carries what the source
 * asks of it (environment variables, the working directory, os.Args[0],
 * the outcome of os.Stat per path, the local-IP lookup, the process id).
 * A panic is a Panic result carrying the source's message; the writes a
 * call makes before it panics are kept, and it makes none after.
 */
module Env {
  import opened FilePath
  import StrConv

  datatype Result<T> = Ok(value: T) | Panic(message: string)

  /**
   * A string variable that holds a path: Unset is the empty string "",
   * Value(p) the non-empty spelling of p ("." for Empty).
   */
  datatype PathVar = Unset | Value(path: Path)

  /** The outcome of an OS query that can fail, such as os.Getwd. */
  datatype OsResult<T> = Got(value: T) | OsError(err: string)

  /** What os.Stat reports about a path. */
  datatype StatOutcome = Found | NotExist | OtherError

  /** What the resolver reads from the operating system. */
  datatype Host = Host(
    rootPathVar: PathVar,         // LAYA_ROOT_PATH (Unset when "" or not set)
    runModeVar: string,           // LAYA_RUN_MODE ("" when unset)
    cwd: OsResult<Path>,          // os.Getwd
    arg0: Path,                   // os.Args[0]
    stat: Path -> StatOutcome,    // os.Stat, per path
    localIP: string,              // the result of utils.LocalIP, its error dropped
    pid: nat                      // os.Getpid
  )

  const DefaultAppName := "unknown"
  const DefaultRunMode := "debug"
  const DefaultConfDirName := "config"
  const UnknownIP := "unknown"
  const RootSetTwice := "app root path cannot set twice"
  const NoCurrentDir := "DefaultApp can't get current directory: "

  // ---------------------------------------------------------------------
  // Root-path detection
  // ---------------------------------------------------------------------

  /**
   * A path "exists" for detection unless os.Stat reports that it does not:
   * a stat error of any other kind counts as existing.
   */
  predicate Exists(stat: Path -> StatOutcome, p: Path) {
    stat(p) != NotExist
  }

  /**
   * The directory of the executable, Dir(os.Args[0]), joined onto the
   * working directory when it is not rooted.
   */
  function ExeDir(pwd: Path, arg0: Path): (r: Path)
    ensures IsAbs(pwd) ==> IsAbs(r)
    ensures IsAbs(Dir(arg0)) ==> r == Dir(arg0)
    ensures !IsAbs(Dir(arg0)) ==> r.segs == pwd.segs + Dir(arg0).segs
  {
    var binDir := Dir(arg0);
    if !IsAbs(binDir) then JoinPath(pwd, binDir) else binDir
  }

  /**
   * detectRootPath: the executable's directory when it holds "config"; else
   * its parent when that holds "config"; else its parent when the
   * executable's directory is named "bin"; else the working directory. A
   * working directory that cannot be read is fatal.
   */
  function DetectRootPath(cwd: OsResult<Path>, arg0: Path, stat: Path -> StatOutcome): (r: Result<Path>)
    ensures r.Panic? <==> cwd.OsError?
    ensures cwd.Got? && IsAbs(cwd.value) ==> IsAbs(r.value)
    ensures r.Ok? ==> var e := ExeDir(cwd.value, arg0);
      || Exists(stat, Join(r.value, "config"))
      || (r.value == Dir(e) && Base(e) == "bin")
      || r.value == cwd.value
  {
    match cwd
    case OsError(err) => Panic(NoCurrentDir + err)
    case Got(pwd) =>
      var binDir := ExeDir(pwd, arg0);
      if Exists(stat, Join(binDir, "config")) then Ok(binDir)
      else if Exists(stat, Join(Dir(binDir), "config")) then Ok(Dir(binDir))
      else if Base(binDir) == "bin" then Ok(Dir(binDir))
      else Ok(pwd)
  }

  /** A rule of a decision list: whether it fires and the root it then yields. */
  datatype Rule = Rule(fires: bool, root: Path)

  /**
   * An independent statement of "rules are tried in order and the first
   * that fires wins": the root of the first rule that fires, or the
   * fallback when none does.
   */
  function FirstMatch(rules: seq<Rule>, fallback: Path): (r: Path)
    ensures forall i :: 0 <= i < |rules| && rules[i].fires && NoneFiresBefore(rules, i) ==> r == rules[i].root
    ensures NoneFiresBefore(rules, |rules|) ==> r == fallback
  {
    if rules == [] then fallback
    else if rules[0].fires then rules[0].root
    else
      var r := FirstMatch(rules[1..], fallback);
      assert forall i :: 1 <= i <= |rules| && NoneFiresBefore(rules, i) ==> NoneFiresBefore(rules[1..], i - 1);
      r
  }

  predicate NoneFiresBefore(rules: seq<Rule>, k: nat)
    requires k <= |rules|
  {
    forall j :: 0 <= j < k ==> !rules[j].fires
  }

  /** The three detection rules for executable directory e, in the order the source tries them. */
  function DetectionRules(e: Path, stat: Path -> StatOutcome): seq<Rule> {
    [ Rule(Exists(stat, Join(e, "config")), e),
      Rule(Exists(stat, Join(Dir(e), "config")), Dir(e)),
      Rule(Base(e) == "bin", Dir(e)) ]
  }

  /** Detection is the first-match decision list over its three rules, falling back to the working directory. */
  lemma DetectIsFirstMatch(pwd: Path, arg0: Path, stat: Path -> StatOutcome)
    ensures DetectRootPath(Got(pwd), arg0, stat)
         == Ok(FirstMatch(DetectionRules(ExeDir(pwd, arg0), stat), pwd))
  {
    var rules := DetectionRules(ExeDir(pwd, arg0), stat);
    if !rules[0].fires && !rules[1].fires && !rules[2].fires {
      assert NoneFiresBefore(rules, 3);
    } else if !rules[0].fires && !rules[1].fires {
      assert NoneFiresBefore(rules, 2);
    } else if !rules[0].fires {
      assert NoneFiresBefore(rules, 1);
    } else {
      assert NoneFiresBefore(rules, 0);
    }
  }

  /**
   * The "bin" rule yields the parent of an executable directory named "bin"
   * even when no configuration directory exists beside the executable or in
   * that parent.
   */
  lemma BinRuleNeedsNoConfig(pwd: Path, arg0: Path, stat: Path -> StatOutcome)
    requires var e := ExeDir(pwd, arg0);
      && !Exists(stat, Join(e, "config"))
      && !Exists(stat, Join(Dir(e), "config"))
      && Base(e) == "bin"
    ensures DetectRootPath(Got(pwd), arg0, stat) == Ok(Dir(ExeDir(pwd, arg0)))
    ensures !Exists(stat, Join(Dir(ExeDir(pwd, arg0)), "config"))
  {
  }

  /**
   * The order of the rules matters: when "bin/config" exists, the first rule
   * picks the "bin" directory itself, where trying the "bin" rule first would
   * have picked its parent.
   */
  lemma ConfigBesideExecutableWins()
    ensures var bin := Path(true, ["srv", "app", "bin"]);
            var stat := (p: Path) => if p == Join(bin, "config") then Found else NotExist;
            && DetectRootPath(Got(Path(true, ["home"])), Join(bin, "server"), stat) == Ok(bin)
            && FirstMatch([DetectionRules(bin, stat)[2], DetectionRules(bin, stat)[0]], Path(true, ["home"])) == Dir(bin)
  {
  }

  // ---------------------------------------------------------------------
  // Set-once root path and lazy resolution
  // ---------------------------------------------------------------------

  /**
   * SetRootPath on a stored root: it panics exactly when a non-empty root is
   * stored and the new one differs; otherwise the new one is stored.
   */
  function SetRoot(stored: PathVar, p: PathVar): (r: Result<PathVar>)
    ensures r.Panic? <==> stored != Unset && p != stored
    ensures r.Panic? ==> r.message == RootSetTwice
    ensures r.Ok? ==> r.value == p && (stored == Unset || r.value == stored)
  {
    if stored != Unset && p != stored then Panic(RootSetTwice) else Ok(p)
  }

  /** A series of SetRootPath calls, stopping at the first panic. */
  function SetRootAll(stored: PathVar, ps: seq<PathVar>): Result<PathVar>
    decreases |ps|
  {
    if ps == [] then Ok(stored)
    else match SetRoot(stored, ps[0])
      case Panic(m) => Panic(m)
      case Ok(s) => SetRootAll(s, ps[1..])
  }

  /** Setting the same root any number of times never panics and keeps that root. */
  lemma {:induction false} SetSameRootRepeatedly(stored: PathVar, p: PathVar, ps: seq<PathVar>)
    requires stored == Unset || stored == p
    requires forall i :: 0 <= i < |ps| ==> ps[i] == p
    ensures SetRootAll(stored, ps) == Ok(if ps == [] then stored else p)
    decreases |ps|
  {
    if ps != [] {
      SetSameRootRepeatedly(p, p, ps[1..]);
    }
  }

  /** Once a non-empty root is stored, every later series of calls either keeps it or panics. */
  lemma {:induction false} StoredRootIsFinal(stored: PathVar, ps: seq<PathVar>)
    requires stored != Unset
    ensures SetRootAll(stored, ps) == Ok(stored)
         || SetRootAll(stored, ps) == Panic(RootSetTwice)
    decreases |ps|
  {
    if ps != [] && ps[0] == stored {
      StoredRootIsFinal(stored, ps[1..]);
    }
  }

  /**
   * Setting the empty string leaves the root unset, so a later different
   * root is accepted; setting "." fixes the root like any other path.
   */
  lemma EmptyRootDoesNotFix(p: PathVar)
    ensures SetRootAll(Unset, [Unset, p]) == Ok(p)
    ensures p != Value(Empty) ==> SetRootAll(Unset, [Value(Empty), p]) == Panic(RootSetTwice)
  {
    assert SetRoot(Unset, Unset) == Ok(Unset);
    assert [Unset, p][1..] == [p];
    assert SetRootAll(Unset, [p]) == Ok(p) by {
      assert [p][1..] == [];
    }
    assert [Value(Empty), p][1..] == [p];
  }

  /**
   * The value RootPath returns from stored root `stored`: the stored root when
   * non-empty; else LAYA_ROOT_PATH when non-empty; else the detected root.
   */
  function ResolvedRoot(stored: PathVar, h: Host): (r: Result<Path>)
    ensures stored != Unset ==> r == Ok(stored.path)
    ensures stored == Unset && h.rootPathVar != Unset ==> r == Ok(h.rootPathVar.path)
    ensures stored == Unset && h.rootPathVar == Unset ==> r == DetectRootPath(h.cwd, h.arg0, h.stat)
    ensures r.Panic? <==> stored == Unset && h.rootPathVar == Unset && h.cwd.OsError?
  {
    if stored != Unset then Ok(stored.path)
    else if h.rootPathVar != Unset then Ok(h.rootPathVar.path)
    else DetectRootPath(h.cwd, h.arg0, h.stat)
  }

  /** The root stored after RootPath: the resolved one, or the old one on a panic. */
  function StoredAfter(stored: PathVar, h: Host): PathVar {
    match ResolvedRoot(stored, h)
    case Ok(p) => Value(p)
    case Panic(_) => stored
  }

  /**
   * Resolve once: after a successful resolution, every later resolution
   * returns the same root whatever the environment and file system then say.
   */
  lemma ResolvedRootIsCached(stored: PathVar, h1: Host, h2: Host)
    requires ResolvedRoot(stored, h1).Ok?
    ensures StoredAfter(stored, h1) != Unset
    ensures ResolvedRoot(StoredAfter(stored, h1), h2) == ResolvedRoot(stored, h1)
  {
  }

  /** A result's root with one more name below it. */
  function Below(r: Result<Path>, name: string): (d: Result<Path>)
    ensures d.Ok? <==> r.Ok?
    ensures d.Panic? ==> d == Panic(r.message)
    ensures d.Ok? && name != "" ==> Dir(d.value) == r.value && Base(d.value) == name
  {
    match r
    case Ok(p) => Ok(Join(p, name))
    case Panic(m) => Panic(m)
  }

  // ---------------------------------------------------------------------
  // The process-wide settings
  // ---------------------------------------------------------------------

  /** The package-level variables of package env, zero-valued at start. */
  class Settings {
    var rootPath: PathVar   // envRootPath
    var runMode: string     // envRunMode
    var confDirName: string // envConfDirName
    var appName: string     // envAppName
    var ip: string
    var pid: nat
    var pidStr: string

    /** pid and pidStr are set together, so pidStr is the rendering of pid once set. */
    ghost predicate Valid()
      reads this
    {
      (pid == 0 && pidStr == "") || pidStr == StrConv.Itoa(pid)
    }

    constructor ()
      ensures Valid()
      ensures rootPath == Unset && runMode == "" && confDirName == "" && appName == ""
      ensures ip == "" && pid == 0 && pidStr == ""
    {
      rootPath := Unset;
      runMode := "";
      confDirName := "";
      appName := "";
      ip := "";
      pid := 0;
      pidStr := "";
    }

    /** SetRootPath: set the root at most once; a different second value panics. */
    method SetRootPath(p: PathVar) returns (r: Result<()>)
      modifies this`rootPath
      ensures r == match SetRoot(old(rootPath), p) case Ok(_) => Ok(()) case Panic(m) => Panic(m)
      ensures rootPath == match SetRoot(old(rootPath), p) case Ok(q) => q case Panic(_) => old(rootPath)
    {
      if rootPath != Unset && p != rootPath {
        return Panic(RootSetTwice);
      }
      rootPath := p;
      return Ok(());
    }

    /** RootPath: the stored root, resolving and storing it on first use. */
    method RootPath(h: Host) returns (r: Result<Path>)
      modifies this`rootPath
      ensures r == ResolvedRoot(old(rootPath), h)
      ensures rootPath == StoredAfter(old(rootPath), h)
    {
      if rootPath == Unset {
        var setting: Result<()>;
        if h.rootPathVar != Unset {
          setting := SetRootPath(h.rootPathVar);
        } else {
          var detected := DetectRootPath(h.cwd, h.arg0, h.stat);
          if detected.Panic? {
            return Panic(detected.message);
          }
          setting := SetRootPath(Value(detected.value));
        }
        assert setting == Ok(());  // no root was stored, so the set cannot panic
      }
      return Ok(rootPath.path);
    }

    /** SetRunMode: overwrite the run mode, with no set-once rule. */
    method SetRunMode(mode: string)
      modifies this`runMode
      ensures runMode == mode
    {
      runMode := mode;
    }

    /** RunMode: the stored run mode, else LAYA_RUN_MODE, else "debug"; the result is stored. */
    method RunMode(h: Host) returns (mode: string)
      modifies this`runMode
      ensures mode == runMode && mode != ""
      ensures old(runMode) != "" ==> mode == old(runMode)
      ensures old(runMode) == "" && h.runModeVar != "" ==> mode == h.runModeVar
      ensures old(runMode) == "" && h.runModeVar == "" ==> mode == DefaultRunMode
    {
      if runMode == "" {
        if h.runModeVar != "" {
          SetRunMode(h.runModeVar);
        } else {
          SetRunMode(DefaultRunMode);
        }
      }
      return runMode;
    }

    /** SetConfDirName: overwrite the configuration-directory name. */
    method SetConfDirName(name: string)
      modifies this`confDirName
      ensures confDirName == name
    {
      confDirName := name;
    }

    /**
     * ConfRootPath: the root joined with the configuration-directory name,
     * which defaults to "config" and is stored before the root is resolved.
     */
    method ConfRootPath(h: Host) returns (r: Result<Path>)
      modifies this`confDirName, this`rootPath
      ensures confDirName == if old(confDirName) == "" then DefaultConfDirName else old(confDirName)
      ensures rootPath == StoredAfter(old(rootPath), h)
      ensures r == Below(ResolvedRoot(old(rootPath), h), confDirName)
      ensures r.Ok? ==> rootPath == Value(Dir(r.value)) && Base(r.value) == confDirName
    {
      if confDirName == "" {
        SetConfDirName(DefaultConfDirName);
      }
      var root := RootPath(h);
      if root.Panic? {
        return Panic(root.message);
      }
      return Ok(Join(root.value, confDirName));
    }

    /** SetAppName: overwrite the application name. */
    method SetAppName(name: string)
      modifies this`appName
      ensures appName == name
    {
      appName := name;
    }

    /** AppName: the stored name, "unknown" when empty; the result is stored. */
    method AppName() returns (name: string)
      modifies this`appName
      ensures name == appName && name != ""
      ensures old(appName) != "" ==> name == old(appName)
      ensures old(appName) == "" ==> name == DefaultAppName
    {
      if appName == "" {
        SetAppName(DefaultAppName);
      }
      return appName;
    }

    /** DataRootPath: the root joined with "data". */
    method DataRootPath(h: Host) returns (r: Result<Path>)
      modifies this`rootPath
      ensures rootPath == StoredAfter(old(rootPath), h)
      ensures r == Below(ResolvedRoot(old(rootPath), h), "data")
      ensures r.Ok? ==> rootPath == Value(Dir(r.value)) && Base(r.value) == "data"
    {
      var root := RootPath(h);
      if root.Panic? {
        return Panic(root.message);
      }
      return Ok(Join(root.value, "data"));
    }

    /** LogRootPath: the root joined with "log". */
    method LogRootPath(h: Host) returns (r: Result<Path>)
      modifies this`rootPath
      ensures rootPath == StoredAfter(old(rootPath), h)
      ensures r == Below(ResolvedRoot(old(rootPath), h), "log")
      ensures r.Ok? ==> rootPath == Value(Dir(r.value)) && Base(r.value) == "log"
    {
      var root := RootPath(h);
      if root.Panic? {
        return Panic(root.message);
      }
      return Ok(Join(root.value, "log"));
    }

    /**
     * LocalIP: the cached address; on first use the lookup's result, or
     * "unknown" when it is empty. Never empty, and never looked up again.
     */
    method LocalIP(h: Host) returns (addr: string)
      modifies this`ip
      ensures addr == ip && addr != ""
      ensures old(ip) != "" ==> addr == old(ip)
      ensures old(ip) == "" ==> addr == if h.localIP == "" then UnknownIP else h.localIP
    {
      if ip != "" {
        return ip;
      }
      ip := h.localIP;
      if ip == "" {
        ip := UnknownIP;
      }
      return ip;
    }

    /**
     * PID: the cached process id; while it is zero, the id is queried and
     * stored together with its decimal rendering.
     */
    method PID(h: Host) returns (p: nat)
      requires Valid()
      modifies this`pid, this`pidStr
      ensures Valid()
      ensures p == pid
      ensures old(pid) != 0 ==> p == old(pid) && pidStr == old(pidStr)
      ensures old(pid) == 0 ==> p == h.pid && pidStr == StrConv.Itoa(p)
    {
      if pid != 0 {
        return pid;
      }
      pid := h.pid;
      pidStr := StrConv.Itoa(pid);
      return pid;
    }

    /** PIDString: the decimal rendering of the process id, querying it when not yet stored. */
    method PIDString(h: Host) returns (s: string)
      requires Valid()
      modifies this`pid, this`pidStr
      ensures Valid()
      ensures s == pidStr == StrConv.Itoa(pid)
      ensures old(pidStr) != "" ==> s == old(pidStr) && pid == old(pid)
      ensures old(pidStr) == "" ==> pid == h.pid
    {
      if pidStr == "" {
        var _ := PID(h);
      }
      return pidStr;
    }
  }
}
