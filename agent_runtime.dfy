/** The agent of fgo/agent/agent.py: the shared context that the tick and the
    GraphQL mutations read and write, the environment check, and the tick
    state machine `_check_status`.

    Everything the agent learns from the machine it runs on (which paths
    exist, the registry, `which fgfs`, the version probe) is a `Host`; what
    changes from tick to tick (the clock, the svn outcome, the spawned
    process, the poll result) is a `TickInputs`. */
module AgentRuntime {
  import opened Wrappers
  import opened AgentTypes
  import opened PyValues
  import AgentUtil
  import AgentErrors
  import Paths

  /** `self._context['state_meta']`: the svn name while installing, the
      argument list while a start is requested, the spawn time while
      starting, and None otherwise. */
  datatype StateMeta = NoMeta | SvnName(svnName: string) | Args(args: seq<string>) | StartedAt(time: int)

  /** A `subprocess.Popen` handle: the process id, the command line it was
      started with, and whether `terminate()` has been called on it. */
  datatype Process = Process(pid: int, args: seq<string>, terminated: bool)

  /** The attributes of the agent's config object that the runtime reads and
      writes: the five `*_path` attributes (an absent key is None), each a
      str or a Path, and `fgfs_startup_time` in seconds. */
  datatype AgentConfig = AgentConfig(paths: map<PathKind, ConfigPath>, fgfsStartupTime: int)

  /** `types.Info`, as the tick rebuilds it; None stands for an unset field. */
  datatype Info = Info(
    status: Status,
    os: Option<OS>,
    osString: Option<string>,
    timestamp: Option<int>,
    errors: Option<seq<AgentError>>,
    aircraft: Option<string>,
    uuid: Option<string>)

  /** The whole of `self._context` together with the agent's own uuid. */
  datatype AgentState = AgentState(
    running: bool,
    info: Info,
    config: AgentConfig,
    version: Option<Version>,
    aircraftSvnBaseUrl: Option<string>,
    stateMeta: StateMeta,
    fgProcess: Option<Process>,
    uuid: string)

  /** What `fgfs --version` did: raised (OSError, timeout) with a message,
      printed a version, or printed something the parse of lines 403-407
      raises on (TypeError when no line matches, ValueError for a fragment
      that is not a number, IndexError for fewer than three fragments). */
  datatype VersionProbe = ProbeFailed(message: string) | ProbeReported(version: Version) | ProbeUnparsable(exception: Exception)

  /** The machine the agent runs on, as far as one environment scan sees it.
      `existing` holds the text, as `str()` of a Path writes it, of every
      path that exists; `userProfile` is the USERPROFILE variable, if set. */
  datatype Host = Host(
    system: string,
    existing: set<string>,
    registry: seq<AgentUtil.UninstallKey>,
    whichFgfs: Option<string>,
    home: string,
    userProfile: Option<string>,
    protocolFileMatches: bool,
    versionProbe: VersionProbe)

  /** The outcome of an svn update or checkout. */
  datatype SvnOutcome = SvnSucceeded | SvnFailed(message: string) | SvnNotFound

  /** What one tick observes: the clock in whole seconds, the svn outcome,
      the pid `Popen` gave (None when it raised) and the running process's
      `poll()` (None while it runs, else its return code). */
  datatype TickInputs = TickInputs(now: int, svn: SvnOutcome, spawnedPid: Option<int>, poll: Option<int>)

  /** The agent's `Path` is a WindowsPath on Windows and a PosixPath elsewhere. */
  predicate WindowsHost(host: Host) {
    host.system == "Windows"
  }

  /** `Path(text).exists()` */
  predicate Exists(host: Host, text: string) {
    Paths.PathOf(WindowsHost(host), text) in host.existing
  }

  /** `filter(None, [e])` */
  function OptList(e: Option<AgentError>): (l: seq<AgentError>)
    ensures e.None? <==> l == []
    ensures e.Some? ==> l == [e.value]
  {
    if e.Some? then [e.value] else []
  }

  /** `f"{config.<kind>_path}"` */
  function PathText(c: AgentConfig, k: PathKind): string {
    if k in c.paths then c.paths[k].text else "None"
  }

  function InitialState(config: AgentConfig, uuid: string): AgentState {
    AgentState(false, Info(Scanning, None, None, None, None, None, None), config, None, None, NoMeta, None, uuid)
  }

  // ---------------------------------------------------------------------
  // The environment check

  /** The description of a path that does not exist. */
  function CouldNotLocate(path: string): string {
    "Could not locate path '" + path + "'"
  }

  /** `_check_path_set_and_exists(selector, allow_none)`. */
  function CheckPathSetAndExists(kind: PathKind, c: AgentConfig, host: Host, allowNone: bool): Option<AgentError>
  {
    if kind !in c.paths then
      if allowNone then None else Some(AgentError(PathNotSet(kind), None))
    else if !Exists(host, c.paths[kind].text) then
      Some(AgentError(PathNotExist(kind), Some(CouldNotLocate(c.paths[kind].text))))
    else None
  }

  /** `getattr(self, f"{os}_find_fgfs")()`: there is no finder for an unknown OS. */
  function FindFgfs(os: OS, host: Host): Result<Option<string>>
  {
    match os
    case Windows =>
      var loc := AgentUtil.RegistryInstallLocation(host.registry);
      Ok(if loc.Some? && loc.value != "" then Some(loc.value + "bin\\fgfs.exe") else None)
    case Linux => Ok(if host.whichFgfs.Some? then Some(Strip(host.whichFgfs.value)) else None)
    case Darwin => Ok(if host.whichFgfs.Some? then Some(Strip(host.whichFgfs.value)) else None)
    case Unknown => Raised(AttributeError("unknown_find_fgfs"))
  }

  /** `getattr(util, f"{os}_find_fgroot")()` */
  function FindFgroot(os: OS, host: Host): Result<Option<string>>
  {
    match os
    case Windows => Ok(AgentUtil.WindowsFindFgroot(host.registry))
    case Linux => Ok(AgentUtil.LinuxFindFgroot())
    case Darwin => Ok(AgentUtil.DarwinFindFgroot())
    case Unknown => Raised(AttributeError("unknown_find_fgroot"))
  }

  /** `getattr(self, f"{os}_find_fghome")()`: the text of the Path it
      builds; `os.environ['USERPROFILE']` raises KeyError when unset. */
  function FindFghome(os: OS, host: Host): Result<string>
  {
    var windows := WindowsHost(host);
    match os
    case Windows =>
      if host.userProfile.None? then Raised(KeyError("USERPROFILE"))
      else Ok(Paths.JoinPath(windows, host.userProfile.value, "Documents\\FlightGear"))
    case Linux => Ok(Paths.JoinPath(windows, host.home, ".fgfs"))
    case Darwin => Ok(Paths.JoinPath(windows, host.home, "Library/Application Support/FlightGear"))
    case Unknown => Raised(AttributeError("unknown_find_fghome"))
  }

  /** The check passes exactly for a set path that exists, or an unset one
      that is allowed; the error says which of the two failed. */
  lemma CheckPathSpec(kind: PathKind, c: AgentConfig, host: Host, allowNone: bool)
    ensures var e := CheckPathSetAndExists(kind, c, host, allowNone);
      (e.None? <==> (kind in c.paths ==> Exists(host, c.paths[kind].text)) && (kind !in c.paths ==> allowNone))
      && (e.Some? && kind !in c.paths ==> e.value == AgentError(PathNotSet(kind), None))
      && (e.Some? && kind in c.paths ==> e.value == AgentError(PathNotExist(kind), Some(CouldNotLocate(c.paths[kind].text))))
  {
  }

  /** The fgfs and fgroot finders raise exactly on an unknown OS; the fghome
      finder also raises KeyError on Windows without USERPROFILE. On Windows
      fgfs is `bin\fgfs.exe` under a non-empty install location and FG_HOME
      is `Documents\FlightGear` under the user's profile. */
  lemma FindersRaise(os: OS, host: Host)
    ensures FindFgfs(os, host).Raised? <==> os == Unknown
    ensures FindFgroot(os, host).Raised? <==> os == Unknown
    ensures FindFghome(os, host).Raised? <==> os == Unknown || (os == Windows && host.userProfile.None?)
    ensures os == Windows && host.userProfile.None? ==> FindFghome(os, host) == Raised(KeyError("USERPROFILE"))
    ensures os == Windows && host.userProfile.Some? ==>
      FindFghome(os, host) == Ok(Paths.JoinPath(WindowsHost(host), host.userProfile.value, "Documents\\FlightGear"))
    ensures os == Windows ==> FindFgfs(os, host) == Ok(
      var loc := AgentUtil.RegistryInstallLocation(host.registry);
      if loc.Some? && loc.value != "" then Some(loc.value + "bin\\fgfs.exe") else None)
  {
  }

  /** `c'` is `c` or `c` with the path `k` set; nothing else changes. */
  predicate SetsAtMost(c: AgentConfig, c': AgentConfig, k: PathKind) {
    c' == c || (k in c'.paths && c' == c.(paths := c.paths[k := c'.paths[k]]))
  }

  /** The config after one check, and the error that check leaves. */
  datatype Step = Step(config: AgentConfig, error: Option<AgentError>)

  /** The fgfs check: a path that is unset or missing is replaced by the str
      the OS finder returns, when that is non-empty; the found executable is
      not checked for existence. */
  function FgfsStep(os: OS, host: Host, c: AgentConfig): Result<Step>
  {
    var e := CheckPathSetAndExists(Fgfs, c, host, false);
    if e.None? then Ok(Step(c, None))
    else
      match FindFgfs(os, host)
      case Raised(x) => Raised(x)
      case Ok(found) =>
        if found.Some? && found.value != "" then Ok(Step(c.(paths := c.paths[Fgfs := StrPath(found.value)]), None))
        else Ok(Step(c, e))
  }

  /** The fgfs check raises only on an unknown OS with a bad path, passes
      with a path set, keeps the error and the config together, and sets
      at most the fgfs path. */
  lemma FgfsStepSpec(os: OS, host: Host, c: AgentConfig)
    ensures FgfsStep(os, host, c).Raised? <==> CheckPathSetAndExists(Fgfs, c, host, false).Some? && os == Unknown
    ensures var r := FgfsStep(os, host, c);
      r.Ok? ==>
        (r.value.error.None? ==> Fgfs in r.value.config.paths)
        && (r.value.error.Some? ==> r.value == Step(c, CheckPathSetAndExists(Fgfs, c, host, false)))
        && SetsAtMost(c, r.value.config, Fgfs)
        && (r.value.config != c ==> r.value.config.paths[Fgfs].StrPath?)
        && (os == Unknown ==> r.value.config == c)
  {
  }

  /** The fgroot check: the OS's candidate, made a Path, replaces an unset
      or missing path when it exists, and the candidate is asked for only
      when fgfs passed. */
  function FgrootStep(os: OS, host: Host, c: AgentConfig, fgfsError: Option<AgentError>): Result<Step>
  {
    var e := CheckPathSetAndExists(Fgroot, c, host, false);
    if e.None? || fgfsError.Some? then Ok(Step(c, e))
    else
      match FindFgroot(os, host)
      case Raised(x) => Raised(x)
      case Ok(proposed) =>
        if proposed.Some? && Exists(host, proposed.value) then
          Ok(Step(c.(paths := c.paths[Fgroot := PathObject(Paths.PathOf(WindowsHost(host), proposed.value))]), None))
        else Ok(Step(c, e))
  }

  /** The fgroot check: after a failed fgfs check only the path is
      checked; it passes with an existing path, raises only on an unknown
      OS, and sets at most the fgroot path, to `Path(candidate)`. */
  lemma FgrootStepSpec(os: OS, host: Host, c: AgentConfig, fgfsError: Option<AgentError>)
    ensures fgfsError.Some? ==> FgrootStep(os, host, c, fgfsError) == Ok(Step(c, CheckPathSetAndExists(Fgroot, c, host, false)))
    ensures FgrootStep(os, host, c, fgfsError).Raised? <==>
      fgfsError.None? && CheckPathSetAndExists(Fgroot, c, host, false).Some? && os == Unknown
    ensures var r := FgrootStep(os, host, c, fgfsError);
      r.Ok? ==>
        (r.value.error.None? ==> Fgroot in r.value.config.paths && Exists(host, r.value.config.paths[Fgroot].text))
        && SetsAtMost(c, r.value.config, Fgroot)
        && (r.value.config != c ==>
          var proposed := FindFgroot(os, host).value.value;
          r.value.config.paths[Fgroot] == PathObject(Paths.PathOf(WindowsHost(host), proposed)))
        && (os == Unknown ==> r.value.config == c)
  {
    var e := CheckPathSetAndExists(Fgroot, c, host, false);
    if e.Some? && fgfsError.None? {
      var found := FindFgroot(os, host);
      if found.Ok? && found.value.Some? && Exists(host, found.value.value) {
        Paths.PathOfIdempotent(WindowsHost(host), found.value.value);
      }
    }
  }

  /** `Path(fgroot, "Protocol", "fgo.xml")` */
  function ProtocolFilePath(windows: bool, fgroot: string): string {
    Paths.JoinPath(windows, Paths.JoinPath(windows, fgroot, "Protocol"), "fgo.xml")
  }

  /** Below an fgroot with components, the protocol file is
      `<fgroot>/Protocol/fgo.xml` with the host's separator, whatever
      separators the fgroot text ends in. */
  lemma ProtocolFileUnderFgroot(windows: bool, fgroot: string)
    requires Paths.Parts(windows, fgroot) != []
    ensures ProtocolFilePath(windows, fgroot) ==
      Paths.PathOf(windows, fgroot) + [Paths.Sep(windows)] + "Protocol" + [Paths.Sep(windows)] + "fgo.xml"
  {
    var sep := Paths.Sep(windows);
    assert Paths.Component(windows, "Protocol");
    assert Paths.Component(windows, "fgo.xml");
    Paths.JoinComponent(windows, fgroot, "Protocol");
    var dir := Paths.JoinPath(windows, fgroot, "Protocol");
    Paths.JoinParts(windows, fgroot, "Protocol");
    Paths.AnchorIsAnchor(windows, fgroot);
    Paths.PartsAreComponents(windows, fgroot);
    Paths.PartsAreComponents(windows, "Protocol");
    Paths.RenderReadsBack(windows, Paths.Anchor(windows, fgroot), Paths.Parts(windows, fgroot) + Paths.Parts(windows, "Protocol"));
    assert Paths.PathOf(windows, dir) == dir;
    Paths.JoinComponent(windows, dir, "fgo.xml");
  }

  /** A separator after FG_ROOT's last component changes neither the
      stored Path nor the protocol file below it. */
  lemma FgrootTrailingSeparator(windows: bool, fgroot: string, c: char)
    requires Paths.IsSep(windows, c) && |fgroot| > 0 && !Paths.IsSep(windows, fgroot[|fgroot| - 1])
    requires Paths.Parts(windows, fgroot) != []
    ensures Paths.PathOf(windows, fgroot + [c]) == Paths.PathOf(windows, fgroot)
    ensures ProtocolFilePath(windows, fgroot + [c]) ==
      Paths.PathOf(windows, fgroot) + [Paths.Sep(windows)] + "Protocol" + [Paths.Sep(windows)] + "fgo.xml"
  {
    Paths.TrailingSeparatorDropped(windows, fgroot, c);
    assert Paths.JoinPath(windows, fgroot + [c], "Protocol") == Paths.JoinPath(windows, fgroot, "Protocol");
    ProtocolFileUnderFgroot(windows, fgroot);
  }

  /** On Linux the packaged FG_ROOT candidate ends in a separator, which
      the stored Path drops, and the protocol file is looked for below the
      text without it. */
  lemma LinuxFgrootCandidate()
    ensures var candidate := AgentUtil.LinuxFindFgroot().value;
      var t := "/usr/share/games/flightgear";
      candidate == t + ['/']
      && Paths.PathOf(false, candidate) == Paths.PathOf(false, t)
      && ProtocolFilePath(false, candidate) == ProtocolFilePath(false, t)
  {
    var t := "/usr/share/games/flightgear";
    assert AgentUtil.LinuxFindFgroot().value == t + ['/'];
    Paths.TrailingSeparatorDropped(false, t, '/');
    assert Paths.JoinPath(false, t + ['/'], "Protocol") == Paths.JoinPath(false, t, "Protocol");
  }

  /** The protocol-file check, made only when fgroot passed. */
  function ProtocolFileError(host: Host, c: AgentConfig, fgrootError: Option<AgentError>): Option<AgentError>
    requires fgrootError.None? ==> Fgroot in c.paths
  {
    if fgrootError.Some? then None
    else
      var expected := ProtocolFilePath(WindowsHost(host), c.paths[Fgroot].text);
      if !Exists(host, expected) then Some(AgentErrors.ProtocolFileMissingError(expected))
      else if !host.protocolFileMatches then Some(AgentErrors.ProtocolFileHashMismatch(expected))
      else None
  }

  /** The protocol file is checked only after fgroot passed; the error says
      whether it is missing or differs. */
  lemma ProtocolFileErrorSpec(host: Host, c: AgentConfig, fgrootError: Option<AgentError>)
    requires fgrootError.None? ==> Fgroot in c.paths
    ensures fgrootError.Some? ==> ProtocolFileError(host, c, fgrootError).None?
    ensures fgrootError.None? ==>
      var r := ProtocolFileError(host, c, fgrootError);
      var expected := ProtocolFilePath(WindowsHost(host), c.paths[Fgroot].text);
      (r.Some? <==> !Exists(host, expected) || !host.protocolFileMatches)
      && (r.Some? && !Exists(host, expected) ==> r.value == AgentErrors.ProtocolFileMissingError(expected))
      && (r.Some? && Exists(host, expected) ==> r.value == AgentErrors.ProtocolFileHashMismatch(expected))
  {
  }

  /** The fghome check: the OS's candidate replaces an unset or missing path
      when it exists. */
  function FghomeStep(os: OS, host: Host, c: AgentConfig): Result<Step>
  {
    var e := CheckPathSetAndExists(Fghome, c, host, false);
    if e.None? then Ok(Step(c, None))
    else
      match FindFghome(os, host)
      case Raised(x) => Raised(x)
      case Ok(proposed) =>
        if Exists(host, proposed) then Ok(Step(c.(paths := c.paths[Fghome := PathObject(proposed)]), None))
        else Ok(Step(c, e))
  }

  /** The fghome check raises only when the finder does, passes with an
      existing path and sets at most the fghome path, to the finder's Path. */
  lemma FghomeStepSpec(os: OS, host: Host, c: AgentConfig)
    ensures FghomeStep(os, host, c).Raised? <==>
      CheckPathSetAndExists(Fghome, c, host, false).Some? && FindFghome(os, host).Raised?
    ensures var r := FghomeStep(os, host, c);
      r.Ok? ==>
        (r.value.error.None? ==> Fghome in r.value.config.paths && Exists(host, r.value.config.paths[Fghome].text))
        && (r.value.error.Some? ==> r.value == Step(c, CheckPathSetAndExists(Fghome, c, host, false)))
        && SetsAtMost(c, r.value.config, Fghome)
        && (r.value.config != c ==> r.value.config.paths[Fghome] == PathObject(FindFghome(os, host).value))
  {
  }

  /** The aircraft check: `Path(FG_HOME, 'Aircraft')` replaces an unset or
      missing path when it exists, and is tried only when fghome passed. */
  function AircraftStep(host: Host, c: AgentConfig, fghomeError: Option<AgentError>): Step
    requires fghomeError.None? ==> Fghome in c.paths
  {
    var e := CheckPathSetAndExists(Aircraft, c, host, false);
    if e.None? || fghomeError.Some? then Step(c, e)
    else
      var proposed := Paths.JoinPath(WindowsHost(host), c.paths[Fghome].text, "Aircraft");
      if Exists(host, proposed) then Step(c.(paths := c.paths[Aircraft := PathObject(proposed)]), None)
      else Step(c, e)
  }

  /** The aircraft check passes with an existing path, which is
      `Path(FG_HOME, 'Aircraft')` when it changed, and sets at most the
      aircraft path. */
  lemma AircraftStepSpec(host: Host, c: AgentConfig, fghomeError: Option<AgentError>)
    requires fghomeError.None? ==> Fghome in c.paths
    ensures var r := AircraftStep(host, c, fghomeError);
      (fghomeError.Some? ==> r == Step(c, CheckPathSetAndExists(Aircraft, c, host, false)))
      && (r.error.None? ==> Aircraft in r.config.paths && Exists(host, r.config.paths[Aircraft].text))
      && (r.config != c ==>
        r.config == c.(paths := c.paths[Aircraft := PathObject(Paths.JoinPath(WindowsHost(host), c.paths[Fghome].text, "Aircraft"))]))
      && SetsAtMost(c, r.config, Aircraft)
  {
  }

  /** The context keys a successful version probe adds. */
  datatype Memo = NoMemo | VersionMemo(version: Version, aircraftSvnBaseUrl: string)

  /** The FGAddon branch for a FlightGear release. */
  function AircraftSvnBaseUrl(v: Version): string {
    "https://svn.code.sf.net/p/flightgear/fgaddon/branches/release-" + IntToString(v.major) + "." + IntToString(v.minor) + "/Aircraft"
  }

  const ProbeFailureHeading: string := "\n\nFailed to retrieve version. Check paths.\nFGFS_PATH ("
  const FgfsPathHint: string := ") should point to the FGFS executable\nFG_ROOT ("
  const FgrootPathHint: string := ") should point to read-only FlightGear files.\nFG_HOME ("
  const FghomePathHint: string := ") should point to read/write user-specific FlightGear data\n"

  /** The dedented description of a failed version probe. */
  function ProbeFailureDescription(message: string, c: AgentConfig): string {
    message + ProbeFailureHeading + PathText(c, Fgfs) + FgfsPathHint + PathText(c, Fgroot)
    + FgrootPathHint + PathText(c, Fghome) + FghomePathHint
  }

  /** What `_check_environment` returns, or the exception it raises. Either
      way `config` is the config object as it leaves it: the paths earlier
      checks found stay set (and saved) when a later one raises. */
  datatype EnvOutcome =
    | EnvRaised(exception: Exception, config: AgentConfig)
    | EnvChecked(errors: seq<AgentError>, config: AgentConfig, memo: Memo)

  /** The specification of `_check_environment`: the checks in order, each
      contributing at most one error, then the version probe when none did. */
  function CheckEnvironmentSpec(os: OS, host: Host, c: AgentConfig): EnvOutcome
  {
    match FgfsStep(os, host, c)
    case Raised(x) => EnvRaised(x, c)
    case Ok(fgfs) => AfterFgfs(os, host, fgfs)
  }

  /** The checks after fgfs: fgroot, then the protocol file. */
  function AfterFgfs(os: OS, host: Host, fgfs: Step): EnvOutcome
  {
    match FgrootStep(os, host, fgfs.config, fgfs.error)
    case Raised(x) => EnvRaised(x, fgfs.config)
    case Ok(fgroot) =>
      var errors := OptList(fgfs.error) + OptList(fgroot.error) + OptList(ProtocolFileError(host, fgroot.config, fgroot.error));
      AfterProtocol(os, host, errors, fgroot.config)
  }

  /** The checks after the protocol file: fghome, aircraft, terrasync. */
  function AfterProtocol(os: OS, host: Host, errors: seq<AgentError>, c: AgentConfig): EnvOutcome
  {
    match FghomeStep(os, host, c)
    case Raised(x) => EnvRaised(x, c)
    case Ok(fghome) =>
      var aircraft := AircraftStep(host, fghome.config, fghome.error);
      var terrasync := CheckPathSetAndExists(Terrasync, aircraft.config, host, true);
      Probe(host, errors + OptList(fghome.error) + OptList(aircraft.error) + OptList(terrasync), aircraft.config)
  }

  /** The version probe, made only when no check failed. */
  function Probe(host: Host, errors: seq<AgentError>, c: AgentConfig): EnvOutcome {
    if errors != [] then EnvChecked(errors, c, NoMemo)
    else
      match host.versionProbe
      case ProbeFailed(msg) =>
        EnvChecked([AgentError(FgVersionCheckFailed, Some(ProbeFailureDescription(msg, c)))], c, NoMemo)
      case ProbeReported(v) =>
        EnvChecked([], c, VersionMemo(v, AircraftSvnBaseUrl(v)))
      case ProbeUnparsable(x) => EnvRaised(x, c)
  }

  /** The probe runs only when nothing failed: a failed probe adds one
      error, a reported version is remembered with its FGAddon URL, and
      output the parse cannot read raises. */
  lemma ProbeSpec(host: Host, errors: seq<AgentError>, c: AgentConfig)
    ensures var r := Probe(host, errors, c);
      r.config == c
      && (r.EnvRaised? <==> errors == [] && host.versionProbe.ProbeUnparsable?)
      && (r.EnvRaised? ==> r.exception == host.versionProbe.exception)
      && (errors != [] ==> r == EnvChecked(errors, c, NoMemo))
      && (r.EnvChecked? ==>
        (r.errors == [] <==> errors == [] && host.versionProbe.ProbeReported?)
        && (r.memo.VersionMemo? <==> errors == [] && host.versionProbe.ProbeReported?))
      && (r.EnvChecked? && r.memo.VersionMemo? ==>
        r.memo == VersionMemo(host.versionProbe.version, AircraftSvnBaseUrl(host.versionProbe.version)))
      && (errors == [] && host.versionProbe.ProbeFailed? ==>
        r == EnvChecked([AgentError(FgVersionCheckFailed, Some(ProbeFailureDescription(host.versionProbe.message, c)))], c, NoMemo))
  {
  }

  /** Why the environment check can raise: a finder on an unknown OS, the
      fghome finder on Windows without USERPROFILE, or version output the
      parse cannot read. */
  predicate RaiseCause(os: OS, host: Host) {
    os == Unknown || (os == Windows && host.userProfile.None?) || host.versionProbe.ProbeUnparsable?
  }

  /** The environment check raises only for a `RaiseCause`. */
  lemma EnvRaisesOnlyFor(os: OS, host: Host, c: AgentConfig)
    ensures CheckEnvironmentSpec(os, host, c).EnvRaised? ==> RaiseCause(os, host)
  {
    FgfsStepSpec(os, host, c);
    if FgfsStep(os, host, c).Ok? {
      AfterFgfsRaisesOnlyFor(os, host, FgfsStep(os, host, c).value);
    }
  }

  lemma AfterFgfsRaisesOnlyFor(os: OS, host: Host, fgfs: Step)
    ensures AfterFgfs(os, host, fgfs).EnvRaised? ==> RaiseCause(os, host)
  {
    FgrootStepSpec(os, host, fgfs.config, fgfs.error);
    var fgroot := FgrootStep(os, host, fgfs.config, fgfs.error);
    if fgroot.Ok? {
      var errors := OptList(fgfs.error) + OptList(fgroot.value.error) + OptList(ProtocolFileError(host, fgroot.value.config, fgroot.value.error));
      AfterProtocolRaisesOnlyFor(os, host, errors, fgroot.value.config);
    }
  }

  lemma AfterProtocolRaisesOnlyFor(os: OS, host: Host, errors: seq<AgentError>, c: AgentConfig)
    ensures AfterProtocol(os, host, errors, c).EnvRaised? ==> RaiseCause(os, host)
  {
    FghomeStepSpec(os, host, c);
    FindersRaise(os, host);
    var fghome := FghomeStep(os, host, c);
    if fghome.Ok? {
      var aircraft := AircraftStep(host, fghome.value.config, fghome.value.error);
      var terrasync := CheckPathSetAndExists(Terrasync, aircraft.config, host, true);
      ProbeSpec(host, errors + OptList(fghome.value.error) + OptList(aircraft.error) + OptList(terrasync), aircraft.config);
    }
  }

  /** A Windows host without USERPROFILE whose FG_HOME is unset raises
      KeyError once the earlier checks are through, keeping the paths they
      found. */
  lemma {:induction false} MissingUserProfileRaises(host: Host, errors: seq<AgentError>, c: AgentConfig)
    requires host.userProfile.None? && Fghome !in c.paths
    ensures AfterProtocol(Windows, host, errors, c) == EnvRaised(KeyError("USERPROFILE"), c)
  {
    FindersRaise(Windows, host);
  }

  /** The predicate a passed environment check establishes: fgfs is set
      and fgroot, fghome and aircraft are set to existing paths. */
  predicate PathsReady(c: AgentConfig, host: Host) {
    Fgfs in c.paths
    && Fgroot in c.paths && Exists(host, c.paths[Fgroot].text)
    && Fghome in c.paths && Exists(host, c.paths[Fghome].text)
    && Aircraft in c.paths && Exists(host, c.paths[Aircraft].text)
  }

  lemma {:induction false} AfterProtocolClean(os: OS, host: Host, errors: seq<AgentError>, c: AgentConfig)
    requires Fgfs in c.paths && Fgroot in c.paths && Exists(host, c.paths[Fgroot].text)
    requires AfterProtocol(os, host, errors, c).EnvChecked? && AfterProtocol(os, host, errors, c).errors == []
    ensures PathsReady(AfterProtocol(os, host, errors, c).config, host)
  {
    var fghome := FghomeStep(os, host, c).value;
    FghomeStepSpec(os, host, c);
    var aircraft := AircraftStep(host, fghome.config, fghome.error);
    AircraftStepSpec(host, fghome.config, fghome.error);
    var terrasync := CheckPathSetAndExists(Terrasync, aircraft.config, host, true);
    ProbeSpec(host, errors + OptList(fghome.error) + OptList(aircraft.error) + OptList(terrasync), aircraft.config);
    assert fghome.error.None? && aircraft.error.None?;
    assert Fgfs in fghome.config.paths && Fgroot in fghome.config.paths && fghome.config.paths[Fgroot] == c.paths[Fgroot];
  }

  /** After the protocol file, the outcome passes exactly when no check
      failed and the probe reported a version, which it then remembers. */
  lemma {:induction false} AfterProtocolMemo(os: OS, host: Host, errors: seq<AgentError>, c: AgentConfig)
    requires AfterProtocol(os, host, errors, c).EnvChecked?
    ensures var r := AfterProtocol(os, host, errors, c);
      (r.errors == [] <==> r.memo.VersionMemo?)
      && (r.errors == [] ==>
        errors == [] && host.versionProbe.ProbeReported?
        && r.memo == VersionMemo(host.versionProbe.version, AircraftSvnBaseUrl(host.versionProbe.version)))
  {
    var fghome := FghomeStep(os, host, c).value;
    var aircraft := AircraftStep(host, fghome.config, fghome.error);
    var terrasync := CheckPathSetAndExists(Terrasync, aircraft.config, host, true);
    var all := errors + OptList(fghome.error) + OptList(aircraft.error) + OptList(terrasync);
    assert AfterProtocol(os, host, errors, c) == Probe(host, all, aircraft.config);
    ProbeSpec(host, all, aircraft.config);
  }

  /** After fgfs: fgroot and the protocol file pass with an existing fgroot,
      and what follows decides the rest. */
  lemma {:induction false} AfterFgfsClean(os: OS, host: Host, fgfs: Step)
    requires fgfs.error.None? ==> Fgfs in fgfs.config.paths
    requires AfterFgfs(os, host, fgfs).EnvChecked?
    ensures var r := AfterFgfs(os, host, fgfs);
      (r.errors == [] <==> r.memo.VersionMemo?)
      && (r.errors == [] ==>
        fgfs.error.None?
        && host.versionProbe.ProbeReported?
        && r.memo == VersionMemo(host.versionProbe.version, AircraftSvnBaseUrl(host.versionProbe.version))
        && PathsReady(r.config, host))
  {
    var fgroot := FgrootStep(os, host, fgfs.config, fgfs.error).value;
    FgrootStepSpec(os, host, fgfs.config, fgfs.error);
    var errors := OptList(fgfs.error) + OptList(fgroot.error) + OptList(ProtocolFileError(host, fgroot.config, fgroot.error));
    assert AfterFgfs(os, host, fgfs) == AfterProtocol(os, host, errors, fgroot.config);
    AfterProtocolMemo(os, host, errors, fgroot.config);
    if AfterFgfs(os, host, fgfs).errors == [] {
      assert fgfs.error.None? && fgroot.error.None?;
      assert Fgfs in fgroot.config.paths;
      AfterProtocolClean(os, host, errors, fgroot.config);
    }
  }

  /** The environment passes exactly when every check passed and the probe
      reported a version; then the context gains that version's FGAddon URL
      and the paths are ready. */
  lemma {:induction false} CleanEnvironment(os: OS, host: Host, c: AgentConfig)
    requires CheckEnvironmentSpec(os, host, c).EnvChecked?
    ensures var r := CheckEnvironmentSpec(os, host, c);
      (r.errors == [] <==> r.memo.VersionMemo?)
      && (r.errors == [] ==>
        host.versionProbe.ProbeReported?
        && r.memo == VersionMemo(host.versionProbe.version, AircraftSvnBaseUrl(host.versionProbe.version))
        && PathsReady(r.config, host))
  {
    var fgfs := FgfsStep(os, host, c).value;
    FgfsStepSpec(os, host, c);
    assert CheckEnvironmentSpec(os, host, c) == AfterFgfs(os, host, fgfs);
    AfterFgfsClean(os, host, fgfs);
  }

  // ---------------------------------------------------------------------
  // The tick

  /** `timedelta.seconds` of `now - start`: the seconds part of the
      elapsed time, without its whole days. */
  function TimedeltaSeconds(now: int, start: int): (r: int)
    ensures 0 <= r < 86400
    ensures 0 <= now - start < 86400 ==> r == now - start
  {
    (now - start) % 86400
  }

  /** The startup wait as line 194 writes it. */
  function StartupElapsedAsWritten(now: int, start: int, startupTime: int): bool {
    TimedeltaSeconds(now, start) >= startupTime
  }

  /** The startup wait as intended: the whole elapsed time has reached
      `fgfs_startup_time`. */
  function StartupElapsed(now: int, start: int, startupTime: int): (r: bool)
    ensures r <==> now - start >= startupTime
  {
    now - start >= startupTime
  }

  /** A wait of a day or more is never over as written, however long the
      process has been starting. */
  lemma {:induction false} AsWrittenNeverElapsesADay(start: int, startupTime: int, now: int)
    requires startupTime >= 86400 && now >= start + startupTime
    ensures StartupElapsed(now, start, startupTime)
    ensures !StartupElapsedAsWritten(now, start, startupTime)
  {
  }

  /** A clock that steps back ends the wait at once as written. */
  lemma ClockStepBackAsWritten()
    ensures StartupElapsedAsWritten(999, 1000, 60) && !StartupElapsed(999, 1000, 60)
  {
  }

  /** Once over, the intended wait stays over, and it agrees with line 194
      whenever less than a day has passed. */
  lemma StartupElapsedAgrees(start: int, startupTime: int, now: int, later: int)
    requires now <= later
    ensures StartupElapsed(now, start, startupTime) ==> StartupElapsed(later, start, startupTime)
    ensures 0 <= now - start < 86400 ==>
      (StartupElapsed(now, start, startupTime) <==> StartupElapsedAsWritten(now, start, startupTime))
  {
  }

  /** What a tick branch decides before the Info is rebuilt: the next status,
      OS and errors, and the context as the branch left it (including
      `next_fg_process`). */
  datatype Decision = Decision(status: Status, os: Option<OS>, osString: Option<string>, errors: Option<seq<AgentError>>, context: AgentState)

  /** The `next_*` values a branch assigns: status, OS, errors and process handle. */
  datatype Next = Next(status: Status, os: Option<OS>, osString: Option<string>, errors: Option<seq<AgentError>>, fgProcess: Option<Process>)

  function Unchanged(s: AgentState): Decision {
    Decision(s.info.status, s.info.os, s.info.osString, s.info.errors, s)
  }

  /** What `_check_environment` returns for the context's config, on the
      OS the host reports. */
  function Scan(s: AgentState, host: Host): EnvOutcome {
    CheckEnvironmentSpec(AgentUtil.DiscoverOs(host.system).0, host, s.config)
  }

  /** SCANNING, given what the environment check returned: READY when it
      found no error, ERROR otherwise; an exception escapes. */
  function ScanningStep(s: AgentState, host: Host, env: EnvOutcome): (r: Option<Decision>)
    ensures (r.None? <==> env.EnvRaised?)
      && (r.Some? ==>
        r.value.errors == Some(env.errors)
        && (r.value.status == Ready <==> env.errors == [])
        && (r.value.status == Error <==> env.errors != [])
        && r.value.os == Some(AgentUtil.DiscoverOs(host.system).0)
        && r.value.osString == Some(host.system)
        && r.value.context.config == env.config)
  {
    var (os, osString) := AgentUtil.DiscoverOs(host.system);
    match env
    case EnvRaised(_, _) => None
    case EnvChecked(errors, config, memo) =>
      var s' := if memo.VersionMemo? then s.(config := config, version := Some(memo.version), aircraftSvnBaseUrl := Some(memo.aircraftSvnBaseUrl))
        else s.(config := config);
      Some(Decision(if errors == [] then Ready else Error, Some(os), Some(osString), Some(errors), s'))
  }

  function NotInVersionControlDescription(name: string, path: string): string {
    "Aircraft " + name + " is not under version control. Delete the folder " + path + " and try reinstalling."
  }

  function SvnNotInstalledDescription(name: string): string {
    "Aircraft " + name + " could not be installed. Check that you have svn installed."
  }

  /** `Path(config.aircraft_path, svn_name)`, as text. */
  function AircraftFolder(s: AgentState, host: Host): string
    requires s.stateMeta.SvnName? && Aircraft in s.config.paths
  {
    Paths.JoinPath(WindowsHost(host), s.config.paths[Aircraft].text, s.stateMeta.svnName)
  }

  /** INSTALLING_AIRCRAFT: update the aircraft when its folder exists, else
      check it out of the FGAddon branch. */
  function InstallingStep(s: AgentState, host: Host, inp: TickInputs): (r: Option<Decision>)
    ensures r.Some? ==> s.stateMeta.SvnName? && Aircraft in s.config.paths
    ensures r.Some? ==> r.value.context == s && r.value.os == s.info.os
    ensures r.Some? ==> (r.value.status == Ready <==> inp.svn == SvnSucceeded)
    ensures r.Some? && r.value.status == Ready ==> r.value.errors == s.info.errors
    ensures r.Some? && inp.svn != SvnSucceeded ==> r.value.status == Error && r.value.errors.Some? && |r.value.errors.value| == 1
    ensures s.stateMeta.SvnName? && Aircraft in s.config.paths ==>
      var present := Exists(host, AircraftFolder(s, host));
      (r.None? <==> (present && inp.svn == SvnNotFound) || (!present && s.aircraftSvnBaseUrl.None?))
      && (r.Some? && inp.svn.SvnFailed? ==>
        r.value.errors.value[0].code == if present then AircraftNotInVersionControl else AircraftInstallFailed)
      && (r.Some? && !present && inp.svn.SvnFailed? ==> r.value.errors.value[0].description == Some(inp.svn.message))
      && (r.Some? && inp.svn == SvnNotFound ==> r.value.errors.value[0].code == SvnNotInstalled)
  {
    if !s.stateMeta.SvnName? || Aircraft !in s.config.paths then None
    else
      var name := s.stateMeta.svnName;
      var path := AircraftFolder(s, host);
      var keep := Unchanged(s);
      if Exists(host, path) then
        match inp.svn
        case SvnSucceeded => Some(keep.(status := Ready))
        case SvnFailed(_) =>
          Some(keep.(status := Error, errors := Some([AgentError(AircraftNotInVersionControl, Some(NotInVersionControlDescription(name, path)))])))
        case SvnNotFound => None
      else if s.aircraftSvnBaseUrl.None? then None
      else
        match inp.svn
        case SvnSucceeded => Some(keep.(status := Ready))
        case SvnFailed(msg) => Some(keep.(status := Error, errors := Some([AgentError(AircraftInstallFailed, Some(msg))])))
        case SvnNotFound => Some(keep.(status := Error, errors := Some([AgentError(SvnNotInstalled, Some(SvnNotInstalledDescription(name)))])))
  }

  /** FGFS_START_REQUESTED: spawn fgfs with the requested arguments and record
      the spawn time. */
  function StartRequestedStep(s: AgentState, inp: TickInputs): (r: Option<Decision>)
    ensures r.None? <==> !s.stateMeta.Args? || inp.spawnedPid.None?
    ensures r.Some? ==>
      r.value.status == FgfsStarting
      && r.value.errors == s.info.errors
      && r.value.context == s.(stateMeta := StartedAt(inp.now),
                               fgProcess := Some(Process(inp.spawnedPid.value, [PathText(s.config, Fgfs)] + s.stateMeta.args, false)))
  {
    if !s.stateMeta.Args? || inp.spawnedPid.None? then None
    else
      var args := [PathText(s.config, Fgfs)] + s.stateMeta.args;
      Some(Unchanged(s).(status := FgfsStarting,
                         context := s.(stateMeta := StartedAt(inp.now), fgProcess := Some(Process(inp.spawnedPid.value, args, false)))))
  }

  /** FGFS_STARTING: move to FGFS_RUNNING once the startup time has elapsed. */
  function StartingStep(s: AgentState, inp: TickInputs): (r: Option<Decision>)
    requires s.info.status == FgfsStarting
    ensures r.None? <==> !s.stateMeta.StartedAt?
    ensures r.Some? ==> r.value.context == s && r.value.errors == s.info.errors
    ensures r.Some? ==>
      (r.value.status == FgfsRunning <==> inp.now - s.stateMeta.time >= s.config.fgfsStartupTime)
      && (r.value.status != FgfsRunning ==> r.value.status == s.info.status)
  {
    if !s.stateMeta.StartedAt? then None
    else if StartupElapsed(inp.now, s.stateMeta.time, s.config.fgfsStartupTime) then Some(Unchanged(s).(status := FgfsRunning))
    else Some(Unchanged(s))
  }

  function AbnormalExitDescription(returnCode: int): string {
    "Abnormal FlightGear termination with returncode " + IntToString(returnCode) + "!"
  }

  /** FGFS_RUNNING: poll the process; an exit drops the handle and moves to
      READY on a zero return code and to ERROR otherwise. */
  function RunningStep(s: AgentState, inp: TickInputs): (r: Option<Decision>)
    ensures r.None? <==> s.fgProcess.None?
    ensures r.Some? && inp.poll.None? ==> r.value == Unchanged(s)
    ensures r.Some? && inp.poll.Some? ==> r.value.context == s.(fgProcess := None)
    ensures r.Some? && inp.poll == Some(0) ==> r.value.status == Ready && r.value.errors == s.info.errors
    ensures r.Some? && inp.poll.Some? && inp.poll.value != 0 ==>
      r.value.status == Error
      && r.value.errors == Some([AgentError(FgfsAbnormalExit, Some(AbnormalExitDescription(inp.poll.value)))])
  {
    if s.fgProcess.None? then None
    else
      match inp.poll
      case None => Some(Unchanged(s))
      case Some(rc) =>
        if rc == 0 then Some(Unchanged(s).(status := Ready, context := s.(fgProcess := None)))
        else
          var msg := AbnormalExitDescription(rc);
          Some(Unchanged(s).(status := Error, errors := Some([AgentError(FgfsAbnormalExit, Some(msg))]), context := s.(fgProcess := None)))
  }

  /** FGFS_STOP_REQUESTED: terminate the process and move to READY. The
      handle is cleared at line 222 but written back at line 238, so the
      terminated handle stays in the context. */
  function StopRequestedStep(s: AgentState): (r: Option<Decision>)
    ensures r.None? <==> s.fgProcess.None?
    ensures r.Some? ==>
      r.value.status == Ready && r.value.errors == s.info.errors
      && r.value.context == s.(fgProcess := Some(s.fgProcess.value.(terminated := true)))
  {
    if s.fgProcess.None? then None
    else Some(Unchanged(s).(status := Ready, context := s.(fgProcess := Some(s.fgProcess.value.(terminated := true)))))
  }

  /** The branch for the current status. */
  function Decide(s: AgentState, env: EnvOutcome, host: Host, inp: TickInputs): Option<Decision> {
    match s.info.status
    case Scanning => ScanningStep(s, host, env)
    case InstallingAircraft => InstallingStep(s, host, inp)
    case FgfsStartRequested => StartRequestedStep(s, inp)
    case FgfsStarting => StartingStep(s, inp)
    case FgfsRunning => RunningStep(s, inp)
    case FgfsStopRequested => StopRequestedStep(s)
    case Error => Some(Unchanged(s))
    case Ready => Some(Unchanged(s))
  }

  /** The context after the Info is rebuilt from a decision at time `now`. */
  function Rebuild(d: Decision, now: int): (s: AgentState)
    ensures s.info.status == d.status && s.info.errors == d.errors && s.info.timestamp == Some(now)
    ensures s.config == d.context.config && s.stateMeta == d.context.stateMeta && s.fgProcess == d.context.fgProcess
  {
    d.context.(info := Info(d.status, d.os, d.osString, Some(now), d.errors, d.context.info.aircraft, Some(d.context.uuid)))
  }

  /** The specification of one `_check_status` call: None when an exception
      escapes it, which leaves the context as it was. A stopped agent does
      nothing. `env` is what the environment check returns (`Scan(s, host)`);
      only SCANNING consults it. */
  function Tick(s: AgentState, env: EnvOutcome, host: Host, inp: TickInputs): (r: Option<AgentState>)
    ensures !s.running ==> r == Some(s)
    ensures r.Some? ==> r.value.running == s.running && r.value.uuid == s.uuid && r.value.info.aircraft == s.info.aircraft
    ensures s.running && r.Some? && (s.info.status == Ready || s.info.status == Error) ==>
      r.value == s.(info := s.info.(timestamp := Some(inp.now), uuid := Some(s.uuid)))
  {
    if !s.running then Some(s)
    else
      match Decide(s, env, host, inp)
      case None => None
      case Some(d) => Some(Rebuild(d, inp.now))
  }

  /** The context a tick leaves when an exception escapes it: a scan has
      already stored the paths its earlier checks found in the config
      object, which the context shares; no other branch changed anything. */
  function Escaped(s: AgentState, env: EnvOutcome): (r: AgentState)
    ensures r.info == s.info && r.stateMeta == s.stateMeta && r.fgProcess == s.fgProcess
    ensures r.config != s.config ==> s.info.status == Scanning && env.EnvRaised? && r.config == env.config
  {
    if s.running && s.info.status == Scanning && env.EnvRaised? then s.(config := env.config) else s
  }

  /** A running agent's tick applies the branch for its status. */
  lemma TickRunsBranch(s: AgentState, env: EnvOutcome, host: Host, inp: TickInputs)
    requires s.running
    ensures Tick(s, env, host, inp) == if Decide(s, env, host, inp).None? then None else Some(Rebuild(Decide(s, env, host, inp).value, inp.now))
  {
  }

  // ---------------------------------------------------------------------
  // The invariant the tick and the mutations keep

  /** What each status needs from the context: a passed environment check
      left an FGAddon URL and an aircraft path, the install names its
      aircraft, a requested start holds its arguments, a starting fgfs its
      spawn time, and a starting, running or stopping fgfs its handle. */
  predicate Valid(s: AgentState) {
    (s.info.status != Scanning && s.info.status != Error ==>
      s.aircraftSvnBaseUrl.Some? && Aircraft in s.config.paths)
    && (s.info.status == InstallingAircraft ==> s.stateMeta.SvnName?)
    && (s.info.status == FgfsStartRequested ==> s.stateMeta.Args?)
    && (s.info.status == FgfsStarting ==> s.stateMeta.StartedAt? && s.fgProcess.Some?)
    && (s.info.status == FgfsRunning || s.info.status == FgfsStopRequested ==> s.fgProcess.Some?)
  }

  lemma InitialValid(config: AgentConfig, uuid: string)
    ensures Valid(InitialState(config, uuid))
  {
  }

  /** What a passed environment check guarantees: it passed exactly when
      it remembered a version, and then the paths are ready. */
  predicate EnvSound(env: EnvOutcome, host: Host) {
    env.EnvChecked? ==>
      (env.errors == [] <==> env.memo.VersionMemo?)
      && (env.errors == [] ==> PathsReady(env.config, host))
  }

  /** The environment check of any context is sound, and raises only on an
      unknown OS, on Windows without USERPROFILE, or on version output the
      parse cannot read. */
  lemma ScanIsSound(s: AgentState, host: Host)
    ensures EnvSound(Scan(s, host), host)
    ensures Scan(s, host).EnvRaised? ==> RaiseCause(AgentUtil.DiscoverOs(host.system).0, host)
  {
    var os := AgentUtil.DiscoverOs(host.system).0;
    EnvRaisesOnlyFor(os, host, s.config);
    if CheckEnvironmentSpec(os, host, s.config).EnvChecked? {
      CleanEnvironment(os, host, s.config);
    }
  }

  /** A completed scan leaves READY only with the FGAddon URL and the
      aircraft path in place. */
  lemma ScanningKeepsValid(s: AgentState, host: Host, env: EnvOutcome, now: int)
    requires s.info.status == Scanning && EnvSound(env, host)
    ensures ScanningStep(s, host, env).Some? ==> Valid(Rebuild(ScanningStep(s, host, env).value, now))
  {
  }

  /** Every tick that completes after a sound environment check keeps the
      invariant. */
  lemma TickPreservesValid(s: AgentState, env: EnvOutcome, host: Host, inp: TickInputs)
    requires Valid(s) && EnvSound(env, host)
    ensures Tick(s, env, host, inp).Some? ==> Valid(Tick(s, env, host, inp).value)
  {
    if s.running {
      TickRunsBranch(s, env, host, inp);
      if s.info.status == Scanning {
        ScanningKeepsValid(s, host, env, inp.now);
      }
    }
  }

  /** In a valid context the only exceptions a tick lets escape are the
      environment check's while scanning (for a `RaiseCause`, by
      ScanIsSound), svn missing while updating an existing aircraft, and a
      failed spawn. */
  lemma ValidTickEscapes(s: AgentState, env: EnvOutcome, host: Host, inp: TickInputs)
    requires Valid(s)
    ensures Tick(s, env, host, inp).None? <==>
      s.running &&
      ((s.info.status == Scanning && env.EnvRaised?)
       || (s.info.status == InstallingAircraft && inp.svn == SvnNotFound
           && Exists(host, AircraftFolder(s, host)))
       || (s.info.status == FgfsStartRequested && inp.spawnedPid.None?))
  {
  }

  // ---------------------------------------------------------------------
  // The agent object

  /** `Agent`, reduced to the context its tick and the mutations share. */
  class Agent {
    var running: bool
    var info: Info
    var config: AgentConfig
    var version: Option<Version>
    var aircraftSvnBaseUrl: Option<string>
    var stateMeta: StateMeta
    var fgProcess: Option<Process>
    const uuid: string

    function State(): AgentState
      reads this
    {
      AgentState(running, info, config, version, aircraftSvnBaseUrl, stateMeta, fgProcess, uuid)
    }

    /** `Agent(config)`: a stopped agent in SCANNING with an empty context. */
    constructor (config: AgentConfig, uuid: string)
      ensures State() == InitialState(config, uuid)
    {
      running := false;
      info := Info(Scanning, None, None, None, None, None, None);
      this.config := config;
      version := None;
      aircraftSvnBaseUrl := None;
      stateMeta := NoMeta;
      fgProcess := None;
      this.uuid := uuid;
    }

    /** `run()`, as far as the context goes: mark the agent running. */
    method Run()
      modifies this
      ensures State() == old(State()).(running := true)
    {
      running := true;
    }

    /** The fgfs check of `_check_environment`, lines 292-302. */
    method CheckFgfs(os: OS, host: Host) returns (r: Result<Option<AgentError>>)
      modifies this
      ensures State() == old(State()).(config := config)
      ensures r.Raised? ==> config == old(config)
      ensures FgfsStep(os, host, old(config)) == if r.Raised? then Raised(r.exception) else Ok(Step(config, r.value))
    {
      var fgfsError := CheckPathSetAndExists(Fgfs, config, host, false);
      r := Ok(fgfsError);
      if fgfsError.Some? {
        var found := FindFgfs(os, host);
        if found.Raised? {
          r := Raised(found.exception);
        } else if found.value.Some? && found.value.value != "" {
          config := config.(paths := config.paths[Fgfs := StrPath(found.value.value)]);
          r := Ok(None);
        }
      }
    }

    /** The fgroot check of `_check_environment`, lines 306-319. */
    method CheckFgroot(os: OS, host: Host, fgfsError: Option<AgentError>) returns (r: Result<Option<AgentError>>)
      modifies this
      ensures FgrootStep(os, host, old(config), fgfsError) == if r.Raised? then Raised(r.exception) else Ok(Step(config, r.value))
      ensures r.Raised? ==> config == old(config)
      ensures State() == old(State()).(config := config)
    {
      var fgrootError := CheckPathSetAndExists(Fgroot, config, host, false);
      if fgrootError.Some? && fgfsError.None? {
        var proposed := FindFgroot(os, host);
        if proposed.Raised? {
          return Raised(proposed.exception);
        }
        if proposed.value.Some? && Exists(host, proposed.value.value) {
          config := config.(paths := config.paths[Fgroot := PathObject(Paths.PathOf(WindowsHost(host), proposed.value.value))]);
          fgrootError := None;
        }
      }
      return Ok(fgrootError);
    }

    /** The fghome check of `_check_environment`, lines 343-353. */
    method CheckFghome(os: OS, host: Host) returns (r: Result<Option<AgentError>>)
      modifies this
      ensures FghomeStep(os, host, old(config)) == if r.Raised? then Raised(r.exception) else Ok(Step(config, r.value))
      ensures r.Raised? ==> config == old(config)
      ensures State() == old(State()).(config := config)
    {
      var fghomeError := CheckPathSetAndExists(Fghome, config, host, false);
      if fghomeError.Some? {
        var proposed := FindFghome(os, host);
        if proposed.Raised? {
          return Raised(proposed.exception);
        }
        if Exists(host, proposed.value) {
          config := config.(paths := config.paths[Fghome := PathObject(proposed.value)]);
          fghomeError := None;
        }
      }
      return Ok(fghomeError);
    }

    /** The aircraft check of `_check_environment`, lines 358-367. */
    method CheckAircraft(host: Host, fghomeError: Option<AgentError>) returns (aircraftError: Option<AgentError>)
      requires fghomeError.None? ==> Fghome in config.paths
      modifies this
      ensures AircraftStep(host, old(config), fghomeError) == Step(config, aircraftError)
      ensures State() == old(State()).(config := config)
    {
      aircraftError := CheckPathSetAndExists(Aircraft, config, host, false);
      if aircraftError.Some? && fghomeError.None? {
        var proposed := Paths.JoinPath(WindowsHost(host), config.paths[Fghome].text, "Aircraft");
        if Exists(host, proposed) {
          config := config.(paths := config.paths[Aircraft := PathObject(proposed)]);
          aircraftError := None;
        }
      }
    }

    /** `_check_environment(os_, config)`: collect one error per failed check,
        storing what the finders discover in the config as it goes, and probe
        the version when nothing failed. An exception escapes with the paths
        the earlier checks stored still in the config. */
    method CheckEnvironment(os: OS, host: Host) returns (outcome: EnvOutcome)
      modifies this
      ensures outcome == CheckEnvironmentSpec(os, host, old(config))
      ensures State() == old(State()).(config := outcome.config)
    {
      var fgfs := CheckFgfs(os, host);
      if fgfs.Raised? {
        return EnvRaised(fgfs.exception, config);
      }
      outcome := CheckAfterFgfs(os, host, fgfs.value);
    }

    /** Lines 306-341: fgroot and the protocol file, then the rest. */
    method CheckAfterFgfs(os: OS, host: Host, fgfsError: Option<AgentError>) returns (outcome: EnvOutcome)
      modifies this
      ensures outcome == AfterFgfs(os, host, Step(old(config), fgfsError))
      ensures State() == old(State()).(config := outcome.config)
    {
      var fgroot := CheckFgroot(os, host, fgfsError);
      if fgroot.Raised? {
        return EnvRaised(fgroot.exception, config);
      }
      var fgrootError := fgroot.value;
      var protocolError := ProtocolFileError(host, config, fgrootError);
      var errorList := OptList(fgfsError) + OptList(fgrootError) + OptList(protocolError);
      outcome := CheckAfterProtocol(os, host, errorList);
    }

    /** Lines 343-375: fghome, aircraft and terrasync, then the probe. */
    method CheckAfterProtocol(os: OS, host: Host, errors: seq<AgentError>) returns (outcome: EnvOutcome)
      modifies this
      ensures outcome == AfterProtocol(os, host, errors, old(config))
      ensures State() == old(State()).(config := outcome.config)
    {
      var fghome := CheckFghome(os, host);
      if fghome.Raised? {
        return EnvRaised(fghome.exception, config);
      }
      FghomeStepSpec(os, host, old(config));
      outcome := CheckAfterFghome(host, errors, fghome.value);
    }

    /** Lines 355-375: aircraft and terrasync after the fghome check, then
        the probe. */
    method CheckAfterFghome(host: Host, errors: seq<AgentError>, fghomeError: Option<AgentError>) returns (outcome: EnvOutcome)
      requires fghomeError.None? ==> Fghome in config.paths
      modifies this
      ensures var aircraft := AircraftStep(host, old(config), fghomeError);
        var terrasync := CheckPathSetAndExists(Terrasync, aircraft.config, host, true);
        outcome == Probe(host, errors + OptList(fghomeError) + OptList(aircraft.error) + OptList(terrasync), aircraft.config)
      ensures State() == old(State()).(config := outcome.config)
    {
      var aircraftError := CheckAircraft(host, fghomeError);
      var terrasyncError := CheckPathSetAndExists(Terrasync, config, host, true);
      outcome := ProbeVersion(host, errors + OptList(fghomeError) + OptList(aircraftError) + OptList(terrasyncError));
    }

    /** Lines 377-412: the version probe, made only when no check failed. */
    method ProbeVersion(host: Host, errors: seq<AgentError>) returns (outcome: EnvOutcome)
      ensures outcome == Probe(host, errors, config)
    {
      if |errors| > 0 {
        return EnvChecked(errors, config, NoMemo);
      }
      match host.versionProbe {
        case ProbeFailed(msg) =>
          outcome := EnvChecked([AgentError(FgVersionCheckFailed, Some(ProbeFailureDescription(msg, config)))], config, NoMemo);
        case ProbeReported(v) =>
          outcome := EnvChecked([], config, VersionMemo(v, AircraftSvnBaseUrl(v)));
        case ProbeUnparsable(x) =>
          outcome := EnvRaised(x, config);
      }
    }

    /** The `next_*` values of `_check_status`. */
    function Initial(): (n: Next)
      reads this
      ensures n.status == info.status && n.fgProcess == fgProcess
    {
      Next(info.status, info.os, info.osString, info.errors, fgProcess)
    }

    /** The decision a branch reached, given its `next_*` values. */
    function Decided(n: Next): Decision
      reads this
    {
      Decision(n.status, n.os, n.osString, n.errors, State().(fgProcess := n.fgProcess))
    }

    /** The SCANNING branch, lines 104-113. */
    method ScanningTick(host: Host) returns (completed: bool, next: Next, env: EnvOutcome)
      requires info.status == Scanning
      modifies this
      ensures env == Scan(old(State()), host)
      ensures completed == ScanningStep(old(State()), host, env).Some?
      ensures completed ==> ScanningStep(old(State()), host, env) == Some(Decided(next))
      ensures !completed ==> State() == old(State()).(config := env.config)
    {
      var (os, osString) := AgentUtil.DiscoverOs(host.system);
      ghost var before := State();
      env := CheckEnvironment(os, host);
      if env.EnvRaised? {
        return false, Initial().(os := Some(os), osString := Some(osString)), env;
      }
      next := RecordScan(host, env, before);
      completed := true;
    }

    /** Lines 105-113: the outcome of a passed environment check goes into
        the context and the `next_*` values. */
    method RecordScan(host: Host, env: EnvOutcome, ghost before: AgentState) returns (next: Next)
      requires env.EnvChecked? && before.info == info && State() == before.(config := env.config)
      modifies this
      ensures ScanningStep(before, host, env) == Some(Decided(next))
    {
      var (os, osString) := AgentUtil.DiscoverOs(host.system);
      next := Initial().(os := Some(os), osString := Some(osString), errors := Some(env.errors));
      if env.memo.VersionMemo? {
        version := Some(env.memo.version);
        aircraftSvnBaseUrl := Some(env.memo.aircraftSvnBaseUrl);
      }
      next := next.(status := if |env.errors| == 0 then Ready else Error);
    }

    /** The INSTALLING_AIRCRAFT branch, lines 115-169. */
    method InstallingTick(host: Host, inp: TickInputs) returns (completed: bool, next: Next)
      requires info.status == InstallingAircraft
      ensures completed == InstallingStep(State(), host, inp).Some?
      ensures completed ==> InstallingStep(State(), host, inp) == Some(Decided(next))
    {
      next := Initial();
      if !stateMeta.SvnName? || Aircraft !in config.paths {
        return false, next;
      }
      var name := stateMeta.svnName;
      var expected := Paths.JoinPath(WindowsHost(host), config.paths[Aircraft].text, name);
      if Exists(host, expected) {
        match inp.svn {
          case SvnSucceeded =>
            next := next.(status := Ready);
          case SvnFailed(_) =>
            next := next.(status := Error,
              errors := Some([AgentError(AircraftNotInVersionControl, Some(NotInVersionControlDescription(name, expected)))]));
          case SvnNotFound =>
            return false, next;
        }
      } else {
        if aircraftSvnBaseUrl.None? {
          return false, next;
        }
        match inp.svn {
          case SvnFailed(msg) =>
            next := next.(status := Error, errors := Some([AgentError(AircraftInstallFailed, Some(msg))]));
          case SvnNotFound =>
            next := next.(status := Error, errors := Some([AgentError(SvnNotInstalled, Some(SvnNotInstalledDescription(name)))]));
          case SvnSucceeded =>
            next := next.(status := Ready);
        }
      }
      completed := true;
    }

    /** The FGFS_START_REQUESTED branch, lines 171-190. */
    method StartRequestedTick(inp: TickInputs) returns (completed: bool, next: Next)
      requires info.status == FgfsStartRequested
      modifies this
      ensures completed == StartRequestedStep(old(State()), inp).Some?
      ensures completed ==> StartRequestedStep(old(State()), inp) == Some(Decided(next))
      ensures !completed ==> State() == old(State())
    {
      next := Initial();
      if !stateMeta.Args? || inp.spawnedPid.None? {
        return false, next;
      }
      var args := [PathText(config, Fgfs)] + stateMeta.args;
      next := next.(fgProcess := Some(Process(inp.spawnedPid.value, args, false)));
      stateMeta := StartedAt(inp.now);
      next := next.(status := FgfsStarting);
      completed := true;
    }

    /** The FGFS_STARTING branch, lines 192-195, deciding on the whole
        elapsed time (`StartupElapsed`) rather than line 194's
        `timedelta.seconds` (`StartupElapsedAsWritten`). */
    method StartingTick(inp: TickInputs) returns (completed: bool, next: Next)
      requires info.status == FgfsStarting
      ensures completed == StartingStep(State(), inp).Some?
      ensures completed ==> StartingStep(State(), inp) == Some(Decided(next))
    {
      next := Initial();
      if !stateMeta.StartedAt? {
        return false, next;
      }
      if StartupElapsed(inp.now, stateMeta.time, config.fgfsStartupTime) {
        next := next.(status := FgfsRunning);
      }
      completed := true;
    }

    /** The FGFS_RUNNING branch, lines 197-218. */
    method RunningTick(inp: TickInputs) returns (completed: bool, next: Next)
      requires info.status == FgfsRunning
      ensures completed == RunningStep(State(), inp).Some?
      ensures completed ==> RunningStep(State(), inp) == Some(Decided(next))
    {
      next := Initial();
      if fgProcess.None? {
        return false, next;
      }
      if inp.poll.Some? {
        var rc := inp.poll.value;
        if rc == 0 {
          next := next.(status := Ready);
        } else {
          var msg := AbnormalExitDescription(rc);
          next := next.(errors := Some([AgentError(FgfsAbnormalExit, Some(msg))]), status := Error);
        }
        next := next.(fgProcess := None);
      }
      completed := true;
    }

    /** The FGFS_STOP_REQUESTED branch, lines 220-223. */
    method StopRequestedTick() returns (completed: bool, next: Next)
      requires info.status == FgfsStopRequested
      modifies this
      ensures completed == StopRequestedStep(old(State())).Some?
      ensures completed ==> StopRequestedStep(old(State())) == Some(Decided(next).(context := State().(fgProcess := next.fgProcess)))
      ensures !completed ==> State() == old(State())
      ensures completed ==> State() == old(State()).(fgProcess := None)
    {
      next := Initial();
      if fgProcess.None? {
        return false, next;
      }
      // `terminate()` acts on the object `next_fg_process` also refers to.
      next := next.(fgProcess := Some(fgProcess.value.(terminated := true)));
      fgProcess := None;
      next := next.(status := Ready);
      completed := true;
    }

    /** `_check_status()`: one tick of the state machine. `completed` is
        false when an exception escaped, and then the context is as the
        branch left it (`Escaped`). `rearmed` says whether the tick started
        the Timer for the next one, which only the last statement of a
        completed tick of a running agent does: after an escape, or on a
        stopped agent, no further tick is ever scheduled. */
    method CheckStatus(host: Host, inp: TickInputs) returns (completed: bool, rearmed: bool)
      modifies this
      ensures var env := Scan(old(State()), host);
        var r := Tick(old(State()), env, host, inp);
        completed == r.Some? && State() == if r.Some? then r.value else Escaped(old(State()), env)
      ensures rearmed <==> old(running) && completed
    {
      if !running {
        return true, false;
      }
      TickRunsBranch(State(), Scan(State(), host), host, inp);
      var next := Initial();
      completed := true;
      match info.status {
        case Scanning =>
          var env;
          completed, next, env := ScanningTick(host);
        case InstallingAircraft => completed, next := InstallingTick(host, inp);
        case FgfsStartRequested => completed, next := StartRequestedTick(inp);
        case FgfsStarting => completed, next := StartingTick(inp);
        case FgfsRunning => completed, next := RunningTick(inp);
        case FgfsStopRequested => completed, next := StopRequestedTick();
        case Error =>
        case Ready =>
      }
      if !completed {
        return false, false;
      }
      info := Info(next.status, next.os, next.osString, Some(inp.now), next.errors, info.aircraft, Some(uuid));
      fgProcess := next.fgProcess;
      rearmed := true;
    }
  }
}
