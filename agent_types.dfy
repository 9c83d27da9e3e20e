/** The agent's status, OS, error and version types, as the state machine in
    fgo/agent/agent.py and the mutations in fgo/gql/mutations.py use them. */
module AgentTypes {
  import opened Wrappers
  import PyValues

  /** The per-node status the tick advances. */
  datatype Status =
    | Scanning
    | Ready
    | Error
    | InstallingAircraft
    | FgfsStartRequested
    | FgfsStarting
    | FgfsRunning
    | FgfsStopRequested
  {
    /** The enum member's name. */
    function Name(): string {
      match this
      case Scanning => "SCANNING"
      case Ready => "READY"
      case Error => "ERROR"
      case InstallingAircraft => "INSTALLING_AIRCRAFT"
      case FgfsStartRequested => "FGFS_START_REQUESTED"
      case FgfsStarting => "FGFS_STARTING"
      case FgfsRunning => "FGFS_RUNNING"
      case FgfsStopRequested => "FGFS_STOP_REQUESTED"
    }
  }

  datatype OS = Windows | Linux | Darwin | Unknown {
    /** The prefix of the per-OS finder names (`windows_find_fgroot`, ...). */
    function LowerName(): string {
      match this
      case Windows => "windows"
      case Linux => "linux"
      case Darwin => "darwin"
      case Unknown => "unknown"
    }
  }

  /** The five configured paths, named by the selector `_check_path_set_and_exists` takes. */
  datatype PathKind = Fgfs | Fgroot | Fghome | Aircraft | Terrasync {
    function Selector(): string {
      match this
      case Fgfs => "fgfs"
      case Fgroot => "fgroot"
      case Fghome => "fghome"
      case Aircraft => "aircraft"
      case Terrasync => "terrasync"
    }

    function UpperSelector(): string {
      match this
      case Fgfs => "FGFS"
      case Fgroot => "FGROOT"
      case Fghome => "FGHOME"
      case Aircraft => "AIRCRAFT"
      case Terrasync => "TERRASYNC"
    }

    /** The config attribute holding the path: `f"{selector}_path"`. */
    function ConfigKey(): string {
      Selector() + "_path"
    }
  }

  /** The value of a `*_path` attribute: the str the config file or a
      `setConfig` mutation gave it, or the `pathlib.Path` a finder built, as
      `str()` writes it. Only a Path has `glob`. */
  datatype ConfigPath = StrPath(text: string) | PathObject(text: string)

  /** The error codes the agent reports. */
  datatype ErrorCode =
    | PathNotSet(kind: PathKind)
    | PathNotExist(kind: PathKind)
    | AircraftNotInVersionControl
    | AircraftInstallFailed
    | SvnNotInstalled
    | FgfsAbnormalExit
    | FgVersionCheckFailed
    | ProtocolFileMissing
    | ProtocolFileHashMismatch
  {
    /** The enum member's name on the wire. */
    function Name(): string {
      match this
      case PathNotSet(k) => k.UpperSelector() + "_PATH_NOT_SET"
      case PathNotExist(k) => k.UpperSelector() + "_PATH_NOT_EXIST"
      case AircraftNotInVersionControl => "AIRCRAFT_NOT_IN_VERSION_CONTROL"
      case AircraftInstallFailed => "AIRCRAFT_INSTALL_FAILED"
      case SvnNotInstalled => "SVN_NOT_INSTALLED"
      case FgfsAbnormalExit => "FGFS_ABNORMAL_EXIT"
      case FgVersionCheckFailed => "FG_VERSION_CHECK_FAILED"
      case ProtocolFileMissing => "PROTOCOL_FILE_MISSING"
      case ProtocolFileHashMismatch => "PROTOCOL_FILE_HASH_MISMATCH"
    }
  }

  /** `types.Error`: a code and an optional description. */
  datatype AgentError = AgentError(code: ErrorCode, description: Option<string>)

  datatype Version = Version(major: int, minor: int, patch: int)

  /** The path error codes are looked up by name, `f'{selector.upper()}_PATH_NOT_SET'`,
      so each selector yields the code spelled after it. */
  lemma PathCodeNames(k: PathKind)
    ensures PathNotSet(k).Name() == PyValues.Upper(k.Selector()) + "_PATH_NOT_SET"
    ensures PathNotExist(k).Name() == PyValues.Upper(k.Selector()) + "_PATH_NOT_EXIST"
  {
  }
}
