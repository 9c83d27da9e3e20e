/** OS detection and FlightGear install discovery of fgo/agent/util.py. The
    Windows registry and `platform.system()` are inputs. */
module AgentUtil {
  import opened Wrappers
  import opened AgentTypes

  /** `discover_os()` given what `platform.system()` returned. */
  function DiscoverOs(system: string): (r: (OS, string))
    ensures r.1 == system
    ensures r.0 == Windows <==> system == "Windows"
    ensures r.0 == Linux <==> system == "Linux"
    ensures r.0 == Darwin <==> system == "Darwin"
    ensures r.0 == Unknown <==> system != "Windows" && system != "Linux" && system != "Darwin"
  {
    if system == "Windows" then (Windows, system)
    else if system == "Linux" then (Linux, system)
    else if system == "Darwin" then (Darwin, system)
    else (Unknown, system)
  }

  /** One value of an uninstall key: `winreg.EnumValue` gives name and data. */
  datatype RegistryValue = RegistryValue(name: string, data: string)

  /** The values of one subkey of `...\CurrentVersion\Uninstall`, in
      enumeration order: `EnumValue(handle, i)` raises `OSError` once `i`
      reaches the number of values. */
  type UninstallKey = seq<RegistryValue>

  /** What the scan remembers across values and keys: whether the last
      `DisplayName` seen starts with "FlightGear", and the last `InstallLocation`. */
  datatype ScanState = ScanState(foundFgfs: bool, installLocation: Option<string>)

  /** `re.search(r'^FlightGear.*', s)`: the string starts with "FlightGear". */
  predicate IsFlightGearName(s: string) {
    |s| >= 10 && s[..10] == "FlightGear"
  }

  /** The effect of one value on the scan state. */
  function ScanValue(st: ScanState, v: RegistryValue): ScanState {
    if v.name == "DisplayName" then st.(foundFgfs := IsFlightGearName(v.data))
    else if v.name == "InstallLocation" then st.(installLocation := Some(v.data))
    else st
  }

  /** The scan state after enumerating `values` in order. */
  function ScanValues(st: ScanState, values: seq<RegistryValue>): ScanState
    decreases |values|
  {
    if values == [] then st else ScanValues(ScanValue(st, values[0]), values[1..])
  }

  /** The loop's exit test `found_fgfs and install_location`. */
  predicate Hit(st: ScanState) {
    st.foundFgfs && st.installLocation.Some? && st.installLocation.value != ""
  }

  /** The result of scanning `keys` in order from `st`: the install location
      when a key ends in a hit, else the last one seen. */
  function ScanKeys(st: ScanState, keys: seq<UninstallKey>): Option<string>
    decreases |keys|
  {
    if keys == [] then st.installLocation
    else
      var st' := ScanValues(st, keys[0]);
      if Hit(st') then st'.installLocation else ScanKeys(st', keys[1..])
  }

  /** What `locate_fgfs_in_windows_registry` returns for a registry. */
  function RegistryInstallLocation(registry: seq<UninstallKey>): Option<string> {
    ScanKeys(ScanState(false, None), registry)
  }

  lemma ScanValuesSnoc(st: ScanState, values: seq<RegistryValue>, i: nat)
    requires i < |values|
    ensures ScanValues(st, values[..i + 1]) == ScanValue(ScanValues(st, values[..i]), values[i])
    decreases i
  {
    if i > 0 {
      assert values[..i + 1][1..] == values[1..][..i];
      assert values[..i][1..] == values[1..][..i - 1];
      ScanValuesSnoc(ScanValue(st, values[0]), values[1..], i - 1);
    }
  }

  /** `locate_fgfs_in_windows_registry()`: enumerate the uninstall subkeys
      until `EnumKey` raises, then scan each subkey's values until
      `EnumValue` raises, stopping after the first subkey that leaves both a
      FlightGear display name and an install location. */
  method LocateFgfsInWindowsRegistry(registry: seq<UninstallKey>) returns (installLocation: Option<string>)
    ensures installLocation == RegistryInstallLocation(registry)
  {
    var uninstallKeys: seq<UninstallKey> := [];
    var i := 0;
    var contEnum := true;
    while contEnum
      invariant 0 <= i <= |registry|
      invariant uninstallKeys == registry[..i]
      invariant !contEnum ==> i == |registry|
      decreases |registry| - i, contEnum
    {
      if i < |registry| {
        uninstallKeys := uninstallKeys + [registry[i]];
        i := i + 1;
      } else {
        contEnum := false;
      }
    }
    assert uninstallKeys == registry;

    var st := ScanState(false, None);
    var k := 0;
    while k < |uninstallKeys|
      invariant 0 <= k <= |uninstallKeys|
      invariant ScanKeys(st, uninstallKeys[k..]) == RegistryInstallLocation(registry)
      decreases |uninstallKeys| - k
    {
      var values := uninstallKeys[k];
      var st0 := st;
      contEnum := true;
      var j := 0;
      while contEnum
        invariant 0 <= j <= |values|
        invariant st == ScanValues(st0, values[..j])
        invariant !contEnum ==> j == |values|
        decreases |values| - j, contEnum
      {
        if j < |values| {
          ScanValuesSnoc(st0, values, j);
          var v := values[j];
          if v.name == "DisplayName" {
            st := st.(foundFgfs := IsFlightGearName(v.data));
          } else if v.name == "InstallLocation" {
            st := st.(installLocation := Some(v.data));
          }
          j := j + 1;
        } else {
          contEnum := false;
        }
      }
      assert values[..j] == values;
      if st.foundFgfs && st.installLocation.Some? && st.installLocation.value != "" {
        break;
      }
      k := k + 1;
    }
    installLocation := st.installLocation;
  }

  /** `windows_find_fgroot()`: the data directory under the install location. */
  function WindowsFindFgroot(registry: seq<UninstallKey>): (r: Option<string>)
    ensures r.Some? <==> RegistryInstallLocation(registry).Some? && RegistryInstallLocation(registry).value != ""
    ensures r.Some? ==> r.value == RegistryInstallLocation(registry).value + "data\\"
  {
    match RegistryInstallLocation(registry)
    case Some(loc) => if loc != "" then Some(loc + "data\\") else None
    case None => None
  }

  /** `linux_find_fgroot()` */
  function LinuxFindFgroot(): Option<string> {
    Some("/usr/share/games/flightgear/")
  }

  /** `darwin_find_fgroot()` */
  function DarwinFindFgroot(): Option<string> {
    Some("/Applications/FlightGear.app/Contents/Resources/data/")
  }

  /** A key whose display name is FlightGear and which has an install location
      ends the scan with that location, whatever follows. */
  lemma {:induction false} FlightGearKeyIsFound(before: seq<UninstallKey>, name: string, loc: string, after: seq<UninstallKey>)
    requires IsFlightGearName(name) && loc != ""
    requires forall key :: key in before ==> key == []
    ensures RegistryInstallLocation(before + [[RegistryValue("DisplayName", name), RegistryValue("InstallLocation", loc)]] + after) == Some(loc)
  {
    var fg := [RegistryValue("DisplayName", name), RegistryValue("InstallLocation", loc)];
    EmptyKeysKeepState(ScanState(false, None), before, [fg] + after);
    assert before + [fg] + after == before + ([fg] + after);
    var st1 := ScanValue(ScanState(false, None), fg[0]);
    assert st1 == ScanState(true, None);
    assert fg[1..][1..] == [];
    assert ScanValues(ScanState(false, None), fg) == ScanValues(st1, fg[1..]) == ScanState(true, Some(loc));
    assert ([fg] + after)[0] == fg;
  }

  lemma {:induction false} EmptyKeysKeepState(st: ScanState, before: seq<UninstallKey>, rest: seq<UninstallKey>)
    requires !Hit(st) && rest != []
    requires forall key :: key in before ==> key == []
    ensures ScanKeys(st, before + rest) == ScanKeys(st, rest)
  {
    if before != [] {
      assert before[0] in before;
      assert (before + rest)[0] == before[0] && before[0] == [];
      assert ScanValues(st, []) == st;
      assert (before + rest)[1..] == before[1..] + rest;
      assert forall key :: key in before[1..] ==> key in before;
      EmptyKeysKeepState(st, before[1..], rest);
    } else {
      assert before + rest == rest;
    }
  }

  /** The flags are not reset between keys: an install location of a key that
      is not FlightGear is returned when no later key is a hit. */
  lemma LeakedInstallLocation()
    ensures RegistryInstallLocation([[RegistryValue("DisplayName", "Notepad++"), RegistryValue("InstallLocation", "C:\\Npp\\")]])
      == Some("C:\\Npp\\")
  {
  }
}
