/** The director's view of one agent, `RegisteredAgent` of
    fgo/director/registered_agent.py: its status and info as last polled,
    its connection fail count, the per-agent launch options, and the
    update and save dicts that carry it between threads and to disk.

    The agent's reported `os` and `errors` live inside `info_hash['info']`.
    GraphQL calls are left out; what a connection attempt and a
    set-directories mutation return are parameters. */
module RegisteredAgents {
  import opened Wrappers
  import opened Dicts
  import opened PyValues
  import Dataclasses
  import CAS = CustomAgentSettings
  import AgentDirectorySettings
  import Queries

  /** `RegisteredAgent.FAIL_LIMIT` */
  const FailLimit: int := 3

  /** All the fields of a `RegisteredAgent`. */
  datatype Agent = Agent(
    host: Value,
    infoHash: Dict<Value>,
    status: Value,
    port: Value,
    online: Value,
    uuid: Value,
    zeroconfName: Value,
    customSettings: CAS.Settings,
    failCount: int,
    selected: Value,
    aiScenarios: Value,
    version: Value,
    directories: Option<AgentDirectorySettings.Directories>)

  /** `RegisteredAgent(host)` */
  function Fresh(host: Value): Agent {
    Agent(host, [], VNone, VNone, VBool(false), VNone, VNone, CAS.Defaults(), 0, VBool(true), VList([]), VNone, None)
  }

  /** `failed` */
  predicate Failed(a: Agent) {
    a.failCount >= FailLimit
  }

  // ---------------------------------------------------------------------
  // info_hash

  /** `info_hash['info']` is absent or a dict; `_update_info_hash` keeps it
      so. */
  ghost predicate InfoIsDict(h: Dict<Value>) {
    Get(h, "info").None? || Get(h, "info").value.VDict?
  }

  /** `self.info_hash.get('info', {}).get(key, default)` */
  function InfoField(h: Dict<Value>, key: string, default: Value): (r: Result<Value>)
    ensures r.Raised? <==> !InfoIsDict(h)
  {
    var info := Get(h, "info").GetOr(VDict([]));
    if info.VDict? then Ok(Get(info.entries, key).GetOr(default)) else Raised(AttributeError("get"))
  }

  /** The `os` property. */
  function Os(a: Agent): Result<Value> {
    InfoField(a.infoHash, "os", VNone)
  }

  /** The `errors` property. */
  function Errors(a: Agent): Result<Value> {
    InfoField(a.infoHash, "errors", VList([]))
  }

  /** `_update_info_hash`: the inner dict (a fresh `{key: None}` when there
      is none) gets `key = value` and is stored back under `'info'`. Item
      assignment on anything but a dict raises TypeError. */
  function InfoHashUpdated(h: Dict<Value>, key: string, value: Value): (r: (Dict<Value>, Option<Exception>))
    ensures r.1.None? <==> InfoIsDict(h)
    ensures r.1.Some? ==> r.0 == h
  {
    var info := Get(h, "info").GetOr(VDict([(key, VNone)]));
    if info.VDict? then (Put(h, "info", VDict(Put(info.entries, key, value))), None) else (h, Some(TypeError("item assignment")))
  }

  /** After `_update_info_hash(key, value)`, `info[key]` is the value, every
      other inner key reads as before, every other outer key is untouched,
      and the inner dict is still a dict. */
  lemma UpdateInfoHashSets(h: Dict<Value>, key: string, value: Value, k: string, default: Value, outer: string)
    requires InfoIsDict(h)
    ensures InfoIsDict(InfoHashUpdated(h, key, value).0)
    ensures InfoField(InfoHashUpdated(h, key, value).0, k, default)
         == if k == key then Ok(value) else InfoField(h, k, default)
    ensures outer != "info" ==> Get(InfoHashUpdated(h, key, value).0, outer) == Get(h, outer)
  {
    var info := Get(h, "info").GetOr(VDict([(key, VNone)]));
    GetPut(h, "info", VDict(Put(info.entries, key, value)), "info");
    GetPut(h, "info", VDict(Put(info.entries, key, value)), outer);
    GetPut(info.entries, key, value, k);
  }

  // ---------------------------------------------------------------------
  // The update dict

  /** The keys of `to_update_dict`, in the order it stores them. */
  const UpdateKeys: seq<string> := [
    "status", "fail_count", "online", "uuid", "host", "zeroconf_name", "port",
    "errors", "os", "ai_scenarios", "version", "directories"]

  /** The dict `to_update_dict` builds, one field per key of `UpdateKeys`. */
  datatype Update = Update(
    status: Value,
    failCount: int,
    online: Value,
    uuid: Value,
    host: Value,
    zeroconfName: Value,
    port: Value,
    errors: Value,
    os: Value,
    aiScenarios: Value,
    version: Value,
    directories: Option<AgentDirectorySettings.Directories>)

  /** `to_update_dict`; reading `errors` and `os` raises when
      `info_hash['info']` is not a dict. */
  function ToUpdateDict(a: Agent): (r: Result<Update>)
    ensures r.Ok? <==> InfoIsDict(a.infoHash)
  {
    match Errors(a)
    case Raised(x) => Raised(x)
    case Ok(errors) =>
      match Os(a)
      case Raised(x) => Raised(x)
      case Ok(os) =>
        Ok(Update(a.status, a.failCount, a.online, a.uuid, a.host, a.zeroconfName, a.port,
                  errors, os, a.aiScenarios, a.version, a.directories))
  }

  /** `apply_update_dict`: the fields are assigned in the source's order, so
      an `os` setter that raises leaves `status`, `fail_count` and `online`
      already assigned. */
  function UpdateApplied(a: Agent, u: Update): (Agent, Option<Exception>) {
    var a1 := a.(status := u.status, failCount := u.failCount, online := u.online);
    var (h1, x1) := InfoHashUpdated(a1.infoHash, "os", u.os);
    if x1.Some? then (a1, x1)
    else
      var a2 := a1.(infoHash := h1, uuid := u.uuid, host := u.host, zeroconfName := u.zeroconfName, port := u.port);
      var (h2, x2) := InfoHashUpdated(h1, "errors", u.errors);
      if x2.Some? then (a2, x2)
      else (a2.(infoHash := h2, aiScenarios := u.aiScenarios, version := u.version, directories := u.directories), None)
  }

  /** `x.apply_update_dict(y.to_update_dict())` gives `x` the twelve synced
      fields of `y`; `x` keeps its own selection, custom settings and any
      other info. */
  lemma UpdateRoundTrip(x: Agent, y: Agent)
    requires InfoIsDict(x.infoHash) && InfoIsDict(y.infoHash)
    ensures ToUpdateDict(y).Ok?
    ensures UpdateApplied(x, ToUpdateDict(y).value).1 == None
    ensures
      var r := UpdateApplied(x, ToUpdateDict(y).value).0;
      r.status == y.status && r.failCount == y.failCount && r.online == y.online &&
      r.uuid == y.uuid && r.host == y.host && r.zeroconfName == y.zeroconfName && r.port == y.port &&
      Errors(r) == Errors(y) && Os(r) == Os(y) &&
      r.aiScenarios == y.aiScenarios && r.version == y.version && r.directories == y.directories &&
      r.selected == x.selected && r.customSettings == x.customSettings && InfoIsDict(r.infoHash)
  {
    var u := ToUpdateDict(y).value;
    var h1 := InfoHashUpdated(x.infoHash, "os", u.os).0;
    UpdateInfoHashSets(x.infoHash, "os", u.os, "os", VNone, "info");
    UpdateInfoHashSets(h1, "errors", u.errors, "os", VNone, "info");
    UpdateInfoHashSets(h1, "errors", u.errors, "errors", VList([]), "info");
  }

  // ---------------------------------------------------------------------
  // The save dict

  /** The keys of `to_dict`, in order: the update keys left once
      `fail_count`, `status`, `online`, `errors`, `ai_scenarios` and
      `directories` are popped as runtime data, then the three it adds. */
  const SavedKeys: seq<string> := [
    "uuid", "host", "zeroconf_name", "port", "os", "version",
    "hostname", "selected", "custom_settings"]

  /** `to_dict` */
  function ToDict(a: Agent): (r: Result<Dict<Value>>)
    ensures r.Ok? ==> Keys(r.value) == SavedKeys
  {
    match ToUpdateDict(a)
    case Raised(x) => Raised(x)
    case Ok(u) =>
      Ok(Dataclasses.Instance(SavedKeys, [u.uuid, u.host, u.zeroconfName, u.port, u.os, u.version,
                                          a.host, a.selected, VDict(CAS.ToUpdateDict(a.customSettings))]))
  }

  /** `dictionary[key]` */
  function Item(d: Dict<Value>, key: string): (r: Result<Value>)
    ensures r.Ok? <==> key in Keys(d)
  {
    match Get(d, key)
    case Some(v) => Ok(v)
    case None => Raised(KeyError(key))
  }

  /** `from_dict`: a fresh agent for `hostname` with the saved selection,
      uuid, zeroconf name, port and os, and the saved custom settings
      applied to fresh ones. A missing key raises KeyError, in the order the
      source reads them. */
  function FromDict(d: Dict<Value>): Result<Agent> {
    match Item(d, "hostname")
    case Raised(x) => Raised(x)
    case Ok(hostname) =>
    match Item(d, "selected")
    case Raised(x) => Raised(x)
    case Ok(selected) =>
    match Item(d, "uuid")
    case Raised(x) => Raised(x)
    case Ok(uuid) =>
    match Item(d, "zeroconf_name")
    case Raised(x) => Raised(x)
    case Ok(zeroconfName) =>
    match Item(d, "port")
    case Raised(x) => Raised(x)
    case Ok(port) =>
    match Item(d, "os")
    case Raised(x) => Raised(x)
    case Ok(os) =>
    match Item(d, "custom_settings")
    case Raised(x) => Raised(x)
    case Ok(VDict(settings)) =>
      var a := Fresh(hostname).(selected := selected, uuid := uuid, zeroconfName := zeroconfName, port := port);
      Ok(a.(infoHash := InfoHashUpdated([], "os", os).0,
            customSettings := CAS.ApplyUpdateDict(a.customSettings, settings)))
    case Ok(_) => Raised(AttributeError("get"))
  }

  /** Looking up a saved key finds the value stored for it. */
  lemma SavedItem(values: seq<Value>, i: nat)
    requires |values| == |SavedKeys| && i < |SavedKeys|
    ensures Item(Dataclasses.Instance(SavedKeys, values), SavedKeys[i]) == Ok(values[i])
  {
    var d := Dataclasses.Instance(SavedKeys, values);
    assert Distinct(SavedKeys);
    Dataclasses.DistinctNames(d);
    GetAt(d, i);
  }

  /** The keys `from_dict` reads from a dict with exactly the saved keys. */
  lemma SavedItems(values: seq<Value>)
    requires |values| == |SavedKeys|
    ensures var d := Dataclasses.Instance(SavedKeys, values);
      Item(d, "uuid") == Ok(values[0]) && Item(d, "zeroconf_name") == Ok(values[2]) &&
      Item(d, "port") == Ok(values[3]) && Item(d, "os") == Ok(values[4]) &&
      Item(d, "hostname") == Ok(values[6]) && Item(d, "selected") == Ok(values[7]) &&
      Item(d, "custom_settings") == Ok(values[8])
  {
    SavedItem(values, 0);
    SavedItem(values, 2);
    SavedItem(values, 3);
    SavedItem(values, 4);
    SavedItem(values, 6);
    SavedItem(values, 7);
    SavedItem(values, 8);
  }

  /** `from_dict` of a dict with exactly the saved keys reads each of them
      from its place. */
  lemma FromSaved(values: seq<Value>)
    requires |values| == |SavedKeys| && values[8].VDict?
    ensures FromDict(Dataclasses.Instance(SavedKeys, values))
         == Ok(Fresh(values[6]).(selected := values[7], uuid := values[0], zeroconfName := values[2], port := values[3],
                                 infoHash := InfoHashUpdated([], "os", values[4]).0,
                                 customSettings := CAS.ApplyUpdateDict(CAS.Defaults(), values[8].entries)))
  {
    SavedItems(values);
  }

  /** A fresh agent whose `os` was just set reports that os and no errors. */
  lemma FreshOs(os: Value)
    ensures var h := InfoHashUpdated([], "os", os).0;
      InfoIsDict(h) && InfoField(h, "os", VNone) == Ok(os) && InfoField(h, "errors", VList([])) == Ok(VList([]))
  {
    UpdateInfoHashSets([], "os", os, "os", VNone, "info");
    UpdateInfoHashSets([], "os", os, "errors", VList([]), "info");
  }

  /** `from_dict(a.to_dict())` restores the host, selection, uuid, zeroconf
      name, port, os and exposed custom settings; the runtime fields, the
      errors and the hidden custom settings return to their defaults, and
      so does `version`, which is saved but not read back. */
  lemma SaveRoundTrip(a: Agent)
    requires InfoIsDict(a.infoHash)
    ensures ToDict(a).Ok? && FromDict(ToDict(a).value).Ok?
    ensures
      var b := FromDict(ToDict(a).value).value;
      b.host == a.host && b.selected == a.selected && b.uuid == a.uuid &&
      b.zeroconfName == a.zeroconfName && b.port == a.port && Os(b) == Os(a) &&
      b.customSettings == a.customSettings.(role := VNone, masterIpAddress := VNone, clientIpAddresses := VList([])) &&
      b.status == VNone && b.failCount == 0 && b.online == VBool(false) && Errors(b) == Ok(VList([])) &&
      b.aiScenarios == VList([]) && b.version == VNone && b.directories == None
  {
    var u := ToUpdateDict(a).value;
    var values := [u.uuid, u.host, u.zeroconfName, u.port, u.os, u.version,
                   a.host, a.selected, VDict(CAS.ToUpdateDict(a.customSettings))];
    FromSaved(values);
    CAS.UpdateRoundTrip(CAS.Defaults(), a.customSettings);
    FreshOs(u.os);
  }

  // ---------------------------------------------------------------------
  // Connecting

  /** What an HTTP GET of the agent's GraphQL endpoint does: answer, fail to
      connect, or answer with an error status. */
  datatype Reachability = Reachable | Unreachable | ErrorStatus

  /** `client()`: no attempt once the fail count equals the limit; a failed
      connection counts one more failure; an error status raises. The
      result is whether a client was returned. */
  function Connect(a: Agent, reach: Reachability): (Agent, Result<bool>) {
    if a.failCount == FailLimit then (a, Ok(false))
    else
      match reach
      case Reachable => (a, Ok(true))
      case Unreachable => (a.(failCount := a.failCount + 1), Ok(false))
      case ErrorStatus => (a, Raised(HTTPError))
  }

  /** At the limit no connection is attempted and nothing changes; below it
      a failure adds exactly one to the count and an error status raises
      HTTPError; only a failure changes the agent. */
  lemma ClientCountsFailures(a: Agent, reach: Reachability)
    ensures a.failCount == FailLimit ==> Connect(a, reach) == (a, Ok(false))
    ensures a.failCount != FailLimit && reach == Unreachable ==>
      Connect(a, reach) == (a.(failCount := a.failCount + 1), Ok(false))
    ensures a.failCount != FailLimit && reach == ErrorStatus ==> Connect(a, reach) == (a, Raised(HTTPError))
    ensures reach != Unreachable ==> Connect(a, reach).0 == a
    ensures Connect(a, reach).1 == Ok(true) <==> a.failCount != FailLimit && reach == Reachable
  {
  }

  /** The agent after a series of `client()` calls. */
  function Attempts(a: Agent, reaches: seq<Reachability>): Agent
    decreases |reaches|
  {
    if reaches == [] then a else Attempts(Connect(a, reaches[0]).0, reaches[1..])
  }

  /** A fail count that starts within the limit stays within it, and an
      agent that has failed stays failed. */
  lemma {:induction false} AttemptsStayWithinLimit(a: Agent, reaches: seq<Reachability>)
    requires 0 <= a.failCount <= FailLimit
    decreases |reaches|
    ensures a.failCount <= Attempts(a, reaches).failCount <= FailLimit
    ensures Failed(a) ==> Failed(Attempts(a, reaches))
  {
    if reaches != [] {
      AttemptsStayWithinLimit(Connect(a, reaches[0]).0, reaches[1..]);
    }
  }

  /** From a count of 0, `n` unreachable attempts leave the count at
      `min(n, FAIL_LIMIT)`: the agent is failed after three. */
  lemma {:induction false} UnreachableAttempts(a: Agent, reaches: seq<Reachability>)
    requires 0 <= a.failCount <= FailLimit
    requires forall i :: 0 <= i < |reaches| ==> reaches[i] == Unreachable
    decreases |reaches|
    ensures Attempts(a, reaches).failCount == if a.failCount + |reaches| < FailLimit then a.failCount + |reaches| else FailLimit
  {
    if reaches != [] {
      UnreachableAttempts(Connect(a, reaches[0]).0, reaches[1..]);
    }
  }

  // ---------------------------------------------------------------------
  // apply_directory_changes

  /** The aliases of the set-directories mutation, in the order their
      results are checked. */
  const Aliases: seq<string> := Queries.SetConfigAliases

  /** The line `apply_directory_changes` adds for an alias whose result is
      null. */
  function Complaint(alias: string): string {
    "Unable to set " + alias + "\n"
  }

  /** The checks of `apply_directory_changes` on the mutation's result over
      `aliases`: a null result clears `ok` and adds one line to the error
      string; a missing alias raises KeyError. */
  function Report(response: Dict<Value>, aliases: seq<string>): Result<(bool, string)> {
    if aliases == [] then Ok((true, ""))
    else
      match Get(response, aliases[0])
      case None => Raised(KeyError(aliases[0]))
      case Some(v) =>
        match Report(response, aliases[1..])
        case Raised(x) => Raised(x)
        case Ok(rest) =>
          Ok((v != VNone && rest.0, if v == VNone then Complaint(aliases[0]) + rest.1 else rest.1))
  }

  /** `ok` is False exactly when some result is null, and exactly then is
      the error string non-empty. */
  lemma {:induction false} ReportOkIffNoNull(response: Dict<Value>, aliases: seq<string>)
    requires Report(response, aliases).Ok?
    ensures Report(response, aliases).value.0 <==> forall a :: a in aliases ==> Get(response, a) != Some(VNone)
    ensures Report(response, aliases).value.0 <==> Report(response, aliases).value.1 == ""
  {
    if aliases != [] {
      var v := Item(response, aliases[0]).value;
      assert Get(response, aliases[0]) == Some(v);
      ReportOkIffNoNull(response, aliases[1..]);
      assert forall a :: a in aliases <==> a == aliases[0] || a in aliases[1..];
      assert v == VNone ==> |Report(response, aliases).value.1| >= |Complaint(aliases[0])| > 0;
    }
  }

  /** The outcome of the remaining checks, after earlier ones left `ok`
      and `prefix`. */
  function Combine(ok: bool, prefix: string, rest: Result<(bool, string)>): Result<(bool, string)> {
    match rest
    case Raised(x) => Raised(x)
    case Ok(r) => Ok((ok && r.0, prefix + r.1))
  }

  /** The check of `aliases[i]` in `apply_directory_changes`, as one step
      of `Report`. */
  lemma ReportStep(response: Dict<Value>, aliases: seq<string>, i: nat, ok: bool, prefix: string)
    requires i < |aliases|
    ensures Combine(ok, prefix, Report(response, aliases[i..]))
         == match Item(response, aliases[i])
            case Raised(x) => Raised(x)
            case Ok(v) =>
              Combine(ok && v != VNone, if v == VNone then prefix + Complaint(aliases[i]) else prefix,
                      Report(response, aliases[i + 1..]))
  {
    var tail := aliases[i..];
    assert tail[0] == aliases[i] && tail[1..] == aliases[i + 1..];
    if Item(response, tail[0]).Ok? && Report(response, tail[1..]).Ok? {
      var rest := Report(response, tail[1..]).value.1;
      assert prefix + (Complaint(tail[0]) + rest) == (prefix + Complaint(tail[0])) + rest;
    }
  }

  /** No check is left after the last alias, and none made before the
      first. */
  lemma ReportEnds(response: Dict<Value>, aliases: seq<string>, ok: bool, prefix: string)
    ensures Combine(ok, prefix, Report(response, aliases[|aliases|..])) == Ok((ok, prefix))
    ensures Combine(true, "", Report(response, aliases[0..])) == Report(response, aliases)
  {
    assert aliases[0..] == aliases;
    assert aliases[|aliases|..] == [];
    assert prefix + "" == prefix;
    if Report(response, aliases).Ok? {
      var rest := Report(response, aliases).value.1;
      assert "" + rest == rest;
    }
  }

  /** `apply_directory_changes`: connect, build and run the mutation, check
      its five results (`response` is what the agent answers). Without a
      client the `execute` lookup raises AttributeError before the mutation
      is built; a directory that is neither None nor a string raises while
      it is built. */
  function DirectoryChangesApplied(a: Agent, reach: Reachability, dirs: AgentDirectorySettings.Directories,
                                   response: Dict<Value>): (Agent, Result<(bool, string)>) {
    var (a', client) := Connect(a, reach);
    match client
    case Raised(x) => (a', Raised(x))
    case Ok(connected) =>
      if !connected then (a', Raised(AttributeError("execute")))
      else
        match Queries.SetDirectoriesQuery(dirs)
        case Raised(x) => (a', Raised(x))
        case Ok(_) => (a', Report(response, Aliases))
  }

  /** One `if` of `apply_directory_changes`: the check of `aliases[i]`,
      after earlier checks left `ok` and `errorStr`. */
  method CheckAlias(response: Dict<Value>, aliases: seq<string>, i: nat, ok: bool, errorStr: string,
                    ghost outcome: Result<(bool, string)>)
    returns (r: Result<(bool, string)>)
    requires i < |aliases|
    requires Combine(ok, errorStr, Report(response, aliases[i..])) == outcome
    ensures r.Raised? ==> r == outcome
    ensures r.Ok? ==> Combine(r.value.0, r.value.1, Report(response, aliases[i + 1..])) == outcome
  {
    ReportStep(response, aliases, i, ok, errorStr);
    var v := Item(response, aliases[i]);
    if v.Raised? { return Raised(v.exception); }
    if v.value == VNone {
      r := Ok((false, errorStr + Complaint(aliases[i])));
    } else {
      r := Ok((ok, errorStr));
    }
  }

  /** The five checks of `apply_directory_changes` on the mutation's
      result, one per alias of the mutation (`aliases`). */
  method CheckResults(response: Dict<Value>, aliases: seq<string>) returns (r: Result<(bool, string)>)
    requires |aliases| == 5
    ensures r == Report(response, aliases)
  {
    ghost var outcome := Report(response, aliases);
    ReportEnds(response, aliases, true, "");
    r := CheckAlias(response, aliases, 0, true, "", outcome);
    if r.Raised? { return; }
    r := CheckAlias(response, aliases, 1, r.value.0, r.value.1, outcome);
    if r.Raised? { return; }
    r := CheckAlias(response, aliases, 2, r.value.0, r.value.1, outcome);
    if r.Raised? { return; }
    r := CheckAlias(response, aliases, 3, r.value.0, r.value.1, outcome);
    if r.Raised? { return; }
    r := CheckAlias(response, aliases, 4, r.value.0, r.value.1, outcome);
    if r.Raised? { return; }
    ReportEnds(response, aliases, r.value.0, r.value.1);
  }

  /** The agent of fgo/director/registered_agent.py, updated in place. */
  class RegisteredAgent {
    var host: Value
    var infoHash: Dict<Value>
    var status: Value
    var port: Value
    var online: Value
    var uuid: Value
    var zeroconfName: Value
    var customSettings: CAS.Settings
    var failCount: int
    var selected: Value
    var aiScenarios: Value
    var version: Value
    var directories: Option<AgentDirectorySettings.Directories>

    function State(): Agent
      reads this
    {
      Agent(host, infoHash, status, port, online, uuid, zeroconfName, customSettings, failCount,
            selected, aiScenarios, version, directories)
    }

    constructor(host: Value)
      ensures State() == Fresh(host)
    {
      this.host := host;
      infoHash := [];
      status := VNone;
      port := VNone;
      online := VBool(false);
      uuid := VNone;
      zeroconfName := VNone;
      customSettings := CAS.Defaults();
      failCount := 0;
      selected := VBool(true);
      aiScenarios := VList([]);
      version := VNone;
      directories := None;
    }

    /** `_update_info_hash` */
    method UpdateInfoHash(key: string, value: Value) returns (raised: Option<Exception>)
      modifies this`infoHash
      ensures (infoHash, raised) == InfoHashUpdated(old(infoHash), key, value)
    {
      var current := Get(infoHash, "info").GetOr(VDict([(key, VNone)]));
      if !current.VDict? {
        return Some(TypeError("item assignment"));
      }
      current := VDict(Put(current.entries, key, value));
      infoHash := Put(infoHash, "info", current);
      raised := None;
    }

    /** `set_defaults` */
    method SetDefaults()
      modifies this
      ensures State() == old(State()).(customSettings := CAS.Defaults())
    {
      customSettings := CAS.Defaults();
    }

    /** `apply_update_dict` */
    method ApplyUpdateDict(u: Update) returns (raised: Option<Exception>)
      modifies this
      ensures (State(), raised) == UpdateApplied(old(State()), u)
    {
      ghost var a1 := old(State()).(status := u.status, failCount := u.failCount, online := u.online);
      status, failCount, online := u.status, u.failCount, u.online;
      assert State() == a1;
      raised := UpdateInfoHash("os", u.os);
      if raised.Some? {
        return;
      }
      ghost var a2 := a1.(infoHash := infoHash, uuid := u.uuid, host := u.host, zeroconfName := u.zeroconfName, port := u.port);
      uuid, host, zeroconfName, port := u.uuid, u.host, u.zeroconfName, u.port;
      assert State() == a2;
      raised := UpdateInfoHash("errors", u.errors);
      if raised.Some? {
        return;
      }
      aiScenarios, version, directories := u.aiScenarios, u.version, u.directories;
    }

    /** `client()` */
    method Client(reach: Reachability) returns (connected: Result<bool>)
      modifies this
      ensures (State(), connected) == Connect(old(State()), reach)
    {
      if failCount == FailLimit {
        return Ok(false);
      }
      match reach
      case Reachable =>
        connected := Ok(true);
      case Unreachable =>
        failCount := failCount + 1;
        connected := Ok(false);
      case ErrorStatus =>
        connected := Raised(HTTPError);
    }

    /** `apply_directory_changes` */
    method ApplyDirectoryChanges(reach: Reachability, dirs: AgentDirectorySettings.Directories, response: Dict<Value>)
      returns (r: Result<(bool, string)>)
      modifies this
      ensures (State(), r) == DirectoryChangesApplied(old(State()), reach, dirs, response)
    {
      var client := Client(reach);
      if client.Raised? {
        return Raised(client.exception);
      }
      if !client.value {
        return Raised(AttributeError("execute"));
      }
      var query := Queries.SetDirectoriesQuery(dirs);
      if query.Raised? {
        return Raised(query.exception);
      }
      r := CheckResults(response, Aliases);
    }
  }
}
