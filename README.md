# fg-orchestrator core, modelled in Dafny

fg-orchestrator runs a FlightGear session across a fleet of machines. Each
machine runs an **agent**. The agent checks its FlightGear installation,
installs aircraft with svn, and starts and stops `fgfs` on command. A
**director** discovers the agents, keeps a registry of them, and sends them
GraphQL mutations built from a scenario and per-agent settings.

This project models the logic of both sides and proves properties of it.

- **The agent** (`AgentRuntime`, `Mutations`, `AgentUtil`, `AgentErrors`, `AgentTypes`, `Configuration`, `Schema`):
  - The tick state machine `_check_status` is a method on an `Agent` class. It is proved against a specification function `Tick`, which applies one branch per status.
  - The environment check `_check_environment` is modelled check by check. Each check is a method proved against its specification function, together with lemmas about which check runs after which.
  - The five status-guarded GraphQL commands are methods on the same object. Each is proved against a function on the agent state.
  - One invariant (`AgentRuntime.Valid`) is shown to hold for a new agent and to be kept by every tick and every command.
  - Also covered: OS detection, the Windows registry scan, the whitelisted config store, and the GraphQL resolvers that compute something (drive letters, directory listing, config entries, AI scenarios).
- **The director** (`Registry`, `RegisteredAgents`, `Queries`, `CustomAgentSettings`, `ScenarioSettings`, `ParkingRecord`, `AgentDirectorySettings`, `ParkingCacheUpdater`, `WebPanelRecord`):
  - The fleet registry: alive and dead agents keyed by uuid, plus unknown hosts.
  - One registered agent's fail counting and its update and save dictionaries.
  - The text of the install, set-directories and start-session mutations.
  - The settings records and their `to_dict`/`from_dict` round-trips.
  - The parking-cache worker.
  - Web-panel links.

How the source's data is represented:

- **Python dicts** are insertion-ordered lists of distinct-keyed pairs (`Dicts`), so key order, "first match" scans and the order of `to_dict` keys are faithful.
- **Dynamically typed attributes** are one `Value` datatype (`PyValues`).
- **Exceptions** are the `Raised` case of `Result`.
- **The machine the agent runs on**, meaning which paths exist, the registry, the version probe and `platform.system()`, is a `Host` value.
- **Paths** are the text `str()` writes (`Paths`): a PosixPath or WindowsPath splits at its separators, drops empty and `.` components and writes them back with its own separator. A configured path records whether it is the str a config file or `setConfig` gave (`StrPath`) or a Path a check built (`PathObject`).
- **What changes between ticks**, meaning the clock, the svn outcome, the spawned process and the poll result, is a `TickInputs` value.

## Model

| member | source | states |
|---|---|---|
| AgentTypes.PathCodeNames | fgo/agent/agent.py:423-428 | the error codes looked up by `f'{selector.upper()}_PATH_NOT_SET'` and `_PATH_NOT_EXIST` are the codes of that selector's path, so the lookup never fails |
| AgentErrors.ProtocolFileMissingError | fgo/agent/agent_errors.py:4-8 | the error carries code PROTOCOL_FILE_MISSING and a description that quotes the file path and tells the user to run `fgo setup` |
| AgentErrors.ProtocolFileHashMismatch | fgo/agent/agent_errors.py:11-15 | the error carries code PROTOCOL_FILE_HASH_MISMATCH and a description that quotes the file path and tells the user to run `fgo setup` |
| Configuration.WhitelistIsSavablePlusInMemory | fgo/config.py:12-27 | the whitelist has eleven keys; a key is whitelisted exactly when it is savable or in-memory, and never both |
| Configuration.MergeRaisesIffKeyOffWhitelist | fgo/config.py:67-73 | `merge_dictionary` raises exactly when some key of the dictionary is off the whitelist |
| Configuration.Merged | fgo/config.py:67-73 | what `merge_dictionary` stores and raises (contracts in `MergeRaisesIffKeyOffWhitelist`, `MergeStopsAtFirstBadKey`) |
| Configuration.Saved | fgo/config.py:48-54 | the dumped dictionary has exactly the given keys in order, each with its stored value or None when unset |
| Configuration.Config.constructor | fgo/config.py:60-62 | a new Config remembers its file path and holds no data |
| Configuration.Config.SetValue | fgo/config.py:71-75 | raises ValueError "... is not on the whitelist" exactly for a key off the whitelist, leaving the data alone; otherwise stores the value under the key |
| Configuration.Config.GetValue | fgo/config.py:77-81 | raises the same ValueError exactly for a key off the whitelist; otherwise returns the stored value, None for an unset key; the second argument is ignored |
| Configuration.Config.MergeDictionary | fgo/config.py:67-69 | calls `set_value` for each item in order: the data and exception are those of `Merged`, so items before a bad key stay stored |
| Configuration.Config.Save | fgo/config.py:48-54 | builds the dictionary `save` dumps: the five savable keys with their values (the file write is left out) |
| Configuration.SavedSnoc | fgo/config.py:51-54 | one more iteration of the save loop appends that key and its value, None when unset |
| Configuration.SaveWritesSavableKeys | fgo/config.py:48-54 | `save` writes exactly the savable keys and never an in-memory key |
| Configuration.SetThenGet | fgo/config.py:71-81 | a value stored with `set_value` reads back with `get_value`, and every other key is unchanged |
| Configuration.MergeStopsAtFirstBadKey | fgo/config.py:67-73 | merging keeps what the items before the first bad key stored and raises for that key |
| Configuration.MergeStoresLastEntry | fgo/config.py:67-75 | with every key whitelisted, merging raises nothing and the last item wins for its key |
| Configuration.MergeKeepsLast | fgo/config.py:67-75 | after a merge that raised nothing, the key of the last item holds that item's value |
| AgentDirectorySettings.Directories.Set | fgo/director/agent_directory_settings.py:29 | `setattr` on one of the five fields sets that field and leaves the other four alone |
| AgentDirectorySettings.Target | fgo/director/agent_directory_settings.py:17-23 | the key mapping: `fgfs_path` targets `flightgear_executable`, the other four keys their own field, and any other key targets nothing (both directions) |
| AgentDirectorySettings.FromGqlQuery | fgo/director/agent_directory_settings.py:14-33 | the loop over the query result yields the settings `Load` describes |
| AgentDirectorySettings.LoadTakesLastEntry | fgo/director/agent_directory_settings.py:24-29 | each field holds the value of the last entry whose key maps to it, None when no entry does |
| AgentDirectorySettings.Load | fgo/director/agent_directory_settings.py:24-29 | the settings after the `from_gql_query` loop has seen the entries (contracts in `LoadTakesLastEntry`, `UnrecognisedKeyIgnored`) |
| AgentDirectorySettings.UnrecognisedKeyIgnored | fgo/director/agent_directory_settings.py:28 | an entry whose key is not in the mapping changes nothing |
| AgentUtil.DiscoverOs | fgo/agent/util.py:20-32 | the OS is WINDOWS, LINUX or DARWIN exactly when `platform.system()` returned that name, UNKNOWN exactly otherwise, and the string is returned as given |
| AgentUtil.ScanValuesSnoc | fgo/agent/util.py:67-79 | one more value of the inner loop applies its effect to the state the earlier values left |
| AgentUtil.LocateFgfsInWindowsRegistry | fgo/agent/util.py:42-86 | enumerating the subkeys and their values until the enumeration ends returns the install location `RegistryInstallLocation` describes |
| AgentUtil.RegistryInstallLocation | fgo/agent/util.py:42-86 | what `locate_fgfs_in_windows_registry` returns for a registry (contracts in `LocateFgfsInWindowsRegistry`, `FlightGearKeyIsFound`) |
| AgentUtil.WindowsFindFgroot | fgo/agent/util.py:35-39 | returns the install location followed by `data\` exactly when the registry scan found a non-empty location, else None |
| AgentUtil.FlightGearKeyIsFound | fgo/agent/util.py:63-86 | a subkey named FlightGear with an install location, after empty subkeys, is found whatever subkeys follow |
| AgentUtil.EmptyKeysKeepState | fgo/agent/util.py:63-84 | subkeys with no values do not change the scan's outcome |
| AgentUtil.LeakedInstallLocation | fgo/agent/util.py:58-86 | the flags are not reset per subkey, so the install location of an application that is not FlightGear is returned when no subkey is a hit |
| CustomAgentSettings.Exposed | fgo/director/custom_agent_settings.py:7-23 | the sixteen visible fields, one per update key |
| CustomAgentSettings.WithExposed | fgo/director/custom_agent_settings.py:53-68 | assigning the sixteen visible fields sets exactly those and keeps the three hidden fields |
| CustomAgentSettings.Defaults | fgo/director/custom_agent_settings.py:8-27 | a fresh object holds the declared defaults: fullscreen, terrasync and real weather on, every other flag off, no field of view, view offset 0, no role, no master and no clients |
| CustomAgentSettings.ToUpdateDict | fgo/director/custom_agent_settings.py:29-48 | the update dict's keys are the sixteen visible field names in declaration order |
| CustomAgentSettings.ApplyUpdateDict | fgo/director/custom_agent_settings.py:50-70 | applying an update never touches `role`, `master_ip_address` or `client_ip_addresses` |
| CustomAgentSettings.UpdateKeysDistinct | fgo/director/custom_agent_settings.py:32-47 | the sixteen update keys are distinct and none is a hidden field |
| CustomAgentSettings.ToUpdateDictHoldsExposed | fgo/director/custom_agent_settings.py:29-48 | `to_update_dict` has sixteen distinct keys, each holding its own field, and no hidden field |
| CustomAgentSettings.UpdateRoundTrip | fgo/director/custom_agent_settings.py:29-70 | `a.apply_update_dict(b.to_update_dict())` equals `b` with `a`'s three hidden fields |
| CustomAgentSettings.SameExposed | fgo/director/custom_agent_settings.py:6-27 | settings agreeing on the sixteen visible and the three hidden fields are the same settings |
| CustomAgentSettings.MissingKeysFallBack | fgo/director/custom_agent_settings.py:53-68 | a key missing from the update falls back to the field's declared default, except `enable_web_server`, which falls back to True although it is declared False |
| CustomAgentSettings.EmptyUpdateEnablesWebServer | fgo/director/custom_agent_settings.py:66 | applying an empty update to fresh settings turns the web server on and changes nothing else |
| Dataclasses.StrLeTotal | fgo/director/scenario_settings.py:28 | string order, which `dir()` sorts by, is total |
| Dataclasses.Sort | fgo/director/scenario_settings.py:28 | the names `dir()` lists are a permutation of the attribute names |
| Dataclasses.SortSorted | fgo/director/scenario_settings.py:28 | `dir()` lists the names in alphabetical order |
| Dataclasses.SortDistinct | fgo/director/scenario_settings.py:28 | `dir()` lists each distinct attribute name once |
| Dataclasses.Instance | fgo/director/scenario_settings.py:4-23 | a fresh dataclass instance holds its declared fields, in declaration order, with their defaults |
| Dataclasses.DataNames | fgo/director/scenario_settings.py:28 | the comprehension keeps exactly the names that do not start with `__` |
| Dataclasses.Project | fgo/director/scenario_settings.py:28-29 | the copied dict has one item per kept name, in the order of the names |
| Dataclasses.ProjectGet | fgo/director/scenario_settings.py:28-29 | every copied name reads as in the instance, every other name is absent |
| Dataclasses.ToDict | fgo/director/scenario_settings.py:25-30 | the `to_dict` loop builds the dict `ToDictSpec` describes |
| Dataclasses.ToDictStep | fgo/director/scenario_settings.py:28-29 | one iteration of the loop appends the next name with its value |
| Dataclasses.ToDictListsDataAttributes | fgo/director/scenario_settings.py:25-30 | `to_dict` lists each non-dunder attribute exactly once, in alphabetical order, valued as in the instance, and nothing else |
| Dataclasses.FromDict | fgo/director/scenario_settings.py:33-39 | the `from_dict` loop sets every given item on a fresh instance, in order |
| Dataclasses.FromDictStep | fgo/director/scenario_settings.py:36-37 | one iteration of the loop sets the next item |
| Dataclasses.SetAllGet | fgo/director/scenario_settings.py:36-37 | after `from_dict` a given key holds the value of its last item and every other attribute is unchanged |
| Dataclasses.SetAllKeys | fgo/director/scenario_settings.py:36-37 | setting only existing attributes keeps the attribute list |
| Dataclasses.ToDictOfPlainFields | fgo/director/scenario_settings.py:25-30 | for an instance without dunder attributes, `to_dict` has one item per attribute, valued as in the instance |
| Dataclasses.RoundTrip | fgo/director/scenario_settings.py:25-39 | `from_dict(s.to_dict())` rebuilds `s` when `s` holds exactly the declared fields |
| ScenarioSettings.Defaults | fgo/director/scenario_settings.py:5-23 | `ScenarioSettings()` holds the eighteen declared fields in declaration order |
| ScenarioSettings.FieldsWellFormed | fgo/director/scenario_settings.py:5-23 | the eighteen field names are distinct and none starts with `__` |
| ScenarioSettings.ToDictHasEveryField | fgo/director/scenario_settings.py:25-30 | `to_dict` of settings has eighteen items, one per field, valued as in the settings |
| ScenarioSettings.RoundTrip | fgo/director/scenario_settings.py:25-39 | `from_dict(s.to_dict())` equals `s` |
| ScenarioSettings.FromDictAssigns | fgo/director/scenario_settings.py:33-39 | `from_dict` assigns every given key, the last item winning, and a field it is not given keeps its default |
| ParkingRecord.Defaults | fgo/director/parking_record.py:3-11 | `ParkingRecord()` holds the seven declared fields in declaration order |
| ParkingRecord.Make | fgo/director/parking_record.py:3-11 | a record built from its seven values holds the seven declared fields in order |
| ParkingRecord.MakeFields | fgo/director/parking_record.py:3-11 | a record built from its seven values holds each value under its own field |
| ParkingRecord.FieldsWellFormed | fgo/director/parking_record.py:3-11 | the seven field names are distinct and none starts with `__` |
| ParkingRecord.ToDictHasEveryField | fgo/director/parking_record.py:13-17 | `to_dict` of a record has seven items, one per field, valued as in the record |
| ParkingRecord.RoundTrip | fgo/director/parking_record.py:13-27 | `from_dict(r.to_dict())` equals `r` |
| ParkingRecord.FromDictAssigns | fgo/director/parking_record.py:20-27 | `from_dict` assigns every given key, the last item winning, and a field it is not given keeps its default |
| Mutations.Rejected | fgo/gql/mutations.py:24-26 | a refused command leaves the context as it was and replies not ok with "Unable to ..., current state is Status.NAME" |
| Mutations.Accepted | fgo/gql/mutations.py:16-17 | an accepted command replies ok with no error |
| Mutations.WithStatus | fgo/gql/mutations.py:30 | the context with its Info status replaced |
| Mutations.Install | fgo/gql/mutations.py:15-33 | `InstallOrUpdateAircraft` is accepted exactly in READY and then moves to INSTALLING_AIRCRAFT with the svn name as state meta, keeping config and process; otherwise it is refused and nothing changes |
| Mutations.Rescan | fgo/gql/mutations.py:39-47 | `RescanEnvironment` always replies ok and leaves the agent SCANNING; from another status it also clears the errors, from SCANNING it changes nothing |
| Mutations.KeyKind | fgo/gql/mutations.py:63-65 | a key names a path exactly when it is on the five-key whitelist, and then it is that path's config attribute |
| Mutations.SetPath | fgo/gql/mutations.py:74-78 | the empty string unsets the path; any other value is stored as the str it arrived as, not a Path; every other path and the startup time are unchanged |
| Mutations.SetConfig | fgo/gql/mutations.py:58-83 | accepted exactly for a whitelisted key, which sets the path and moves to SCANNING with no errors; otherwise replies "Unrecognised key ..." and changes nothing |
| Mutations.AircraftArg | fgo/gql/mutations.py:114-116 | `--fg-aircraft=` is added exactly when the aircraft path is set |
| Mutations.TerrasyncArg | fgo/gql/mutations.py:119-121 | `--terrasync-dir=` is added exactly when `--enable-terrasync` was asked for and the terrasync path is set |
| Mutations.Start | fgo/gql/mutations.py:94-123 | an accepted start stores the session arguments, then `--fg-aircraft=` when an aircraft path is set and `--terrasync-dir=` when terrasync is enabled and a terrasync path is set, as the assembled arguments and moves to FGFS_START_REQUESTED; a start outside READY is rejected with the refusal message and changes nothing |
| Mutations.Stop | fgo/gql/mutations.py:130-145 | `StopFlightGear` is accepted exactly in FGFS_RUNNING and then moves to FGFS_STOP_REQUESTED and clears the state meta; otherwise it is refused and nothing changes |
| Mutations.CommandsPreserveValid | fgo/gql/mutations.py:15-145 | each of the five commands keeps the invariant the tick relies on |
| Mutations.StartArguments | fgo/gql/mutations.py:106-121 | from a valid READY context the first added argument is `--fg-aircraft=` with the aircraft path, and a second one, `--terrasync-dir=`, is added exactly when terrasync was asked for and configured |
| Mutations.StartThenTick | fgo/gql/mutations.py:106-109 | after an accepted start the next tick spawns fgfs with the executable followed by exactly the returned arguments and waits in FGFS_STARTING from that time |
| Mutations.StopThenTick | fgo/gql/mutations.py:141-143 | after an accepted stop the next tick terminates the process and moves to READY; the context keeps the terminated handle |
| Mutations.InstallThenTick | fgo/gql/mutations.py:28-31 | after an accepted install, a tick whose svn run succeeds returns to READY and a failing run leaves ERROR with one error |
| Mutations.SetConfigThenTick | fgo/gql/mutations.py:69-81 | after an accepted SetConfig, the next tick checks the environment against the config holding the new value and records its errors |
| Mutations.InstallOrUpdateAircraft | fgo/gql/mutations.py:15-33 | the command on the agent object: the new context and the reply are those of `Install` |
| Mutations.RescanEnvironment | fgo/gql/mutations.py:39-47 | the command on the agent object: the new context and the reply are those of `Rescan` |
| Mutations.SetConfigValue | fgo/gql/mutations.py:58-83 | the command on the agent object: the new context and the reply are those of `SetConfig` |
| Mutations.StartFlightGear | fgo/gql/mutations.py:94-123 | the command on the agent object: the new context, the reply and the returned arguments are those of `Start` |
| Mutations.StopFlightGear | fgo/gql/mutations.py:130-145 | the command on the agent object: the new context and the reply are those of `Stop` |
| Registry.Agents | fgo/director/registry.py:26-27 | `get_agents` lists the alive agents, then the dead ones, then one fresh offline record per unknown host, in that order |
| Registry.Hosts | fgo/director/registry.py:74 | one host per listed agent |
| Registry.FirstByUuid | fgo/director/registry.py:34-37 | the comprehension finds an agent exactly when some dead agent has the uuid, and then one that has it |
| Registry.FirstByName | fgo/director/registry.py:58-62 | the comprehension finds an agent exactly when some alive agent has the zeroconf name, and then one that has it |
| Registry.UuidOf | fgo/director/registry.py:64-66 | an agent stored in a uuid-keyed dict carries the key it is stored under |
| Registry.KeyedFind | fgo/director/registry.py:34-41 | in a uuid-keyed dict, a uuid is a key exactly when some agent carries it |
| Registry.Found | fgo/director/registry.py:30-53 | `handle_zeroconf_agent_found` on the fleet (contracts in `FoundKeepsValid`, `FoundReactivates`, `FoundRegisters`) |
| Registry.Removed | fgo/director/registry.py:56-68 | `handle_zeroconf_agent_removed` on the fleet (contracts in `RemovedKeepsValid`, `RemovedRetires`) |
| Registry.ManuallyAdded | fgo/director/registry.py:71-77 | `handle_agent_manually_added` on the fleet (contracts in `ManuallyAddedKeepsValid`, `ManuallyAddedAppends`) |
| Registry.ManuallyRemoved | fgo/director/registry.py:80-94 | `handle_agent_manually_removed` on the fleet (contracts in `ManuallyRemovedKeepsValid`, `ManuallyRemovedDrops`) |
| Registry.FoundKeepsValid | fgo/director/registry.py:30-53 | a found event keeps the registry's invariant: alive agents online, dead ones offline, each stored under its uuid, no uuid both alive and dead, no unknown host twice |
| Registry.RemovedKeepsValid | fgo/director/registry.py:56-68 | a removed event keeps the invariant |
| Registry.UnknownHostListed | fgo/director/registry.py:26-27 | every unknown host is among the hosts `get_agents` lists |
| Registry.ManuallyAddedKeepsValid | fgo/director/registry.py:71-77 | a manual add keeps the invariant: a listed host is not added twice |
| Registry.ManuallyRemovedKeepsValid | fgo/director/registry.py:80-94 | a manual remove keeps the invariant |
| Registry.FoundReactivates | fgo/director/registry.py:34-42 | a found event for a dead agent's uuid moves that same record to the alive dict, online, under its uuid; the agent count and the unknown list are unchanged |
| Registry.FirstByUuidKeyed | fgo/director/registry.py:34-37 | in a uuid-keyed dict the first agent with a key's uuid is the one stored under it |
| Registry.FoundRegisters | fgo/director/registry.py:44-53 | a found event for a new uuid stores a new online agent with that host, uuid and name, leaves the dead dict alone and drops only that host from the unknown list |
| Registry.RemovedRetires | fgo/director/registry.py:56-68 | a removed event moves the first alive agent with that name to the dead dict, offline, under its uuid; with no such agent nothing changes |
| Registry.FoundRemovedFound | fgo/director/registry.py:30-68 | found, removed, then found again with the same uuid leaves one record for that uuid, alive and online |
| Registry.FoundIsAliveOnce | fgo/director/registry.py:30-53 | after a found event the uuid is alive, online and not dead |
| Registry.FoundStoresUuid | fgo/director/registry.py:30-46 | after a found event the uuid is a key of the alive dict, whatever the registry held |
| Registry.GetKeyed | fgo/director/registry.py:38-40 | every agent found in the alive dict is online |
| Registry.ManuallyAddedAppends | fgo/director/registry.py:71-77 | a manual add appends a host no listed agent has and ignores any other |
| Registry.ManuallyRemovedDrops | fgo/director/registry.py:80-94 | a manual remove drops the host from the unknown list, and a non-empty target uuid from the dead dict or, failing that, the alive one |
| Registry.Registry.constructor | fgo/director/registry.py:19-24 | a new registry is empty and valid |
| Registry.Registry.HandleAgentFound | fgo/director/registry.py:30-53 | updates the dicts and the list in place as `Found` describes and keeps the invariant |
| Registry.Registry.HandleAgentRemoved | fgo/director/registry.py:56-68 | updates in place as `Removed` describes and keeps the invariant |
| Registry.Registry.HandleAgentManuallyAdded | fgo/director/registry.py:71-77 | updates in place as `ManuallyAdded` describes and keeps the invariant |
| Registry.Registry.HandleAgentManuallyRemoved | fgo/director/registry.py:80-94 | updates in place as `ManuallyRemoved` describes and keeps the invariant |
| RegisteredAgents.InfoField | fgo/director/registered_agent.py:39-56 | reading `info_hash['info'][key]` with a default raises exactly when `info_hash['info']` is present but not a dict |
| RegisteredAgents.InfoHashUpdated | fgo/director/registered_agent.py:34-37 | `_update_info_hash` raises exactly when `info_hash['info']` is present but not a dict, and then changes nothing |
| RegisteredAgents.UpdateInfoHashSets | fgo/director/registered_agent.py:34-45 | after `_update_info_hash(key, value)` the inner dict is still a dict, `info[key]` reads back the value, every other info key reads as before, and no other top-level key changes |
| RegisteredAgents.ToUpdateDict | fgo/director/registered_agent.py:72-87 | the update dict exists exactly when the `errors` and `os` properties can be read |
| RegisteredAgents.UpdateRoundTrip | fgo/director/registered_agent.py:72-104 | `x.apply_update_dict(y.to_update_dict())` raises nothing and gives `x` the twelve synced fields of `y`, keeping `x`'s selection and custom settings |
| RegisteredAgents.UpdateApplied | fgo/director/registered_agent.py:89-104 | `apply_update_dict`, assigning fields in order so that a raising `os` setter leaves the earlier ones assigned (contract in `UpdateRoundTrip`) |
| RegisteredAgents.ToDict | fgo/director/registered_agent.py:106-121 | the save dict has the update keys minus the six runtime ones, then `hostname`, `selected` and `custom_settings`, in that order |
| RegisteredAgents.Item | fgo/director/registered_agent.py:126-132 | `dictionary[key]` succeeds exactly when the key is present and raises KeyError otherwise |
| RegisteredAgents.SavedItem | fgo/director/registered_agent.py:126-132 | in a dict with exactly the saved keys, each lookup finds the value stored for that key |
| RegisteredAgents.SavedItems | fgo/director/registered_agent.py:126-132 | the seven keys `from_dict` reads are found at their places in the save dict |
| RegisteredAgents.FromSaved | fgo/director/registered_agent.py:123-133 | `from_dict` of a save dict yields a fresh agent for the host with the saved selection, uuid, zeroconf name, port and os, and the saved custom settings applied to fresh ones |
| RegisteredAgents.FreshOs | fgo/director/registered_agent.py:34-56 | a fresh agent whose `os` was just set reports that os and no errors |
| RegisteredAgents.SaveRoundTrip | fgo/director/registered_agent.py:106-133 | `from_dict(a.to_dict())` restores host, selection, uuid, zeroconf name, port, os and the visible custom settings; the runtime fields, the errors, `version` and the hidden custom settings return to their defaults |
| RegisteredAgents.ClientCountsFailures | fgo/director/registered_agent.py:135-160 | at the fail limit no connection is tried and nothing changes; below it a refused connection adds one failure; an error status raises HTTPError with the agent unchanged; a client is returned exactly below the limit with a reachable agent |
| RegisteredAgents.Connect | fgo/director/registered_agent.py:135-160 | `client()`: no attempt at the fail limit, one more failure per failed connection, a raise on an error status (contracts in `ClientCountsFailures`, `AttemptsStayWithinLimit`) |
| RegisteredAgents.AttemptsStayWithinLimit | fgo/director/registered_agent.py:141-153 | over any series of `client()` calls a fail count within the limit never decreases and never passes the limit, and a failed agent stays failed |
| RegisteredAgents.UnreachableAttempts | fgo/director/registered_agent.py:141-153 | `n` refused connections raise the count to `min(count + n, FAIL_LIMIT)`, so the agent is failed after three |
| RegisteredAgents.ReportOkIffNoNull | fgo/director/registered_agent.py:172-195 | `ok` is False exactly when some result is null, and exactly then the error string is non-empty |
| RegisteredAgents.Report | fgo/director/registered_agent.py:175-193 | the checks of the five mutation results (contracts in `ReportOkIffNoNull`, `ReportEnds`) |
| RegisteredAgents.DirectoryChangesApplied | fgo/director/registered_agent.py:169-195 | `apply_directory_changes`: connect, build, run and check the mutation (contract in `RegisteredAgent.ApplyDirectoryChanges`) |
| RegisteredAgents.ReportStep | fgo/director/registered_agent.py:175-193 | one `if` of the check adds its alias's complaint when its result is null, raises KeyError when the alias is missing, and otherwise passes on |
| RegisteredAgents.ReportEnds | fgo/director/registered_agent.py:172-195 | the checks start from `ok = True` and an empty string, and end with what the last check left |
| RegisteredAgents.CheckAlias | fgo/director/registered_agent.py:175-193 | one `if` on the agent's answer, proved to be one step of `Report` |
| RegisteredAgents.CheckResults | fgo/director/registered_agent.py:172-195 | the five checks give exactly `Report` of the answer |
| RegisteredAgents.RegisteredAgent.constructor | fgo/director/registered_agent.py:17-32 | `RegisteredAgent(host)` holds the declared defaults |
| RegisteredAgents.RegisteredAgent.UpdateInfoHash | fgo/director/registered_agent.py:34-37 | updates `info_hash` in place as `InfoHashUpdated` describes |
| RegisteredAgents.RegisteredAgent.SetDefaults | fgo/director/registered_agent.py:69-70 | resets the custom settings to fresh ones and changes nothing else |
| RegisteredAgents.RegisteredAgent.ApplyUpdateDict | fgo/director/registered_agent.py:89-104 | assigns the fields in the source's order; an `os` or `errors` setter that raises leaves the earlier fields assigned |
| RegisteredAgents.RegisteredAgent.Client | fgo/director/registered_agent.py:135-160 | updates the fail count and returns as `Connect` describes |
| RegisteredAgents.RegisteredAgent.ApplyDirectoryChanges | fgo/director/registered_agent.py:169-195 | without a client the `execute` lookup raises; a directory that cannot be sent raises while the mutation is built; otherwise the result is the five checks on the answer |
| Schema.Drives | fgo/gql/schema.py:14-17 | the loop lists at most one `X:` drive per letter, each made of a letter it walked |
| Schema.GetWindowsDrives | fgo/gql/schema.py:10-19 | `get_windows_drives` returns the drives of the 26 upper-case letters for the `GetLogicalDrives()` mask |
| Schema.CollectDrives | fgo/gql/schema.py:14-17 | the loop with its shifting bitmask collects exactly the drives `Drives` describes |
| Schema.DrivesLength | fgo/gql/schema.py:14-17 | there are as many drives as set bits among the first 26 bits |
| Schema.DrivesIgnoreHighBits | fgo/gql/schema.py:14-17 | bits past the last letter never matter |
| Schema.LowBitsIdempotent | fgo/gql/schema.py:14-17 | keeping the low bits twice is keeping them once |
| Schema.DriveListedIffBit | fgo/gql/schema.py:14-17 | the drive of letter `i` is listed exactly when bit `i` of the mask is set |
| Schema.Paths | fgo/gql/schema.py:60 | one path per globbed entry |
| Schema.ListingIsPartitioned | fgo/gql/schema.py:60-64 | every globbed entry goes to exactly one of the two lists: together they are a permutation of the listing |
| Schema.ListingKeepsKinds | fgo/gql/schema.py:61-64 | the directories list holds only directory entries and the files list only the others |
| Schema.ResolveDirectoryList | fgo/gql/schema.py:52-66 | for "/" on Windows the drive list with no files; otherwise the absolute base path with the directory entries and the other entries, each in glob order |
| Schema.PublicEntriesArePublic | fgo/gql/schema.py:75 | an attribute is listed exactly when it does not start with `_` |
| Schema.PublicNames | fgo/gql/schema.py:75 | the comprehension keeps only attribute names that do not start with `_` |
| Schema.EntriesFor | fgo/gql/schema.py:77-81 | one entry per listed name |
| Schema.ResolveConfig | fgo/gql/schema.py:71-83 | the loop builds one entry per public attribute name, valued with `getattr` |
| Schema.EntriesForSkipsOtherKey | fgo/gql/schema.py:77-81 | an attribute that is not listed does not affect the entries |
| Schema.TailNames | fgo/gql/schema.py:75 | the public names after the first attribute are attributes other than the first |
| Schema.ConfigEntriesArePublicAttributes | fgo/gql/schema.py:71-83 | the config entries are exactly the public attributes, in order, each with its own value |
| Schema.ResolveAiScenarios | fgo/gql/schema.py:35-47 | the resolver loop returns what `AiScenariosAsWritten` gives: UnboundLocalError for an unset or empty FG_ROOT, AttributeError for a str FG_ROOT, one scenario per stem for a Path |
| Schema.ScenariosOf | fgo/gql/schema.py:39-45 | one `AIScenario` per globbed file, named by its stem, in glob order |
| Schema.AiScenariosAsWritten | fgo/gql/schema.py:35-47 | `scenarios` is unbound (UnboundLocalError) exactly when FG_ROOT is unset or the empty str; `glob` is missing (AttributeError) exactly for a non-empty str; it returns exactly for a Path, one scenario per stem |
| Schema.AiScenariosIntended | fgo/gql/schema.py:35-47 | the corrected resolver lists one scenario per stem for any set FG_ROOT, str or Path, and no scenarios when it is unset or empty; it agrees with the code wherever the code returns |
| Schema.SetFgrootBreaksAiScenarios | fgo/gql/mutations.py:74-78 | after `setConfig` sets `fgroot_path` to a non-empty value, the resolver as written raises AttributeError while the corrected one lists the scenarios |
| Queries.InstallQueryCarriesName | fgo/director/queries.py:81-89 | the install request carries the aircraft's `str()` as its `svnName`, and two requests are equal exactly when the names are |
| Queries.AircraftInstallQuery | fgo/director/queries.py:81-89 | the install mutation text for an aircraft (contract in `InstallQueryCarriesName`) |
| Queries.NoneOrMutatedString | fgo/director/queries.py:95-100 | succeeds exactly for None or a string; any other value has no `replace` and raises |
| Queries.UnescapeDoubled | fgo/director/queries.py:99 | doubling every backslash is undone by reading the escapes back |
| Queries.QuotedValueReadsBack | fgo/director/queries.py:95-100 | the value is sent in double quotes and the text between them reads back as the string, or as the empty string for None |
| Queries.NoneSentAsEmptyString | fgo/director/queries.py:96-97 | None and the empty string are sent alike |
| Queries.FieldIndex | fgo/director/queries.py:104-108 | each directory is sent by exactly one of the five calls |
| Queries.SetConfigCallsOk | fgo/director/queries.py:104-108 | the remaining calls can be built exactly when each of them can |
| Queries.SetDirectoriesNeedsSendable | fgo/director/queries.py:91-114 | the mutation text can be built exactly when every directory is None or a string |
| Queries.SetDirectoriesIsFiveCalls | fgo/director/queries.py:102-110 | the mutation text is exactly the five `setConfig` calls in order, between `mutation {` and `}` |
| Queries.SetDirectoriesQuery | fgo/director/queries.py:91-114 | the set-directories mutation text, or the exception a directory that is neither None nor a str raises (contracts in `SetDirectoriesNeedsSendable`, `SetDirectoriesIsFiveCalls`) |
| Queries.SetConfigKeysMapBack | fgo/director/queries.py:104-108 | the key each call sets is the one the agent's config query maps back to the directory it carries |
| Queries.ApplyAppendsOneLine | fgo/director/queries.py:146-165 | each helper leaves the text alone for None and otherwise appends exactly one line for its key; the boolean helper writes `true` exactly for a truthy value and `false` otherwise |
| Queries.UpperOf | fgo/director/queries.py:189 | `.upper()` succeeds exactly on a string |
| Queries.StartAsWrittenRaises | fgo/director/queries.py:127-227 | the corrected builder fails exactly for a time of day that is not a string or additional arguments without a length; as written the builder never produces a request, and raises for `view_heading_offset` exactly when the corrected one succeeds |
| Queries.ScenarioArgsFails | fgo/director/queries.py:167-191 | the scenario's part raises exactly when the time of day is not a string, with AttributeError on `upper` |
| Queries.AgentArgsFails | fgo/director/queries.py:193-212 | the agent's part fails only for additional arguments without a length; as written it otherwise raises on `view_heading_offset` |
| Queries.AirportOptionChoosesLine | fgo/director/queries.py:173-176 | at most one line is added: the airport code for option 1, the carrier for option 2, each only when not None, and neither for any other option |
| Queries.RunwayOptionChoosesLine | fgo/director/queries.py:182-185 | at most one line is added: the runway for option 1, the parking position for option 2, each only when not None, and neither for any other option |
| Queries.StringLineTail | fgo/director/queries.py:146-151 | a string line for a key is added exactly when the value is not None, and never a line for another key |
| Queries.TimeOfDayMustBeString | fgo/director/queries.py:189 | the time of day must be a string: the default None has no `upper` and raises |
| Queries.TimeOfDayUpperCased | fgo/director/queries.py:189 | the time of day is emitted upper-cased and without quotes |
| Queries.AdditionalArgsOnlyWhenNonEmpty | fgo/director/queries.py:194-195 | an `additionalArgs` line, with each `'` turned into `"""`, is added exactly when the list is not None and not empty; a value without a length raises |
| Queries.RoleIsPrimaryIffHostIsPrimary | fgo/director/queries.py:215-223 | one role line is added, PRIMARY exactly when the host is the scenario's primary; a client list follows only for the primary and only when its secondaries are not None |
| Queries.AppendsSnoc | fgo/director/queries.py:146-165 | appending a line of the same part keeps the text the part's lines after the earlier text |
| Queries.ApplyAppends | fgo/director/queries.py:146-165 | each helper adds only lines of the part its key belongs to |
| Queries.CommonArgsKeys | fgo/director/queries.py:168-171 | the aircraft lines belong to the scenario's part |
| Queries.AirportArgsKeys | fgo/director/queries.py:173-176 | the airport lines belong to the scenario's part |
| Queries.WeatherArgsKeys | fgo/director/queries.py:178-180 | the weather lines belong to the scenario's part |
| Queries.RunwayArgsKeys | fgo/director/queries.py:182-185 | the runway lines belong to the scenario's part |
| Queries.EnvironmentArgsKeys | fgo/director/queries.py:187-191 | the environment lines belong to the scenario's part |
| Queries.ScenarioArgsKeys | fgo/director/queries.py:167-191 | every line taken from the scenario belongs to the scenario's part |
| Queries.FlagArgsKeys | fgo/director/queries.py:197-210 | the flag lines belong to the agent's part |
| Queries.ThreeFlagsAppend | fgo/director/queries.py:197-209 | three boolean lines of one part belong to that part |
| Queries.RoleArgsKeys | fgo/director/queries.py:214-223 | the role lines belong to the computed part |
| Queries.AgentArgsKeys | fgo/director/queries.py:193-212 | every line of this agent belongs to the agent's part |
| Queries.ThreePartsInOrder | fgo/director/queries.py:167-223 | lines of the three parts, appended in turn, come out with the parts in order |
| Queries.SessionArgsInOrder | fgo/director/queries.py:167-223 | the session arguments are the scenario's lines, then this agent's, then the role lines |
| Queries.SessionArgs | fgo/director/queries.py:167-223 | the session arguments `StartFlightGear` emits: scenario, agent and role arguments (contract in `SessionArgsInOrder`) |
| Queries.NoViewOffsetEmitted | fgo/director/queries.py:211-212 | with the missing attributes read as None, neither view offset is ever emitted |
| Queries.StagedLinesSkipOffsets | fgo/director/queries.py:211-212 | no part emits a view offset |
| Queries.SessionHasOneRole | fgo/director/queries.py:214-223 | exactly one role line is emitted, PRIMARY exactly when the host is the scenario's primary |
| Queries.OnlyOneRoleLine | fgo/director/queries.py:214-223 | a role line followed at most by the client list is the only role line |
| Paths.PathOfIdempotent | fgo/agent/agent.py:314-317 | `Path(str(p))` is `p`: the text `str()` writes for a Path is already normal, so an FG_ROOT stored as a Path exists exactly when the candidate did |
| Paths.RenderReadsBack | fgo/agent/agent.py:314-317 | a path written from a root and components splits back into that root and those components |
| Paths.JoinParts | fgo/agent/agent.py:362 | `Path(a, b)` for a relative `b` keeps the root of `a` and lists the components of `a` followed by those of `b` |
| Paths.JoinComponent | fgo/agent/agent.py:327-331 | `Path(a, c)` for one component `c` is `str(Path(a))`, the separator and `c`, or the root and `c` when `a` has no components |
| Paths.NoTrailingSeparator | fgo/agent/agent.py:314-317 | the text of a path with components never ends in a separator |
| Paths.TrailingSeparatorDropped | fgo/agent/agent.py:314-317 | a separator added to a text that does not already end in one changes neither its root, its components, `str(Path(t))`, nor any `Path(t, b)` |
| AgentRuntime.OptList | fgo/agent/agent.py:304 | `filter(None, [e])` is empty exactly for None and the one error otherwise |
| AgentRuntime.CheckPathSpec | fgo/agent/agent.py:414-432 | a path check passes exactly for a set, existing path or an unset one that is allowed; an unset path yields the "not set" error and a missing one the "does not exist" error with its "Could not locate" description |
| AgentRuntime.CheckPathSetAndExists | fgo/agent/agent.py:414-432 | `_check_path_set_and_exists`: None for a set path that exists or an allowed unset one, else the not-set or does-not-exist error (contract in `CheckPathSpec`) |
| AgentRuntime.FindersRaise | fgo/agent/agent.py:250-286 | the fgfs and fgroot finders raise exactly on an unknown OS; the fghome finder also raises KeyError('USERPROFILE') on Windows without USERPROFILE and otherwise gives `Path(USERPROFILE, 'Documents\\FlightGear')`; on Windows fgfs is `bin\fgfs.exe` under a non-empty install location |
| AgentRuntime.FgfsStepSpec | fgo/agent/agent.py:292-304 | the fgfs check raises exactly on an unknown OS with a bad path, keeps the config when it fails, passes only with the path set, and changes at most the fgfs path, to the str the finder returned |
| AgentRuntime.FgfsStep | fgo/agent/agent.py:292-304 | the fgfs check: a bad path is replaced by a non-empty finder result (contract in `FgfsStepSpec`) |
| AgentRuntime.FgrootStep | fgo/agent/agent.py:306-321 | the fgroot check: asked only after fgfs passed, an existing candidate replaces a bad path as a Path (contract in `FgrootStepSpec`) |
| AgentRuntime.FgrootStepSpec | fgo/agent/agent.py:306-321 | after a failed fgfs check only the path is checked; otherwise it raises exactly on an unknown OS with a bad path, passes only with an existing fgroot, and changes at most the fgroot path, to `Path(candidate)` as `str()` writes it |
| AgentRuntime.ProtocolFileUnderFgroot | fgo/agent/agent.py:327-331 | below an FG_ROOT with components the protocol file is `str(Path(fgroot))`, the OS separator, `Protocol`, the separator and `fgo.xml`, whatever separators the FG_ROOT text ends in |
| AgentRuntime.FgrootTrailingSeparator | fgo/agent/agent.py:314-331 | a separator after FG_ROOT's last component changes neither the stored Path nor the protocol file checked below it |
| AgentRuntime.LinuxFgrootCandidate | fgo/agent/util.py:89-90 | the Linux candidate `/usr/share/games/flightgear/` ends in a separator, which the stored Path drops, and the protocol file is looked for below the text without it |
| AgentRuntime.ProtocolFileErrorSpec | fgo/agent/agent.py:323-341 | the protocol file is checked only after fgroot passed; it fails exactly when `Path(fgroot, 'Protocol', 'fgo.xml')` is missing or differs, with the matching error code quoting that path |
| AgentRuntime.FghomeStepSpec | fgo/agent/agent.py:343-355 | the fghome check raises exactly when the path is bad and the finder raises (an unknown OS, or Windows without USERPROFILE), keeps the config when it fails, passes only with an existing path, and changes at most the fghome path, to the Path the finder built |
| AgentRuntime.FghomeStep | fgo/agent/agent.py:343-355 | the fghome check: an existing finder Path replaces a bad path (contract in `FghomeStepSpec`) |
| AgentRuntime.AircraftStep | fgo/agent/agent.py:357-369 | the aircraft check: after fghome passed, an existing `Path(FG_HOME, 'Aircraft')` replaces a bad path (contract in `AircraftStepSpec`) |
| AgentRuntime.AircraftStepSpec | fgo/agent/agent.py:357-369 | the aircraft check passes only with an existing path, replaces the path only by `Path(FG_HOME, 'Aircraft')`, and after a failed fghome check only checks the path |
| AgentRuntime.ProbeSpec | fgo/agent/agent.py:376-412 | the version probe runs only when no check failed and keeps the config; it raises the parse's exception exactly when it runs on output the parse cannot read; a failed probe adds exactly one FG_VERSION_CHECK_FAILED error with its description; a reported version is remembered with its FGAddon branch URL |
| AgentRuntime.Probe | fgo/agent/agent.py:376-412 | the version probe, run only when nothing failed (contract in `ProbeSpec`) |
| AgentRuntime.EnvRaisesOnlyFor | fgo/agent/agent.py:288-412 | the environment check raises only on an unknown OS, on Windows without USERPROFILE, or on version output the parse cannot read |
| AgentRuntime.AfterFgfsRaisesOnlyFor | fgo/agent/agent.py:306-412 | the checks after fgfs raise only for one of those three causes |
| AgentRuntime.AfterProtocolRaisesOnlyFor | fgo/agent/agent.py:343-412 | the checks after the protocol file raise only for one of those three causes |
| AgentRuntime.MissingUserProfileRaises | fgo/agent/agent.py:343-355 | on Windows without USERPROFILE and with FG_HOME unset, the fghome check raises KeyError('USERPROFILE') and the outcome carries the config the earlier checks already changed |
| AgentRuntime.AfterProtocolClean | fgo/agent/agent.py:343-374 | with fgfs set and fgroot existing, a clean finish leaves fgfs set and fgroot, fghome and aircraft existing |
| AgentRuntime.AfterProtocolMemo | fgo/agent/agent.py:343-412 | the checks after the protocol file pass exactly when the version is remembered, which needs no earlier error and a reported version |
| AgentRuntime.AfterFgfsClean | fgo/agent/agent.py:306-412 | the checks after fgfs pass exactly when the version is remembered, and then fgfs passed and every path is ready |
| AgentRuntime.CleanEnvironment | fgo/agent/agent.py:288-412 | the environment check passes exactly when it remembers the reported version and its FGAddon URL, and then every path is ready |
| AgentRuntime.TimedeltaSeconds | fgo/agent/agent.py:194 | `timedelta.seconds` lies in [0, 86400) and equals the elapsed time when that is under a day |
| AgentRuntime.StartupElapsed | fgo/agent/agent.py:192-195 | the startup wait is over exactly when the elapsed time has reached `fgfs_startup_time` |
| AgentRuntime.AsWrittenNeverElapsesADay | fgo/agent/agent.py:194 | a startup time of a day or more never elapses as written, although it has elapsed |
| AgentRuntime.ClockStepBackAsWritten | fgo/agent/agent.py:194 | a clock one second behind the spawn time ends a 60-second wait at once as written |
| AgentRuntime.StartupElapsedAgrees | fgo/agent/agent.py:192-195 | the intended wait, once over, stays over, and agrees with line 194 whenever less than a day has passed |
| AgentRuntime.ScanningStep | fgo/agent/agent.py:104-113 | SCANNING escapes exactly when the environment check raised, and otherwise moves to READY with no errors or to ERROR with the errors found, recording the discovered OS and the checked config |
| AgentRuntime.InstallingStep | fgo/agent/agent.py:115-169 | INSTALLING_AIRCRAFT moves to READY exactly when svn succeeded, to ERROR with one error otherwise, and escapes only when svn is missing while updating an existing aircraft |
| AgentRuntime.StartRequestedStep | fgo/agent/agent.py:171-190 | FGFS_START_REQUESTED escapes exactly when there are no arguments or the spawn failed, and otherwise moves to FGFS_STARTING with the new process and its spawn time |
| AgentRuntime.StartingStep | fgo/agent/agent.py:192-195 | FGFS_STARTING moves to FGFS_RUNNING exactly when the elapsed time has reached `fgfs_startup_time` (the corrected rule, not line 194's `.seconds`; see Findings), and changes nothing else |
| AgentRuntime.RunningStep | fgo/agent/agent.py:197-218 | FGFS_RUNNING is unchanged while the process runs; an exit drops the handle and moves to READY on code 0 and to ERROR with one error otherwise |
| AgentRuntime.StopRequestedStep | fgo/agent/agent.py:220-223 | FGFS_STOP_REQUESTED terminates the process and moves to READY; the terminated handle stays because line 238 writes `next_fg_process` back |
| AgentRuntime.Rebuild | fgo/agent/agent.py:229-238 | the rebuilt Info carries the decided status and errors and the tick's timestamp, and the context keeps config, state meta and process handle |
| AgentRuntime.Tick | fgo/agent/agent.py:84-242 | a stopped agent is unchanged; a tick keeps running, uuid and aircraft; in READY or ERROR it only refreshes the timestamp and uuid |
| AgentRuntime.TickRunsBranch | fgo/agent/agent.py:104-238 | a running agent's tick applies the branch for its status and rebuilds the Info from it |
| AgentRuntime.Decide | fgo/agent/agent.py:102-227 | the branch of `_check_status` for the current status; READY and ERROR keep everything (contracts in the `*Step` rows) |
| AgentRuntime.Scan | fgo/agent/agent.py:104-108 | `_check_environment` on the OS `discover_os` names and the context's config (contract in `ScanIsSound`) |
| AgentRuntime.Escaped | fgo/agent/agent.py:84-113 | when an exception escapes a tick, Info, state meta and process handle are unchanged, and the config differs only after a scan that raised, holding the paths its earlier checks stored |
| AgentRuntime.InitialValid | fgo/agent/agent.py:31-65 | a new agent satisfies the context invariant |
| AgentRuntime.ScanIsSound | fgo/agent/agent.py:288-412 | every environment check is sound, and raises only on an unknown OS, on Windows without USERPROFILE, or on version output the parse cannot read |
| AgentRuntime.ScanningKeepsValid | fgo/agent/agent.py:104-113 | a completed scan keeps the context invariant |
| AgentRuntime.TickPreservesValid | fgo/agent/agent.py:84-242 | every completed tick after a sound environment check keeps the context invariant |
| AgentRuntime.ValidTickEscapes | fgo/agent/agent.py:84-242 | in a valid context a tick raises exactly when scanning and the environment check raised (for one of its three causes), when svn is missing while updating an existing aircraft, or when the spawn failed |
| AgentRuntime.Agent.constructor | fgo/agent/agent.py:31-65 | a new agent is stopped, in SCANNING, with an empty context |
| AgentRuntime.Agent.Run | fgo/agent/agent.py:67-70 | `run()` marks the agent running and changes nothing else |
| AgentRuntime.Agent.CheckFgfs | fgo/agent/agent.py:292-304 | the in-place fgfs check agrees with its specification and changes only the config |
| AgentRuntime.Agent.CheckFgroot | fgo/agent/agent.py:306-321 | the in-place fgroot check agrees with its specification, storing `Path(candidate)`, and changes only the config |
| AgentRuntime.Agent.CheckFghome | fgo/agent/agent.py:343-355 | the in-place fghome check agrees with its specification, including the KeyError without USERPROFILE, and changes only the config |
| AgentRuntime.Agent.CheckAircraft | fgo/agent/agent.py:357-369 | the in-place aircraft check agrees with its specification, storing `Path(FG_HOME, 'Aircraft')`, and changes only the config |
| AgentRuntime.Agent.CheckEnvironment | fgo/agent/agent.py:288-412 | `_check_environment` returns what its specification says and leaves the config the checks reached, also when it raises after earlier checks stored paths |
| AgentRuntime.Agent.CheckAfterFgfs | fgo/agent/agent.py:306-412 | the checks after fgfs agree with their specification and leave the config they reached, also when they raise |
| AgentRuntime.Agent.CheckAfterProtocol | fgo/agent/agent.py:343-412 | the checks after the protocol file agree with their specification and leave the config they reached, also when they raise |
| AgentRuntime.Agent.CheckAfterFghome | fgo/agent/agent.py:355-375 | after the fghome check, the aircraft and terrasync checks add their errors in that order and the probe runs on the config the aircraft check reached; only the config changes |
| AgentRuntime.Agent.ProbeVersion | fgo/agent/agent.py:376-412 | the version probe agrees with its specification and changes nothing |
| AgentRuntime.Agent.Initial | fgo/agent/agent.py:94-100 | the `next_*` values start as the current status, OS, errors and process handle |
| AgentRuntime.Agent.ScanningTick | fgo/agent/agent.py:104-113 | the SCANNING branch completes exactly when its specification does, with the same decision; when it raises, only the config has changed, to the one the checks reached |
| AgentRuntime.Agent.RecordScan | fgo/agent/agent.py:105-113 | recording a passed environment check reaches the decision the specification takes |
| AgentRuntime.Agent.InstallingTick | fgo/agent/agent.py:115-169 | the INSTALLING_AIRCRAFT branch reaches the decision its specification takes |
| AgentRuntime.Agent.StartRequestedTick | fgo/agent/agent.py:171-190 | the FGFS_START_REQUESTED branch reaches the decision its specification takes, and changes nothing when it raises |
| AgentRuntime.Agent.StartingTick | fgo/agent/agent.py:192-195 | the FGFS_STARTING branch reaches the decision its specification takes, with the corrected startup rule |
| AgentRuntime.Agent.RunningTick | fgo/agent/agent.py:197-218 | the FGFS_RUNNING branch reaches the decision its specification takes |
| AgentRuntime.Agent.StopRequestedTick | fgo/agent/agent.py:220-223 | the FGFS_STOP_REQUESTED branch reaches the decision its specification takes, clearing the handle in the context before line 238 writes it back |
| AgentRuntime.Agent.CheckStatus | fgo/agent/agent.py:84-242 | `_check_status()` completes exactly when the tick specification does and leaves the state it gives; when an exception escapes it leaves the state `Escaped` describes; the Timer is re-armed exactly when a running agent completed its tick, so an escape or a stopped agent ends the ticking |
| ParkingCacheUpdater.FreshCacheIsKept | fgo/director/parking_cache_updater_worker.py:24-33 | a cache modified at most sixty days ago is not downloaded again |
| ParkingCacheUpdater.NeedsDownload | fgo/director/parking_cache_updater_worker.py:24-33 | `needs_download`: the cache is missing or older than sixty days (contracts in the three lemmas below) |
| ParkingCacheUpdater.StaleCacheIsRefreshed | fgo/director/parking_cache_updater_worker.py:24-33 | a cache older than sixty days is downloaded again |
| ParkingCacheUpdater.StaleStaysStale | fgo/director/parking_cache_updater_worker.py:33 | once a cache needs downloading it keeps needing it as time goes on |
| ParkingCacheUpdater.Directories | fgo/director/parking_cache_updater_worker.py:36-39 | each leading character of the code becomes one directory level |
| ParkingCacheUpdater.GroundnetUrl | fgo/director/parking_cache_updater_worker.py:36-39 | the groundnet URL, two directory levels for a three-letter code and three otherwise (contract in `UrlLayout`) |
| ParkingCacheUpdater.UrlLayout | fgo/director/parking_cache_updater_worker.py:25-39 | a code shorter than three characters raises IndexError; otherwise the URL is the scenery base, two directory levels for a three-character code and three for a longer one, then the groundnet file name |
| ParkingCacheUpdater.DigitValue | fgo/director/parking_cache_updater_worker.py:65 | a decimal digit denotes its offset from `'0'` |
| ParkingCacheUpdater.DigitsOfNat | fgo/director/parking_cache_updater_worker.py:65 | `str(n)` of a natural number is all digits and reads back as `n` |
| ParkingCacheUpdater.StripUnpadded | fgo/director/parking_cache_updater_worker.py:54 | text with no whitespace at either end is its own strip |
| ParkingCacheUpdater.ParseUnsigned | fgo/director/parking_cache_updater_worker.py:65 | `int()` of a run of digits is the number it denotes |
| ParkingCacheUpdater.ParsesUnpadded | fgo/director/parking_cache_updater_worker.py:65 | `int()` of signed digits without surrounding whitespace is the number they denote |
| ParkingCacheUpdater.MinusNegates | fgo/director/parking_cache_updater_worker.py:65 | a leading minus negates the digits after it |
| ParkingCacheUpdater.NegativeDigits | fgo/director/parking_cache_updater_worker.py:65 | a minus sign before a run of digits denotes the negated number |
| ParkingCacheUpdater.NegatedDigitsParse | fgo/director/parking_cache_updater_worker.py:65 | `int()` of a minus sign followed by digits is the negated number they denote |
| ParkingCacheUpdater.NegativeRoundTrip | fgo/director/parking_cache_updater_worker.py:65 | `int('-' + str(n)) == -n` for every natural number |
| ParkingCacheUpdater.NatRoundTrip | fgo/director/parking_cache_updater_worker.py:65 | `int(str(n)) == n` for every natural number |
| ParkingCacheUpdater.IntRoundTrip | fgo/director/parking_cache_updater_worker.py:65 | `int(str(i)) == i` for every integer |
| ParkingCacheUpdater.ParseIntRejects | fgo/director/parking_cache_updater_worker.py:65 | an empty index or a lone sign raises ValueError |
| ParkingCacheUpdater.Attribute | fgo/director/parking_cache_updater_worker.py:54-67 | reading an attribute succeeds exactly when the element has it, with its value, and raises KeyError otherwise |
| ParkingCacheUpdater.RecordOf | fgo/director/parking_cache_updater_worker.py:53-72 | the ParkingRecord of one `Parking` element (contract in `RecordRules`) |
| ParkingCacheUpdater.RecordRules | fgo/director/parking_cache_updater_worker.py:53-72 | a record is made exactly when the element has airline codes, an integer index, a type and a name; it belongs to the airport, its codes and number are stripped (number `''` when absent), and it has airline codes exactly when they are not empty |
| ParkingCacheUpdater.CollectOnePerElement | fgo/director/parking_cache_updater_worker.py:53-72 | the loop yields one result per element, in order, exactly when no element raises |
| ParkingCacheUpdater.CollectFirstFailure | fgo/director/parking_cache_updater_worker.py:53-72 | otherwise it raises what the first element that fails raises |
| ParkingCacheUpdater.CollectStep | fgo/director/parking_cache_updater_worker.py:62-72 | one more element that succeeds appends its record |
| ParkingCacheUpdater.CollectStopsAtFailure | fgo/director/parking_cache_updater_worker.py:53-72 | once an element raises, the loop's outcome is that exception |
| ParkingCacheUpdater.AppendRecords | fgo/director/parking_cache_updater_worker.py:53-72 | the loop over the `Parking` elements appends exactly the records of its specification, or raises what it raises |
| ParkingCacheUpdater.Run | fgo/director/parking_cache_updater_worker.py:22-77 | `run` requests, writes and emits what its specification says |
| ParkingCacheUpdater.RunSpec | fgo/director/parking_cache_updater_worker.py:22-77 | what one `run` requests, writes and emits (contracts in `Run`, `RunEmitsCode` and `RunFailures`) |
| ParkingCacheUpdater.RunEmitsCode | fgo/director/parking_cache_updater_worker.py:33-77 | with a fresh cache nothing is requested or written and no records are emitted; an emitted signal carries the airport code and only records of that airport |
| ParkingCacheUpdater.RunFailures | fgo/director/parking_cache_updater_worker.py:33-77 | a non-200 answer writes nothing and emits no records; the run raises exactly for a stale cache with a code under three characters or a malformed document; the cache is written exactly after a 200 answer |
| WebPanelRecord.UrlShape | fgo/director/web_panel_record.py:9-10 | the panel URL is `http://`, the host address, a colon, then port 8080 and the WebPanel path with the file name |
| WebPanelRecord.GenerateUrl | fgo/director/web_panel_record.py:9-10 | the panel's URL on port 8080 of the agent's host (contract in `UrlReadsBack`) |
| WebPanelRecord.GenerateLinkTag | fgo/director/web_panel_record.py:12-13 | an anchor to the panel's URL labelled with its name (contract in `LinkTargetsUrl`) |
| WebPanelRecord.PortThenPath | fgo/director/web_panel_record.py:10 | after the port, the first `/` starts the panel path |
| WebPanelRecord.UrlReadsBack | fgo/director/web_panel_record.py:9-10 | a URL made for a host address without `:` parses back to that host, port 8080 and the panel's path |
| WebPanelRecord.LinkTargetsUrl | fgo/director/web_panel_record.py:12-13 | the link tag's `href` is the URL generated for the same host, for a URL with no `"` in it (a `"` in the host or panel path would end the attribute early) |

## Left out

- Concurrency is not modelled. This covers the context lock, the `threading.Timer` that re-arms the tick, `atexit` shutdown and the Qt worker threads and signals. Each tick and each command is one sequential method. `AgentRuntime.Agent.CheckStatus` reports whether the Timer is re-armed: only after a completed tick of a running agent (fgo/agent/agent.py:240-242), so an exception that escapes a tick, or a tick of a stopped agent, ends the ticking for good.
- Paths: a WindowsPath drive such as `C:` is read as an ordinary first component. That gives the same text for paths like `C:\Users\x`, but not for a bare drive, a drive-relative path or a UNC share. Also not modelled are `Path(a, b)` keeping the drive of `a` when `b` is rooted on Windows, and the case-insensitive comparison of WindowsPath. `Path.home()` is a field of `Host`.
- Agent side effects are inputs, not modelled. They are the svn clients, `subprocess` spawn/poll/terminate, `Path.exists`, the `filecmp` protocol-file comparison, `winreg`, `platform.system()`, `GetLogicalDrives()` and the file-system glob.
- `config.assemble_fgfs_env_vars()` and the environment passed to `Popen` are not modelled. The spawned command line is.
- AgentRuntime.ValidTickEscapes: an exception that `config.assemble_fgfs_env_vars()` raises at fgo/agent/agent.py:173 is not among the escapes it lists, because the environment assembly is not modelled.
- Log messages are not modelled.
- The `_shutdown`, zeroconf and Flask/GraphQL app parts of fgo/agent/agent.py are not modelled. The same goes for the linux/darwin `find_fgfs`/`find_fghome` lookups, which shell out to `which` or read the environment; their answers are fields of `Host`.
- `session_args.assemble_args()` of the GraphQL input type is not modelled. The arguments it produces are a parameter of `Mutations.Start`.
- AgentRuntime.ProbeSpec: the output of `fgfs --version` is not parsed with the regex of fgo/agent/agent.py:403-407. The probe's outcome is given: a version, a failure message, or the exception the parse raises on output it cannot read.
- AgentRuntime.StartingStep: the tick runs the corrected startup rule `StartupElapsed` (elapsed time at least `fgfs_startup_time`), not line 194's `.seconds`, which wraps every day; the code as written is `StartupElapsedAsWritten`, and the Findings table shows where the two differ. The clock is an integer number of seconds, where `datetime` carries microseconds.
- AgentRuntime.Agent.StartingTick: runs the same corrected rule as `StartingStep`.
- AgentRuntime.Tick: the outcome of the environment check is a parameter. `AgentRuntime.Agent.CheckStatus` shows it is the outcome `Scan` gives for the current config.
- Director network calls are not modelled: `requests.get`, the `gql` `Client` and `execute` calls, and zeroconf discovery. Their answers are parameters (`Response`, `Connect`'s outcome, the set-directories result).
- The BeautifulSoup parse is not modelled; the `Parking` elements it finds are given. The cache file write is modelled as the text written.
- The `gql()` parse of the built mutation texts is not modelled, nor are the static query strings of fgo/gql/queries.py.
- PyValues.Repr: strings are quoted with single quotes and never escaped. This covers the values the queries render, but not strings that contain quotes or backslashes.
- PyValues.Strip, PyValues.Upper and ParkingCacheUpdater.ParseInt: only ASCII whitespace, ASCII letters and ASCII digits are recognised, and underscores between digits are not accepted. Python also strips Unicode whitespace, accepts Unicode digits, and `str.upper` maps every cased character (`'ß'` becomes `'SS'`, changing the length). `Queries.TimeOfDayUpperCased` is stated for this ASCII `Upper`.
- Configuration.Config.Save: the YAML dump and file write are not modelled. `Config.load` and `merge_namespace` are not modelled either, since they are file and argparse plumbing. As written, `load` also calls `cls()` without the path its constructor requires (fgo/config.py:31 against 60).
- CustomAgentSettings.ApplyUpdateDict: modelled as a function returning the updated settings. The in-place update of `self` and the returned alias to it are not captured.
- Registry.Registry.HandleAgentFound and the other handlers: a registered agent is a value in the dicts. The source moves one object between the alive and dead dicts and flips its `online` flag in place; aliasing by other holders of that object is not captured.
- The handlers require `Registry.Valid`, meaning keys are agent uuids and the two dicts are disjoint. This is the invariant a new registry has and that every handler keeps.
- Python `==` on the values compared in fgo/director/queries.py is `Value` equality.
- The scenario the queries read is a record of `Value`s, not a `ScenarioSettings` instance.
- The Qt UI, the SQL data-build scripts, the older fgo/agent.py copy, the stale fgo/gql/types.py, fgo/cli.py, fgo/util.py and the setup scripts are not part of this model.

## Behaviour worth knowing

- **Stop:** the stop command is accepted only in FGFS_RUNNING; in FGFS_STARTING it is refused (fgo/gql/mutations.py:137).
- **Stop handle:** FGFS_STOP_REQUESTED clears the process handle at fgo/agent/agent.py:222, but line 238 writes back `next_fg_process`, so the context keeps the terminated handle (`AgentRuntime.StopRequestedStep`).
- **Start:** the start command only records the arguments; FGFS_START_REQUESTED spawns fgfs on the next tick.
- **Startup wait:** line 194 compares `timedelta.seconds` with `fgfs_startup_time`; see Findings. The model's tick uses the elapsed time, at least `fgfs_startup_time`.
- **Paths set by `setConfig`:** they are stored as the str that arrived, while the environment check stores Paths; `resolve_ai_scenarios` then fails on a str FG_ROOT (see Findings).
- **Found events:** these match a known agent by uuid only. There is no fallback match by host. An unmatched uuid overwrites any alive entry with that uuid.
- **Removed events:** these move the agent to the dead dict; the record is kept.

## Findings

| source | as written | input that shows it | evidently intended | confidence | as-written member | corrected member |
|---|---|---|---|---|---|---|
| fgo/agent/agent.py:194 | `(now - spawn).seconds >= fgfs_startup_time` reads only the seconds part of the `timedelta`, which drops whole days and is never negative | `fgfs_startup_time` of 86400 or more never elapses. A clock one second behind the spawn time gives `.seconds == 86399`, which ends a 60-second wait at once | the total elapsed time reaches `fgfs_startup_time` | not executed | AgentRuntime.AsWrittenNeverElapsesADay, AgentRuntime.ClockStepBackAsWritten | AgentRuntime.StartupElapsed, AgentRuntime.StartupElapsedAgrees |
| fgo/director/queries.py:211-212 | reads `custom_settings.view_heading_offset` and `view_pitch_offset`, which `CustomAgentSettings` does not define (it has `view_offset`, fgo/director/custom_agent_settings.py:23) | any settings whose earlier lines render: `StartFlightGear` raises AttributeError | no view offset is sent when the settings have none | not executed | Queries.StartAsWrittenRaises | Queries.NoViewOffsetEmitted |
| fgo/gql/schema.py:40 | `fgroot_path.glob(...)` on the configured FG_ROOT, which is a str after a `setConfig` mutation (fgo/gql/mutations.py:78) and a Path only when the environment check found it | `setConfig(key: "fgroot_path", value: "/x")`, then the `aiScenarios` query: `'str' object has no attribute 'glob'` | the scenarios under FG_ROOT are listed whichever way the path was set | not executed | Schema.AiScenariosAsWritten, Schema.SetFgrootBreaksAiScenarios | Schema.AiScenarios, Schema.AiScenariosIntended |
