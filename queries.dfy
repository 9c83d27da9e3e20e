/** The mutation texts the director sends to agents, fgo/director/queries.py:
    the install request, the set-directories request and the start-session
    request that merges a scenario with one agent's custom settings.

    `StartFlightGear` builds its argument block by rebinding `memo` to
    `memo + line` once per emitted argument; the model keeps `memo` as the
    sequence of those lines (`Arg`s) and `Render` gives the text. The
    `gql()` parse of the final text is not modelled. */
module Queries {
  import opened Wrappers
  import opened Dicts
  import opened PyValues
  import CAS = CustomAgentSettings
  import opened AgentDirectorySettings

  // ---------------------------------------------------------------------
  // AircraftInstallQuery

  const InstallPrefix: string := "\nmutation {\n  installOrUpdateAircraft(svnName: \""
  const InstallSuffix: string := "\") {\n    ok\n    error\n  }\n}\n"

  /** `AircraftInstallQuery(aircraft)`, after `textwrap.dedent` (a name
      without line breaks). */
  function AircraftInstallQuery(aircraft: Value): string {
    InstallPrefix + Str(aircraft) + InstallSuffix
  }

  /** The name an agent reads back from an install request. */
  function SvnName(query: string): (name: string)
    requires |InstallPrefix| + |InstallSuffix| <= |query|
  {
    query[|InstallPrefix|..|query| - |InstallSuffix|]
  }

  /** The request carries the aircraft's `str()` as its `svnName`, and the
      request text differs exactly when the name does. */
  lemma InstallQueryCarriesName(aircraft: Value, other: Value)
    ensures |InstallPrefix| + |InstallSuffix| <= |AircraftInstallQuery(aircraft)|
    ensures SvnName(AircraftInstallQuery(aircraft)) == Str(aircraft)
    ensures AircraftInstallQuery(aircraft) == AircraftInstallQuery(other) <==> Str(aircraft) == Str(other)
  {
    var q := AircraftInstallQuery(aircraft);
    assert q[|InstallPrefix|..|q| - |InstallSuffix|] == Str(aircraft);
    if AircraftInstallQuery(aircraft) == AircraftInstallQuery(other) {
      var q' := AircraftInstallQuery(other);
      assert q'[|InstallPrefix|..|q'| - |InstallSuffix|] == Str(other);
    }
  }

  // ---------------------------------------------------------------------
  // SetDirectoriesQuery

  /** `none_or_mutated_string`: None becomes the empty string, every
      backslash is doubled, and the result is put in double quotes. A value
      that is neither None nor a string has no `replace`. */
  function NoneOrMutatedString(val: Value): (r: Result<string>)
    ensures r.Ok? <==> val.VNone? || val.VStr?
  {
    match val
    case VNone => Ok("\"\"")
    case VStr(s) => Ok("\"" + ReplaceChar(s, '\\', "\\\\") + "\"")
    case _ => Raised(AttributeError("replace"))
  }

  /** How GraphQL reads a doubled backslash back: the inverse of the
      doubling. */
  function Unescape(t: string): string {
    if |t| >= 2 && t[0] == '\\' && t[1] == '\\' then "\\" + Unescape(t[2..])
    else if t == [] then []
    else [t[0]] + Unescape(t[1..])
  }

  lemma {:induction false} UnescapeDoubled(s: string)
    ensures Unescape(ReplaceChar(s, '\\', "\\\\")) == s
  {
    if s != [] {
      var rest := ReplaceChar(s[1..], '\\', "\\\\");
      assert ReplaceChar(s, '\\', "\\\\") == (if s[0] == '\\' then "\\\\" else [s[0]]) + rest;
      UnescapeDoubled(s[1..]);
      if s[0] == '\\' {
        assert ("\\\\" + rest)[2..] == rest;
      } else {
        assert ([s[0]] + rest)[1..] == rest;
      }
    }
  }

  /** The quoted text: None and `""` render alike; otherwise the text
      between the quotes reads back as the original string. */
  lemma QuotedValueReadsBack(val: Value)
    requires val.VNone? || val.VStr?
    ensures var t := NoneOrMutatedString(val).value;
      |t| >= 2 && t[0] == '"' && t[|t| - 1] == '"' &&
      Unescape(t[1..|t| - 1]) == (if val.VStr? then val.s else "")
  {
    var t := NoneOrMutatedString(val).value;
    if val.VStr? {
      var inner := ReplaceChar(val.s, '\\', "\\\\");
      assert t[1..|t| - 1] == inner;
      UnescapeDoubled(val.s);
    } else {
      assert t[1..|t| - 1] == [];
    }
  }

  /** None and the empty string are sent alike. */
  lemma NoneSentAsEmptyString()
    ensures NoneOrMutatedString(VNone) == NoneOrMutatedString(VStr(""))
  {
    assert ReplaceChar("", '\\', "\\\\") == [];
    assert "\"" + [] + "\"" == "\"\"";
  }

  /** The aliases of the five calls, which the caller checks for null. */
  const SetConfigAliases: seq<string> := ["flightgear_executable", "fgroot_path", "fghome_path", "terrasync_path", "aircraft_path"]

  /** The config keys the five calls set on the agent. */
  const SetConfigKeys: seq<string> := ["fgfs_path", "fgroot_path", "fghome_path", "terrasync_path", "aircraft_path"]

  /** The directory each call sends. */
  const SetConfigFields: seq<DirField> := [FlightgearExecutable, FgrootPath, FghomePath, TerrasyncPath, AircraftPath]

  /** Call `i` of the mutation, one line of the dedented text. */
  function SetConfigCall(d: Directories, i: nat): Result<string>
    requires i < |SetConfigFields|
  {
    var value :- NoneOrMutatedString(d.Field(SetConfigFields[i]));
    Ok("    " + SetConfigAliases[i] + ": setConfig(key: \"" + SetConfigKeys[i] + "\", value: " + value + ") { ok error }\n")
  }

  /** Calls `i` to 4, in order; the first value without `replace` raises. */
  function SetConfigCalls(d: Directories, i: nat): Result<string>
    requires i <= |SetConfigFields|
    decreases |SetConfigFields| - i
  {
    if i == |SetConfigFields| then Ok("")
    else
      var call :- SetConfigCall(d, i);
      var rest :- SetConfigCalls(d, i + 1);
      Ok(call + rest)
  }

  /** `SetDirectoriesQuery`, after `textwrap.dedent` (paths without line
      breaks). */
  function SetDirectoriesQuery(d: Directories): Result<string> {
    var calls :- SetConfigCalls(d, 0);
    Ok("mutation {\n" + calls + "}\n")
  }

  /** The call that sends directory `f`. */
  function FieldIndex(f: DirField): (i: nat)
    ensures i < |SetConfigFields| && SetConfigFields[i] == f
  {
    match f
    case FlightgearExecutable => 0
    case FgrootPath => 1
    case FghomePath => 2
    case TerrasyncPath => 3
    case AircraftPath => 4
  }

  /** Usable directories: each is None or a string. */
  predicate Sendable(d: Directories) {
    forall f :: d.Field(f).VNone? || d.Field(f).VStr?
  }

  lemma {:induction false} SetConfigCallsOk(d: Directories, i: nat)
    requires i <= |SetConfigFields|
    decreases |SetConfigFields| - i
    ensures SetConfigCalls(d, i).Ok? <==> forall j :: i <= j < |SetConfigFields| ==> SetConfigCall(d, j).Ok?
  {
    if i < |SetConfigFields| {
      SetConfigCallsOk(d, i + 1);
    }
  }

  /** The text can be built exactly when every directory is None or a
      string. */
  lemma SetDirectoriesNeedsSendable(d: Directories)
    ensures SetDirectoriesQuery(d).Ok? <==> Sendable(d)
  {
    SetConfigCallsOk(d, 0);
    if Sendable(d) {
      assert forall j :: 0 <= j < |SetConfigFields| ==> SetConfigCall(d, j).Ok?;
    } else {
      var f :| !(d.Field(f).VNone? || d.Field(f).VStr?);
      assert SetConfigCall(d, FieldIndex(f)).Raised?;
    }
  }

  /** The text is exactly the five calls, in the order of `SetConfigKeys`. */
  lemma SetDirectoriesIsFiveCalls(d: Directories)
    requires SetDirectoriesQuery(d).Ok?
    ensures SetDirectoriesQuery(d).value == "mutation {\n" + (SetConfigCall(d, 0).value + (SetConfigCall(d, 1).value
        + (SetConfigCall(d, 2).value + (SetConfigCall(d, 3).value + SetConfigCall(d, 4).value)))) + "}\n"
  {
    var c0, c1, c2, c3, c4 := SetConfigCall(d, 0).value, SetConfigCall(d, 1).value, SetConfigCall(d, 2).value,
      SetConfigCall(d, 3).value, SetConfigCall(d, 4).value;
    assert SetConfigCalls(d, 4).value == c4;
    assert SetConfigCalls(d, 3).value == c3 + c4;
    assert SetConfigCalls(d, 2).value == c2 + (c3 + c4);
    assert SetConfigCalls(d, 1).value == c1 + (c2 + (c3 + c4));
    assert SetConfigCalls(d, 0).value == c0 + (c1 + (c2 + (c3 + c4)));
  }

  /** Each call's key is the one the agent's config query maps back to the
      directory that call carries. */
  lemma SetConfigKeysMapBack(i: nat)
    requires i < |SetConfigKeys|
    ensures Target(SetConfigKeys[i]) == Some(SetConfigFields[i])
  {
  }

  // ---------------------------------------------------------------------
  // StartFlightGear

  /** The session arguments `StartFlightGear` can emit. */
  datatype ArgKey =
    | Aircraft | AircraftVariant | AiScenario | AirportCode | Carrier | Ceiling
    | EnableAutoCoordination | Runway | Parkpos | TerrasyncHttpServer | TimeOfDay
    | VisibilityMeters | AdditionalArgs | DisableAi | DisableAiTraffic | DisableAntiAliasHud
    | DisableHud | DisablePanel | DisableSound | EnableClouds | EnableClouds3d
    | EnableFullscreen | EnableTerrasync | EnableTelnetServer | EnableRealWeatherFetch
    | EnableWebServer | Fov | ViewHeadingOffset | ViewPitchOffset | Role | ClientIpAddresses

  /** The GraphQL name of an argument. */
  function Name(k: ArgKey): string {
    match k
    case Aircraft => "aircraft"
    case AircraftVariant => "aircraftVariant"
    case AiScenario => "aiScenario"
    case AirportCode => "airportCode"
    case Carrier => "carrier"
    case Ceiling => "ceiling"
    case EnableAutoCoordination => "enableAutoCoordination"
    case Runway => "runway"
    case Parkpos => "parkpos"
    case TerrasyncHttpServer => "terrasyncHttpServer"
    case TimeOfDay => "timeOfDay"
    case VisibilityMeters => "visibilityMeters"
    case AdditionalArgs => "additionalArgs"
    case DisableAi => "disableAi"
    case DisableAiTraffic => "disableAiTraffic"
    case DisableAntiAliasHud => "disableAntiAliasHud"
    case DisableHud => "disableHud"
    case DisablePanel => "disablePanel"
    case DisableSound => "disableSound"
    case EnableClouds => "enableClouds"
    case EnableClouds3d => "enableClouds3d"
    case EnableFullscreen => "enableFullscreen"
    case EnableTerrasync => "enableTerrasync"
    case EnableTelnetServer => "enableTelnetServer"
    case EnableRealWeatherFetch => "enableRealWeatherFetch"
    case EnableWebServer => "enableWebServer"
    case Fov => "fov"
    case ViewHeadingOffset => "viewHeadingOffset"
    case ViewPitchOffset => "viewPitchOffset"
    case Role => "role"
    case ClientIpAddresses => "clientIpAddresses"
  }

  /** One `key: value` line of the argument block. */
  datatype Arg = Arg(key: ArgKey, text: string)

  function Line(a: Arg): string {
    "            " + Name(a.key) + ": " + a.text + "\n"
  }

  /** The text of `memo`. */
  function Render(memo: seq<Arg>): string {
    if memo == [] then "" else Render(memo[..|memo| - 1]) + Line(memo[|memo| - 1])
  }

  /** `apply_string_if_not_none`: the value's `str()` in double quotes. */
  function ApplyString(memo: seq<Arg>, key: ArgKey, value: Value): seq<Arg> {
    if value == VNone then memo else memo + [Arg(key, "\"" + Str(value) + "\"")]
  }

  /** `apply_boolean_if_not_none`: the value's truth as `true`/`false`. */
  function ApplyBoolean(memo: seq<Arg>, key: ArgKey, value: Value): seq<Arg> {
    if value == VNone then memo else memo + [Arg(key, if Truthy(value) then "true" else "false")]
  }

  /** `apply_value_if_not_none`: the value's `str()` as it is. */
  function ApplyValue(memo: seq<Arg>, key: ArgKey, value: Value): seq<Arg> {
    if value == VNone then memo else memo + [Arg(key, Str(value))]
  }

  /** Each helper leaves the text as it is for None and otherwise appends
      exactly one line for `key`; the boolean one writes only the literals
      `true` and `false`. */
  lemma ApplyAppendsOneLine(memo: seq<Arg>, key: ArgKey, value: Value)
    ensures value == VNone ==>
      ApplyString(memo, key, value) == memo && ApplyBoolean(memo, key, value) == memo && ApplyValue(memo, key, value) == memo
    ensures value != VNone ==>
      var s, b, v := ApplyString(memo, key, value), ApplyBoolean(memo, key, value), ApplyValue(memo, key, value);
      |s| == |b| == |v| == |memo| + 1 &&
      s[..|memo|] == b[..|memo|] == v[..|memo|] == memo &&
      s[|memo|].key == b[|memo|].key == v[|memo|].key == key &&
      Render(s) == Render(memo) + Line(s[|memo|]) && Render(b) == Render(memo) + Line(b[|memo|]) &&
      Render(v) == Render(memo) + Line(v[|memo|]) &&
      (b[|memo|].text == "true" <==> Truthy(value)) && (b[|memo|].text == "false" <==> !Truthy(value))
  {
    if value != VNone {
      var b := ApplyBoolean(memo, key, value);
      assert b[..|memo|] == memo;
      assert ApplyString(memo, key, value)[..|memo|] == memo;
      assert ApplyValue(memo, key, value)[..|memo|] == memo;
    }
  }

  /** The attributes of a `ScenarioSettings` that `StartFlightGear` reads.
      Every instance has all of them (`from_dict` starts from the
      defaults), so reading them cannot fail. */
  datatype Scenario = Scenario(
    aircraft: Value, aircraftVariant: Value, aiScenarios: Value,
    selectedAirportOption: Value, airport: Value, carrier: Value,
    ceiling: Value, enableAutoCoordination: Value,
    selectedRunwayOption: Value, runway: Value, parking: Value,
    terraSyncEndpoint: Value, timeOfDay: Value, visibilityInMeters: Value,
    primary: Value, secondaries: Value)

  /** Python's `v == n` for an int literal `n`: True and False equal 1 and 0. */
  predicate PyEq(v: Value, n: int) {
    v == VInt(n) || (v.VBool? && (if v.b then 1 else 0) == n)
  }

  /** `len(v)`; a number has none. */
  function Len(v: Value): Result<int> {
    match v
    case VStr(s) => Ok(|s|)
    case VList(xs) => Ok(|xs|)
    case VDict(d) => Ok(|d|)
    case _ => Raised(TypeError("len"))
  }

  /** `v.upper()`; only a string has it. */
  function UpperOf(v: Value): (r: Result<Value>)
    ensures r.Ok? <==> v.VStr?
  {
    if v.VStr? then Ok(VStr(Upper(v.s))) else Raised(AttributeError("upper"))
  }

  /** Lines 168-171: aircraft, variant and the list of AI scenarios. */
  function CommonArgs(s: Scenario): seq<Arg> {
    ApplyValue(ApplyString(ApplyString([], Aircraft, s.aircraft), AircraftVariant, s.aircraftVariant), AiScenario, s.aiScenarios)
  }

  /** Lines 173-176: the start airport, or the carrier. */
  function AirportArgs(memo: seq<Arg>, s: Scenario): seq<Arg> {
    if PyEq(s.selectedAirportOption, 1) then ApplyString(memo, AirportCode, s.airport)
    else if PyEq(s.selectedAirportOption, 2) then ApplyString(memo, Carrier, s.carrier)
    else memo
  }

  /** Lines 178-180: the ceiling and auto-coordination. */
  function WeatherArgs(memo: seq<Arg>, s: Scenario): seq<Arg> {
    ApplyBoolean(ApplyString(memo, Ceiling, s.ceiling), EnableAutoCoordination, s.enableAutoCoordination)
  }

  /** Lines 182-185: the runway, or the parking position. */
  function RunwayArgs(memo: seq<Arg>, s: Scenario): seq<Arg> {
    if PyEq(s.selectedRunwayOption, 1) then ApplyString(memo, Runway, s.runway)
    else if PyEq(s.selectedRunwayOption, 2) then ApplyString(memo, Parkpos, s.parking)
    else memo
  }

  /** Lines 187-191: the terrasync server, the upper-cased time of day and
      the visibility. */
  function EnvironmentArgs(memo: seq<Arg>, s: Scenario): Result<seq<Arg>> {
    var upper :- UpperOf(s.timeOfDay);
    Ok(ApplyValue(ApplyValue(ApplyString(memo, TerrasyncHttpServer, s.terraSyncEndpoint), TimeOfDay, upper),
                  VisibilityMeters, s.visibilityInMeters))
  }

  /** Lines 167-191: everything taken from the scenario. */
  function ScenarioArgs(s: Scenario): Result<seq<Arg>> {
    EnvironmentArgs(RunwayArgs(WeatherArgs(AirportArgs(CommonArgs(s), s), s), s), s)
  }

  /** Lines 194-195: the additional arguments, only when there are some,
      with each `'` turned into `"""`. */
  function AdditionalArgsArgs(memo: seq<Arg>, c: CAS.Settings): Result<seq<Arg>> {
    if c.additionalArgs == VNone then Ok(memo)
    else
      var n :- Len(c.additionalArgs);
      if n > 0 then Ok(ApplyValue(memo, AdditionalArgs, VStr(ReplaceChar(Str(c.additionalArgs), '\'', "\"\"\""))))
      else Ok(memo)
  }

  /** Lines 197-210: the agent's flags and field of view. */
  function FlagArgs(memo: seq<Arg>, c: CAS.Settings): seq<Arg> {
    var m1 := ApplyBoolean(ApplyBoolean(ApplyBoolean(memo, DisableAi, c.disableAi), DisableAiTraffic, c.disableAiTraffic),
                           DisableAntiAliasHud, c.disableAntiAliasHud);
    var m2 := ApplyBoolean(ApplyBoolean(ApplyBoolean(m1, DisableHud, c.disableHud), DisablePanel, c.disablePanel),
                           DisableSound, c.disableSound);
    var m3 := ApplyBoolean(ApplyBoolean(ApplyBoolean(m2, EnableClouds, c.enableClouds), EnableClouds3d, c.enableClouds3d),
                           EnableFullscreen, c.enableFullscreen);
    var m4 := ApplyBoolean(ApplyBoolean(ApplyBoolean(m3, EnableTerrasync, c.enableTerrasync), EnableTelnetServer, c.enableTelnetServer),
                           EnableRealWeatherFetch, c.enableRealWeatherFetch);
    ApplyValue(ApplyBoolean(m4, EnableWebServer, c.enableWebServer), Fov, c.fov)
  }

  /** Lines 194-212 as written: `CustomAgentSettings` has no
      `view_heading_offset`, so line 211 raises once the lines before it
      succeed. */
  function AgentArgsAsWritten(memo: seq<Arg>, c: CAS.Settings): Result<seq<Arg>> {
    var m1 :- AdditionalArgsArgs(memo, c);
    var m2 := FlagArgs(m1, c);
    Raised(AttributeError("view_heading_offset"))
  }

  /** Lines 194-212 as intended: the two view offsets the settings do not
      have read as None, so nothing is emitted for them. */
  function AgentArgs(memo: seq<Arg>, c: CAS.Settings): Result<seq<Arg>> {
    var m1 :- AdditionalArgsArgs(memo, c);
    var m2 := FlagArgs(m1, c);
    Ok(ApplyValue(ApplyValue(m2, ViewHeadingOffset, VNone), ViewPitchOffset, VNone))
  }

  /** The role value: PRIMARY for the primary, SECONDARY otherwise. */
  function RoleName(primary: bool): string {
    if primary then "PRIMARY" else "SECONDARY"
  }

  /** Lines 215-223: PRIMARY, with the secondaries' addresses (each `'`
      turned into `"`) unless they are None, or SECONDARY. */
  function RoleArgs(memo: seq<Arg>, hostname: Value, s: Scenario): seq<Arg> {
    if hostname == s.primary then
      var m := ApplyValue(memo, Role, VStr(RoleName(true)));
      if s.secondaries != VNone then ApplyValue(m, ClientIpAddresses, VStr(ReplaceChar(Str(s.secondaries), '\'', "\"")))
      else m
    else ApplyValue(memo, Role, VStr(RoleName(false)))
  }

  /** The dedented `wrapper` with the argument block substituted for `%s`. */
  function Wrap(block: string): string {
    "\nmutation {\n    startFlightGear(sessionArgs: {\n        " + block
      + "\n    }) {\n        assembledArgs\n        ok\n        error\n    }\n}\n"
  }

  /** The session arguments `StartFlightGear` emits for `hostname`. */
  function SessionArgs(hostname: Value, s: Scenario, c: CAS.Settings): Result<seq<Arg>> {
    var m1 :- ScenarioArgs(s);
    var m2 :- AgentArgs(m1, c);
    Ok(RoleArgs(m2, hostname, s))
  }

  /** `StartFlightGear` as written: it always raises (see `StartAsWrittenRaises`). */
  function StartFlightGearAsWritten(hostname: Value, s: Scenario, c: CAS.Settings): Result<string> {
    var m1 :- ScenarioArgs(s);
    var m2 :- AgentArgsAsWritten(m1, c);
    Ok(Wrap(Render(RoleArgs(m2, hostname, s))))
  }

  /** `StartFlightGear` with the two missing view offsets read as None. */
  function StartFlightGear(hostname: Value, s: Scenario, c: CAS.Settings): Result<string> {
    var args :- SessionArgs(hostname, s, c);
    Ok(Wrap(Render(args)))
  }

  /** A value without a length: `len` raises for it. */
  predicate Unsized(v: Value) {
    v.VBool? || v.VInt?
  }

  /** The corrected builder fails only on a time of day that is not a
      string (the default None included) or additional arguments without a
      length; the builder as written never produces a request, and raises
      for `view_heading_offset` exactly when the corrected one succeeds. */
  lemma StartAsWrittenRaises(hostname: Value, s: Scenario, c: CAS.Settings)
    ensures StartFlightGear(hostname, s, c).Raised? <==> !s.timeOfDay.VStr? || Unsized(c.additionalArgs)
    ensures StartFlightGearAsWritten(hostname, s, c).Raised?
    ensures StartFlightGear(hostname, s, c).Ok? <==>
      StartFlightGearAsWritten(hostname, s, c) == Raised(AttributeError("view_heading_offset"))
  {
    var sa := ScenarioArgs(s);
    ScenarioArgsFails(s);
    if sa.Raised? {
      assert SessionArgs(hostname, s, c) == Raised(sa.exception);
      assert StartFlightGearAsWritten(hostname, s, c) == Raised(AttributeError("upper"));
    } else {
      var ag := AgentArgs(sa.value, c);
      AgentArgsFails(sa.value, c);
      if ag.Raised? {
        assert SessionArgs(hostname, s, c) == Raised(ag.exception);
        assert StartFlightGearAsWritten(hostname, s, c) == Raised(ag.exception);
      } else {
        assert SessionArgs(hostname, s, c).Ok?;
        assert StartFlightGearAsWritten(hostname, s, c) == Raised(AttributeError("view_heading_offset"));
      }
    }
  }

  lemma ScenarioArgsFails(s: Scenario)
    ensures ScenarioArgs(s).Raised? <==> !s.timeOfDay.VStr?
    ensures ScenarioArgs(s).Raised? ==> ScenarioArgs(s).exception == AttributeError("upper")
  {
    TimeOfDayMustBeString(RunwayArgs(WeatherArgs(AirportArgs(CommonArgs(s), s), s), s), s);
  }

  /** The agent's part fails only for additional arguments without a
      length; as written it raises for `view_heading_offset` otherwise. */
  lemma AgentArgsFails(memo: seq<Arg>, c: CAS.Settings)
    ensures AgentArgs(memo, c).Raised? <==> Unsized(c.additionalArgs)
    ensures AgentArgsAsWritten(memo, c) ==
      if AgentArgs(memo, c).Ok? then Raised(AttributeError("view_heading_offset")) else AgentArgs(memo, c)
  {
    AdditionalArgsOnlyWhenNonEmpty(memo, c);
  }

  // ---------------------------------------------------------------------
  // What each stage emits

  /** A line for `key` is among `lines`. */
  predicate Emitted(lines: seq<Arg>, key: ArgKey) {
    exists i :: 0 <= i < |lines| && lines[i].key == key
  }

  /** Lines 173-176: option 1 emits the airport code, option 2 the carrier,
      any other option neither; at most one line is added. */
  lemma AirportOptionChoosesLine(memo: seq<Arg>, s: Scenario)
    ensures var r := AirportArgs(memo, s);
      |memo| <= |r| <= |memo| + 1 && r[..|memo|] == memo &&
      (Emitted(r[|memo|..], AirportCode) <==> PyEq(s.selectedAirportOption, 1) && s.airport != VNone) &&
      (Emitted(r[|memo|..], Carrier) <==> PyEq(s.selectedAirportOption, 2) && s.carrier != VNone)
  {
    if PyEq(s.selectedAirportOption, 1) {
      StringLineTail(memo, AirportCode, s.airport, Carrier);
    } else if PyEq(s.selectedAirportOption, 2) {
      StringLineTail(memo, Carrier, s.carrier, AirportCode);
    } else {
      assert memo[|memo|..] == [];
    }
  }

  /** Lines 182-185: option 1 emits the runway, option 2 the parking
      position, any other option neither. */
  lemma RunwayOptionChoosesLine(memo: seq<Arg>, s: Scenario)
    ensures var r := RunwayArgs(memo, s);
      |memo| <= |r| <= |memo| + 1 && r[..|memo|] == memo &&
      (Emitted(r[|memo|..], Runway) <==> PyEq(s.selectedRunwayOption, 1) && s.runway != VNone) &&
      (Emitted(r[|memo|..], Parkpos) <==> PyEq(s.selectedRunwayOption, 2) && s.parking != VNone)
  {
    if PyEq(s.selectedRunwayOption, 1) {
      StringLineTail(memo, Runway, s.runway, Parkpos);
    } else if PyEq(s.selectedRunwayOption, 2) {
      StringLineTail(memo, Parkpos, s.parking, Runway);
    } else {
      assert memo[|memo|..] == [];
    }
  }

  /** `ApplyString` adds a line for `key` exactly when the value is not
      None, and never one for another key. */
  lemma StringLineTail(memo: seq<Arg>, key: ArgKey, v: Value, other: ArgKey)
    requires key != other
    ensures var r := ApplyString(memo, key, v);
      |memo| <= |r| <= |memo| + 1 && r[..|memo|] == memo &&
      (Emitted(r[|memo|..], key) <==> v != VNone) && !Emitted(r[|memo|..], other)
  {
    var r := ApplyString(memo, key, v);
    if v == VNone {
      assert r[|memo|..] == [];
    } else {
      var t := r[|memo|..];
      assert t == [Arg(key, "\"" + Str(v) + "\"")];
      assert t[0].key == key;
    }
  }

  /** Line 189: the time of day must be a string (the default None has no
      `upper`). */
  lemma TimeOfDayMustBeString(memo: seq<Arg>, s: Scenario)
    ensures EnvironmentArgs(memo, s).Raised? <==> !s.timeOfDay.VStr?
    ensures EnvironmentArgs(memo, s).Raised? ==> EnvironmentArgs(memo, s).exception == AttributeError("upper")
  {
  }

  /** Line 189: the time of day is emitted upper-cased and without quotes. */
  lemma TimeOfDayUpperCased(memo: seq<Arg>, s: Scenario)
    requires s.timeOfDay.VStr?
    ensures var r := EnvironmentArgs(memo, s).value;
      |memo| < |r| && r[..|memo|] == memo &&
      exists i :: |memo| <= i < |r| && r[i] == Arg(TimeOfDay, Upper(s.timeOfDay.s))
  {
    var line := Arg(TimeOfDay, Upper(s.timeOfDay.s));
    var m1 := ApplyString(memo, TerrasyncHttpServer, s.terraSyncEndpoint);
    var m2 := m1 + [line];
    assert ApplyValue(m1, TimeOfDay, VStr(Upper(s.timeOfDay.s))) == m2;
    var r := EnvironmentArgs(memo, s).value;
    assert r == ApplyValue(m2, VisibilityMeters, s.visibilityInMeters);
    assert |m1| <= |memo| + 1 && m1[..|memo|] == memo;
    assert r[..|m2|] == m2;
    assert r[|m1|] == line;
    assert r[..|memo|] == m1[..|memo|];
  }

  /** Lines 194-195: an `additionalArgs` line, with each `'` turned into
      `"""`, is added exactly when the list is not None and not empty; a
      value without a length raises. */
  lemma AdditionalArgsOnlyWhenNonEmpty(memo: seq<Arg>, c: CAS.Settings)
    ensures AdditionalArgsArgs(memo, c).Raised? <==> c.additionalArgs.VBool? || c.additionalArgs.VInt?
    ensures AdditionalArgsArgs(memo, c).Ok? ==>
      var r := AdditionalArgsArgs(memo, c).value;
      var nonEmpty := c.additionalArgs != VNone && Len(c.additionalArgs).value > 0;
      r == memo + (if nonEmpty then [Arg(AdditionalArgs, ReplaceChar(Str(c.additionalArgs), '\'', "\"\"\""))] else [])
  {
  }

  /** Lines 215-223: the role line comes first, PRIMARY exactly when the
      host is the scenario's primary; a client list (each `'` turned into
      `"`) follows only for the primary and only when its secondaries are
      not None. */
  lemma RoleIsPrimaryIffHostIsPrimary(memo: seq<Arg>, hostname: Value, s: Scenario)
    ensures var r := RoleArgs(memo, hostname, s);
      var isPrimary := hostname == s.primary;
      |memo| < |r| <= |memo| + 2 && r[..|memo|] == memo &&
      r[|memo|] == Arg(Role, RoleName(isPrimary)) &&
      (r[|memo|].text == "PRIMARY" <==> isPrimary) &&
      (|r| == |memo| + 2 <==> isPrimary && s.secondaries != VNone) &&
      (|r| == |memo| + 2 ==> r[|memo| + 1] == Arg(ClientIpAddresses, ReplaceChar(Str(s.secondaries), '\'', "\"")))
  {
    var r := RoleArgs(memo, hostname, s);
    assert r[..|memo|] == memo;
    assert RoleName(true)[0] != RoleName(false)[0];
  }

  // Which part of the builder emits each key.

  /** The three parts of `StartFlightGear`: the scenario's lines
      (167-191), this agent's (193-212) and the computed role (214-223). */
  datatype Stage = ScenarioStage | AgentStage | RoleStage

  /** The part that emits `k`; the two view offsets are emitted by none of
      them (`AgentArgs` reads them as None). */
  function StageOf(k: ArgKey): Option<Stage> {
    match k
    case Aircraft | AircraftVariant | AiScenario | AirportCode | Carrier | Ceiling | EnableAutoCoordination
      | Runway | Parkpos | TerrasyncHttpServer | TimeOfDay | VisibilityMeters => Some(ScenarioStage)
    case AdditionalArgs | DisableAi | DisableAiTraffic | DisableAntiAliasHud | DisableHud | DisablePanel | DisableSound
      | EnableClouds | EnableClouds3d | EnableFullscreen | EnableTerrasync | EnableTelnetServer
      | EnableRealWeatherFetch | EnableWebServer | Fov => Some(AgentStage)
    case ViewHeadingOffset | ViewPitchOffset => None
    case Role | ClientIpAddresses => Some(RoleStage)
  }

  function Rank(st: Stage): nat {
    match st
    case ScenarioStage => 0
    case AgentStage => 1
    case RoleStage => 2
  }

  /** `r` is `memo` followed by lines emitted by part `st`. */
  ghost predicate Appends(memo: seq<Arg>, r: seq<Arg>, st: Stage) {
    |memo| <= |r| && r[..|memo|] == memo && forall i :: |memo| <= i < |r| ==> StageOf(r[i].key) == Some(st)
  }

  lemma AppendsSnoc(memo: seq<Arg>, m: seq<Arg>, a: Arg, ks: Stage)
    requires Appends(memo, m, ks) && StageOf(a.key) == Some(ks)
    ensures Appends(memo, m + [a], ks)
  {
    assert (m + [a])[..|memo|] == m[..|memo|];
  }

  lemma ApplyAppends(memo: seq<Arg>, m: seq<Arg>, key: ArgKey, value: Value, ks: Stage)
    requires Appends(memo, m, ks) && StageOf(key) == Some(ks)
    ensures Appends(memo, ApplyString(m, key, value), ks)
    ensures Appends(memo, ApplyBoolean(m, key, value), ks)
    ensures Appends(memo, ApplyValue(m, key, value), ks)
  {
    if value != VNone {
      AppendsSnoc(memo, m, Arg(key, "\"" + Str(value) + "\""), ks);
      AppendsSnoc(memo, m, Arg(key, if Truthy(value) then "true" else "false"), ks);
      AppendsSnoc(memo, m, Arg(key, Str(value)), ks);
    }
  }

  lemma CommonArgsKeys(s: Scenario)
    ensures Appends([], CommonArgs(s), ScenarioStage)
  {
    var e: seq<Arg> := [];
    var m1 := ApplyString(e, Aircraft, s.aircraft);
    var m2 := ApplyString(m1, AircraftVariant, s.aircraftVariant);
    ApplyAppends(e, e, Aircraft, s.aircraft, ScenarioStage);
    ApplyAppends(e, m1, AircraftVariant, s.aircraftVariant, ScenarioStage);
    ApplyAppends(e, m2, AiScenario, s.aiScenarios, ScenarioStage);
  }

  lemma AirportArgsKeys(memo: seq<Arg>, m: seq<Arg>, s: Scenario)
    requires Appends(memo, m, ScenarioStage)
    ensures Appends(memo, AirportArgs(m, s), ScenarioStage)
  {
    if PyEq(s.selectedAirportOption, 1) {
      ApplyAppends(memo, m, AirportCode, s.airport, ScenarioStage);
    } else if PyEq(s.selectedAirportOption, 2) {
      ApplyAppends(memo, m, Carrier, s.carrier, ScenarioStage);
    }
  }

  lemma WeatherArgsKeys(memo: seq<Arg>, m: seq<Arg>, s: Scenario)
    requires Appends(memo, m, ScenarioStage)
    ensures Appends(memo, WeatherArgs(m, s), ScenarioStage)
  {
    var w1 := ApplyString(m, Ceiling, s.ceiling);
    ApplyAppends(memo, m, Ceiling, s.ceiling, ScenarioStage);
    ApplyAppends(memo, w1, EnableAutoCoordination, s.enableAutoCoordination, ScenarioStage);
  }

  lemma RunwayArgsKeys(memo: seq<Arg>, m: seq<Arg>, s: Scenario)
    requires Appends(memo, m, ScenarioStage)
    ensures Appends(memo, RunwayArgs(m, s), ScenarioStage)
  {
    if PyEq(s.selectedRunwayOption, 1) {
      ApplyAppends(memo, m, Runway, s.runway, ScenarioStage);
    } else if PyEq(s.selectedRunwayOption, 2) {
      ApplyAppends(memo, m, Parkpos, s.parking, ScenarioStage);
    }
  }

  lemma EnvironmentArgsKeys(memo: seq<Arg>, m: seq<Arg>, s: Scenario)
    requires Appends(memo, m, ScenarioStage) && s.timeOfDay.VStr?
    ensures Appends(memo, EnvironmentArgs(m, s).value, ScenarioStage)
  {
    var v1 := ApplyString(m, TerrasyncHttpServer, s.terraSyncEndpoint);
    var v2 := ApplyValue(v1, TimeOfDay, VStr(Upper(s.timeOfDay.s)));
    ApplyAppends(memo, m, TerrasyncHttpServer, s.terraSyncEndpoint, ScenarioStage);
    ApplyAppends(memo, v1, TimeOfDay, VStr(Upper(s.timeOfDay.s)), ScenarioStage);
    ApplyAppends(memo, v2, VisibilityMeters, s.visibilityInMeters, ScenarioStage);
  }

  lemma ScenarioArgsKeys(s: Scenario)
    requires s.timeOfDay.VStr?
    ensures Appends([], ScenarioArgs(s).value, ScenarioStage)
  {
    var e: seq<Arg> := [];
    var m1 := CommonArgs(s);
    CommonArgsKeys(s);
    var m2 := AirportArgs(m1, s);
    AirportArgsKeys(e, m1, s);
    var m3 := WeatherArgs(m2, s);
    WeatherArgsKeys(e, m2, s);
    var m4 := RunwayArgs(m3, s);
    RunwayArgsKeys(e, m3, s);
    EnvironmentArgsKeys(e, m4, s);
  }

  lemma FlagArgsKeys(memo: seq<Arg>, m: seq<Arg>, c: CAS.Settings)
    requires Appends(memo, m, AgentStage)
    ensures Appends(memo, FlagArgs(m, c), AgentStage)
  {
    var ks := AgentStage;
    var m1 := ApplyBoolean(ApplyBoolean(ApplyBoolean(m, DisableAi, c.disableAi), DisableAiTraffic, c.disableAiTraffic),
                           DisableAntiAliasHud, c.disableAntiAliasHud);
    ThreeFlagsAppend(memo, m, DisableAi, c.disableAi, DisableAiTraffic, c.disableAiTraffic,
                     DisableAntiAliasHud, c.disableAntiAliasHud, ks);
    var m2 := ApplyBoolean(ApplyBoolean(ApplyBoolean(m1, DisableHud, c.disableHud), DisablePanel, c.disablePanel),
                           DisableSound, c.disableSound);
    ThreeFlagsAppend(memo, m1, DisableHud, c.disableHud, DisablePanel, c.disablePanel, DisableSound, c.disableSound, ks);
    var m3 := ApplyBoolean(ApplyBoolean(ApplyBoolean(m2, EnableClouds, c.enableClouds), EnableClouds3d, c.enableClouds3d),
                           EnableFullscreen, c.enableFullscreen);
    ThreeFlagsAppend(memo, m2, EnableClouds, c.enableClouds, EnableClouds3d, c.enableClouds3d,
                     EnableFullscreen, c.enableFullscreen, ks);
    var m4 := ApplyBoolean(ApplyBoolean(ApplyBoolean(m3, EnableTerrasync, c.enableTerrasync), EnableTelnetServer, c.enableTelnetServer),
                           EnableRealWeatherFetch, c.enableRealWeatherFetch);
    ThreeFlagsAppend(memo, m3, EnableTerrasync, c.enableTerrasync, EnableTelnetServer, c.enableTelnetServer,
                     EnableRealWeatherFetch, c.enableRealWeatherFetch, ks);
    var m5 := ApplyBoolean(m4, EnableWebServer, c.enableWebServer);
    ApplyAppends(memo, m4, EnableWebServer, c.enableWebServer, ks);
    ApplyAppends(memo, m5, Fov, c.fov, ks);
    assert FlagArgs(m, c) == ApplyValue(m5, Fov, c.fov);
  }

  lemma ThreeFlagsAppend(memo: seq<Arg>, m: seq<Arg>, k1: ArgKey, v1: Value, k2: ArgKey, v2: Value,
                         k3: ArgKey, v3: Value, ks: Stage)
    requires Appends(memo, m, ks) && StageOf(k1) == StageOf(k2) == StageOf(k3) == Some(ks)
    ensures Appends(memo, ApplyBoolean(ApplyBoolean(ApplyBoolean(m, k1, v1), k2, v2), k3, v3), ks)
  {
    ApplyAppends(memo, m, k1, v1, ks);
    ApplyAppends(memo, ApplyBoolean(m, k1, v1), k2, v2, ks);
    ApplyAppends(memo, ApplyBoolean(ApplyBoolean(m, k1, v1), k2, v2), k3, v3, ks);
  }

  lemma RoleArgsKeys(memo: seq<Arg>, hostname: Value, s: Scenario)
    ensures Appends(memo, RoleArgs(memo, hostname, s), RoleStage)
  {
    var m := ApplyValue(memo, Role, VStr(RoleName(hostname == s.primary)));
    ApplyAppends(memo, memo, Role, VStr(RoleName(hostname == s.primary)), RoleStage);
    if hostname == s.primary {
      ApplyAppends(memo, m, ClientIpAddresses, VStr(ReplaceChar(Str(s.secondaries), '\'', "\"")), RoleStage);
    }
  }

  lemma AgentArgsKeys(memo: seq<Arg>, c: CAS.Settings)
    requires AgentArgs(memo, c).Ok?
    ensures Appends(memo, AgentArgs(memo, c).value, AgentStage)
  {
    var a1 := AdditionalArgsArgs(memo, c).value;
    AdditionalArgsOnlyWhenNonEmpty(memo, c);
    assert Appends(memo, a1, AgentStage) by { assert a1[..|memo|] == memo; }
    FlagArgsKeys(memo, a1, c);
  }

  /** Lines before `m1` come from the scenario, lines from `m1` to `m2`
      from the agent, the rest from the role: every line has a part, and
      the parts come in that order. */
  lemma ThreePartsInOrder(m1: seq<Arg>, m2: seq<Arg>, r: seq<Arg>)
    requires Appends([], m1, ScenarioStage) && Appends(m1, m2, AgentStage) && Appends(m2, r, RoleStage)
    ensures forall i :: 0 <= i < |r| ==> StageOf(r[i].key).Some?
    ensures forall i, j :: 0 <= i < j < |r| ==> Rank(StageOf(r[i].key).value) <= Rank(StageOf(r[j].key).value)
    ensures forall i :: 0 <= i < |m2| ==> StageOf(r[i].key) != Some(RoleStage)
  {
    assert forall i :: 0 <= i < |m1| ==> r[i] == m2[i] == m1[i];
    assert forall i :: |m1| <= i < |m2| ==> r[i] == m2[i];
  }

  /** The session arguments are the scenario's lines, then this agent's,
      then the role lines. */
  lemma SessionArgsInOrder(hostname: Value, s: Scenario, c: CAS.Settings)
    requires SessionArgs(hostname, s, c).Ok?
    ensures var r := SessionArgs(hostname, s, c).value;
      (forall i :: 0 <= i < |r| ==> StageOf(r[i].key).Some?) &&
      forall i, j :: 0 <= i < j < |r| ==> Rank(StageOf(r[i].key).value) <= Rank(StageOf(r[j].key).value)
  {
    var m1 := ScenarioArgs(s).value;
    TimeOfDayMustBeString(RunwayArgs(WeatherArgs(AirportArgs(CommonArgs(s), s), s), s), s);
    ScenarioArgsKeys(s);
    var m2 := AgentArgs(m1, c).value;
    AgentArgsKeys(m1, c);
    var r := RoleArgs(m2, hostname, s);
    RoleArgsKeys(m2, hostname, s);
    ThreePartsInOrder(m1, m2, r);
  }

  /** With the missing attributes read as None, neither view offset is
      ever emitted. */
  lemma NoViewOffsetEmitted(hostname: Value, s: Scenario, c: CAS.Settings)
    requires SessionArgs(hostname, s, c).Ok?
    ensures !Emitted(SessionArgs(hostname, s, c).value, ViewHeadingOffset)
    ensures !Emitted(SessionArgs(hostname, s, c).value, ViewPitchOffset)
  {
    var r := SessionArgs(hostname, s, c).value;
    SessionArgsInOrder(hostname, s, c);
    StagedLinesSkipOffsets(r);
  }

  lemma StagedLinesSkipOffsets(r: seq<Arg>)
    requires forall i :: 0 <= i < |r| ==> StageOf(r[i].key).Some?
    ensures !Emitted(r, ViewHeadingOffset) && !Emitted(r, ViewPitchOffset)
  {
  }

  /** Exactly one role line is emitted, PRIMARY exactly when the host is
      the scenario's primary. */
  lemma SessionHasOneRole(hostname: Value, s: Scenario, c: CAS.Settings)
    requires SessionArgs(hostname, s, c).Ok?
    ensures var r := SessionArgs(hostname, s, c).value;
      exists i :: 0 <= i < |r| && r[i] == Arg(Role, RoleName(hostname == s.primary)) &&
        forall j :: 0 <= j < |r| && j != i ==> r[j].key != Role
  {
    var m1 := ScenarioArgs(s).value;
    TimeOfDayMustBeString(RunwayArgs(WeatherArgs(AirportArgs(CommonArgs(s), s), s), s), s);
    ScenarioArgsKeys(s);
    var m2 := AgentArgs(m1, c).value;
    AgentArgsKeys(m1, c);
    var r := RoleArgs(m2, hostname, s);
    RoleArgsKeys(m2, hostname, s);
    ThreePartsInOrder(m1, m2, r);
    RoleIsPrimaryIffHostIsPrimary(m2, hostname, s);
    OnlyOneRoleLine(m2, r);
    assert r[|m2|] == Arg(Role, RoleName(hostname == s.primary));
  }

  lemma OnlyOneRoleLine(m: seq<Arg>, r: seq<Arg>)
    requires |m| < |r| <= |m| + 2 && r[|m|].key == Role
    requires forall i :: 0 <= i < |m| ==> StageOf(r[i].key) != Some(RoleStage)
    requires |r| == |m| + 2 ==> r[|m| + 1].key == ClientIpAddresses
    ensures forall j :: 0 <= j < |r| && j != |m| ==> r[j].key != Role
  {
  }
}
