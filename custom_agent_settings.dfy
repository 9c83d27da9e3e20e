/** `CustomAgentSettings` of fgo/director/custom_agent_settings.py: the
    per-agent launch options the director keeps for each registered agent.
    Sixteen of them are exposed to the settings dialog through
    `to_update_dict`/`apply_update_dict`; `role`, `master_ip_address` and
    `client_ip_addresses` are hidden. Attributes hold whatever value was
    assigned to them, so every field is a `Value`. */
module CustomAgentSettings {
  import opened Wrappers
  import opened Dicts
  import opened PyValues
  import Dataclasses

  datatype Settings = Settings(
    additionalArgs: Value,
    disableAi: Value,
    disableAiTraffic: Value,
    disableAntiAliasHud: Value,
    disableHud: Value,
    disablePanel: Value,
    disableSound: Value,
    enableClouds: Value,
    enableClouds3d: Value,
    enableFullscreen: Value,
    enableTerrasync: Value,
    enableTelnetServer: Value,
    enableRealWeatherFetch: Value,
    enableWebServer: Value,
    fov: Value,
    viewOffset: Value,
    role: Value,
    masterIpAddress: Value,
    clientIpAddresses: Value)

  /** The keys of `to_update_dict`, in the order it stores them. */
  const UpdateKeys: seq<string> := [
    "additional_args", "disable_ai", "disable_ai_traffic", "disable_anti_alias_hud",
    "disable_hud", "disable_panel", "disable_sound", "enable_clouds", "enable_clouds3d",
    "enable_fullscreen", "enable_terrasync", "enable_telnet_server",
    "enable_real_weather_fetch", "enable_web_server", "fov", "view_offset"]

  /** The position of `enable_web_server` among the update keys. */
  const WebServer: nat := 13

  /** The exposed fields' constructor defaults, in update-key order. */
  const DefaultExposed: seq<Value> := [
    VList([]), VBool(false), VBool(false), VBool(false),
    VBool(false), VBool(false), VBool(false), VBool(false), VBool(false),
    VBool(true), VBool(true), VBool(false),
    VBool(true), VBool(false), VNone, VInt(0)]

  /** What `apply_update_dict` assigns for a missing key, in update-key
      order. */
  const Fallbacks: seq<Value> := [
    VList([]), VBool(false), VBool(false), VBool(false),
    VBool(false), VBool(false), VBool(false), VBool(false), VBool(false),
    VBool(true), VBool(true), VBool(false),
    VBool(true), VBool(true), VNone, VInt(0)]

  /** The sixteen exposed fields, in update-key order. */
  function Exposed(c: Settings): (v: seq<Value>)
    ensures |v| == |UpdateKeys|
  {
    [c.additionalArgs, c.disableAi, c.disableAiTraffic, c.disableAntiAliasHud,
     c.disableHud, c.disablePanel, c.disableSound, c.enableClouds, c.enableClouds3d,
     c.enableFullscreen, c.enableTerrasync, c.enableTelnetServer,
     c.enableRealWeatherFetch, c.enableWebServer, c.fov, c.viewOffset]
  }

  /** `c` with its sixteen exposed fields assigned from `v`. */
  function WithExposed(c: Settings, v: seq<Value>): (r: Settings)
    requires |v| == |UpdateKeys|
    ensures Exposed(r) == v
    ensures r.role == c.role && r.masterIpAddress == c.masterIpAddress && r.clientIpAddresses == c.clientIpAddresses
  {
    c.(additionalArgs := v[0], disableAi := v[1], disableAiTraffic := v[2], disableAntiAliasHud := v[3],
       disableHud := v[4], disablePanel := v[5], disableSound := v[6], enableClouds := v[7],
       enableClouds3d := v[8], enableFullscreen := v[9], enableTerrasync := v[10],
       enableTelnetServer := v[11], enableRealWeatherFetch := v[12], enableWebServer := v[13],
       fov := v[14], viewOffset := v[15])
  }

  /** `CustomAgentSettings()`: full screen, terrasync and real weather
      fetching on, every other flag off, no field of view, a view offset of
      0, no role, no master and no clients. */
  function Defaults(): (c: Settings)
    ensures Exposed(c) == DefaultExposed
    ensures c.role == VNone && c.masterIpAddress == VNone && c.clientIpAddresses == VList([])
  {
    WithExposed(Settings(VNone, VNone, VNone, VNone, VNone, VNone, VNone, VNone, VNone, VNone,
                         VNone, VNone, VNone, VNone, VNone, VNone, VNone, VNone, VList([])),
                DefaultExposed)
  }

  /** `to_update_dict` */
  function ToUpdateDict(c: Settings): (d: Dict<Value>)
    ensures Keys(d) == UpdateKeys
  {
    Dataclasses.Instance(UpdateKeys, Exposed(c))
  }

  /** `apply_update_dict`: each exposed field takes the dict's value for its
      key, or its fallback when the key is missing; the hidden fields are
      kept. The source assigns the fields of `self` and returns `self`. */
  function ApplyUpdateDict(c: Settings, d: Dict<Value>): (r: Settings)
    ensures r.role == c.role && r.masterIpAddress == c.masterIpAddress && r.clientIpAddresses == c.clientIpAddresses
  {
    WithExposed(c, seq(|UpdateKeys|, i requires 0 <= i < |UpdateKeys| => Get(d, UpdateKeys[i]).GetOr(Fallbacks[i])))
  }

  lemma UpdateKeysDistinct()
    ensures |UpdateKeys| == 16 && Distinct(UpdateKeys)
    ensures "role" !in UpdateKeys && "master_ip_address" !in UpdateKeys && "client_ip_addresses" !in UpdateKeys
  {
  }

  /** `to_update_dict` holds the sixteen exposed fields, each under its own
      key, and no hidden field. */
  lemma ToUpdateDictHoldsExposed(c: Settings, i: nat)
    requires i < |UpdateKeys|
    ensures |ToUpdateDict(c)| == 16 && DistinctKeys(ToUpdateDict(c))
    ensures Get(ToUpdateDict(c), UpdateKeys[i]) == Some(Exposed(c)[i])
    ensures Get(ToUpdateDict(c), "role") == None
    ensures Get(ToUpdateDict(c), "master_ip_address") == None
    ensures Get(ToUpdateDict(c), "client_ip_addresses") == None
  {
    UpdateKeysDistinct();
    Dataclasses.DistinctNames(ToUpdateDict(c));
    GetAt(ToUpdateDict(c), i);
  }

  /** `a.apply_update_dict(b.to_update_dict())` gives `a` the sixteen exposed
      fields of `b` and keeps `a`'s hidden fields. */
  lemma UpdateRoundTrip(a: Settings, b: Settings)
    ensures ApplyUpdateDict(a, ToUpdateDict(b))
         == b.(role := a.role, masterIpAddress := a.masterIpAddress, clientIpAddresses := a.clientIpAddresses)
  {
    var r := ApplyUpdateDict(a, ToUpdateDict(b));
    forall i | 0 <= i < |UpdateKeys| ensures Exposed(r)[i] == Exposed(b)[i] {
      ToUpdateDictHoldsExposed(b, i);
    }
    SameExposed(r, b.(role := a.role, masterIpAddress := a.masterIpAddress, clientIpAddresses := a.clientIpAddresses));
  }

  /** Settings agreeing on the exposed and the hidden fields are equal. */
  lemma SameExposed(x: Settings, y: Settings)
    requires forall i :: 0 <= i < |UpdateKeys| ==> Exposed(x)[i] == Exposed(y)[i]
    requires x.role == y.role && x.masterIpAddress == y.masterIpAddress && x.clientIpAddresses == y.clientIpAddresses
    ensures x == y
  {
    assert Exposed(x) == Exposed(y);
  }

  /** A key missing from the dict falls back to its constructor default,
      except `enable_web_server`, which falls back to True although a fresh
      object has False. */
  lemma MissingKeysFallBack(c: Settings, d: Dict<Value>, i: nat)
    requires i < |UpdateKeys| && UpdateKeys[i] !in Keys(d)
    ensures Exposed(ApplyUpdateDict(c, d))[i] == if i == WebServer then VBool(true) else Exposed(Defaults())[i]
    ensures Exposed(Defaults())[WebServer] == VBool(false) && UpdateKeys[WebServer] == "enable_web_server"
  {
  }

  /** Applying an empty update to fresh settings is not the identity: it
      turns the web server on. */
  lemma EmptyUpdateEnablesWebServer()
    ensures ApplyUpdateDict(Defaults(), []) == Defaults().(enableWebServer := VBool(true))
  {
    var r := ApplyUpdateDict(Defaults(), []);
    forall i | 0 <= i < |UpdateKeys| ensures Exposed(r)[i] == Exposed(Defaults().(enableWebServer := VBool(true)))[i] {
      MissingKeysFallBack(Defaults(), [], i);
    }
    SameExposed(r, Defaults().(enableWebServer := VBool(true)));
  }
}
