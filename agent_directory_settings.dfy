/** `AgentDirectorySettings` of fgo/director/agent_directory_settings.py:
    the five agent paths the director shows and edits, loaded from the
    agent's `config` query result. */
module AgentDirectorySettings {
  import opened Wrappers
  import opened PyValues
  import Schema

  /** The five fields. */
  datatype DirField = FlightgearExecutable | FgrootPath | FghomePath | TerrasyncPath | AircraftPath

  datatype Directories = Directories(
    flightgearExecutable: Value,
    fgrootPath: Value,
    fghomePath: Value,
    terrasyncPath: Value,
    aircraftPath: Value)
  {
    function Field(f: DirField): Value {
      match f
      case FlightgearExecutable => flightgearExecutable
      case FgrootPath => fgrootPath
      case FghomePath => fghomePath
      case TerrasyncPath => terrasyncPath
      case AircraftPath => aircraftPath
    }

    /** `setattr(self, name, v)` for one of the five fields. */
    function Set(f: DirField, v: Value): (r: Directories)
      ensures r.Field(f) == v
      ensures forall g :: g != f ==> r.Field(g) == Field(g)
    {
      match f
      case FlightgearExecutable => this.(flightgearExecutable := v)
      case FgrootPath => this.(fgrootPath := v)
      case FghomePath => this.(fghomePath := v)
      case TerrasyncPath => this.(terrasyncPath := v)
      case AircraftPath => this.(aircraftPath := v)
    }
  }

  /** `AgentDirectorySettings()`: every path None. */
  const Unset := Directories(VNone, VNone, VNone, VNone, VNone)

  /** The `mapping` from config keys to fields: `fgfs_path` is the
      executable, the other four keep their names. */
  function Target(key: string): (f: Option<DirField>)
    ensures key == "fgfs_path" <==> f == Some(FlightgearExecutable)
    ensures key == "fgroot_path" <==> f == Some(FgrootPath)
    ensures key == "fghome_path" <==> f == Some(FghomePath)
    ensures key == "terrasync_path" <==> f == Some(TerrasyncPath)
    ensures key == "aircraft_path" <==> f == Some(AircraftPath)
  {
    if key == "fgfs_path" then Some(FlightgearExecutable)
    else if key == "fgroot_path" then Some(FgrootPath)
    else if key == "fghome_path" then Some(FghomePath)
    else if key == "terrasync_path" then Some(TerrasyncPath)
    else if key == "aircraft_path" then Some(AircraftPath)
    else None
  }

  /** One iteration of the loop: a recognised key sets its field. */
  function Apply(s: Directories, e: Schema.ConfigEntry): Directories {
    match Target(e.key)
    case Some(f) => s.Set(f, e.value)
    case None => s
  }

  /** The settings after the loop has seen `entries`. */
  function Load(entries: seq<Schema.ConfigEntry>): Directories {
    if entries == [] then Unset
    else Apply(Load(entries[..|entries| - 1]), entries[|entries| - 1])
  }

  /** The value of the last entry that targets `f`, if any. */
  function LastFor(entries: seq<Schema.ConfigEntry>, f: DirField): Option<Value> {
    if entries == [] then None
    else if Target(entries[|entries| - 1].key) == Some(f) then Some(entries[|entries| - 1].value)
    else LastFor(entries[..|entries| - 1], f)
  }

  /** `from_gql_query` */
  method FromGqlQuery(gqlResult: seq<Schema.ConfigEntry>) returns (res: Directories)
    ensures res == Load(gqlResult)
  {
    res := Unset;
    for i := 0 to |gqlResult|
      invariant res == Load(gqlResult[..i])
    {
      var entry := gqlResult[i];
      var target := Target(entry.key);
      if target.Some? {
        res := res.Set(target.value, entry.value);
      }
      assert gqlResult[..i + 1][..i] == gqlResult[..i];
    }
    assert gqlResult[..|gqlResult|] == gqlResult;
  }

  /** Each field holds the value of the last entry whose key maps to it, and
      stays None when no entry does: unrecognised keys are ignored and a
      later entry overwrites an earlier one. */
  lemma {:induction false} LoadTakesLastEntry(entries: seq<Schema.ConfigEntry>, f: DirField)
    ensures Load(entries).Field(f) == LastFor(entries, f).GetOr(VNone)
  {
    if entries != [] {
      LoadTakesLastEntry(entries[..|entries| - 1], f);
    }
  }

  /** An entry with an unrecognised key changes nothing. */
  lemma UnrecognisedKeyIgnored(entries: seq<Schema.ConfigEntry>, e: Schema.ConfigEntry)
    requires Target(e.key).None?
    ensures Load(entries + [e]) == Load(entries)
  {
    assert (entries + [e])[..|entries|] == entries;
  }
}
