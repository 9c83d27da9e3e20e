/** The GraphQL resolvers of fgo/gql/schema.py that compute something:
    the Windows drive list, the directory listing, the config entries and
    the AI scenarios. The file system, `platform.system()` and
    `GetLogicalDrives()` are inputs. */
module Schema {
  import opened Wrappers
  import opened Dicts
  import opened PyValues
  import opened AgentTypes
  import opened AgentRuntime
  import Mutations

  // ---------------------------------------------------------------------
  // get_windows_drives

  /** `string.ascii_uppercase` */
  const AsciiUppercase: string := "ABCDEFGHIJKLMNOPQRSTUVWXYZ"

  /** Bit `i` of `mask` is set. */
  predicate Bit(mask: nat, i: nat) {
    if i == 0 then mask % 2 == 1 else Bit(mask / 2, i - 1)
  }

  /** The number of set bits among the low `n` bits of `mask`. */
  function PopCount(mask: nat, n: nat): nat {
    if n == 0 then 0 else mask % 2 + PopCount(mask / 2, n - 1)
  }

  /** The low `n` bits of `mask`. */
  function LowBits(mask: nat, n: nat): nat {
    if n == 0 then 0 else mask % 2 + 2 * LowBits(mask / 2, n - 1)
  }

  /** The drives the loop collects from `letters`, shifting `mask` once per letter. */
  function Drives(mask: nat, letters: string): (r: seq<string>)
    ensures |r| <= |letters|
    ensures forall k :: 0 <= k < |r| ==> |r[k]| == 2 && r[k][1] == ':' && r[k][0] in letters
  {
    if letters == [] then []
    else (if mask % 2 == 1 then [[letters[0], ':']] else []) + Drives(mask / 2, letters[1..])
  }

  /** `get_windows_drives()` given what `GetLogicalDrives()` returned. */
  method GetWindowsDrives(logicalDrives: nat) returns (drives: seq<string>)
    ensures drives == Drives(logicalDrives, AsciiUppercase)
  {
    drives := CollectDrives(logicalDrives, AsciiUppercase);
  }

  /** The loop of `get_windows_drives` over `letters`. */
  method CollectDrives(logicalDrives: nat, letters: string) returns (drives: seq<string>)
    ensures drives == Drives(logicalDrives, letters)
  {
    drives := [];
    var bitmask := logicalDrives;
    var i := 0;
    while i < |letters|
      invariant 0 <= i <= |letters|
      invariant drives + Drives(bitmask, letters[i..]) == Drives(logicalDrives, letters)
      decreases |letters| - i
    {
      var letter := letters[i];
      ghost var rest := Drives(bitmask / 2, letters[i + 1..]);
      assert letters[i..][1..] == letters[i + 1..];
      if bitmask % 2 == 1 {
        assert Drives(bitmask, letters[i..]) == [[letter, ':']] + rest;
        assert drives + ([[letter, ':']] + rest) == (drives + [[letter, ':']]) + rest;
        drives := drives + [[letter, ':']];
      } else {
        assert Drives(bitmask, letters[i..]) == rest;
      }
      bitmask := bitmask / 2;
      i := i + 1;
    }
    assert letters[i..] == [];
  }

  /** One drive per set bit: the list is as long as the number of set bits
      among the first `|letters|`. */
  lemma {:induction false} DrivesLength(mask: nat, letters: string)
    ensures |Drives(mask, letters)| == PopCount(mask, |letters|)
  {
    if letters != [] {
      DrivesLength(mask / 2, letters[1..]);
    }
  }

  /** Bits past the last letter are never looked at. */
  lemma {:induction false} DrivesIgnoreHighBits(mask: nat, letters: string)
    ensures Drives(mask, letters) == Drives(LowBits(mask, |letters|), letters)
    decreases |letters|
  {
    if letters != [] {
      var low := LowBits(mask, |letters|);
      var lowRest := LowBits(mask / 2, |letters| - 1);
      assert low == mask % 2 + 2 * lowRest;
      assert low % 2 == mask % 2 && low / 2 == lowRest;
      DrivesIgnoreHighBits(mask / 2, letters[1..]);
      DrivesIgnoreHighBits(lowRest, letters[1..]);
      LowBitsIdempotent(mask / 2, |letters| - 1);
    }
  }

  lemma {:induction false} LowBitsIdempotent(mask: nat, n: nat)
    ensures LowBits(LowBits(mask, n), n) == LowBits(mask, n)
  {
    if n > 0 {
      var low := LowBits(mask, n);
      var lowRest := LowBits(mask / 2, n - 1);
      assert low == mask % 2 + 2 * lowRest;
      assert low % 2 == mask % 2 && low / 2 == lowRest;
      assert LowBits(low, n) == low % 2 + 2 * LowBits(lowRest, n - 1);
      LowBitsIdempotent(mask / 2, n - 1);
    }
  }

  /** The drive for letter `i` is listed exactly when bit `i` is set, so
      with distinct letters each drive appears at most for its own bit. */
  lemma {:induction false} DriveListedIffBit(mask: nat, letters: string, i: nat)
    requires i < |letters|
    requires forall a, b :: 0 <= a < b < |letters| ==> letters[a] != letters[b]
    ensures [letters[i], ':'] in Drives(mask, letters) <==> Bit(mask, i)
  {
    var rest := Drives(mask / 2, letters[1..]);
    var head: seq<string> := if mask % 2 == 1 then [[letters[0], ':']] else [];
    assert Drives(mask, letters) == head + rest;
    if i == 0 {
      assert [letters[0], ':'] !in rest by {
        forall k | 0 <= k < |rest| ensures rest[k] != [letters[0], ':'] {
          var c := rest[k][0];
          assert c in letters[1..];
          var j :| 0 <= j < |letters[1..]| && letters[1..][j] == c;
          assert letters[j + 1] == c;
        }
      }
    } else {
      DriveListedIffBit(mask / 2, letters[1..], i - 1);
      assert letters[1..][i - 1] == letters[i];
      assert [letters[i], ':'] !in head by {
        assert letters[0] != letters[i];
      }
    }
  }

  // ---------------------------------------------------------------------
  // resolve_directory_list

  /** An entry of `Path(base_path).glob("*")` and whether it is a directory. */
  datatype DirEntry = DirEntry(path: string, isDir: bool)

  /** `types.DirectoryList`; the drive list carries no files. */
  datatype DirectoryList = DirectoryList(basePath: string, directories: seq<string>, files: Option<seq<string>>)

  function Paths(entries: seq<DirEntry>): (r: seq<string>)
    ensures |r| == |entries|
  {
    if entries == [] then [] else [entries[0].path] + Paths(entries[1..])
  }

  function DirectoryPaths(entries: seq<DirEntry>): seq<string> {
    if entries == [] then []
    else (if entries[0].isDir then [entries[0].path] else []) + DirectoryPaths(entries[1..])
  }

  function FilePaths(entries: seq<DirEntry>): seq<string> {
    if entries == [] then []
    else (if entries[0].isDir then [] else [entries[0].path]) + FilePaths(entries[1..])
  }

  /** Every entry goes to exactly one of the two lists: together they hold
      each listed path as often as the listing does. */
  lemma {:induction false} ListingIsPartitioned(entries: seq<DirEntry>)
    ensures multiset(DirectoryPaths(entries)) + multiset(FilePaths(entries)) == multiset(Paths(entries))
  {
    if entries != [] {
      var e := entries[0];
      ListingIsPartitioned(entries[1..]);
      assert Paths(entries) == [e.path] + Paths(entries[1..]);
      assert DirectoryPaths(entries) == (if e.isDir then [e.path] else []) + DirectoryPaths(entries[1..]);
      assert FilePaths(entries) == (if e.isDir then [] else [e.path]) + FilePaths(entries[1..]);
    }
  }

  /** Directories hold only the paths of directory entries, files only the
      others. */
  lemma {:induction false} ListingKeepsKinds(entries: seq<DirEntry>, p: string)
    ensures p in DirectoryPaths(entries) ==> DirEntry(p, true) in entries
    ensures p in FilePaths(entries) ==> DirEntry(p, false) in entries
  {
    if entries != [] {
      ListingKeepsKinds(entries[1..], p);
      assert entries == [entries[0]] + entries[1..];
    }
  }

  /** `resolve_directory_list(base_path)`: the drives for "/" on Windows,
      else the entries of the directory split into directories and files.
      `absolute` is `wd.absolute()`. */
  method ResolveDirectoryList(basePath: string, system: string, logicalDrives: nat, entries: seq<DirEntry>, absolute: string)
    returns (res: DirectoryList)
    ensures basePath == "/" && system == "Windows" ==>
      res == DirectoryList("/", Drives(logicalDrives, AsciiUppercase), None)
    ensures !(basePath == "/" && system == "Windows") ==>
      res == DirectoryList(absolute, DirectoryPaths(entries), Some(FilePaths(entries)))
  {
    if basePath == "/" && system == "Windows" {
      var dirs := GetWindowsDrives(logicalDrives);
      return DirectoryList("/", dirs, None);
    }
    var dirs: seq<string> := [];
    var files: seq<string> := [];
    var i := 0;
    while i < |entries|
      invariant 0 <= i <= |entries|
      invariant dirs + DirectoryPaths(entries[i..]) == DirectoryPaths(entries)
      invariant files + FilePaths(entries[i..]) == FilePaths(entries)
      decreases |entries| - i
    {
      assert entries[i..][1..] == entries[i + 1..];
      if entries[i].isDir {
        dirs := dirs + [entries[i].path];
      } else {
        files := files + [entries[i].path];
      }
      i := i + 1;
    }
    assert entries[i..] == [];
    assert dirs == DirectoryPaths(entries) && files == FilePaths(entries);
    return DirectoryList(absolute, dirs, Some(files));
  }

  // ---------------------------------------------------------------------
  // resolve_config

  /** `types.ConfigEntry` */
  datatype ConfigEntry = ConfigEntry(key: string, value: Value)

  predicate IsPrivate(name: string) {
    |name| > 0 && name[0] == '_'
  }

  /** The entries `resolve_config` lists for the config object's attributes
      `vars(config)`: the public ones, in order. */
  function PublicEntries(attrs: Dict<Value>): seq<ConfigEntry> {
    if attrs == [] then []
    else (if IsPrivate(attrs[0].0) then [] else [ConfigEntry(attrs[0].0, attrs[0].1)]) + PublicEntries(attrs[1..])
  }

  /** An attribute is listed exactly when it is public. */
  lemma {:induction false} PublicEntriesArePublic(attrs: Dict<Value>, key: string, value: Value)
    ensures ConfigEntry(key, value) in PublicEntries(attrs) <==> (key, value) in attrs && !IsPrivate(key)
  {
    if attrs != [] {
      PublicEntriesArePublic(attrs[1..], key, value);
      assert attrs == [attrs[0]] + attrs[1..];
    }
  }

  /** `[x for x in vars(config) if not x.startswith('_')]` */
  function PublicNames(attrs: Dict<Value>): (r: seq<string>)
    ensures forall k :: k in r ==> k in Keys(attrs) && !IsPrivate(k)
  {
    if attrs == [] then []
    else (if IsPrivate(attrs[0].0) then [] else [attrs[0].0]) + PublicNames(attrs[1..])
  }

  /** One entry per name, valued with `getattr(config, name)`. */
  function EntriesFor(attrs: Dict<Value>, names: seq<string>): (r: seq<ConfigEntry>)
    requires forall k :: k in names ==> k in Keys(attrs)
    ensures |r| == |names|
  {
    if names == [] then []
    else [ConfigEntry(names[0], Get(attrs, names[0]).value)] + EntriesFor(attrs, names[1..])
  }

  /** `resolve_config()` over the attribute dict `vars(config)`. */
  method ResolveConfig(attrs: Dict<Value>) returns (res: seq<ConfigEntry>)
    ensures res == EntriesFor(attrs, PublicNames(attrs))
  {
    res := [];
    var lst := PublicNames(attrs);
    var i := 0;
    while i < |lst|
      invariant 0 <= i <= |lst|
      invariant res + EntriesFor(attrs, lst[i..]) == EntriesFor(attrs, lst)
      decreases |lst| - i
    {
      assert lst[i..][1..] == lst[i + 1..];
      var k := lst[i];
      res := res + [ConfigEntry(k, Get(attrs, k).value)];
      i := i + 1;
    }
    assert lst[i..] == [];
  }

  lemma {:induction false} EntriesForSkipsOtherKey(attrs: Dict<Value>, names: seq<string>)
    requires attrs != [] && attrs[0].0 !in names
    requires forall k :: k in names ==> k in Keys(attrs[1..])
    requires forall k :: k in names ==> k in Keys(attrs)
    ensures EntriesFor(attrs, names) == EntriesFor(attrs[1..], names)
  {
    if names != [] {
      assert names[0] in names;
      assert Get(attrs, names[0]) == Get(attrs[1..], names[0]);
      assert forall k :: k in names[1..] ==> k in names;
      EntriesForSkipsOtherKey(attrs, names[1..]);
    }
  }

  /** The tail of a dict keeps distinct keys, none of them the head's. */
  lemma TailNames(attrs: Dict<Value>)
    requires DistinctKeys(attrs) && attrs != []
    ensures DistinctKeys(attrs[1..])
    ensures attrs[0].0 !in PublicNames(attrs[1..])
    ensures forall k :: k in PublicNames(attrs[1..]) ==> k in Keys(attrs)
  {
    forall i, j | 0 <= i < j < |attrs[1..]| ensures attrs[1..][i].0 != attrs[1..][j].0 {
      assert attrs[1..][i] == attrs[i + 1] && attrs[1..][j] == attrs[j + 1];
    }
    forall k | k in PublicNames(attrs[1..]) ensures k != attrs[0].0 && k in Keys(attrs) {
      var j :| 0 <= j < |attrs[1..]| && Keys(attrs[1..])[j] == k;
      assert attrs[j + 1].0 == k;
      assert Keys(attrs)[j + 1] == k;
    }
  }

  /** The config entries are the public attributes, in order, each with its
      own value. */
  lemma {:induction false} ConfigEntriesArePublicAttributes(attrs: Dict<Value>)
    requires DistinctKeys(attrs)
    ensures EntriesFor(attrs, PublicNames(attrs)) == PublicEntries(attrs)
  {
    if attrs != [] {
      var head := attrs[0];
      var rest := PublicNames(attrs[1..]);
      TailNames(attrs);
      ConfigEntriesArePublicAttributes(attrs[1..]);
      EntriesForSkipsOtherKey(attrs, rest);
      if !IsPrivate(head.0) {
        assert PublicNames(attrs) == [head.0] + rest;
        assert ([head.0] + rest)[1..] == rest;
      } else {
        assert PublicNames(attrs) == rest;
      }
    }
  }

  // ---------------------------------------------------------------------
  // resolve_ai_scenarios

  /** `types.AIScenario` */
  datatype AiScenario = AiScenario(name: string)

  /** The config's `fgroot_path`, None when unset. */
  function FgrootPath(config: AgentConfig): Option<ConfigPath> {
    if Fgroot in config.paths then Some(config.paths[Fgroot]) else None
  }

  /** One scenario per XML file stem, in glob order. */
  function ScenariosOf(stems: seq<string>): (r: seq<AiScenario>)
    ensures |r| == |stems| && forall k :: 0 <= k < |stems| ==> r[k] == AiScenario(stems[k])
  {
    seq(|stems|, k requires 0 <= k < |stems| => AiScenario(stems[k]))
  }

  /** `resolve_ai_scenarios()` as written, given the stems of the XML files
      in the `AI` directory of `fgroot_path`: a falsy path (None or an empty
      str) leaves `scenarios` unbound, a str has no `glob`, and only a Path
      lists the scenarios. */
  function AiScenariosAsWritten(config: AgentConfig, stems: seq<string>): (r: Result<seq<AiScenario>>)
    ensures var p := FgrootPath(config);
      (r == Raised(UnboundLocalError("scenarios")) <==> p.None? || p.value == StrPath(""))
      && (r == Raised(AttributeError("glob")) <==> p.Some? && p.value.StrPath? && p.value.text != "")
      && (r.Ok? <==> p.Some? && p.value.PathObject?)
      && (r.Ok? ==> r.value == ScenariosOf(stems))
  {
    match FgrootPath(config)
    case None => Raised(UnboundLocalError("scenarios"))
    case Some(StrPath(text)) => if text == "" then Raised(UnboundLocalError("scenarios")) else Raised(AttributeError("glob"))
    case Some(PathObject(_)) => Ok(ScenariosOf(stems))
  }

  /** The resolver's loop. */
  method ResolveAiScenarios(config: AgentConfig, scenarioStems: seq<string>) returns (r: Result<seq<AiScenario>>)
    ensures r == AiScenariosAsWritten(config, scenarioStems)
  {
    var fgrootPath := FgrootPath(config);
    if fgrootPath.None? || fgrootPath.value == StrPath("") {
      return Raised(UnboundLocalError("scenarios"));
    }
    if fgrootPath.value.StrPath? {
      return Raised(AttributeError("glob"));
    }
    var scenarios: seq<AiScenario> := [];
    var i := 0;
    while i < |scenarioStems|
      invariant 0 <= i <= |scenarioStems|
      invariant |scenarios| == i
      invariant forall k :: 0 <= k < i ==> scenarios[k] == AiScenario(scenarioStems[k])
      decreases |scenarioStems| - i
    {
      scenarios := scenarios + [AiScenario(scenarioStems[i])];
      i := i + 1;
    }
    assert scenarios == ScenariosOf(scenarioStems);
    return Ok(scenarios);
  }

  /** The resolver as evidently intended: `Path(fgroot_path)` is globbed
      whichever form the path has, and an unset or empty path lists no
      scenarios. */
  function AiScenarios(config: AgentConfig, stems: seq<string>): seq<AiScenario> {
    var p := FgrootPath(config);
    if p.None? || p.value.text == "" then [] else ScenariosOf(stems)
  }

  /** The intended resolver lists the scenarios for every set, non-empty
      path, str or Path, and agrees with the code wherever the code
      returns. */
  lemma AiScenariosIntended(config: AgentConfig, stems: seq<string>)
    ensures var p := FgrootPath(config);
      (p.Some? && p.value.text != "" ==> AiScenarios(config, stems) == ScenariosOf(stems))
      && (p.None? || p.value.text == "" ==> AiScenarios(config, stems) == [])
    ensures AiScenariosAsWritten(config, stems).Ok? && FgrootPath(config).value.text != "" ==>
      AiScenarios(config, stems) == AiScenariosAsWritten(config, stems).value
  {
  }

  /** After `setConfig(key: "fgroot_path", value: v)` with a non-empty `v`
      the path is the str `v`, and the resolver as written raises
      AttributeError where the intended one lists the scenarios. */
  lemma SetFgrootBreaksAiScenarios(s: AgentState, value: string, stems: seq<string>)
    requires value != ""
    ensures var c := Mutations.SetConfig(s, "fgroot_path", value).state.config;
      AiScenariosAsWritten(c, stems) == Raised(AttributeError("glob"))
      && AiScenarios(c, stems) == ScenariosOf(stems)
  {
    var c := Mutations.SetConfig(s, "fgroot_path", value).state.config;
    assert Mutations.KeyKind("fgroot_path") == Some(Fgroot);
    assert FgrootPath(c) == Some(StrPath(value));
  }
}
