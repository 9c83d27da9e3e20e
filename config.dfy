/** The whitelisted key/value store of fgo/config.py. The YAML file that
    `load` reads and `save` writes is not modelled: `save` is modelled up to
    the dictionary it dumps. */
module Configuration {
  import opened Wrappers
  import opened Dicts
  import opened PyValues

  /** `Config._SAVABLE_KEYS` */
  const SavableKeys: seq<string> := ["aircraft_path", "fgfs_path", "fgroot_path", "terrasync_path", "uuid"]

  /** `Config._INMEMORY_KEYS` */
  const InMemoryKeys: seq<string> := ["log_level", "zeroconf_log_level", "disable_zeroconf", "my_fqdn", "my_hostname", "my_ip"]

  /** `Config._WHITELIST` */
  const Whitelist: seq<string> := SavableKeys + InMemoryKeys

  /** The whitelist holds eleven keys: each savable key and each in-memory
      key, and no key is both. */
  lemma WhitelistIsSavablePlusInMemory(key: string)
    ensures |Whitelist| == 11
    ensures key in Whitelist <==> key in SavableKeys || key in InMemoryKeys
    ensures !(key in SavableKeys && key in InMemoryKeys)
  {
  }

  function NotOnWhitelist(key: string): Exception {
    ValueError(key + " is not on the whitelist")
  }

  /** What `merge_dictionary` leaves in `_data`, and the exception it raises:
      the entries are stored in order until the first key off the
      whitelist `allowed` (`Whitelist` for a `Config`). */
  function Merged(allowed: seq<string>, data: Dict<Value>, dictionary: Dict<Value>): (r: (Dict<Value>, Option<Exception>))
    decreases |dictionary|
  {
    if dictionary == [] then (data, None)
    else if dictionary[0].0 !in allowed then (data, Some(NotOnWhitelist(dictionary[0].0)))
    else Merged(allowed, Put(data, dictionary[0].0, dictionary[0].1), dictionary[1..])
  }

  /** Merging raises exactly when some key is off the whitelist. */
  lemma {:induction false} MergeRaisesIffKeyOffWhitelist(allowed: seq<string>, data: Dict<Value>, dictionary: Dict<Value>)
    ensures Merged(allowed, data, dictionary).1.Some? <==> exists i :: 0 <= i < |dictionary| && dictionary[i].0 !in allowed
    decreases |dictionary|
  {
    if dictionary != [] && dictionary[0].0 in allowed {
      var rest := dictionary[1..];
      MergeRaisesIffKeyOffWhitelist(allowed, Put(data, dictionary[0].0, dictionary[0].1), rest);
      assert forall i :: 0 < i < |dictionary| ==> dictionary[i] == rest[i - 1];
      if Merged(allowed, data, dictionary).1.Some? {
        var i :| 0 <= i < |rest| && rest[i].0 !in allowed;
        assert dictionary[i + 1] == rest[i];
      }
    }
  }

  /** The dictionary `save` dumps for the given keys: each key with its
      stored value, None when unset. */
  function Saved(data: Dict<Value>, keys: seq<string>): (r: Dict<Value>)
    ensures Keys(r) == keys
    ensures forall i :: 0 <= i < |keys| ==> r[i].1 == GetOr(data, keys[i], VNone)
  {
    if keys == [] then [] else [(keys[0], GetOr(data, keys[0], VNone))] + Saved(data, keys[1..])
  }

  /** `Config`: its file path and its `_data`. */
  class Config {
    const configFilePath: string
    var data: Dict<Value>

    /** `Config(config_file_path)` */
    constructor (configFilePath: string)
      ensures this.configFilePath == configFilePath && data == []
    {
      this.configFilePath := configFilePath;
      data := [];
    }

    /** `set_value(key, value)` */
    method SetValue(key: string, value: Value) returns (raised: Option<Exception>)
      modifies this
      ensures raised.Some? <==> key !in Whitelist
      ensures raised.Some? ==> raised == Some(NotOnWhitelist(key)) && data == old(data)
      ensures raised.None? ==> data == Put(old(data), key, value)
    {
      if key !in Whitelist {
        return Some(NotOnWhitelist(key));
      }
      data := Put(data, key, value);
      return None;
    }

    /** `get_value(key, value)`: the second argument is not used. */
    function GetValue(key: string, value: Value): (r: Result<Option<Value>>)
      reads this
      ensures r.Raised? <==> key !in Whitelist
      ensures r.Raised? ==> r.exception == NotOnWhitelist(key)
      ensures r.Ok? ==> r.value == Get(data, key)
      ensures r.Ok? && key !in Keys(data) ==> r.value.None?
    {
      if key !in Whitelist then Raised(NotOnWhitelist(key)) else Ok(Get(data, key))
    }

    /** `merge_dictionary(dictionary)`: `set_value` for each item in order;
        an exception leaves the earlier items stored. */
    method MergeDictionary(dictionary: Dict<Value>) returns (raised: Option<Exception>)
      modifies this
      ensures (data, raised) == Merged(Whitelist, old(data), dictionary)
    {
      var i := 0;
      while i < |dictionary|
        invariant 0 <= i <= |dictionary|
        invariant Merged(Whitelist, data, dictionary[i..]) == Merged(Whitelist, old(data), dictionary)
        decreases |dictionary| - i
      {
        assert dictionary[i..][1..] == dictionary[i + 1..];
        var (k, v) := dictionary[i];
        raised := SetValue(k, v);
        if raised.Some? {
          return;
        }
        i := i + 1;
      }
      return None;
    }

    /** The dictionary `save()` dumps, without writing the file. */
    method Save() returns (res: Dict<Value>)
      ensures res == Saved(data, SavableKeys)
    {
      res := [];
      var n := 0;
      while n < |SavableKeys|
        invariant 0 <= n <= |SavableKeys|
        invariant res == Saved(data, SavableKeys[..n])
        decreases |SavableKeys| - n
      {
        var k := SavableKeys[n];
        var v := GetOr(data, k, VNone);
        SavedSnoc(data, SavableKeys, n);
        res := res + [(k, v)];
        n := n + 1;
      }
      assert SavableKeys[..n] == SavableKeys;
    }
  }

  lemma {:induction false} SavedSnoc(data: Dict<Value>, keys: seq<string>, n: nat)
    requires n < |keys|
    ensures Saved(data, keys[..n + 1]) == Saved(data, keys[..n]) + [(keys[n], GetOr(data, keys[n], VNone))]
    decreases n
  {
    var a, b := keys[..n + 1], keys[..n];
    if n == 0 {
      assert a[1..] == [] && b == [];
    } else {
      assert a[0] == b[0] == keys[0];
      assert a[1..] == keys[1..][..n];
      assert b[1..] == keys[1..][..n - 1];
      SavedSnoc(data, keys[1..], n - 1);
      assert keys[1..][n - 1] == keys[n];
    }
  }

  /** `save` writes exactly the five savable keys, never an in-memory one,
      each with the value `get_value` would return. */
  lemma SaveWritesSavableKeys(data: Dict<Value>, key: string)
    ensures Keys(Saved(data, SavableKeys)) == SavableKeys
    ensures key in InMemoryKeys ==> key !in Keys(Saved(data, SavableKeys))
  {
    WhitelistIsSavablePlusInMemory(key);
  }

  /** A value stored with `set_value` reads back with `get_value`, and no
      other key changes. */
  lemma {:induction false} SetThenGet(data: Dict<Value>, key: string, value: Value, other: string)
    requires key in Whitelist
    ensures Get(Put(data, key, value), key) == Some(value)
    ensures other != key ==> Get(Put(data, key, value), other) == Get(data, other)
  {
    GetPut(data, key, value, key);
    GetPut(data, key, value, other);
  }

  /** Merging stops at the first key off the whitelist: what it stores is
      what merging the entries before it stores, and it raises for that key. */
  lemma {:induction false} MergeStopsAtFirstBadKey(allowed: seq<string>, data: Dict<Value>, dictionary: Dict<Value>, i: nat)
    requires i < |dictionary| && dictionary[i].0 !in allowed
    requires forall j :: 0 <= j < i ==> dictionary[j].0 in allowed
    ensures Merged(allowed, data, dictionary) == (Merged(allowed, data, dictionary[..i]).0, Some(NotOnWhitelist(dictionary[i].0)))
    decreases i
  {
    if i > 0 {
      assert dictionary[..i][1..] == dictionary[1..][..i - 1];
      MergeStopsAtFirstBadKey(allowed, Put(data, dictionary[0].0, dictionary[0].1), dictionary[1..], i - 1);
    }
  }

  /** When every key is whitelisted, merging stores each entry; the last
      entry for a key wins. */
  lemma MergeStoresLastEntry(allowed: seq<string>, data: Dict<Value>, dictionary: Dict<Value>, k: string, v: Value)
    requires forall j :: 0 <= j < |dictionary| ==> dictionary[j].0 in allowed
    requires |dictionary| > 0 && dictionary[|dictionary| - 1] == (k, v)
    ensures Merged(allowed, data, dictionary).1.None?
    ensures Get(Merged(allowed, data, dictionary).0, k) == Some(v)
  {
    MergeRaisesIffKeyOffWhitelist(allowed, data, dictionary);
    MergeKeepsLast(allowed, data, dictionary, k, v);
  }

  lemma {:induction false} MergeKeepsLast(allowed: seq<string>, data: Dict<Value>, dictionary: Dict<Value>, k: string, v: Value)
    requires Merged(allowed, data, dictionary).1.None?
    requires |dictionary| > 0 && dictionary[|dictionary| - 1] == (k, v)
    ensures Get(Merged(allowed, data, dictionary).0, k) == Some(v)
    decreases |dictionary|
  {
    var (key, value) := dictionary[0];
    var rest := dictionary[1..];
    assert key in allowed;
    var stored := Put(data, key, value);
    assert Merged(allowed, data, dictionary) == Merged(allowed, stored, rest);
    if |dictionary| == 1 {
      assert rest == [] && (key, value) == (k, v);
      assert Merged(allowed, stored, rest).0 == stored;
      GetPut(data, k, v, k);
    } else {
      assert rest[|rest| - 1] == (k, v);
      MergeKeepsLast(allowed, stored, rest, k, v);
    }
  }
}
