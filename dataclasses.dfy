/** Python dataclass instances seen as their attributes, and the
    `to_dict`/`from_dict` pair that ScenarioSettings and ParkingRecord share:
    `to_dict` copies every attribute `dir()` lists that is not a dunder name,
    in `dir()`'s alphabetical order, and `from_dict` starts from a fresh
    instance and `setattr`s every item it is given, in order.

    An instance is the dict of its attributes in creation order; the
    dataclass's methods and dunder attributes are not in it. */
module Dataclasses {
  import opened Wrappers
  import opened Dicts
  import opened PyValues

  // ---------------------------------------------------------------------
  // The alphabetical order of `dir()`

  /** `a <= b` on Python strings: lexicographic by code point. */
  predicate StrLe(a: string, b: string) {
    a == [] || (b != [] && (a[0] < b[0] || (a[0] == b[0] && StrLe(a[1..], b[1..]))))
  }

  lemma {:induction false} StrLeTotal(a: string, b: string)
    ensures StrLe(a, b) || StrLe(b, a)
  {
    if a != [] && b != [] && a[0] == b[0] {
      StrLeTotal(a[1..], b[1..]);
    }
  }

  ghost predicate Sorted(s: seq<string>) {
    forall i :: 0 < i < |s| ==> StrLe(s[i - 1], s[i])
  }

  /** Insert `x` before the first element it does not follow. */
  function Insert(x: string, s: seq<string>): (r: seq<string>)
    ensures multiset(r) == multiset(s) + multiset{x}
  {
    if s == [] then [x]
    else if StrLe(x, s[0]) then [x] + s
    else
      assert s == [s[0]] + s[1..];
      [s[0]] + Insert(x, s[1..])
  }

  /** `sorted(names)`, as `dir()` returns them. */
  function Sort(s: seq<string>): (r: seq<string>)
    ensures multiset(r) == multiset(s)
  {
    if s == [] then []
    else
      assert s == [s[0]] + s[1..];
      Insert(s[0], Sort(s[1..]))
  }

  lemma {:induction false} InsertSorted(x: string, s: seq<string>)
    requires Sorted(s)
    ensures Sorted(Insert(x, s))
  {
    if s != [] && !StrLe(x, s[0]) {
      StrLeTotal(x, s[0]);
      assert Sorted(s[1..]) by {
        forall i | 0 < i < |s[1..]| ensures StrLe(s[1..][i - 1], s[1..][i]) {
          assert s[1..][i - 1] == s[i] && s[1..][i] == s[i + 1];
        }
      }
      InsertSorted(x, s[1..]);
      var t := Insert(x, s[1..]);
      assert t[0] == x || t[0] == s[1] by {
        if s[1..] != [] && StrLe(x, s[1..][0]) {
        } else if s[1..] != [] {
        }
      }
      var r := [s[0]] + t;
      forall i | 0 < i < |r| ensures StrLe(r[i - 1], r[i]) {
        if i > 1 {
          assert r[i - 1] == t[i - 2] && r[i] == t[i - 1];
        }
      }
    }
  }

  /** The names come out in alphabetical order. */
  lemma {:induction false} SortSorted(s: seq<string>)
    ensures Sorted(Sort(s))
  {
    if s != [] {
      SortSorted(s[1..]);
      InsertSorted(s[0], Sort(s[1..]));
    }
  }

  lemma {:induction false} InsertDistinct(x: string, s: seq<string>)
    requires Distinct(s) && x !in s
    ensures Distinct(Insert(x, s))
  {
    if s != [] && !StrLe(x, s[0]) {
      assert Distinct(s[1..]) by {
        forall i, j | 0 <= i < j < |s[1..]| ensures s[1..][i] != s[1..][j] {
          assert s[1..][i] == s[i + 1] && s[1..][j] == s[j + 1];
        }
      }
      assert x !in s[1..];
      InsertDistinct(x, s[1..]);
      var t := Insert(x, s[1..]);
      assert s[0] !in t by {
        assert s[0] !in multiset(t) by {
          forall j | 0 <= j < |s[1..]| ensures s[1..][j] != s[0] {
            assert s[1..][j] == s[j + 1];
          }
        }
      }
      var r := [s[0]] + t;
      forall i, j | 0 <= i < j < |r| ensures r[i] != r[j] {
        if i == 0 {
          assert r[j] == t[j - 1];
        } else {
          assert r[i] == t[i - 1] && r[j] == t[j - 1];
        }
      }
    } else if s != [] {
      var r := [x] + s;
      forall i, j | 0 <= i < j < |r| ensures r[i] != r[j] {
        if i == 0 {
          assert r[j] == s[j - 1];
        } else {
          assert r[i] == s[i - 1] && r[j] == s[j - 1];
        }
      }
    }
  }

  /** Sorting distinct names lists each of them once. */
  lemma {:induction false} SortDistinct(s: seq<string>)
    requires Distinct(s)
    ensures Distinct(Sort(s))
  {
    if s != [] {
      assert Distinct(s[1..]) by {
        forall i, j | 0 <= i < j < |s[1..]| ensures s[1..][i] != s[1..][j] {
          assert s[1..][i] == s[i + 1] && s[1..][j] == s[j + 1];
        }
      }
      SortDistinct(s[1..]);
      assert s[0] !in Sort(s[1..]) by {
        assert s[0] !in multiset(Sort(s[1..])) by {
          forall j | 0 <= j < |s[1..]| ensures s[1..][j] != s[0] {
            assert s[1..][j] == s[j + 1];
          }
        }
      }
      InsertDistinct(s[0], Sort(s[1..]));
    }
  }

  /** A fresh instance: the declared fields, in declaration order, with
      their defaults. */
  function Instance(fields: seq<string>, values: seq<Value>): (d: Dict<Value>)
    requires |fields| == |values|
    ensures Keys(d) == fields
    ensures forall i :: 0 <= i < |d| ==> d[i] == (fields[i], values[i])
  {
    var d := seq(|fields|, i requires 0 <= i < |fields| => (fields[i], values[i]));
    assert Keys(d) == fields;
    d
  }

  /** Items whose keys are distinct names. */
  lemma DistinctNames<V>(d: Dict<V>)
    requires Distinct(Keys(d))
    ensures DistinctKeys(d)
  {
    forall i, j | 0 <= i < j < |d| ensures d[i].0 != d[j].0 {
      assert Keys(d)[i] == d[i].0 && Keys(d)[j] == d[j].0;
    }
  }

  // ---------------------------------------------------------------------
  // to_dict

  /** `a.startswith('__')` */
  predicate Dunder(name: string) {
    |name| >= 2 && name[0] == '_' && name[1] == '_'
  }

  /** The attribute names the `to_dict` comprehension keeps. */
  function DataNames(names: seq<string>): (r: seq<string>)
    ensures forall k :: k in r <==> k in names && !Dunder(k)
  {
    if names == [] then []
    else if Dunder(names[0]) then DataNames(names[1..])
    else [names[0]] + DataNames(names[1..])
  }

  /** The names `to_dict` copies, in the order it copies them. */
  function DirNames(attrs: Dict<Value>): seq<string> {
    Sort(DataNames(Keys(attrs)))
  }

  /** One item per name, valued with `getattr(self, name)`. */
  function Project(attrs: Dict<Value>, names: seq<string>): (d: Dict<Value>)
    ensures Keys(d) == names
  {
    if names == [] then []
    else [(names[0], Get(attrs, names[0]).GetOr(VNone))] + Project(attrs, names[1..])
  }

  /** What `to_dict` returns. */
  function ToDictSpec(attrs: Dict<Value>): Dict<Value> {
    Project(attrs, DirNames(attrs))
  }

  /** Every name `to_dict` copies reads as in the instance. */
  lemma {:induction false} ProjectGet(attrs: Dict<Value>, names: seq<string>, k: string)
    requires forall n :: n in names ==> n in Keys(attrs)
    ensures Get(Project(attrs, names), k) == if k in names then Get(attrs, k) else None
  {
    if names != [] {
      if names[0] != k {
        ProjectGet(attrs, names[1..], k);
      }
    }
  }

  /** `d[k] = v` for a new key appends the item. */
  lemma {:induction false} PutNew<V>(d: Dict<V>, k: string, v: V)
    requires k !in Keys(d)
    ensures Put(d, k, v) == d + [(k, v)]
  {
    if d != [] {
      assert Keys(d) == [d[0].0] + Keys(d[1..]);
      PutNew(d[1..], k, v);
      assert d == [d[0]] + d[1..];
    }
  }

  /** `to_dict`: the loop over `dir()` that stores each data attribute. */
  method ToDict(attrs: Dict<Value>) returns (res: Dict<Value>)
    requires DistinctKeys(attrs)
    ensures res == ToDictSpec(attrs)
  {
    var names := DirNames(attrs);
    ToDictListsDataAttributes(attrs, "");
    res := [];
    for i := 0 to |names|
      invariant res == Project(attrs, names[..i])
    {
      ToDictStep(attrs, names, i);
      res := Put(res, names[i], Get(attrs, names[i]).GetOr(VNone));
    }
    assert names[..|names|] == names;
  }

  /** One iteration of the `to_dict` loop appends the next name's item. */
  lemma ToDictStep(attrs: Dict<Value>, names: seq<string>, i: nat)
    requires Distinct(names) && i < |names|
    ensures Put(Project(attrs, names[..i]), names[i], Get(attrs, names[i]).GetOr(VNone)) == Project(attrs, names[..i + 1])
  {
    var pre, k := names[..i], names[i];
    assert names[..i + 1] == pre + [k];
    assert k !in pre;
    ProjectSnoc(attrs, pre, k);
    PutNew(Project(attrs, pre), k, Get(attrs, k).GetOr(VNone));
  }

  lemma {:induction false} ProjectSnoc(attrs: Dict<Value>, names: seq<string>, k: string)
    ensures Project(attrs, names + [k]) == Project(attrs, names) + [(k, Get(attrs, k).GetOr(VNone))]
  {
    if names != [] {
      assert (names + [k])[1..] == names[1..] + [k];
      ProjectSnoc(attrs, names[1..], k);
    }
  }

  lemma {:induction false} DataNamesDistinct(names: seq<string>)
    requires Distinct(names)
    ensures Distinct(DataNames(names))
  {
    if names != [] {
      assert Distinct(names[1..]) by {
        forall i, j | 0 <= i < j < |names[1..]| ensures names[1..][i] != names[1..][j] {
          assert names[1..][i] == names[i + 1] && names[1..][j] == names[j + 1];
        }
      }
      DataNamesDistinct(names[1..]);
      if !Dunder(names[0]) {
        var t := DataNames(names[1..]);
        assert names[0] !in t by {
          forall j | 0 <= j < |names[1..]| ensures names[1..][j] != names[0] {
            assert names[1..][j] == names[j + 1];
          }
        }
        var r := [names[0]] + t;
        forall i, j | 0 <= i < j < |r| ensures r[i] != r[j] {
          if i == 0 {
            assert r[j] == t[j - 1];
          } else {
            assert r[i] == t[i - 1] && r[j] == t[j - 1];
          }
        }
      }
    }
  }

  /** `to_dict` lists each data attribute of the instance exactly once, in
      alphabetical order, valued as in the instance, and nothing else. */
  lemma ToDictListsDataAttributes(attrs: Dict<Value>, k: string)
    requires DistinctKeys(attrs)
    ensures Sorted(Keys(ToDictSpec(attrs))) && Distinct(Keys(ToDictSpec(attrs)))
    ensures k in Keys(ToDictSpec(attrs)) <==> k in Keys(attrs) && !Dunder(k)
    ensures Get(ToDictSpec(attrs), k) == if Dunder(k) then None else Get(attrs, k)
  {
    var names := DirNames(attrs);
    assert Distinct(Keys(attrs)) by {
      forall i, j | 0 <= i < j < |attrs| ensures Keys(attrs)[i] != Keys(attrs)[j] {
        assert attrs[i].0 != attrs[j].0;
      }
    }
    DataNamesDistinct(Keys(attrs));
    SortDistinct(DataNames(Keys(attrs)));
    SortSorted(DataNames(Keys(attrs)));
    assert forall n :: n in names <==> n in multiset(DataNames(Keys(attrs)));
    ProjectGet(attrs, names, k);
    if Dunder(k) || k !in Keys(attrs) {
      assert Get(attrs, k).None? || k !in names;
    }
  }

  // ---------------------------------------------------------------------
  // from_dict

  /** `for attr_key, attr_val in dictionary.items(): setattr(s, attr_key, attr_val)` */
  function SetAll(obj: Dict<Value>, items: Dict<Value>): Dict<Value>
    decreases |items|
  {
    if items == [] then obj else SetAll(Put(obj, items[0].0, items[0].1), items[1..])
  }

  lemma {:induction false} SetAllSnoc(obj: Dict<Value>, items: Dict<Value>, k: string, v: Value)
    ensures SetAll(obj, items + [(k, v)]) == Put(SetAll(obj, items), k, v)
    decreases |items|
  {
    if items != [] {
      assert (items + [(k, v)])[1..] == items[1..] + [(k, v)];
      SetAllSnoc(Put(obj, items[0].0, items[0].1), items[1..], k, v);
    }
  }

  /** `from_dict`: a fresh instance with every given item set on it. */
  method FromDict(defaults: Dict<Value>, dictionary: Dict<Value>) returns (s: Dict<Value>)
    ensures s == SetAll(defaults, dictionary)
  {
    s := defaults;
    for i := 0 to |dictionary|
      invariant s == SetAll(defaults, dictionary[..i])
    {
      FromDictStep(defaults, dictionary, i);
      s := Put(s, dictionary[i].0, dictionary[i].1);
    }
    assert dictionary[..|dictionary|] == dictionary;
  }

  /** One iteration of the `from_dict` loop sets the next item. */
  lemma FromDictStep(defaults: Dict<Value>, dictionary: Dict<Value>, i: nat)
    requires i < |dictionary|
    ensures Put(SetAll(defaults, dictionary[..i]), dictionary[i].0, dictionary[i].1) == SetAll(defaults, dictionary[..i + 1])
  {
    var pre, k, v := dictionary[..i], dictionary[i].0, dictionary[i].1;
    assert dictionary[..i + 1] == pre + [(k, v)];
    SetAllSnoc(defaults, pre, k, v);
  }

  /** `from_dict` assigns every key it is given, a later item winning over
      an earlier one, and leaves every other attribute as it was. */
  lemma {:induction false} SetAllGet(obj: Dict<Value>, items: Dict<Value>, k: string)
    ensures Get(SetAll(obj, items), k) == if k in Keys(items) then Some(Last(items, k)) else Get(obj, k)
    decreases |items|
  {
    if items != [] {
      SetAllGet(Put(obj, items[0].0, items[0].1), items[1..], k);
      GetPut(obj, items[0].0, items[0].1, k);
      assert Keys(items) == [items[0].0] + Keys(items[1..]);
    }
  }

  /** The value of the last item with key `k`. */
  function Last(items: Dict<Value>, k: string): Value
    requires k in Keys(items)
  {
    assert Keys(items) == [items[0].0] + Keys(items[1..]);
    if k in Keys(items[1..]) then Last(items[1..], k) else items[0].1
  }

  /** With distinct keys, the last item for a key is its only item. */
  lemma {:induction false} LastDistinct(items: Dict<Value>, k: string)
    requires DistinctKeys(items) && k in Keys(items)
    ensures Some(Last(items, k)) == Get(items, k)
  {
    if items[0].0 != k {
      assert DistinctKeys(items[1..]) by {
        forall i, j | 0 <= i < j < |items[1..]| ensures items[1..][i].0 != items[1..][j].0 {
          assert items[1..][i] == items[i + 1] && items[1..][j] == items[j + 1];
        }
      }
      LastDistinct(items[1..], k);
    } else {
      assert k !in Keys(items[1..]) by {
        forall j | 0 <= j < |items[1..]| ensures Keys(items[1..])[j] != k {
          assert items[1..][j] == items[j + 1];
        }
      }
    }
  }

  /** `setattr` on existing attributes keeps the attribute list. */
  lemma {:induction false} SetAllKeys(obj: Dict<Value>, items: Dict<Value>)
    requires forall k :: k in Keys(items) ==> k in Keys(obj)
    ensures Keys(SetAll(obj, items)) == Keys(obj)
    decreases |items|
  {
    if items != [] {
      assert forall k :: k in Keys(items[1..]) ==> k in Keys(items) by {
        forall k | k in Keys(items[1..]) ensures k in Keys(items) {
          var j :| 0 <= j < |items[1..]| && Keys(items[1..])[j] == k;
          assert Keys(items)[j + 1] == k;
        }
      }
      SetAllKeys(Put(obj, items[0].0, items[0].1), items[1..]);
    }
  }

  lemma {:induction false} SetAllKeepsDistinct(obj: Dict<Value>, items: Dict<Value>)
    requires DistinctKeys(obj)
    ensures DistinctKeys(SetAll(obj, items))
    decreases |items|
  {
    if items != [] {
      PutKeepsDistinct(obj, items[0].0, items[0].1);
      SetAllKeepsDistinct(Put(obj, items[0].0, items[0].1), items[1..]);
    }
  }

  /** Two dicts with the same keys in the same order and the same lookups
      are the same dict. */
  lemma DictExt(x: Dict<Value>, y: Dict<Value>)
    requires DistinctKeys(x) && DistinctKeys(y) && Keys(x) == Keys(y)
    requires forall k :: Get(x, k) == Get(y, k)
    ensures x == y
  {
    forall i | 0 <= i < |x| ensures x[i] == y[i] {
      assert Keys(x)[i] == x[i].0 && Keys(y)[i] == y[i].0;
      GetAt(x, i);
      GetAt(y, i);
    }
  }

  /** For an instance without dunder attributes `to_dict` has one item per
      attribute, valued as in the instance. */
  lemma ToDictOfPlainFields(s: Dict<Value>, k: string)
    requires DistinctKeys(s) && forall f :: f in Keys(s) ==> !Dunder(f)
    ensures |ToDictSpec(s)| == |s|
    ensures k in Keys(ToDictSpec(s)) <==> k in Keys(s)
    ensures Get(ToDictSpec(s), k) == Get(s, k)
  {
    ToDictListsDataAttributes(s, k);
    DataNamesKeepsPlain(Keys(s));
    assert |Sort(Keys(s))| == |multiset(Keys(s))|;
    if Dunder(k) {
      assert Get(s, k).None?;
    }
  }

  lemma {:induction false} DataNamesKeepsPlain(names: seq<string>)
    requires forall k :: k in names ==> !Dunder(k)
    ensures DataNames(names) == names
  {
    if names != [] {
      DataNamesKeepsPlain(names[1..]);
    }
  }

  /** `from_dict(s.to_dict())` rebuilds `s`, for an instance whose attributes
      are the dataclass's fields, in the order its constructor creates
      them. */
  lemma RoundTrip(defaults: Dict<Value>, s: Dict<Value>)
    requires DistinctKeys(s) && Keys(s) == Keys(defaults)
    requires forall k :: k in Keys(s) ==> !Dunder(k)
    ensures SetAll(defaults, ToDictSpec(s)) == s
  {
    assert DistinctKeys(defaults) by {
      forall i, j | 0 <= i < j < |defaults| ensures defaults[i].0 != defaults[j].0 {
        assert Keys(s)[i] == s[i].0 && Keys(s)[j] == s[j].0;
        assert Keys(defaults)[i] == defaults[i].0 && Keys(defaults)[j] == defaults[j].0;
      }
    }
    var p := ToDictSpec(s);
    var r := SetAll(defaults, p);
    forall k ensures k in Keys(p) <==> k in Keys(s) {
      ToDictListsDataAttributes(s, k);
    }
    assert DistinctKeys(p) by {
      ToDictListsDataAttributes(s, "");
      forall i, j | 0 <= i < j < |p| ensures p[i].0 != p[j].0 {
        assert Keys(p)[i] == p[i].0 && Keys(p)[j] == p[j].0;
      }
    }
    SetAllKeys(defaults, p);
    SetAllKeepsDistinct(defaults, p);
    forall k ensures Get(r, k) == Get(s, k) {
      SetAllGet(defaults, p, k);
      ToDictListsDataAttributes(s, k);
      if k in Keys(p) {
        LastDistinct(p, k);
      }
    }
    DictExt(r, s);
  }
}
