/** The director's fleet registry of fgo/director/registry.py: agents that
    zeroconf reports alive, agents it reported gone, and hosts the user
    typed in that have not been discovered yet.

    The two dicts are keyed by agent uuid. The registry's own minimal
    `RegisteredAgent` is a value here; the source moves the same object
    between the dicts and flips its `online` flag in place. */
module Registry {
  import opened Wrappers
  import opened Dicts

  /** The minimal `RegisteredAgent` dataclass of the registry. */
  datatype Member = Member(host: string, online: bool, uuid: Option<string>, zeroconfName: Option<string>)

  /** The three collections of a `Registry`. */
  datatype Fleet = Fleet(alive: Dict<Member>, dead: Dict<Member>, unknown: seq<string>)

  /** `RegisteredAgent(host)` for a manually added host. */
  function Unregistered(host: string): Member {
    Member(host, false, None, None)
  }

  /** `get_agents`: alive agents, then dead agents, then one fresh record per
      unknown host. */
  function Agents(f: Fleet): (r: seq<Member>)
    ensures |r| == |f.alive| + |f.dead| + |f.unknown|
    ensures forall i :: 0 <= i < |f.alive| ==> r[i] == f.alive[i].1
    ensures forall i :: 0 <= i < |f.dead| ==> r[|f.alive| + i] == f.dead[i].1
    ensures forall i :: 0 <= i < |f.unknown| ==> r[|f.alive| + |f.dead| + i] == Unregistered(f.unknown[i])
  {
    Values(f.alive) + Values(f.dead) + seq(|f.unknown|, i requires 0 <= i < |f.unknown| => Unregistered(f.unknown[i]))
  }

  /** `[x.host for x in self.get_agents()]` */
  function Hosts(f: Fleet): (hs: seq<string>)
    ensures |hs| == |Agents(f)|
    ensures forall i :: 0 <= i < |hs| ==> hs[i] == Agents(f)[i].host
  {
    var agents := Agents(f);
    seq(|agents|, i requires 0 <= i < |agents| => agents[i].host)
  }

  /** Every key of `d` is its agent's uuid, and every agent has the given
      `online` flag. */
  ghost predicate Keyed(d: Dict<Member>, online: bool) {
    DistinctKeys(d) &&
    forall i :: 0 <= i < |d| ==> d[i].1.uuid == Some(d[i].0) && d[i].1.online == online
  }

  /** The registry's invariant: alive agents are online and dead ones are
      not, each dict is keyed by uuid, no uuid is both alive and dead, and no
      unknown host is listed twice. */
  ghost predicate Valid(f: Fleet) {
    Keyed(f.alive, true) && Keyed(f.dead, false) && Distinct(f.unknown) &&
    forall k :: k in Keys(f.alive) ==> k !in Keys(f.dead)
  }

  /** The first agent of `d` with the given uuid, as the list comprehension
      at the head of `handle_zeroconf_agent_found` finds it. */
  function FirstByUuid(d: Dict<Member>, uuid: string): (r: Option<Member>)
    ensures r.None? <==> forall i :: 0 <= i < |d| ==> d[i].1.uuid != Some(uuid)
    ensures r.Some? ==> r.value.uuid == Some(uuid) && r.value in Values(d)
  {
    if d == [] then None
    else if d[0].1.uuid == Some(uuid) then Some(d[0].1)
    else
      var r := FirstByUuid(d[1..], uuid);
      assert forall i :: 1 <= i < |d| ==> d[i] == d[1..][i - 1];
      assert r.Some? ==> r.value in Values(d) by {
        if r.Some? {
          var j :| 0 <= j < |d[1..]| && Values(d[1..])[j] == r.value;
          assert Values(d)[j + 1] == r.value;
        }
      }
      r
  }

  /** The first agent of `d` with the given zeroconf name. */
  function FirstByName(d: Dict<Member>, name: string): (r: Option<Member>)
    ensures r.None? <==> forall i :: 0 <= i < |d| ==> d[i].1.zeroconfName != Some(name)
    ensures r.Some? ==> r.value.zeroconfName == Some(name) && r.value in Values(d)
  {
    if d == [] then None
    else if d[0].1.zeroconfName == Some(name) then Some(d[0].1)
    else
      var r := FirstByName(d[1..], name);
      assert forall i :: 1 <= i < |d| ==> d[i] == d[1..][i - 1];
      assert r.Some? ==> r.value in Values(d) by {
        if r.Some? {
          var j :| 0 <= j < |d[1..]| && Values(d[1..])[j] == r.value;
          assert Values(d)[j + 1] == r.value;
        }
      }
      r
  }

  /** `handle_zeroconf_agent_found`: a dead agent with this uuid comes back
      online and moves to the alive dict; otherwise a new online agent is
      stored under the uuid and the host leaves the unknown list. */
  function Found(f: Fleet, name: string, host: string, uuid: string): Fleet {
    match FirstByUuid(f.dead, uuid)
    case Some(m) => f.(alive := Put(f.alive, uuid, m.(online := true)), dead := Pop(f.dead, uuid))
    case None =>
      f.(alive := Put(f.alive, uuid, Member(host, true, Some(uuid), Some(name))),
         unknown := RemoveFirst(f.unknown, host))
  }

  /** `handle_zeroconf_agent_removed`: the first alive agent with this name
      goes offline and moves to the dead dict; with no such agent nothing
      changes. */
  function Removed(f: Fleet, name: string): Fleet
    requires Valid(f)
  {
    match FirstByName(f.alive, name)
    case None => f
    case Some(m) =>
      var uuid := UuidOf(f.alive, m);
      f.(dead := Put(f.dead, uuid, m.(online := false)), alive := Pop(f.alive, uuid))
  }

  /** The uuid of an agent stored in a uuid-keyed dict, which is its key. */
  function UuidOf(d: Dict<Member>, m: Member): (uuid: string)
    requires m in Values(d) && forall i :: 0 <= i < |d| ==> d[i].1.uuid == Some(d[i].0)
    ensures m.uuid == Some(uuid) && uuid in Keys(d)
  {
    var j :| 0 <= j < |d| && Values(d)[j] == m;
    assert Keys(d)[j] == d[j].0;
    m.uuid.value
  }

  /** `handle_agent_manually_added`: the host is appended to the unknown
      list unless some listed agent already has it. */
  function ManuallyAdded(f: Fleet, host: string): Fleet {
    if host in Hosts(f) then f else f.(unknown := f.unknown + [host])
  }

  /** `handle_agent_manually_removed`: the host leaves the unknown list; a
      non-empty target uuid is deleted from the dead dict if it is there,
      else from the alive dict. */
  function ManuallyRemoved(f: Fleet, host: string, targetUuid: Option<string>): Fleet {
    var f' := f.(unknown := RemoveFirst(f.unknown, host));
    if targetUuid.None? || targetUuid.value == "" then f'
    else if targetUuid.value in Keys(f.dead) then f'.(dead := Pop(f.dead, targetUuid.value))
    else if targetUuid.value in Keys(f.alive) then f'.(alive := Pop(f.alive, targetUuid.value))
    else f'
  }

  // ---------------------------------------------------------------------
  // Invariant preservation

  lemma {:induction false} PutKeepsKeyed(d: Dict<Member>, k: string, m: Member, online: bool)
    requires Keyed(d, online) && m.uuid == Some(k) && m.online == online
    ensures Keyed(Put(d, k, m), online)
  {
    PutKeepsDistinct(d, k, m);
    if d != [] && d[0].0 != k {
      assert Keyed(d[1..], online) by {
        forall i, j | 0 <= i < j < |d[1..]| ensures d[1..][i].0 != d[1..][j].0 {
          assert d[1..][i] == d[i + 1] && d[1..][j] == d[j + 1];
        }
        assert forall i :: 0 <= i < |d[1..]| ==> d[1..][i] == d[i + 1];
      }
      PutKeepsKeyed(d[1..], k, m, online);
      var r := Put(d, k, m);
      assert r == [d[0]] + Put(d[1..], k, m);
      assert forall i :: 1 <= i < |r| ==> r[i] == Put(d[1..], k, m)[i - 1];
    }
  }

  lemma {:induction false} PopKeepsKeyed(d: Dict<Member>, k: string, online: bool)
    requires Keyed(d, online)
    ensures Keyed(Pop(d, k), online)
  {
    PopKeepsDistinct(d, k);
    if d != [] {
      assert Keyed(d[1..], online) by {
        forall i, j | 0 <= i < j < |d[1..]| ensures d[1..][i].0 != d[1..][j].0 {
          assert d[1..][i] == d[i + 1] && d[1..][j] == d[j + 1];
        }
        assert forall i :: 0 <= i < |d[1..]| ==> d[1..][i] == d[i + 1];
      }
      if d[0].0 != k {
        PopKeepsKeyed(d[1..], k, online);
        var r := Pop(d, k);
        assert r == [d[0]] + Pop(d[1..], k);
        assert forall i :: 1 <= i < |r| ==> r[i] == Pop(d[1..], k)[i - 1];
      }
    }
  }

  /** In a uuid-keyed dict, an agent with uuid `k` is stored under `k`. */
  lemma KeyedFind(d: Dict<Member>, online: bool, k: string)
    requires Keyed(d, online)
    ensures k in Keys(d) <==> FirstByUuid(d, k).Some?
  {
    if k in Keys(d) {
      var j :| 0 <= j < |d| && Keys(d)[j] == k;
      assert d[j].1.uuid == Some(k);
    }
    if FirstByUuid(d, k).Some? {
      var i :| 0 <= i < |d| && d[i].1.uuid == Some(k);
      assert Keys(d)[i] == k;
    }
  }

  /** After `del d[k]` the key is gone and the others are still there. */
  lemma PopKeys(d: Dict<Member>, k: string, k': string)
    requires DistinctKeys(d)
    ensures k' in Keys(Pop(d, k)) <==> k' != k && k' in Keys(d)
  {
    GetPop(d, k, k');
  }

  lemma {:induction false} RemoveFirstDrops<T>(s: seq<T>, x: T)
    requires Distinct(s)
    ensures x !in RemoveFirst(s, x)
  {
    if s != [] {
      if s[0] == x {
        forall j | 0 <= j < |s[1..]| ensures s[1..][j] != x {
          assert s[1..][j] == s[j + 1];
        }
      } else {
        assert Distinct(s[1..]) by {
          forall i, j | 0 <= i < j < |s[1..]| ensures s[1..][i] != s[1..][j] {
            assert s[1..][i] == s[i + 1] && s[1..][j] == s[j + 1];
          }
        }
        RemoveFirstDrops(s[1..], x);
      }
    }
  }

  /** A found event keeps the registry valid. */
  lemma FoundKeepsValid(f: Fleet, name: string, host: string, uuid: string)
    requires Valid(f)
    ensures Valid(Found(f, name, host, uuid))
  {
    var g := Found(f, name, host, uuid);
    KeyedFind(f.dead, false, uuid);
    match FirstByUuid(f.dead, uuid)
    case Some(m) =>
      PutKeepsKeyed(f.alive, uuid, m.(online := true), true);
      PopKeepsKeyed(f.dead, uuid, false);
      forall k | k in Keys(g.alive) ensures k !in Keys(g.dead) {
        PopKeys(f.dead, uuid, k);
      }
    case None =>
      PutKeepsKeyed(f.alive, uuid, Member(host, true, Some(uuid), Some(name)), true);
      RemoveFirstKeepsDistinct(f.unknown, host);
  }

  /** A removed event keeps the registry valid. */
  lemma RemovedKeepsValid(f: Fleet, name: string)
    requires Valid(f)
    ensures Valid(Removed(f, name))
  {
    var g := Removed(f, name);
    match FirstByName(f.alive, name)
    case None =>
    case Some(m) =>
      var uuid := UuidOf(f.alive, m);
      PutKeepsKeyed(f.dead, uuid, m.(online := false), false);
      PopKeepsKeyed(f.alive, uuid, true);
      forall k | k in Keys(g.alive) ensures k !in Keys(g.dead) {
        PopKeys(f.alive, uuid, k);
      }
  }

  /** Every unknown host is among the hosts `get_agents` lists. */
  lemma UnknownHostListed(f: Fleet, host: string)
    requires host in f.unknown
    ensures host in Hosts(f)
  {
    var i :| 0 <= i < |f.unknown| && f.unknown[i] == host;
    assert Hosts(f)[|f.alive| + |f.dead| + i] == host;
  }

  /** A manual add keeps the registry valid: a host already listed is not
      added twice. */
  lemma ManuallyAddedKeepsValid(f: Fleet, host: string)
    requires Valid(f)
    ensures Valid(ManuallyAdded(f, host))
  {
    if host !in Hosts(f) {
      if host in f.unknown {
        UnknownHostListed(f, host);
      }
      var u := f.unknown + [host];
      forall i, j | 0 <= i < j < |u| ensures u[i] != u[j] {
        if j == |f.unknown| {
          assert u[i] in f.unknown;
        }
      }
    }
  }

  /** A manual remove keeps the registry valid. */
  lemma ManuallyRemovedKeepsValid(f: Fleet, host: string, targetUuid: Option<string>)
    requires Valid(f)
    ensures Valid(ManuallyRemoved(f, host, targetUuid))
  {
    var g := ManuallyRemoved(f, host, targetUuid);
    RemoveFirstKeepsDistinct(f.unknown, host);
    if targetUuid.Some? && targetUuid.value != "" {
      var uuid := targetUuid.value;
      if uuid in Keys(f.dead) {
        PopKeepsKeyed(f.dead, uuid, false);
        forall k | k in Keys(g.alive) ensures k !in Keys(g.dead) {
          PopKeys(f.dead, uuid, k);
        }
      } else if uuid in Keys(f.alive) {
        PopKeepsKeyed(f.alive, uuid, true);
        forall k | k in Keys(g.alive) ensures k !in Keys(g.dead) {
          PopKeys(f.alive, uuid, k);
        }
      }
    }
  }

  // ---------------------------------------------------------------------
  // What each event does

  /** A found event for a dead agent's uuid brings back that same record,
      online, under its uuid; it leaves the dead dict and no record is
      created. */
  lemma FoundReactivates(f: Fleet, name: string, host: string, uuid: string, m: Member)
    requires Valid(f) && Get(f.dead, uuid) == Some(m)
    ensures Get(Found(f, name, host, uuid).alive, uuid) == Some(m.(online := true))
    ensures uuid !in Keys(Found(f, name, host, uuid).dead)
    ensures |Found(f, name, host, uuid).alive| + |Found(f, name, host, uuid).dead| == |f.alive| + |f.dead|
    ensures Found(f, name, host, uuid).unknown == f.unknown
  {
    var g := Found(f, name, host, uuid);
    var i :| 0 <= i < |f.dead| && Keys(f.dead)[i] == uuid;
    GetAt(f.dead, i);
    assert FirstByUuid(f.dead, uuid) == Some(m) by {
      FirstByUuidKeyed(f.dead, false, i);
    }
    GetPut(f.alive, uuid, m.(online := true), uuid);
    PopKeys(f.dead, uuid, uuid);
    assert uuid !in Keys(f.alive);
  }

  /** In a uuid-keyed dict the first agent with uuid `d[i].0` is `d[i]`'s. */
  lemma {:induction false} FirstByUuidKeyed(d: Dict<Member>, online: bool, i: nat)
    requires Keyed(d, online) && i < |d|
    ensures FirstByUuid(d, d[i].0) == Some(d[i].1)
  {
    if i > 0 {
      assert d[0].1.uuid == Some(d[0].0) && d[0].0 != d[i].0;
      assert Keyed(d[1..], online) by {
        forall a, b | 0 <= a < b < |d[1..]| ensures d[1..][a].0 != d[1..][b].0 {
          assert d[1..][a] == d[a + 1] && d[1..][b] == d[b + 1];
        }
        assert forall a :: 0 <= a < |d[1..]| ==> d[1..][a] == d[a + 1];
      }
      FirstByUuidKeyed(d[1..], online, i - 1);
    }
  }

  /** A found event for a uuid no dead agent has stores a new online agent
      under it, replacing any alive one, and the host is no longer an
      unknown host. */
  lemma FoundRegisters(f: Fleet, name: string, host: string, uuid: string)
    requires Valid(f) && uuid !in Keys(f.dead)
    ensures Get(Found(f, name, host, uuid).alive, uuid) == Some(Member(host, true, Some(uuid), Some(name)))
    ensures Found(f, name, host, uuid).dead == f.dead
    ensures host !in Found(f, name, host, uuid).unknown
    ensures forall h :: h != host ==> (h in Found(f, name, host, uuid).unknown <==> h in f.unknown)
  {
    KeyedFind(f.dead, false, uuid);
    GetPut(f.alive, uuid, Member(host, true, Some(uuid), Some(name)), uuid);
    RemoveFirstDrops(f.unknown, host);
    forall h | h != host ensures h in RemoveFirst(f.unknown, host) <==> h in f.unknown {
      InRemoveFirst(f.unknown, host, h);
    }
  }

  /** A removed event moves the first alive agent with that name to the dead
      dict, offline, under its uuid; with no such agent nothing changes. */
  lemma RemovedRetires(f: Fleet, name: string)
    requires Valid(f)
    ensures FirstByName(f.alive, name).None? ==> Removed(f, name) == f
    ensures FirstByName(f.alive, name).Some? ==>
      var m := FirstByName(f.alive, name).value;
      m.uuid.Some? && m.uuid.value !in Keys(Removed(f, name).alive) &&
      Get(Removed(f, name).dead, m.uuid.value) == Some(m.(online := false)) &&
      |Removed(f, name).alive| + |Removed(f, name).dead| == |f.alive| + |f.dead|
  {
    match FirstByName(f.alive, name)
    case None =>
    case Some(m) =>
      var uuid := UuidOf(f.alive, m);
      PopKeys(f.alive, uuid, uuid);
      GetPut(f.dead, uuid, m.(online := false), uuid);
      assert uuid !in Keys(f.dead);
  }

  /** Found, removed, then found again with the same uuid leaves exactly one
      record for that uuid, alive and online. */
  lemma FoundRemovedFound(f: Fleet, name: string, host: string, uuid: string)
    requires Valid(f)
    ensures Valid(Found(f, name, host, uuid)) &&
      var g := Found(Removed(Found(f, name, host, uuid), name), name, host, uuid);
      Valid(g) && uuid !in Keys(g.dead) &&
      Get(g.alive, uuid).Some? && Get(g.alive, uuid).value.online &&
      forall i :: 0 <= i < |g.alive| && g.alive[i].1.uuid == Some(uuid) ==> g.alive[i].0 == uuid
  {
    var f1 := Found(f, name, host, uuid);
    FoundKeepsValid(f, name, host, uuid);
    RemovedKeepsValid(f1, name);
    FoundIsAliveOnce(Removed(f1, name), name, host, uuid);
  }

  /** From any valid registry, a found event leaves its uuid alive, online,
      not dead, and the key of every alive record carrying it. */
  lemma FoundIsAliveOnce(f: Fleet, name: string, host: string, uuid: string)
    requires Valid(f)
    ensures var g := Found(f, name, host, uuid);
      Valid(g) && uuid !in Keys(g.dead) &&
      Get(g.alive, uuid).Some? && Get(g.alive, uuid).value.online &&
      forall i :: 0 <= i < |g.alive| && g.alive[i].1.uuid == Some(uuid) ==> g.alive[i].0 == uuid
  {
    var g := Found(f, name, host, uuid);
    FoundKeepsValid(f, name, host, uuid);
    FoundStoresUuid(f, name, host, uuid);
    assert Keyed(g.alive, true);
    GetKeyed(g.alive, uuid);
  }

  lemma FoundStoresUuid(f: Fleet, name: string, host: string, uuid: string)
    ensures uuid in Keys(Found(f, name, host, uuid).alive)
  {
    match FirstByUuid(f.dead, uuid)
    case Some(m) =>
      assert Found(f, name, host, uuid).alive == Put(f.alive, uuid, m.(online := true));
    case None =>
      assert Found(f, name, host, uuid).alive == Put(f.alive, uuid, Member(host, true, Some(uuid), Some(name)));
  }

  /** A lookup that succeeds in a uuid-keyed dict finds an online agent when
      the dict is the alive one. */
  lemma GetKeyed(d: Dict<Member>, k: string)
    requires Keyed(d, true)
    ensures Get(d, k).Some? ==> Get(d, k).value.online
  {
    if Get(d, k).Some? {
      var i :| 0 <= i < |d| && Keys(d)[i] == k;
      GetAt(d, i);
    }
  }

  /** A manual add appends a host no listed agent has, and ignores any
      other. */
  lemma ManuallyAddedAppends(f: Fleet, host: string)
    ensures host in Hosts(f) ==> ManuallyAdded(f, host) == f
    ensures host !in Hosts(f) ==>
      ManuallyAdded(f, host).unknown == f.unknown + [host] &&
      Agents(ManuallyAdded(f, host)) == Agents(f) + [Unregistered(host)]
  {
    if host !in Hosts(f) {
      var g := ManuallyAdded(f, host);
      assert Agents(g) == Agents(f) + [Unregistered(host)];
    }
  }

  /** A manual remove drops the host from the unknown list, and a non-empty
      target uuid from the dead dict, or failing that from the alive one. */
  lemma ManuallyRemovedDrops(f: Fleet, host: string, targetUuid: Option<string>)
    requires Valid(f)
    ensures host !in ManuallyRemoved(f, host, targetUuid).unknown
    ensures targetUuid.Some? && targetUuid.value != "" ==>
      targetUuid.value !in Keys(ManuallyRemoved(f, host, targetUuid).alive) &&
      targetUuid.value !in Keys(ManuallyRemoved(f, host, targetUuid).dead)
    ensures targetUuid.None? || targetUuid.value == "" ==>
      ManuallyRemoved(f, host, targetUuid).alive == f.alive &&
      ManuallyRemoved(f, host, targetUuid).dead == f.dead
  {
    RemoveFirstDrops(f.unknown, host);
    if targetUuid.Some? && targetUuid.value != "" {
      var uuid := targetUuid.value;
      PopKeys(f.dead, uuid, uuid);
      PopKeys(f.alive, uuid, uuid);
    }
  }

  /** `Registry`: the two dicts and the list, updated in place by the
      discovery and manual add/remove slots. */
  class Registry {
    var alive: Dict<Member>
    var dead: Dict<Member>
    var unknown: seq<string>

    function State(): Fleet
      reads this
    {
      Fleet(alive, dead, unknown)
    }

    constructor()
      ensures State() == Fleet([], [], []) && Valid(State())
    {
      alive := [];
      dead := [];
      unknown := [];
    }

    method HandleAgentFound(name: string, host: string, uuid: string)
      requires Valid(State())
      modifies this
      ensures State() == Found(old(State()), name, host, uuid) && Valid(State())
    {
      FoundKeepsValid(State(), name, host, uuid);
      var memo := FirstByUuid(dead, uuid);
      if memo.Some? {
        alive := Put(alive, uuid, memo.value.(online := true));
        dead := Pop(dead, uuid);
        return;
      }
      alive := Put(alive, uuid, Member(host, true, Some(uuid), Some(name)));
      if host in unknown {
        unknown := RemoveFirst(unknown, host);
      }
    }

    method HandleAgentRemoved(name: string)
      requires Valid(State())
      modifies this
      ensures State() == Removed(old(State()), name) && Valid(State())
    {
      RemovedKeepsValid(State(), name);
      var memo := FirstByName(alive, name);
      if memo.Some? {
        var uuid := UuidOf(alive, memo.value);
        dead := Put(dead, uuid, memo.value.(online := false));
        alive := Pop(alive, uuid);
      }
    }

    method HandleAgentManuallyAdded(host: string)
      requires Valid(State())
      modifies this
      ensures State() == ManuallyAdded(old(State()), host) && Valid(State())
    {
      ManuallyAddedKeepsValid(State(), host);
      if host !in Hosts(State()) {
        unknown := unknown + [host];
      }
    }

    method HandleAgentManuallyRemoved(host: string, targetUuid: Option<string>)
      requires Valid(State())
      modifies this
      ensures State() == ManuallyRemoved(old(State()), host, targetUuid) && Valid(State())
    {
      ManuallyRemovedKeepsValid(State(), host, targetUuid);
      if host in unknown {
        unknown := RemoveFirst(unknown, host);
      }
      if targetUuid.Some? && targetUuid.value != "" {
        if targetUuid.value in Keys(dead) {
          dead := Pop(dead, targetUuid.value);
        } else if targetUuid.value in Keys(alive) {
          alive := Pop(alive, targetUuid.value);
        }
      }
    }
  }
}
