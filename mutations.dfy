/** The status-guarded commands of fgo/gql/mutations.py. Each `mutate`
    reads the status from the agent's shared context, rejects the command
    with an error text when the status does not allow it, and otherwise
    rewrites the status, `state_meta` or the config in place.

    Each command has a specification function on `AgentState` and a method
    on the `Agent` object that the function specifies. */
module Mutations {
  import opened Wrappers
  import opened AgentTypes
  import opened AgentRuntime

  /** The `ok`/`error` pair every mutation returns. */
  datatype Reply = Reply(ok: bool, error: Option<string>)

  /** The context a command leaves and its reply. */
  datatype Outcome = Outcome(state: AgentState, reply: Reply)

  /** `StartFlightGear` also returns the assembled arguments. */
  datatype StartOutcome = StartOutcome(state: AgentState, reply: Reply, assembledArgs: seq<string>)

  /** `f"{current_status}"`: a Python enum member prints as `Status.NAME`. */
  function StatusText(st: Status): string {
    "Status." + st.Name()
  }

  /** The error text of a command the current status does not allow. */
  function Refusal(action: string, st: Status): string {
    "Unable to " + action + ", current state is " + StatusText(st)
  }

  function Rejected(s: AgentState, action: string): (o: Outcome)
    ensures o.state == s && o.reply == Reply(false, Some(Refusal(action, s.info.status)))
  {
    Outcome(s, Reply(false, Some(Refusal(action, s.info.status))))
  }

  function Accepted(s: AgentState): (o: Outcome)
    ensures o.state == s && o.reply.ok && o.reply.error.None?
  {
    Outcome(s, Reply(true, None))
  }

  function WithStatus(s: AgentState, st: Status): (t: AgentState)
    ensures t.info.status == st
  {
    s.(info := s.info.(status := st))
  }

  // ---------------------------------------------------------------------
  // InstallOrUpdateAircraft

  /** `InstallOrUpdateAircraft.mutate(svn_name)` */
  function Install(s: AgentState, svnName: string): (o: Outcome)
    ensures o.reply.ok <==> s.info.status == Ready
    ensures !o.reply.ok ==>
      o.state == s && o.reply.error == Some(Refusal("install/update aircraft", s.info.status))
    ensures o.reply.ok ==>
      o.reply.error.None? && o.state.info.status == InstallingAircraft && o.state.stateMeta == SvnName(svnName)
      && o.state.config == s.config && o.state.fgProcess == s.fgProcess
  {
    if s.info.status != Ready then Rejected(s, "install/update aircraft")
    else Accepted(WithStatus(s, InstallingAircraft).(stateMeta := SvnName(svnName)))
  }

  // ---------------------------------------------------------------------
  // RescanEnvironment

  /** `RescanEnvironment.mutate()` */
  function Rescan(s: AgentState): (o: Outcome)
    ensures o.reply.ok && o.state.info.status == Scanning
    ensures s.info.status == Scanning ==> o.state == s
    ensures s.info.status != Scanning ==>
      o.state == s.(info := s.info.(status := Scanning, errors := None))
  {
    if s.info.status != Scanning then Accepted(s.(info := s.info.(status := Scanning, errors := None)))
    else Accepted(s)
  }

  // ---------------------------------------------------------------------
  // SetConfig

  /** The five keys `SetConfig` accepts, in the order it lists them. */
  const KeysWhitelist: seq<string> := ["fgfs_path", "fgroot_path", "fghome_path", "aircraft_path", "terrasync_path"]

  /** The config attribute a whitelisted key names. */
  function KeyKind(key: string): (r: Option<PathKind>)
    ensures r.Some? <==> key in KeysWhitelist
    ensures r.Some? ==> r.value.ConfigKey() == key
  {
    if key == "fgfs_path" then Some(Fgfs)
    else if key == "fgroot_path" then Some(Fgroot)
    else if key == "fghome_path" then Some(Fghome)
    else if key == "aircraft_path" then Some(Aircraft)
    else if key == "terrasync_path" then Some(Terrasync)
    else None
  }

  /** `setattr(config, key, value)` after `""` became None: the path is
      stored as the str it arrived as. */
  function SetPath(c: AgentConfig, k: PathKind, value: string): (c': AgentConfig)
    ensures value == "" ==> k !in c'.paths
    ensures value != "" ==> k in c'.paths && c'.paths[k] == StrPath(value)
    ensures forall j :: j != k ==> (j in c'.paths <==> j in c.paths) && (j in c.paths ==> c'.paths[j] == c.paths[j])
    ensures c'.fgfsStartupTime == c.fgfsStartupTime
  {
    if value == "" then c.(paths := c.paths - {k}) else c.(paths := c.paths[k := StrPath(value)])
  }

  /** `SetConfig.mutate(key, value)`; saving the config file is not modelled. */
  function SetConfig(s: AgentState, key: string, value: string): (o: Outcome)
    ensures o.reply.ok <==> key in KeysWhitelist
    ensures !o.reply.ok ==> o.state == s && o.reply.error == Some("Unrecognised key " + key)
    ensures o.reply.ok ==>
      o.reply.error.None? && o.state == s.(info := s.info.(status := Scanning, errors := None),
                       config := SetPath(s.config, KeyKind(key).value, value))
  {
    match KeyKind(key)
    case None => Outcome(s, Reply(false, Some("Unrecognised key " + key)))
    case Some(k) => Accepted(s.(info := s.info.(status := Scanning, errors := None), config := SetPath(s.config, k, value)))
  }

  // ---------------------------------------------------------------------
  // StartFlightGear

  /** `--fg-aircraft=` when the aircraft path is set. */
  function AircraftArg(c: AgentConfig): (r: seq<string>)
    ensures |r| <= 1
    ensures r != [] <==> Aircraft in c.paths
  {
    if Aircraft in c.paths then ["--fg-aircraft=" + c.paths[Aircraft].text] else []
  }

  /** `--terrasync-dir=` when terrasync was asked for and its path is set. */
  function TerrasyncArg(c: AgentConfig, sessionArgs: seq<string>): (r: seq<string>)
    ensures |r| <= 1
    ensures r != [] <==> "--enable-terrasync" in sessionArgs && Terrasync in c.paths
  {
    if "--enable-terrasync" in sessionArgs && Terrasync in c.paths then ["--terrasync-dir=" + c.paths[Terrasync].text] else []
  }

  /** `StartFlightGear.mutate(session_args)`, given what
      `session_args.assemble_args()` returned. The list stored as
      `state_meta` is the one returned, so both carry the appended
      arguments. */
  function Start(s: AgentState, sessionArgs: seq<string>): (o: StartOutcome)
    ensures o.reply.ok <==> s.info.status == Ready
    ensures !o.reply.ok ==>
      o.state == s && o.assembledArgs == [] && o.reply.error == Some(Refusal("start FlightGear", s.info.status))
    ensures o.reply.ok ==>
      o.reply.error.None? && o.state.info.status == FgfsStartRequested
      && o.state.stateMeta == Args(o.assembledArgs)
      && |o.assembledArgs| >= |sessionArgs| && o.assembledArgs[..|sessionArgs|] == sessionArgs
      && o.assembledArgs == sessionArgs + AircraftArg(s.config) + TerrasyncArg(s.config, sessionArgs)
      && o.state.config == s.config && o.state.fgProcess == s.fgProcess
  {
    if s.info.status != Ready then
      var r := Rejected(s, "start FlightGear");
      StartOutcome(r.state, r.reply, [])
    else
      var args := sessionArgs + AircraftArg(s.config) + TerrasyncArg(s.config, sessionArgs);
      assert args[..|sessionArgs|] == sessionArgs;
      StartOutcome(WithStatus(s, FgfsStartRequested).(stateMeta := Args(args)), Reply(true, None), args)
  }

  // ---------------------------------------------------------------------
  // StopFlightGear

  /** `StopFlightGear.mutate()` */
  function Stop(s: AgentState): (o: Outcome)
    ensures o.reply.ok <==> s.info.status == FgfsRunning
    ensures !o.reply.ok ==>
      o.state == s && o.reply.error == Some(Refusal("stop FlightGear", s.info.status))
    ensures o.reply.ok ==>
      o.reply.error.None? && o.state == s.(info := s.info.(status := FgfsStopRequested), stateMeta := NoMeta)
  {
    if s.info.status != FgfsRunning then Rejected(s, "stop FlightGear")
    else Accepted(WithStatus(s, FgfsStopRequested).(stateMeta := NoMeta))
  }

  // ---------------------------------------------------------------------
  // What the commands promise together with the tick

  /** Every command keeps the invariant the tick relies on. */
  lemma CommandsPreserveValid(s: AgentState, svnName: string, key: string, value: string, sessionArgs: seq<string>)
    requires Valid(s)
    ensures Valid(Install(s, svnName).state)
    ensures Valid(Rescan(s).state)
    ensures Valid(SetConfig(s, key, value).state)
    ensures Valid(Start(s, sessionArgs).state)
    ensures Valid(Stop(s).state)
  {
  }

  /** From a valid READY context the aircraft path is always set, so an
      accepted start carries `--fg-aircraft=` right after the session's own
      arguments, and `--terrasync-dir=` only when terrasync was asked for. */
  lemma {:induction false} StartArguments(s: AgentState, sessionArgs: seq<string>)
    requires Valid(s) && s.info.status == Ready
    ensures var o := Start(s, sessionArgs);
      o.reply.ok
      && o.assembledArgs[|sessionArgs|] == "--fg-aircraft=" + s.config.paths[Aircraft].text
      && (|o.assembledArgs| == |sessionArgs| + 2 <==> "--enable-terrasync" in sessionArgs && Terrasync in s.config.paths)
      && (|o.assembledArgs| == |sessionArgs| + 2 ==> o.assembledArgs[|sessionArgs| + 1] == "--terrasync-dir=" + s.config.paths[Terrasync].text)
  {
    var o := Start(s, sessionArgs);
    var extra := AircraftArg(s.config) + TerrasyncArg(s.config, sessionArgs);
    assert o.assembledArgs == sessionArgs + extra;
    assert o.assembledArgs[|sessionArgs|] == extra[0];
  }

  /** An accepted start is picked up by the next tick: fgfs is spawned with
      the configured executable followed by exactly the arguments the
      command returned, and the agent waits in FGFS_STARTING from `now`. */
  lemma {:induction false} StartThenTick(s: AgentState, sessionArgs: seq<string>, env: EnvOutcome, host: Host, inp: TickInputs)
    requires s.running && s.info.status == Ready && inp.spawnedPid.Some?
    ensures var o := Start(s, sessionArgs);
      var t := Tick(o.state, env, host, inp);
      t.Some?
      && t.value.info.status == FgfsStarting
      && t.value.stateMeta == StartedAt(inp.now)
      && t.value.fgProcess == Some(Process(inp.spawnedPid.value, [PathText(s.config, Fgfs)] + o.assembledArgs, false))
  {
    var o := Start(s, sessionArgs);
    TickRunsBranch(o.state, env, host, inp);
    assert Decide(o.state, env, host, inp) == StartRequestedStep(o.state, inp);
  }

  /** An accepted stop is carried out by the next tick, which moves to READY
      and clears `state_meta`. The handle it terminated is the one the
      context keeps: line 222 clears `fg_process`, but line 238 writes back
      `next_fg_process`, which still refers to it. */
  lemma {:induction false} StopThenTick(s: AgentState, env: EnvOutcome, host: Host, inp: TickInputs)
    requires Valid(s) && s.running && s.info.status == FgfsRunning
    ensures var o := Stop(s);
      var t := Tick(o.state, env, host, inp);
      o.reply.ok
      && t.Some?
      && t.value.info.status == Ready
      && t.value.stateMeta == NoMeta
      && t.value.fgProcess == Some(s.fgProcess.value.(terminated := true))
  {
    var o := Stop(s);
    assert o.reply.ok && o.state.fgProcess == s.fgProcess && o.state.info.status == FgfsStopRequested;
    TickRunsBranch(o.state, env, host, inp);
    var d := StopRequestedStep(o.state);
    assert Decide(o.state, env, host, inp) == d && d.Some?;
    assert Tick(o.state, env, host, inp) == Some(Rebuild(d.value, inp.now));
  }

  /** After an accepted install, a tick whose svn run succeeds returns to
      READY whether it updated or checked out the aircraft; a failing svn
      run leaves ERROR with one error. */
  lemma {:induction false} InstallThenTick(s: AgentState, svnName: string, env: EnvOutcome, host: Host, inp: TickInputs)
    requires Valid(s) && s.running && s.info.status == Ready && inp.svn != SvnNotFound
    ensures var t := Tick(Install(s, svnName).state, env, host, inp);
      t.Some?
      && (inp.svn == SvnSucceeded ==> t.value.info.status == Ready)
      && (inp.svn.SvnFailed? ==> t.value.info.status == Error && |t.value.info.errors.value| == 1)
  {
    var o := Install(s, svnName);
    assert o.state.stateMeta.SvnName? && Aircraft in o.state.config.paths;
    TickRunsBranch(o.state, env, host, inp);
    var d := InstallingStep(o.state, host, inp);
    assert Decide(o.state, env, host, inp) == d;
  }

  /** After an accepted `SetConfig`, the next tick checks the environment
      against the config holding the new value. */
  lemma {:induction false} SetConfigThenTick(s: AgentState, key: string, value: string, host: Host, inp: TickInputs)
    requires s.running && key in KeysWhitelist
    ensures var o := SetConfig(s, key, value);
      var env := Scan(o.state, host);
      var t := Tick(o.state, env, host, inp);
      o.state.config == SetPath(s.config, KeyKind(key).value, value)
      && (t.None? <==> env.EnvRaised?)
      && (t.Some? ==> t.value.info.errors == Some(env.errors) && t.value.config == env.config)
  {
    var o := SetConfig(s, key, value);
    var env := Scan(o.state, host);
    TickRunsBranch(o.state, env, host, inp);
    assert Decide(o.state, env, host, inp) == ScanningStep(o.state, host, env);
  }

  // ---------------------------------------------------------------------
  // The commands on the agent object

  /** `InstallOrUpdateAircraft.mutate` on the agent's context. */
  method InstallOrUpdateAircraft(ctx: Agent, svnName: string) returns (reply: Reply)
    modifies ctx
    ensures Outcome(ctx.State(), reply) == Install(old(ctx.State()), svnName)
  {
    var ok := true;
    var error: Option<string> := None;
    var currentStatus := ctx.info.status;
    if currentStatus != Ready {
      ok := false;
      error := Some(Refusal("install/update aircraft", currentStatus));
    }
    if ok {
      ctx.info := ctx.info.(status := InstallingAircraft);
      ctx.stateMeta := SvnName(svnName);
    }
    return Reply(ok, error);
  }

  /** `RescanEnvironment.mutate` on the agent's context. */
  method RescanEnvironment(ctx: Agent) returns (reply: Reply)
    modifies ctx
    ensures Outcome(ctx.State(), reply) == Rescan(old(ctx.State()))
  {
    if ctx.info.status != Scanning {
      ctx.info := ctx.info.(status := Scanning, errors := None);
    }
    return Reply(true, None);
  }

  /** `SetConfig.mutate` on the agent's context. */
  method SetConfigValue(ctx: Agent, key: string, value: string) returns (reply: Reply)
    modifies ctx
    ensures Outcome(ctx.State(), reply) == SetConfig(old(ctx.State()), key, value)
  {
    var ok := true;
    var error: Option<string> := None;
    if key !in KeysWhitelist {
      ok := false;
      error := Some("Unrecognised key " + key);
    }
    if ok {
      var kind := KeyKind(key).value;
      if value == "" {
        ctx.config := ctx.config.(paths := ctx.config.paths - {kind});
      } else {
        ctx.config := ctx.config.(paths := ctx.config.paths[kind := StrPath(value)]);
      }
      ctx.info := ctx.info.(status := Scanning, errors := None);
    }
    return Reply(ok, error);
  }

  /** `StartFlightGear.mutate` on the agent's context. `state_meta` and the
      returned list are one list: every append shows in both. */
  method StartFlightGear(ctx: Agent, sessionArgs: seq<string>) returns (reply: Reply, assembledArgs: seq<string>)
    modifies ctx
    ensures StartOutcome(ctx.State(), reply, assembledArgs) == Start(old(ctx.State()), sessionArgs)
  {
    assembledArgs := [];
    var ok := true;
    var error: Option<string> := None;
    var currentStatus := ctx.info.status;
    if currentStatus != Ready {
      ok := false;
      error := Some(Refusal("start FlightGear", currentStatus));
    }
    if ok {
      assembledArgs := sessionArgs;
      ctx.info := ctx.info.(status := FgfsStartRequested);
      ctx.stateMeta := Args(assembledArgs);
      if Aircraft in ctx.config.paths {
        assembledArgs := assembledArgs + ["--fg-aircraft=" + ctx.config.paths[Aircraft].text];
        ctx.stateMeta := Args(assembledArgs);
      }
      if "--enable-terrasync" in sessionArgs && Terrasync in ctx.config.paths {
        assembledArgs := assembledArgs + ["--terrasync-dir=" + ctx.config.paths[Terrasync].text];
        ctx.stateMeta := Args(assembledArgs);
      }
    }
    reply := Reply(ok, error);
  }

  /** `StopFlightGear.mutate` on the agent's context. */
  method StopFlightGear(ctx: Agent) returns (reply: Reply)
    modifies ctx
    ensures Outcome(ctx.State(), reply) == Stop(old(ctx.State()))
  {
    var ok := true;
    var error: Option<string> := None;
    var currentStatus := ctx.info.status;
    if currentStatus != FgfsRunning {
      ok := false;
      error := Some(Refusal("stop FlightGear", currentStatus));
    }
    if ok {
      ctx.info := ctx.info.(status := FgfsStopRequested);
      ctx.stateMeta := NoMeta;
    }
    return Reply(ok, error);
  }
}
