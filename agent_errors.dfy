/** The protocol-file errors of fgo/agent/agent_errors.py. */
module AgentErrors {
  import opened Wrappers
  import opened AgentTypes

  /** `t` occurs in `s` starting at index `k`. */
  predicate OccursAt(s: string, t: string, k: nat) {
    k + |t| <= |s| && s[k..k + |t|] == t
  }

  ghost predicate Contains(s: string, t: string) {
    exists k: nat :: OccursAt(s, t, k)
  }

  /** The command both descriptions tell the user to run. */
  const SetupCommand: string := "`fgo setup`"

  /** The generic protocol file is absent from FG_ROOT. */
  function ProtocolFileMissingError(filepath: string): (e: AgentError)
    ensures e.code == ProtocolFileMissing
    ensures e.description.Some?
    ensures Contains(e.description.value, "'" + filepath + "'")
    ensures Contains(e.description.value, "`fgo setup`")
  {
    var quoted := "'" + filepath + "'";
    var d := "Could not generic protocol file " + quoted + ". Please run " + SetupCommand + " on this device.";
    var head := "Could not generic protocol file ";
    var before := head + quoted + ". Please run ";
    assert d == head + quoted + (". Please run " + SetupCommand + " on this device.");
    assert d[|head|..|head| + |quoted|] == quoted;
    assert d == before + SetupCommand + " on this device.";
    assert d[|before|..|before| + |SetupCommand|] == SetupCommand;
    assert OccursAt(d, quoted, |head|) && OccursAt(d, SetupCommand, |before|);
    AgentError(ProtocolFileMissing, Some(d))
  }

  /** The generic protocol file differs from the copy shipped with the agent. */
  function ProtocolFileHashMismatch(filepath: string): (e: AgentError)
    ensures e.code == ErrorCode.ProtocolFileHashMismatch
    ensures e.description.Some?
    ensures Contains(e.description.value, "'" + filepath + "'")
    ensures Contains(e.description.value, "`fgo setup`")
  {
    var quoted := "'" + filepath + "'";
    var d := "Generic protocol file " + quoted + " has unexpected contents. Please run " + SetupCommand + " on this device.";
    var head := "Generic protocol file ";
    var before := head + quoted + " has unexpected contents. Please run ";
    assert d == head + quoted + (" has unexpected contents. Please run " + SetupCommand + " on this device.");
    assert d[|head|..|head| + |quoted|] == quoted;
    assert d == before + SetupCommand + " on this device.";
    assert d[|before|..|before| + |SetupCommand|] == SetupCommand;
    assert OccursAt(d, quoted, |head|) && OccursAt(d, SetupCommand, |before|);
    AgentError(ErrorCode.ProtocolFileHashMismatch, Some(d))
  }
}
