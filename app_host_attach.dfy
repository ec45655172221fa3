/** Attaching the debugger to the AppHost process: one session slot, replaced on every attach. */
module AppHostAttach {
  import opened Wrappers
  import opened Text
  import opened DebugSessions

  const AttachType := "coreclr"
  const AttachRequest := "attach"
  const AttachName := "Attach to AppHost"

  /** The attach configuration for the process `pid`; `sourceRoot` is accepted and not used. */
  function AttachConfig(pid: int, sourceRoot: Option<string>): (config: DebugConfiguration)
    ensures config.debugType == AttachType && config.request == AttachRequest && config.name == AttachName
    ensures config.justMyCode == Some(false)
    ensures pid >= 0 ==> config.processId.Some? && ParseNat(config.processId.value) == Some(pid)
  {
    var config := DebugConfiguration(AttachType, AttachRequest, AttachName, Some(IntToDecimal(pid)), Some(false));
    if pid >= 0 then DecimalRoundTrip(pid); config else config
  }

  /** The configuration does not depend on the source root. */
  lemma SourceRootIgnored(pid: int, a: Option<string>, b: Option<string>)
    ensures AttachConfig(pid, a) == AttachConfig(pid, b)
  {
  }

  /** The state `attachToAppHost` touches: the slot and the debug API calls made. */
  datatype AttachState = AttachState(slot: Option<DebugSession>, stopRequests: seq<DebugSession>, startRequests: seq<StartRequest>)

  /** `attachToAppHost`, with the outcome of the start given as in `StartAndGetDebugSession`: a
      stored session is stopped (without waiting) and cleared; a settled start fills the slot with
      its session. When the start never settles the `await` never resumes and the slot stays empty. */
  function Attach(st: AttachState, pid: int, sourceRoot: Option<string>, root: Option<DebugSession>,
                  startedBeforeEnd: seq<DebugSession>, result: StartResult, startedAfterEnd: seq<DebugSession>): (r: AttachState)
    ensures r.slot.Some? ==> r.slot.value.name == AttachName
  {
    var stops := if st.slot.Some? then st.stopRequests + [st.slot.value] else st.stopRequests;
    var outcome := StartAndGetDebugSession(AttachConfig(pid, sourceRoot), root, startedBeforeEnd, result, startedAfterEnd);
    AttachState(if outcome.0.Settled? then outcome.0.session else None, stops, st.startRequests + [outcome.1])
  }

  /** Every attach stops exactly the previously stored session, if any, starts exactly one attach
      session under the current Aspire session, and stores only that start's outcome: the first
      session named "Attach to AppHost" that the listener sees, if any. */
  lemma AttachReplacesSlot(st: AttachState, pid: int, sourceRoot: Option<string>, root: Option<DebugSession>,
                           startedBeforeEnd: seq<DebugSession>, result: StartResult, startedAfterEnd: seq<DebugSession>)
    ensures var r := Attach(st, pid, sourceRoot, root, startedBeforeEnd, result, startedAfterEnd);
            r.stopRequests == st.stopRequests + (if st.slot.Some? then [st.slot.value] else []) &&
            r.startRequests == st.startRequests + [StartRequest(AttachConfig(pid, sourceRoot), root)] &&
            r.slot == FirstNamed(SeenSessions(startedBeforeEnd, result, startedAfterEnd), AttachName)
  {
    StartOutcome(AttachConfig(pid, sourceRoot), root, startedBeforeEnd, result, startedAfterEnd);
  }

  /** The module-level `appHostDebugSession` slot. */
  class AppHostAttacher {
    var appHostDebugSession: Option<DebugSession>
    var stopRequests: seq<DebugSession>
    var startRequests: seq<StartRequest>

    function StateOf(): AttachState
      reads this
    {
      AttachState(appHostDebugSession, stopRequests, startRequests)
    }

    constructor()
      ensures StateOf() == AttachState(None, [], [])
    {
      appHostDebugSession := None;
      stopRequests := [];
      startRequests := [];
    }

    method AttachToAppHost(pid: int, sourceRoot: Option<string>, root: Option<DebugSession>,
                           startedBeforeEnd: seq<DebugSession>, result: StartResult, startedAfterEnd: seq<DebugSession>)
      modifies this
      ensures StateOf() == Attach(old(StateOf()), pid, sourceRoot, root, startedBeforeEnd, result, startedAfterEnd)
    {
      if appHostDebugSession.Some? {
        stopRequests := stopRequests + [appHostDebugSession.value];
        appHostDebugSession := None;
      }
      var config := AttachConfig(pid, sourceRoot);
      var outcome := StartAndGetDebugSession(config, root, startedBeforeEnd, result, startedAfterEnd);
      startRequests := startRequests + [outcome.1];
      if outcome.0.Settled? {
        appHostDebugSession := outcome.0.session;
      }
    }
  }
}
