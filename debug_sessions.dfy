/** The extension's debug-session coordinator: child sessions of the current Aspire session are
    tracked, stopping the Aspire session stops them all, and stopping an AppHost child stops the
    Aspire session. Each event handler runs to completion before the next. */
module DebugSessions {
  import opened Wrappers
  import opened Sequences

  /** A `vscode.DebugSession`: its id, name, the id of its parent session, and whether its
      configuration's `appHost` is truthy. */
  datatype DebugSession = DebugSession(id: string, name: string, parentId: Option<string>, appHost: bool)

  /** A `vscode.DebugConfiguration`, with the keys the extension sets. */
  datatype DebugConfiguration = DebugConfiguration(debugType: string, request: string, name: string, processId: Option<string>, justMyCode: Option<bool>)

  /** An error line written to the extension's output channel when a stop throws. */
  datatype StopFailure = ChildStopFailed(childName: string) | ParentStopFailed

  /** The coordinator's state: the current Aspire session (owned by the debug adapter), the
      tracked children in insertion order, every `stopDebugging` request, and every logged failure. */
  datatype Coordinator = Coordinator(root: Option<DebugSession>, children: seq<DebugSession>, stopRequests: seq<DebugSession>, failures: seq<StopFailure>)

  predicate IsChildOfRoot(root: Option<DebugSession>, s: DebugSession) {
    root.Some? && s.parentId.Some? && s.parentId.value == root.value.id
  }

  predicate Distinct(xs: seq<DebugSession>) {
    forall i, j :: 0 <= i < j < |xs| ==> xs[i] != xs[j]
  }

  /** The tracked children form a set, and each is a child of the current Aspire session. */
  predicate Valid(c: Coordinator) {
    Distinct(c.children) && forall i :: 0 <= i < |c.children| ==> IsChildOfRoot(c.root, c.children[i])
  }

  /** `onDidStartDebugSession`: a child of the current Aspire session is added to the set. */
  function Started(c: Coordinator, s: DebugSession): (r: Coordinator)
    ensures r.root == c.root && r.stopRequests == c.stopRequests && r.failures == c.failures
    ensures forall x :: x in r.children <==> x in c.children || (x == s && IsChildOfRoot(c.root, s))
    ensures !IsChildOfRoot(c.root, s) ==> r.children == c.children
  {
    if IsChildOfRoot(c.root, s) && s !in c.children then c.(children := c.children + [s]) else c
  }

  /** `Set.delete`. */
  function Remove(xs: seq<DebugSession>, s: DebugSession): (r: seq<DebugSession>)
    ensures forall x :: x in r <==> x in xs && x != s
    ensures Distinct(xs) ==> Distinct(r)
    ensures Distinct(xs) && s in xs ==> |r| == |xs| - 1
    ensures s !in xs ==> r == xs
  {
    if |xs| == 0 then []
    else if xs[0] == s then
      assert Distinct(xs) ==> s !in xs[1..];
      Remove(xs[1..], s)
    else
      var rest := Remove(xs[1..], s);
      assert Distinct(xs) ==> xs[0] !in rest;
      [xs[0]] + rest
  }

  /** The error lines of stopping each of `children` in turn, where `stopFails` says which stops throw. */
  function StopFailures(children: seq<DebugSession>, stopFails: DebugSession -> bool): (r: seq<StopFailure>)
    ensures |r| <= |children|
    ensures forall i :: 0 <= i < |children| && stopFails(children[i]) ==> ChildStopFailed(children[i].name) in r
    ensures forall f :: f in r ==> exists i :: 0 <= i < |children| && stopFails(children[i]) && f == ChildStopFailed(children[i].name)
  {
    if |children| == 0 then []
    else
      var rest := StopFailures(children[1..], stopFails);
      assert forall i :: 1 <= i < |children| ==> children[i] == children[1..][i - 1];
      if stopFails(children[0]) then [ChildStopFailed(children[0].name)] + rest else rest
  }

  lemma StopFailuresSnoc(children: seq<DebugSession>, i: nat, stopFails: DebugSession -> bool)
    requires i < |children|
    ensures StopFailures(children[..i + 1], stopFails) ==
            StopFailures(children[..i], stopFails) + (if stopFails(children[i]) then [ChildStopFailed(children[i].name)] else [])
    decreases i
  {
    if i > 0 {
      assert children[..i + 1][1..] == children[1..][..i];
      assert children[..i][1..] == children[1..][..i - 1];
      StopFailuresSnoc(children[1..], i - 1, stopFails);
    }
  }

  /** `onDidTerminateDebugSession`: the Aspire session stops every child; an AppHost child stops
      the Aspire session; any other session changes nothing. */
  function Terminated(c: Coordinator, s: DebugSession, stopFails: DebugSession -> bool): (r: Coordinator)
    ensures r.root == c.root
  {
    if c.root.Some? && s.id == c.root.value.id then
      Coordinator(c.root, [], c.stopRequests + c.children, c.failures + StopFailures(c.children, stopFails))
    else if s in c.children then
      var rest := Remove(c.children, s);
      if s.appHost && c.root.Some? then
        Coordinator(c.root, rest, c.stopRequests + [c.root.value], c.failures + (if stopFails(c.root.value) then [ParentStopFailed] else []))
      else c.(children := rest)
    else c
  }

  /** A started session is tracked exactly when it is a child of the current Aspire session. */
  lemma StartTracksChildren(c: Coordinator, s: DebugSession)
    requires Valid(c)
    ensures Valid(Started(c, s))
    ensures s in Started(c, s).children <==> IsChildOfRoot(c.root, s)
  {
    var r := Started(c, s);
    if IsChildOfRoot(c.root, s) && s !in c.children {
      assert forall i :: 0 <= i < |c.children| ==> r.children[i] == c.children[i];
    }
  }

  /** When the Aspire session ends, one stop is requested per tracked child, in order, whichever
      of them fail; each failure is logged; the set is emptied. */
  lemma RootTerminationStopsEveryChild(c: Coordinator, s: DebugSession, stopFails: DebugSession -> bool)
    requires c.root.Some? && s.id == c.root.value.id
    ensures var r := Terminated(c, s, stopFails);
            r.children == [] && r.stopRequests == c.stopRequests + c.children &&
            r.failures[..|c.failures|] == c.failures &&
            (forall i :: 0 <= i < |c.children| && stopFails(c.children[i]) ==> ChildStopFailed(c.children[i].name) in r.failures[|c.failures|..]) &&
            |r.failures| <= |c.failures| + |c.children|
  {
    var r := Terminated(c, s, stopFails);
    assert r.failures[..|c.failures|] == c.failures;
    assert r.failures[|c.failures|..] == StopFailures(c.children, stopFails);
  }

  /** A tracked child that ends is removed, and it stops the Aspire session exactly when it is an
      AppHost and the Aspire session is set. */
  lemma ChildTermination(c: Coordinator, s: DebugSession, stopFails: DebugSession -> bool)
    requires Valid(c) && s in c.children && !(c.root.Some? && s.id == c.root.value.id)
    ensures var r := Terminated(c, s, stopFails);
            s !in r.children && |r.children| == |c.children| - 1 &&
            (forall x :: x in c.children && x != s ==> x in r.children) &&
            r.stopRequests == c.stopRequests + (if s.appHost then [c.root.value] else [])
  {
    var i :| 0 <= i < |c.children| && c.children[i] == s;
    assert IsChildOfRoot(c.root, c.children[i]);
  }

  /** A session that is neither the Aspire session nor a tracked child changes nothing. */
  lemma UnrelatedTermination(c: Coordinator, s: DebugSession, stopFails: DebugSession -> bool)
    requires !(c.root.Some? && s.id == c.root.value.id) && s !in c.children
    ensures Terminated(c, s, stopFails) == c
  {
  }

  /** Both handlers keep the coordinator valid. */
  lemma TerminationPreservesValid(c: Coordinator, s: DebugSession, stopFails: DebugSession -> bool)
    requires Valid(c)
    ensures Valid(Terminated(c, s, stopFails))
  {
    var r := Terminated(c, s, stopFails);
    if !(c.root.Some? && s.id == c.root.value.id) && s in c.children {
      forall i | 0 <= i < |r.children| ensures IsChildOfRoot(r.root, r.children[i]) {
        assert r.children[i] in r.children;
        var j :| 0 <= j < |c.children| && c.children[j] == r.children[i];
      }
    }
  }

  /** The coordinator, with the lifecycle of the current Aspire session left to the debug adapter. */
  class ChildSessionTracker {
    const root: Option<DebugSession>
    /** `aspireChildDebugSessions`, in insertion order. */
    var children: seq<DebugSession>
    var stopRequests: seq<DebugSession>
    var failures: seq<StopFailure>

    function StateOf(): Coordinator
      reads this
    {
      Coordinator(root, children, stopRequests, failures)
    }

    constructor(root: Option<DebugSession>)
      ensures StateOf() == Coordinator(root, [], [], [])
    {
      this.root := root;
      children := [];
      stopRequests := [];
      failures := [];
    }

    method OnDidStartDebugSession(session: DebugSession)
      modifies this
      ensures StateOf() == Started(old(StateOf()), session)
    {
      if root.Some? && session.parentId.Some? && session.parentId.value == root.value.id && session !in children {
        children := children + [session];
      }
    }

    /** The `for` loop of the Aspire session's termination: a stop per child, a logged error per
        stop that throws. */
    method StopChildren(stopFails: DebugSession -> bool)
      modifies this
      ensures children == old(children)
      ensures stopRequests == old(stopRequests) + children
      ensures failures == old(failures) + StopFailures(children, stopFails)
    {
      var i := 0;
      while i < |children|
        invariant 0 <= i <= |children| && children == old(children)
        invariant stopRequests == old(stopRequests) + children[..i]
        invariant failures == old(failures) + StopFailures(children[..i], stopFails)
      {
        var child := children[i];
        StopFailuresSnoc(children, i, stopFails);
        assert children[..i + 1] == children[..i] + [child];
        stopRequests := stopRequests + [child];
        if stopFails(child) {
          failures := failures + [ChildStopFailed(child.name)];
        }
        i := i + 1;
      }
      assert children[..i] == children;
    }

    /** `stopFails` says which `stopDebugging` calls throw. */
    method OnDidTerminateDebugSession(session: DebugSession, stopFails: DebugSession -> bool)
      modifies this
      ensures StateOf() == Terminated(old(StateOf()), session, stopFails)
    {
      if root.Some? && session.id == root.value.id {
        StopChildren(stopFails);
        children := [];
      } else if session in children {
        children := Remove(children, session);
        if session.appHost && root.Some? {
          stopRequests := stopRequests + [root.value];
          if stopFails(root.value) {
            failures := failures + [ParentStopFailed];
          }
        }
      }
    }
  }

  /** A `startDebugging` call: the configuration and the parent session passed with it. */
  datatype StartRequest = StartRequest(config: DebugConfiguration, parent: Option<DebugSession>)

  /** The first session in `sessions` with the given name. */
  function FirstNamed(sessions: seq<DebugSession>, name: string): (r: Option<DebugSession>)
    ensures r.None? <==> forall i :: 0 <= i < |sessions| ==> sessions[i].name != name
    ensures r.Some? ==> exists i :: 0 <= i < |sessions| && sessions[i] == r.value && r.value.name == name &&
                                   forall j :: 0 <= j < i ==> sessions[j].name != name
  {
    FirstWhere(sessions, (d: DebugSession) => d.name == name)
  }

  lemma FirstNamedAppend(a: seq<DebugSession>, b: seq<DebugSession>, name: string)
    ensures FirstNamed(a + b, name) == if FirstNamed(a, name).Some? then FirstNamed(a, name) else FirstNamed(b, name)
  {
    FirstWhereAppend(a, b, (d: DebugSession) => d.name == name);
  }

  /** How the awaited `startDebugging` call ends: it returns its boolean, or it rejects. */
  datatype StartResult = StartReturned(started: bool) | StartRejected

  /** How the promise `startAndGetDebugSession` returns ends: resolved with a session or with
      nothing, or never settled. */
  datatype Settlement = Settled(session: Option<DebugSession>) | NeverSettles

  /** `startAndGetDebugSession`, given the sessions started before `startDebugging` ends, how it
      ends, and the sessions started after that while the listener is still registered (before
      the timeout after a successful start; every later one after a rejection, since then no
      timeout is armed). The first session named like the configuration resolves the promise; a
      start that returns `false`, or the timeout, resolves it with nothing. A rejection throws out
      of the executor before either is set up, so only a later named session can settle it. The
      current Aspire session is passed as the parent. */
  function StartAndGetDebugSession(config: DebugConfiguration, root: Option<DebugSession>,
                                   startedBeforeEnd: seq<DebugSession>, result: StartResult, startedAfterEnd: seq<DebugSession>)
    : (r: (Settlement, StartRequest))
    ensures r.1 == StartRequest(config, root)
    ensures r.0.Settled? && r.0.session.Some? ==> r.0.session.value.name == config.name
    ensures r.0.NeverSettles? ==> result.StartRejected?
  {
    var early := FirstNamed(startedBeforeEnd, config.name);
    var settlement :=
      if early.Some? then Settled(early)
      else match result
        case StartReturned(false) => Settled(None)
        case StartReturned(true) => Settled(FirstNamed(startedAfterEnd, config.name))
        case StartRejected =>
          var late := FirstNamed(startedAfterEnd, config.name);
          if late.Some? then Settled(late) else NeverSettles;
    (settlement, StartRequest(config, root))
  }

  /** The sessions the listener sees: all of those started before the call ends, and those
      started after it unless the start returned `false`. */
  function SeenSessions(startedBeforeEnd: seq<DebugSession>, result: StartResult, startedAfterEnd: seq<DebugSession>): (r: seq<DebugSession>)
    ensures result == StartReturned(false) ==> r == startedBeforeEnd
    ensures result != StartReturned(false) ==> r == startedBeforeEnd + startedAfterEnd
  {
    if result == StartReturned(false) then startedBeforeEnd else startedBeforeEnd + startedAfterEnd
  }

  /** When the start returns, the outcome is the first matching session among all those seen
      while the listener was registered, or nothing. After a rejection the promise settles with
      that first match, and never settles without one. */
  lemma StartOutcome(config: DebugConfiguration, root: Option<DebugSession>,
                     startedBeforeEnd: seq<DebugSession>, result: StartResult, startedAfterEnd: seq<DebugSession>)
    ensures var seen := SeenSessions(startedBeforeEnd, result, startedAfterEnd);
            var outcome := StartAndGetDebugSession(config, root, startedBeforeEnd, result, startedAfterEnd).0;
            (result.StartReturned? ==> outcome == Settled(FirstNamed(seen, config.name))) &&
            (result.StartRejected? ==>
               outcome == if FirstNamed(seen, config.name).Some? then Settled(FirstNamed(seen, config.name)) else NeverSettles)
  {
    FirstNamedAppend(startedBeforeEnd, startedAfterEnd, config.name);
  }

  /** After a rejected start the promise settles only if a session with the configuration's name
      starts while the listener is registered, and then it holds such a session. */
  lemma RejectedStartSettlesOnlyOnName(config: DebugConfiguration, root: Option<DebugSession>,
                                       startedBeforeEnd: seq<DebugSession>, startedAfterEnd: seq<DebugSession>)
    ensures var outcome := StartAndGetDebugSession(config, root, startedBeforeEnd, StartRejected, startedAfterEnd).0;
            var seen := startedBeforeEnd + startedAfterEnd;
            (outcome.Settled? <==> exists i :: 0 <= i < |seen| && seen[i].name == config.name) &&
            (outcome.Settled? ==> outcome.session.Some? && outcome.session.value in seen)
  {
    var seen := startedBeforeEnd + startedAfterEnd;
    StartOutcome(config, root, startedBeforeEnd, StartRejected, startedAfterEnd);
    var first := FirstNamed(seen, config.name);
    if first.Some? {
      var i :| 0 <= i < |seen| && seen[i] == first.value && first.value.name == config.name &&
               forall j :: 0 <= j < i ==> seen[j].name != config.name;
      assert seen[i].name == config.name;
    }
  }
}
