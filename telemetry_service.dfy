/** The dashboard telemetry service: a three-valued initialisation state (not yet known, enabled,
    disabled) that gates every operation, with the telemetry sender modelled as a log of requests. */
module TelemetryService {
  import opened Wrappers

  /** `OperationContext`: `Empty`, or a named context with a number of correlation slots. */
  datatype OperationContext = Empty | Context(name: string, propertyCount: nat)

  /** One `MakeRequest` call: the context it carries, the endpoint its body posts to and, for a
      property, the property posted. */
  datatype Request =
    | OperationRequest(context: OperationContext, endpoint: string)
    | PropertyRequest(context: OperationContext, endpoint: string, propertyName: string, propertyValue: string)

  /** The operations of the service, with the arguments that reach the log. */
  datatype Operation =
    | StartOperation(eventName: string)
    | EndOperation
    | StartUserTask(eventName: string)
    | EndUserTask
    | PostOperation(eventName: string)
    | PostUserTask(eventName: string)
    | PostFault(eventName: string)
    | PostAsset(eventName: string)
    | PostProperty(name: string, value: string)
    | PostRecurringProperty(name: string, value: string)
    | PostCommandLineFlags

  /** `ArgumentNullException` from `IsTelemetryEnabled`, `InvalidOperationException` from `IsEnabled`. */
  datatype TelemetryError = ArgumentNull | InvalidOperation

  const StartOperationEndpoint := "/telemetry/startOperation"
  const EndOperationEndpoint := "/telemetry/endOperation"
  const StartUserTaskEndpoint := "/telemetry/startUserTask"
  const EndUserTaskEndpoint := "/telemetry/endUserTask"
  const PostOperationEndpoint := "/telemetry/operation"
  const PostUserTaskEndpoint := "/telemetry/userTask"
  const PostFaultEndpoint := "/telemetry/fault"
  const PostAssetEndpoint := "/telemetry/asset"
  const PostPropertyEndpoint := "/telemetry/property"
  const PostRecurringPropertyEndpoint := "/telemetry/recurringProperty"
  const PostCommandLineFlagsEndpoint := "/telemetry/commandLineFlags"

  /** The operations that return an `OperationContext`; the others return nothing. */
  predicate ReturnsContext(op: Operation) {
    op.StartOperation? || op.StartUserTask? || op.PostOperation? || op.PostUserTask? || op.PostFault? || op.PostAsset?
  }

  /** The context each operation creates when telemetry is enabled. */
  function ContextOf(op: Operation): (r: OperationContext)
    ensures r.Context?
    ensures ReturnsContext(op) ==> r.name == op.eventName && r.propertyCount > 0
    ensures !ReturnsContext(op) ==> r.propertyCount == 0
  {
    match op
    case StartOperation(e) => Context(e, 2)
    case StartUserTask(e) => Context(e, 2)
    case PostOperation(e) => Context(e, 1)
    case PostUserTask(e) => Context(e, 1)
    case PostFault(e) => Context(e, 1)
    case PostAsset(e) => Context(e, 1)
    case EndOperation => Context("context/endOperation", 0)
    case EndUserTask => Context("context/endUserTask", 0)
    case PostProperty(_, _) => Context("context/postProperty", 0)
    case PostRecurringProperty(_, _) => Context("context/postRecurringProperty", 0)
    case PostCommandLineFlags => Context("context/postCommandLineFlags", 0)
  }

  /** The request each operation hands to the sender when telemetry is enabled. */
  function RequestOf(op: Operation): (r: Request)
    ensures r.context == ContextOf(op)
    ensures r.PropertyRequest? <==> op.PostProperty? || op.PostRecurringProperty?
    ensures |r.endpoint| > 11 && r.endpoint[..11] == "/telemetry/"
  {
    match op
    case StartOperation(_) => OperationRequest(ContextOf(op), StartOperationEndpoint)
    case StartUserTask(_) => OperationRequest(ContextOf(op), StartUserTaskEndpoint)
    case PostOperation(_) => OperationRequest(ContextOf(op), PostOperationEndpoint)
    case PostUserTask(_) => OperationRequest(ContextOf(op), PostUserTaskEndpoint)
    case PostFault(_) => OperationRequest(ContextOf(op), PostFaultEndpoint)
    case PostAsset(_) => OperationRequest(ContextOf(op), PostAssetEndpoint)
    case EndOperation => OperationRequest(ContextOf(op), EndOperationEndpoint)
    case EndUserTask => OperationRequest(ContextOf(op), EndUserTaskEndpoint)
    case PostProperty(n, v) => PropertyRequest(ContextOf(op), PostPropertyEndpoint, n, v)
    case PostRecurringProperty(n, v) => PropertyRequest(ContextOf(op), PostRecurringPropertyEndpoint, n, v)
    case PostCommandLineFlags => OperationRequest(ContextOf(op), PostCommandLineFlagsEndpoint)
  }

  /** Context shapes: start operations carry two slots, post operations one, and end, property
      and flag operations none; start and post contexts are named by the event, the others by a
      fixed `context/` name. */
  lemma ContextShapes(op: Operation)
    ensures ContextOf(op).Context?
    ensures ContextOf(op).propertyCount == (if op.StartOperation? || op.StartUserTask? then 2
                                            else if ReturnsContext(op) then 1 else 0)
    ensures ReturnsContext(op) ==> ContextOf(op).name == op.eventName
    ensures !ReturnsContext(op) ==> |ContextOf(op).name| > 8 && ContextOf(op).name[..8] == "context/"
    ensures RequestOf(op).context == ContextOf(op)
  {
  }

  /** The state the service's fields hold. */
  datatype State = State(telemetryEnabled: Option<bool>, requests: seq<Request>, senderConsultations: nat)

  /** One operation: throws before initialisation; when disabled returns `Empty` (or nothing)
      and emits nothing; when enabled emits exactly its request and returns its context. */
  function Perform(s: State, op: Operation): (r: Result<(Option<OperationContext>, State), TelemetryError>)
    ensures r.Err? <==> s.telemetryEnabled.None?
    ensures r.Err? ==> r.error == InvalidOperation
    ensures r.Ok? ==> r.value.1.telemetryEnabled == s.telemetryEnabled && r.value.1.senderConsultations == s.senderConsultations
    ensures r.Ok? ==> (r.value.0.Some? <==> ReturnsContext(op))
  {
    match s.telemetryEnabled
    case None => Err(InvalidOperation)
    case Some(false) => Ok((if ReturnsContext(op) then Some(Empty) else None, s))
    case Some(true) =>
      Ok((if ReturnsContext(op) then Some(ContextOf(op)) else None, s.(requests := s.requests + [RequestOf(op)])))
  }

  /** Disabled telemetry emits nothing for any sequence of operations, and start/post operations
      hand back `Empty`. */
  lemma DisabledIsSilent(s: State, op: Operation)
    requires s.telemetryEnabled == Some(false)
    ensures Perform(s, op) == Ok((if ReturnsContext(op) then Some(Empty) else None, s))
  {
  }

  /** Enabled telemetry emits exactly one request per operation, carrying the returned context. */
  lemma EnabledEmitsOne(s: State, op: Operation)
    requires s.telemetryEnabled == Some(true)
    ensures var r := Perform(s, op);
            r.Ok? && |r.value.1.requests| == |s.requests| + 1 &&
            r.value.1.requests[..|s.requests|] == s.requests &&
            r.value.1.requests[|s.requests|].context == ContextOf(op) &&
            (ReturnsContext(op) ==> r.value.0 == Some(r.value.1.requests[|s.requests|].context))
  {
    assert (s.requests + [RequestOf(op)])[..|s.requests|] == s.requests;
  }

  /** `GetDefaultProperties`: the dashboard version and the build id, absent attributes read as "". */
  function DefaultProperties(versionKey: string, buildIdKey: string, informationalVersion: Option<string>, fileVersion: Option<string>)
    : (r: seq<(string, string)>)
    ensures |r| == 2 && r[0].0 == versionKey && r[1].0 == buildIdKey
    ensures informationalVersion.None? ==> r[0].1 == ""
    ensures fileVersion.None? ==> r[1].1 == ""
  {
    [(versionKey, informationalVersion.GetOr("")), (buildIdKey, fileVersion.GetOr(""))]
  }

  /** The requests posting each of `properties` in order. */
  function PropertyRequests(properties: seq<(string, string)>): (r: seq<Request>)
    ensures |r| == |properties|
    ensures forall i :: 0 <= i < |r| ==> r[i] == RequestOf(PostProperty(properties[i].0, properties[i].1))
  {
    if |properties| == 0 then []
    else [RequestOf(PostProperty(properties[0].0, properties[0].1))] + PropertyRequests(properties[1..])
  }

  /** `InitializeAsync` with `answer` the sender's `TryStartTelemetrySessionAsync` result: a no-op
      once the state is known; otherwise one consultation, then the default properties when enabled. */
  function Initialize(s: State, answer: bool, defaults: seq<(string, string)>): (r: State)
    ensures s.telemetryEnabled.Some? ==> r == s
    ensures s.telemetryEnabled.None? ==> r.telemetryEnabled == Some(answer) && r.senderConsultations == s.senderConsultations + 1
  {
    if s.telemetryEnabled.Some? then s
    else
      var enabled := s.(telemetryEnabled := Some(answer), senderConsultations := s.senderConsultations + 1);
      if answer then enabled.(requests := s.requests + PropertyRequests(defaults)) else enabled
  }

  /** The sender is consulted at most once, however often initialisation runs. */
  lemma InitializeOnce(s: State, first: bool, second: bool, defaults: seq<(string, string)>)
    requires s.telemetryEnabled.None?
    ensures Initialize(Initialize(s, first, defaults), second, defaults) == Initialize(s, first, defaults)
    ensures Initialize(s, first, defaults).senderConsultations == s.senderConsultations + 1
  {
  }

  /** Enabled initialisation posts one property request per default property, in order; disabled
      initialisation posts nothing. */
  lemma InitializePostsDefaults(s: State, answer: bool, defaults: seq<(string, string)>)
    requires s.telemetryEnabled.None?
    ensures var r := Initialize(s, answer, defaults);
            r.requests[..|s.requests|] == s.requests &&
            |r.requests| == |s.requests| + (if answer then |defaults| else 0) &&
            forall i :: 0 <= i < |r.requests| - |s.requests| ==>
              r.requests[|s.requests| + i] == PropertyRequest(Context("context/postProperty", 0), PostPropertyEndpoint, defaults[i].0, defaults[i].1)
  {
    if answer {
      var r := Initialize(s, answer, defaults);
      assert r.requests == s.requests + PropertyRequests(defaults);
      assert r.requests[..|s.requests|] == s.requests;
    }
  }

  /** `DashboardTelemetryService`. */
  class DashboardTelemetryService {
    var telemetryEnabled: Option<bool>
    /** Every `MakeRequest` the service has made, in order. */
    var requests: seq<Request>
    /** How many times `TryStartTelemetrySessionAsync` was awaited. */
    var senderConsultations: nat
    /** `TelemetryPropertyKeys.DashboardVersion` and `TelemetryPropertyKeys.DashboardBuildId`. */
    const versionKey: string
    const buildIdKey: string
    /** The assembly's informational and file version attributes, when present. */
    const informationalVersion: Option<string>
    const fileVersion: Option<string>

    function StateOf(): State
      reads this
    {
      State(telemetryEnabled, requests, senderConsultations)
    }

    constructor(versionKey: string, buildIdKey: string, informationalVersion: Option<string>, fileVersion: Option<string>)
      ensures StateOf() == State(None, [], 0)
      ensures this.versionKey == versionKey && this.buildIdKey == buildIdKey
      ensures this.informationalVersion == informationalVersion && this.fileVersion == fileVersion
    {
      telemetryEnabled := None;
      requests := [];
      senderConsultations := 0;
      this.versionKey := versionKey;
      this.buildIdKey := buildIdKey;
      this.informationalVersion := informationalVersion;
      this.fileVersion := fileVersion;
    }

    /** `IsTelemetryInitialized`. */
    function IsTelemetryInitialized(): (r: bool)
      reads this
      ensures r <==> telemetryEnabled.Some?
    {
      telemetryEnabled.Some?
    }

    /** `IsTelemetryEnabled`: the flag, or an exception before initialisation. */
    function IsTelemetryEnabled(): (r: Result<bool, TelemetryError>)
      reads this
      ensures r.Err? <==> !IsTelemetryInitialized()
      ensures r.Ok? ==> r.value == telemetryEnabled.value
    {
      if telemetryEnabled.None? then Err(ArgumentNull) else Ok(telemetryEnabled.value)
    }

    function GetDefaultProperties(): seq<(string, string)>
      reads this
    {
      DefaultProperties(versionKey, buildIdKey, informationalVersion, fileVersion)
    }

    /** `PostProperty` as called from initialisation, once the flag is known. */
    method PostPropertyRequest(name: string, value: string)
      requires telemetryEnabled.Some?
      modifies this
      ensures StateOf() == Perform(old(StateOf()), PostProperty(name, value)).value.1
    {
      if telemetryEnabled.value {
        requests := requests + [RequestOf(PostProperty(name, value))];
      }
    }

    /** `InitializeAsync`, with the sender's answer as `answer`; the loop posts the defaults. */
    method InitializeAsync(answer: bool)
      modifies this
      ensures StateOf() == Initialize(old(StateOf()), answer, GetDefaultProperties())
    {
      if telemetryEnabled.Some? {
        return;
      }
      telemetryEnabled := Some(answer);
      senderConsultations := senderConsultations + 1;
      if answer {
        var defaults := GetDefaultProperties();
        var i := 0;
        while i < |defaults|
          invariant 0 <= i <= |defaults|
          invariant telemetryEnabled == Some(true) && senderConsultations == old(senderConsultations) + 1
          invariant requests == old(requests) + PropertyRequests(defaults[..i])
        {
          PropertyRequestsSnoc(defaults, i);
          PostPropertyRequest(defaults[i].0, defaults[i].1);
          i := i + 1;
        }
        assert defaults[..i] == defaults;
      }
    }

    /** Any operation, gated on the flag: the value it returns and the request it makes. */
    method Execute(op: Operation) returns (r: Result<Option<OperationContext>, TelemetryError>)
      modifies this
      ensures match Perform(old(StateOf()), op)
              case Err(e) => r == Err(e) && StateOf() == old(StateOf())
              case Ok((value, next)) => r == Ok(value) && StateOf() == next
    {
      if telemetryEnabled.None? {
        return Err(InvalidOperation);
      }
      if !telemetryEnabled.value {
        return Ok(if ReturnsContext(op) then Some(Empty) else None);
      }
      requests := requests + [RequestOf(op)];
      r := Ok(if ReturnsContext(op) then Some(ContextOf(op)) else None);
    }
  }

  lemma PropertyRequestsSnoc(properties: seq<(string, string)>, i: nat)
    requires i < |properties|
    ensures PropertyRequests(properties[..i + 1]) == PropertyRequests(properties[..i]) + [RequestOf(PostProperty(properties[i].0, properties[i].1))]
  {
    var a := PropertyRequests(properties[..i + 1]);
    var b := PropertyRequests(properties[..i]) + [RequestOf(PostProperty(properties[i].0, properties[i].1))];
    assert |a| == |b|;
    forall k | 0 <= k < |a| ensures a[k] == b[k] {
      assert properties[..i + 1][k] == properties[k];
      if k < i { assert properties[..i][k] == properties[k]; }
    }
  }
}
