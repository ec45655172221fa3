/** Server-ready actions of executable launch configurations: the known action kinds, their wire
    strings, and the permissive JSON converter that also carries actions it does not know. */
module LaunchConfiguration {
  import opened Wrappers
  import opened Text

  datatype ServerReadyActionKind = OpenExternally | DebugWithChrome | DebugWithEdge | StartDebugging

  /** `ServerReadyActionAction`: the action name as VS Code understands it. */
  datatype ServerReadyActionAction = ServerReadyActionAction(value: string)

  /** `ArgumentException` from the constructor. */
  datatype ArgumentError = NullOrWhiteSpace

  /** The messages of the two `JsonException`s `Read` throws. */
  datatype JsonError = ExpectedStringOrNull | ActionCannotBeEmpty

  /** A JSON token as the converter sees it: null, a string, or any other token type. */
  datatype JsonToken = NullToken | StringToken(text: string) | NumberToken | TrueToken | FalseToken | StartObjectToken | StartArrayToken

  const OpenExternallyValue := "openExternally"
  const DebugWithChromeValue := "debugWithChrome"
  const DebugWithEdgeValue := "debugWithEdge"
  const StartDebuggingValue := "startDebugging"

  /** The default `Request` of debugger properties. */
  const DefaultRequest := "launch"

  /** An action a constructor could have made. */
  predicate ValidAction(a: ServerReadyActionAction) {
    !IsNullOrWhiteSpace(Some(a.value))
  }

  /** The constructor: null, empty and all-whitespace values throw. */
  function NewAction(value: Option<string>): (r: Result<ServerReadyActionAction, ArgumentError>)
    ensures r.Ok? <==> !IsNullOrWhiteSpace(value)
    ensures r.Ok? ==> r.value.value == value.value && ValidAction(r.value)
  {
    if IsNullOrWhiteSpace(value) then Err(NullOrWhiteSpace) else Ok(ServerReadyActionAction(value.value))
  }

  /** `ToString` returns the value, so constructing from it gives the same action back. */
  function ToString(a: ServerReadyActionAction): (s: string)
    ensures ValidAction(a) ==> NewAction(Some(s)) == Ok(a)
  {
    a.value
  }

  /** `FromKind`. */
  function FromKind(kind: ServerReadyActionKind): (r: ServerReadyActionAction)
    ensures ValidAction(r)
  {
    assert OpenExternallyValue[0] == 'o' && DebugWithChromeValue[0] == 'd' && DebugWithEdgeValue[0] == 'd' && StartDebuggingValue[0] == 's';
    match kind
    case OpenExternally => ServerReadyActionAction(OpenExternallyValue)
    case DebugWithChrome => ServerReadyActionAction(DebugWithChromeValue)
    case DebugWithEdge => ServerReadyActionAction(DebugWithEdgeValue)
    case StartDebugging => ServerReadyActionAction(StartDebuggingValue)
  }

  /** `TryGetKind`: whether the value is one of the four known names, and the kind it names
      (`default`, the first kind, otherwise). */
  function TryGetKind(a: ServerReadyActionAction): (r: (bool, ServerReadyActionKind))
    ensures r.0 <==> a.value in {OpenExternallyValue, DebugWithChromeValue, DebugWithEdgeValue, StartDebuggingValue}
    ensures !r.0 ==> r.1 == OpenExternally
  {
    var kind :=
      if a.value == OpenExternallyValue then OpenExternally
      else if a.value == DebugWithChromeValue then DebugWithChrome
      else if a.value == DebugWithEdgeValue then DebugWithEdge
      else if a.value == StartDebuggingValue then StartDebugging
      else OpenExternally;
    (a.value == OpenExternallyValue || a.value == DebugWithChromeValue || a.value == DebugWithEdgeValue || a.value == StartDebuggingValue, kind)
  }

  /** Kinds and their wire strings are in one-to-one correspondence: every kind maps back to
      itself, and every recognised action is the action of the kind it names. */
  lemma KindBijection(kind: ServerReadyActionKind, a: ServerReadyActionAction)
    ensures TryGetKind(FromKind(kind)) == (true, kind)
    ensures TryGetKind(a).0 ==> FromKind(TryGetKind(a).1) == a
  {
    assert |OpenExternallyValue| == 14 && |DebugWithChromeValue| == 15 && |DebugWithEdgeValue| == 13 && |StartDebuggingValue| == 14;
    assert OpenExternallyValue[0] != StartDebuggingValue[0];
  }

  /** Distinct kinds give distinct actions. */
  lemma FromKindInjective(k1: ServerReadyActionKind, k2: ServerReadyActionKind)
    ensures FromKind(k1) == FromKind(k2) ==> k1 == k2
  {
    KindBijection(k1, FromKind(k1));
    KindBijection(k2, FromKind(k2));
  }

  /** The converter's `Read`: null reads as no action, a non-string token or a blank string
      throws, and any other string is accepted without validation. */
  function Read(token: JsonToken): (r: Result<Option<ServerReadyActionAction>, JsonError>)
    ensures token.NullToken? ==> r == Ok(None)
    ensures !token.NullToken? && !token.StringToken? ==> r == Err(ExpectedStringOrNull)
    ensures token.StringToken? ==> (r.Err? <==> IsNullOrWhiteSpace(Some(token.text)))
    ensures r.Ok? && r.value.Some? ==> ValidAction(r.value.value) && token == StringToken(r.value.value.value)
  {
    match token
    case NullToken => Ok(None)
    case StringToken(value) =>
      if IsNullOrWhiteSpace(Some(value)) then Err(ActionCannotBeEmpty)
      else Ok(Some(NewAction(Some(value)).value))
    case _ => Err(ExpectedStringOrNull)
  }

  /** The converter's `Write`: null for no action, otherwise the value as a string. */
  function Write(a: Option<ServerReadyActionAction>): (t: JsonToken)
    ensures t.NullToken? <==> a.None?
    ensures a.Some? ==> t.StringToken?
  {
    match a
    case None => NullToken
    case Some(action) => StringToken(action.value)
  }

  /** Writing and reading back gives the same action, known or not; whatever `Read` accepts,
      `Write` writes back as the same token. */
  lemma ConverterRoundTrip(a: Option<ServerReadyActionAction>, token: JsonToken)
    requires a.Some? ==> ValidAction(a.value)
    ensures Read(Write(a)) == Ok(a)
    ensures Read(token).Ok? ==> Write(Read(token).value) == token
  {
  }

  /** An unknown action string is read, and then not recognised as any kind. */
  lemma UnknownActionsAreCarried(value: string)
    requires !IsNullOrWhiteSpace(Some(value))
    requires value !in {OpenExternallyValue, DebugWithChromeValue, DebugWithEdgeValue, StartDebuggingValue}
    ensures Read(StringToken(value)) == Ok(Some(ServerReadyActionAction(value)))
    ensures TryGetKind(ServerReadyActionAction(value)) == (false, OpenExternally)
  {
  }

  /** The configuration properties every debugger shares and that this model keeps. */
  datatype VSCodeDebuggerProperties = VSCodeDebuggerProperties(
    debuggerType: string, request: string, name: string, workingDirectory: string)

  /** Debugger properties as derived classes create them: `Request` is left at its default. */
  function NewDebuggerProperties(debuggerType: string, name: string, workingDirectory: string): (p: VSCodeDebuggerProperties)
    ensures p.request == DefaultRequest
    ensures p.debuggerType == debuggerType && p.name == name && p.workingDirectory == workingDirectory
  {
    VSCodeDebuggerProperties(debuggerType, "launch", name, workingDirectory)
  }
}
