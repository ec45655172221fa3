/** The extension's Copilot adapter: it answers OpenAI-style chat requests from the dashboard
    with VS Code language models. The VS Code API, `JSON.parse`, `JSON.stringify` and the clock
    are parameters. */
module CopilotService {
  import opened Wrappers
  import opened Sequences
  import opened Text
  import opened CopilotTypes

  const DefaultFamily := "gpt-4o"
  const VSCodeLauncher := "VSCode"
  const SystemPrefix := "[System] "
  const FinishToolCalls := "tool_calls"
  const FinishStop := "stop"
  const AssistantRole := "assistant"

  // ---------------------------------------------------------------------------
  // getGhcpInfoAsync
  // ---------------------------------------------------------------------------

  /** `getGhcpInfoAsync`: `lmAvailable` says whether `vscode.lm` exists, and `copilotModels` is
      what the model queries return, `None` when one of them throws. */
  function GetGhcpInfo(lmAvailable: bool, copilotModels: Option<seq<LanguageModelChat>>): (r: GhcpInfoResponse)
    ensures r.models.Some?
    ensures r.state == GhcpStateEnabled <==> lmAvailable && copilotModels.Some? && |copilotModels.value| > 0
    ensures r.state == GhcpStateUnknown <==> lmAvailable && copilotModels.None?
    ensures r.state != GhcpStateEnabled ==> r.models == Some([]) && r.launcher.None? &&
                                            r.state in {GhcpStateDisabled, GhcpStateUnknown}
    ensures r.state == GhcpStateEnabled ==>
              r.launcher == Some(VSCodeLauncher) && |r.models.value| == |copilotModels.value| &&
              forall i :: 0 <= i < |r.models.value| ==>
                r.models.value[i] == GhcpModelInfo(copilotModels.value[i].name, copilotModels.value[i].name,
                                                   copilotModels.value[i].family, Some(copilotModels.value[i].maxInputTokens))
  {
    if !lmAvailable then GhcpInfoResponse(GhcpStateDisabled, None, Some([]))
    else match copilotModels
      case None => GhcpInfoResponse(GhcpStateUnknown, None, Some([]))
      case Some(models) =>
        if |models| == 0 then GhcpInfoResponse(GhcpStateDisabled, None, Some([]))
        else
          var infos := seq(|models|, i requires 0 <= i < |models| =>
                             GhcpModelInfo(models[i].name, models[i].name, models[i].family, Some(models[i].maxInputTokens)));
          GhcpInfoResponse(GhcpStateEnabled, Some(VSCodeLauncher), Some(infos))
  }

  // ---------------------------------------------------------------------------
  // selectModel
  // ---------------------------------------------------------------------------

  /** `toLowerCase`, for the ASCII letters. */
  function ToLowerChar(c: char): char {
    if 'A' <= c <= 'Z' then (c as int + 32) as char else c
  }

  function ToLower(s: string): (r: string)
    ensures |r| == |s|
    ensures forall i :: 0 <= i < |s| ==> r[i] == ToLowerChar(s[i])
  {
    seq(|s|, i requires 0 <= i < |s| => ToLowerChar(s[i]))
  }

  /** `sub` occurs in `s` at position `i`. */
  predicate OccursAt(s: string, sub: string, i: int) {
    0 <= i <= |s| - |sub| && s[i..i + |sub|] == sub
  }

  lemma OccursShift(s: string, sub: string, i: int)
    requires |s| > 0 && i >= 0
    ensures OccursAt(s[1..], sub, i) <==> OccursAt(s, sub, i + 1)
  {
    if 0 <= i <= |s| - 1 - |sub| {
      assert s[1..][i..i + |sub|] == s[i + 1..i + 1 + |sub|];
    }
  }

  /** `String.prototype.includes`. */
  function Includes(s: string, sub: string): (r: bool)
    ensures r <==> exists i :: OccursAt(s, sub, i)
    decreases |s|
  {
    if |sub| <= |s| && s[..|sub|] == sub then
      assert OccursAt(s, sub, 0);
      true
    else if |s| == 0 then false
    else
      var r := Includes(s[1..], sub);
      assert r ==> exists i :: OccursAt(s, sub, i) by {
        if r {
          var i :| OccursAt(s[1..], sub, i);
          OccursShift(s, sub, i);
        }
      }
      assert (exists i :: OccursAt(s, sub, i)) ==> r by {
        if exists i :: OccursAt(s, sub, i) {
          var i :| OccursAt(s, sub, i);
          assert i != 0;
          OccursShift(s, sub, i - 1);
        }
      }
      r
  }

  /** The fallback test of `selectModel`: the requested family occurs, ignoring case, in the
      model's family or name. */
  predicate PartialMatch(m: LanguageModelChat, family: string) {
    Includes(ToLower(m.family), ToLower(family)) || Includes(ToLower(m.name), ToLower(family))
  }

  /** An exact family match is also a partial one. */
  lemma ExactIsPartial(m: LanguageModelChat, family: string)
    requires m.family == family
    ensures PartialMatch(m, family)
  {
    var f := ToLower(family);
    assert OccursAt(f, f, 0);
  }

  /** The first of `models` of exactly the given family (the exact `selectChatModels` query). */
  function FirstOfFamily(models: seq<LanguageModelChat>, family: string): (r: Option<LanguageModelChat>)
    ensures r.None? <==> forall i :: 0 <= i < |models| ==> models[i].family != family
    ensures r.Some? ==> exists i :: 0 <= i < |models| && models[i] == r.value && r.value.family == family &&
                                   forall j :: 0 <= j < i ==> models[j].family != family
  {
    FirstWhere(models, (m: LanguageModelChat) => m.family == family)
  }

  /** The first of `models` that partially matches (the `find` over all Copilot models). */
  function FirstPartialMatch(models: seq<LanguageModelChat>, family: string): (r: Option<LanguageModelChat>)
    ensures r.None? <==> forall i :: 0 <= i < |models| ==> !PartialMatch(models[i], family)
    ensures r.Some? ==> exists i :: 0 <= i < |models| && models[i] == r.value && PartialMatch(r.value, family) &&
                                   forall j :: 0 <= j < i ==> !PartialMatch(models[j], family)
  {
    FirstWhere(models, (m: LanguageModelChat) => PartialMatch(m, family))
  }

  /** `selectModel` over the Copilot models, in the order VS Code lists them: the first of exactly
      the requested family, else the first partial match, else nothing. */
  function SelectModel(family: string, copilotModels: seq<LanguageModelChat>): (r: Option<LanguageModelChat>)
    ensures r.Some? ==> r.value in copilotModels && PartialMatch(r.value, family)
    ensures r.None? <==> forall i :: 0 <= i < |copilotModels| ==> !PartialMatch(copilotModels[i], family)
  {
    var exact := FirstOfFamily(copilotModels, family);
    if exact.Some? then
      ExactIsPartial(exact.value, family);
      exact
    else FirstPartialMatch(copilotModels, family)
  }

  /** An exact family match wins over any earlier partial match. */
  lemma SelectModelPrefersExact(family: string, copilotModels: seq<LanguageModelChat>, i: nat)
    requires i < |copilotModels| && copilotModels[i].family == family
    requires forall j :: 0 <= j < i ==> copilotModels[j].family != family
    ensures SelectModel(family, copilotModels) == Some(copilotModels[i])
  {
    var r := FirstOfFamily(copilotModels, family);
    var k :| 0 <= k < |copilotModels| && copilotModels[k] == r.value && r.value.family == family &&
             forall j :: 0 <= j < k ==> copilotModels[j].family != family;
    assert k == i;
  }

  /** Without an exact match, the first partial match is chosen. */
  lemma SelectModelFallsBackToPartial(family: string, copilotModels: seq<LanguageModelChat>, i: nat)
    requires forall j :: 0 <= j < |copilotModels| ==> copilotModels[j].family != family
    requires i < |copilotModels| && PartialMatch(copilotModels[i], family)
    requires forall j :: 0 <= j < i ==> !PartialMatch(copilotModels[j], family)
    ensures SelectModel(family, copilotModels) == Some(copilotModels[i])
  {
    var r := FirstPartialMatch(copilotModels, family);
    var k :| 0 <= k < |copilotModels| && copilotModels[k] == r.value && PartialMatch(r.value, family) &&
             forall j :: 0 <= j < k ==> !PartialMatch(copilotModels[j], family);
    assert k == i;
  }

  /** `request.model || 'gpt-4o'`: an absent or empty model name asks for the default family. */
  function RequestedFamily(request: OpenAIChatCompletionOption): (r: string)
    ensures r != ""
    ensures request.model.Some? && request.model.value != "" ==> r == request.model.value
  {
    if request.model.Some? && request.model.value != "" then request.model.value else DefaultFamily
  }

  /** `request.model || model.family`: the `model` field of every response. */
  function ResponseModel(request: OpenAIChatCompletionOption, model: LanguageModelChat): (r: string)
    ensures request.model.Some? && request.model.value != "" ==> r == request.model.value
    ensures request.model.None? || request.model.value == "" ==> r == model.family
  {
    if request.model.Some? && request.model.value != "" then request.model.value else model.family
  }

  /** The message of the error thrown when no model is found; an absent model reads `undefined`. */
  function NotAvailableMessage(request: OpenAIChatCompletionOption): string {
    "Model " + (if request.model.Some? then request.model.value else "undefined") + " not available"
  }

  // ---------------------------------------------------------------------------
  // convertToVSCodeMessages / convertToVSCodeTools
  // ---------------------------------------------------------------------------

  /** The characters JavaScript's `trim` removes. */
  predicate IsJsWhiteSpace(c: char) {
    ('\U{9}' <= c <= '\U{D}') || c == ' ' || c == '\U{A0}' || c == '\U{1680}' ||
    ('\U{2000}' <= c <= '\U{200A}') || c == '\U{2028}' || c == '\U{2029}' ||
    c == '\U{202F}' || c == '\U{205F}' || c == '\U{3000}' || c == '\U{FEFF}'
  }

  /** `s.trim() === ''`. */
  predicate TrimsToEmpty(s: string) {
    forall i :: 0 <= i < |s| ==> IsJsWhiteSpace(s[i])
  }

  /** The parsed arguments of a tool call: `{}` when they are empty, blank or not valid JSON. */
  function ToolCallArguments(arguments: string, parseJson: string -> Option<JsonValue>): (r: JsonValue)
    ensures TrimsToEmpty(arguments) || parseJson(arguments).None? ==> r == EmptyJsonObject
    ensures !TrimsToEmpty(arguments) && parseJson(arguments).Some? ==> r == parseJson(arguments).value
  {
    if arguments != "" && !TrimsToEmpty(arguments) then parseJson(arguments).GetOr(EmptyJsonObject) else EmptyJsonObject
  }

  function ConvertToolCall(call: OpenAIToolCall, parseJson: string -> Option<JsonValue>): LanguageModelPart {
    ToolCallPart(call.id, call.functionName, ToolCallArguments(call.arguments, parseJson))
  }

  /** The parts of an assistant message that carries tool calls. */
  function AssistantParts(content: Option<string>, calls: seq<OpenAIToolCall>, parseJson: string -> Option<JsonValue>): seq<LanguageModelPart> {
    (if content.Some? && content.value != "" then [TextPart(content.value)] else []) +
    seq(|calls|, i requires 0 <= i < |calls| => ConvertToolCall(calls[i], parseJson))
  }

  /** One message of `convertToVSCodeMessages`. */
  function ConvertMessage(msg: OpenAIChatMessage, parseJson: string -> Option<JsonValue>): (r: LanguageModelChatMessage)
    ensures r.role == Assistant <==> msg.AssistantMessage?
    ensures |r.parts| > 0
  {
    match msg
    case SystemMessage(content) => LanguageModelChatMessage(User, [TextPart(SystemPrefix + content)])
    case UserMessage(content) => LanguageModelChatMessage(User, [TextPart(content)])
    case AssistantMessage(content, toolCalls) =>
      if toolCalls.Some? && |toolCalls.value| > 0 then LanguageModelChatMessage(Assistant, AssistantParts(content, toolCalls.value, parseJson))
      else LanguageModelChatMessage(Assistant, [TextPart(content.GetOr(""))])
    case ToolMessage(content, toolCallId) => LanguageModelChatMessage(User, [ToolResultPart(toolCallId, [TextPart(content)])])
    case UnknownRoleMessage(serialized) => LanguageModelChatMessage(User, [TextPart(serialized)])
  }

  /** `convertToVSCodeMessages`: one message per message, in order. */
  function ConvertToVSCodeMessages(messages: seq<OpenAIChatMessage>, parseJson: string -> Option<JsonValue>): (r: seq<LanguageModelChatMessage>)
    ensures |r| == |messages|
    ensures forall i :: 0 <= i < |r| ==> r[i] == ConvertMessage(messages[i], parseJson)
  {
    seq(|messages|, i requires 0 <= i < |messages| => ConvertMessage(messages[i], parseJson))
  }

  /** Only assistant messages become assistant messages; system text is prefixed; a tool result
      travels in a user message under its call id; the parts of an assistant message with tool
      calls are its non-empty text, if any, followed by one tool-call part per call in order,
      with the call's id and name. */
  lemma MessageConversion(msg: OpenAIChatMessage, parseJson: string -> Option<JsonValue>)
    ensures var m := ConvertMessage(msg, parseJson);
            (m.role == Assistant <==> msg.AssistantMessage?) &&
            (msg.SystemMessage? ==> m.parts == [TextPart(SystemPrefix + msg.content)]) &&
            (msg.ToolMessage? ==> m.parts == [ToolResultPart(msg.toolCallId, [TextPart(msg.content)])]) &&
            (msg.AssistantMessage? && msg.toolCalls.Some? && |msg.toolCalls.value| > 0 ==>
               var calls := msg.toolCalls.value;
               var text := if msg.assistantContent.Some? && msg.assistantContent.value != "" then 1 else 0;
               |m.parts| == text + |calls| &&
               (text == 1 ==> m.parts[0] == TextPart(msg.assistantContent.value)) &&
               forall i :: 0 <= i < |calls| ==>
                 m.parts[text + i].ToolCallPart? && m.parts[text + i].callId == calls[i].id &&
                 m.parts[text + i].toolName == calls[i].functionName &&
                 m.parts[text + i].input == ToolCallArguments(calls[i].arguments, parseJson))
  {
  }

  /** JavaScript's falsy JSON values: `null`, `false`, `0` and `""`. Objects and arrays, even
      empty ones, are truthy. */
  predicate Falsy(v: JsonValue) {
    v == JsonNull || v == JsonBool(false) || v == JsonNumber(0) || v == JsonString("")
  }

  /** One tool of `convertToVSCodeTools`: `description || ''` and `parameters || {}`. */
  function ConvertTool(tool: OpenAIToolDefinition): (t: LanguageModelChatTool)
    ensures t.name == tool.name
    ensures t.description == if tool.description.Some? then tool.description.value else ""
    ensures tool.parameters.None? || Falsy(tool.parameters.value) ==> t.inputSchema == EmptyJsonObject
    ensures tool.parameters.Some? && !Falsy(tool.parameters.value) ==> t.inputSchema == tool.parameters.value
  {
    var schema := if tool.parameters.Some? && !Falsy(tool.parameters.value) then tool.parameters.value else EmptyJsonObject;
    LanguageModelChatTool(tool.name, tool.description.GetOr(""), schema)
  }

  /** `convertToVSCodeTools`: throws at the first tool that is not a function; otherwise one tool
      per definition, in order, a missing description read as "" and missing or falsy parameters
      as `{}`. */
  function ConvertToVSCodeTools(tools: seq<OpenAIToolDefinition>): (r: Result<seq<LanguageModelChatTool>, string>)
    ensures r.Ok? <==> forall i :: 0 <= i < |tools| ==> tools[i].toolType == "function"
    ensures r.Ok? ==> |r.value| == |tools| &&
                      forall i :: 0 <= i < |tools| ==>
                        r.value[i].name == tools[i].name &&
                        r.value[i].description == (if tools[i].description.Some? then tools[i].description.value else "") &&
                        r.value[i].inputSchema ==
                          (if tools[i].parameters.Some? && !Falsy(tools[i].parameters.value) then tools[i].parameters.value
                           else EmptyJsonObject)
    ensures r.Err? ==> exists i :: 0 <= i < |tools| && tools[i].toolType != "function" &&
                                   r.error == "Unsupported tool type: " + tools[i].toolType &&
                                   forall j :: 0 <= j < i ==> tools[j].toolType == "function"
  {
    if |tools| == 0 then Ok([])
    else if tools[0].toolType != "function" then Err("Unsupported tool type: " + tools[0].toolType)
    else
      var rest := ConvertToVSCodeTools(tools[1..]);
      assert forall i :: 1 <= i < |tools| ==> tools[i] == tools[1..][i - 1];
      match rest
      case Err(e) => Err(e)
      case Ok(converted) => Ok([ConvertTool(tools[0])] + converted)
  }

  /** What both generate functions do before sending: pick the model (or throw), convert the
      messages, and convert the tools when the request has any. */
  function PrepareRequest(request: OpenAIChatCompletionOption, copilotModels: seq<LanguageModelChat>, parseJson: string -> Option<JsonValue>)
    : (r: Result<(LanguageModelChat, seq<LanguageModelChatMessage>, Option<seq<LanguageModelChatTool>>), string>)
    ensures SelectModel(RequestedFamily(request), copilotModels).None? ==> r == Err(NotAvailableMessage(request))
    ensures r.Ok? ==> Some(r.value.0) == SelectModel(RequestedFamily(request), copilotModels) &&
                      r.value.1 == ConvertToVSCodeMessages(request.messages, parseJson) &&
                      (r.value.2.Some? <==> request.tools.Some?)
    // Once a model is found, the request fails exactly when a tool cannot be converted, with
    // the conversion's error; otherwise it carries the converted tools.
    ensures SelectModel(RequestedFamily(request), copilotModels).Some? ==>
              (r.Err? <==> request.tools.Some? && ConvertToVSCodeTools(request.tools.value).Err?)
    ensures SelectModel(RequestedFamily(request), copilotModels).Some? && request.tools.Some? &&
            ConvertToVSCodeTools(request.tools.value).Err? ==>
              r == Err(ConvertToVSCodeTools(request.tools.value).error)
    ensures r.Ok? && request.tools.Some? ==> r.value.2 == Some(ConvertToVSCodeTools(request.tools.value).value)
  {
    match SelectModel(RequestedFamily(request), copilotModels)
    case None => Err(NotAvailableMessage(request))
    case Some(model) =>
      var messages := ConvertToVSCodeMessages(request.messages, parseJson);
      if request.tools.None? then Ok((model, messages, None))
      else match ConvertToVSCodeTools(request.tools.value)
        case Err(e) => Err(e)
        case Ok(tools) => Ok((model, messages, Some(tools)))
  }

  /** A tool that is not a function makes the request throw "Unsupported tool type: …" for the
      first such tool, once a model has been found. */
  lemma UnsupportedToolRejectsRequest(request: OpenAIChatCompletionOption, copilotModels: seq<LanguageModelChat>,
                                      parseJson: string -> Option<JsonValue>, i: nat)
    requires SelectModel(RequestedFamily(request), copilotModels).Some?
    requires request.tools.Some? && i < |request.tools.value|
    requires request.tools.value[i].toolType != "function"
    requires forall j :: 0 <= j < i ==> request.tools.value[j].toolType == "function"
    ensures PrepareRequest(request, copilotModels, parseJson) == Err("Unsupported tool type: " + request.tools.value[i].toolType)
  {
    var tools := request.tools.value;
    var r := ConvertToVSCodeTools(tools);
    var k :| 0 <= k < |tools| && tools[k].toolType != "function" &&
             r.error == "Unsupported tool type: " + tools[k].toolType &&
             forall j :: 0 <= j < k ==> tools[j].toolType == "function";
    assert k == i;
  }

  /** With no Copilot model at all, every request fails as not available. */
  lemma NoModelsNotAvailable(request: OpenAIChatCompletionOption, parseJson: string -> Option<JsonValue>)
    ensures PrepareRequest(request, [], parseJson) == Err(NotAvailableMessage(request))
    ensures |NotAvailableMessage(request)| >= 14 && NotAvailableMessage(request)[|NotAvailableMessage(request)| - 14..] == " not available"
  {
  }

  // ---------------------------------------------------------------------------
  // Response assembly
  // ---------------------------------------------------------------------------

  /** The values of the text parts, in order. */
  function Texts(parts: seq<LanguageModelPart>): seq<string> {
    if |parts| == 0 then []
    else Texts(parts[..|parts| - 1]) + (if parts[|parts| - 1].TextPart? then [parts[|parts| - 1].value] else [])
  }

  /** The tool-call parts, in order. */
  function ToolCallParts(parts: seq<LanguageModelPart>): (r: seq<LanguageModelPart>)
    ensures forall i :: 0 <= i < |r| ==> r[i].ToolCallPart?
  {
    if |parts| == 0 then []
    else ToolCallParts(parts[..|parts| - 1]) + (if parts[|parts| - 1].ToolCallPart? then [parts[|parts| - 1]] else [])
  }

  /** The tool calls a response reports: one per tool-call part, numbered from 0. */
  function ToolCallObjects(parts: seq<LanguageModelPart>, stringify: JsonValue -> string): (r: seq<OpenAIToolCall>)
    ensures |r| == |ToolCallParts(parts)|
    ensures forall i :: 0 <= i < |r| ==> r[i].index == Some(i)
  {
    var calls := ToolCallParts(parts);
    seq(|calls|, i requires 0 <= i < |calls| =>
          OpenAIToolCall(calls[i].callId, calls[i].toolName, stringify(calls[i].input), Some(i)))
  }

  lemma PartsSnoc(parts: seq<LanguageModelPart>, i: nat, stringify: JsonValue -> string)
    requires i < |parts|
    ensures Texts(parts[..i + 1]) == Texts(parts[..i]) + (if parts[i].TextPart? then [parts[i].value] else [])
    ensures ToolCallObjects(parts[..i + 1], stringify) ==
            ToolCallObjects(parts[..i], stringify) +
            (if parts[i].ToolCallPart?
             then [OpenAIToolCall(parts[i].callId, parts[i].toolName, stringify(parts[i].input), Some(|ToolCallObjects(parts[..i], stringify)|))]
             else [])
  {
    assert parts[..i + 1][..i] == parts[..i];
    assert ToolCallParts(parts[..i + 1]) == ToolCallParts(parts[..i]) + (if parts[i].ToolCallPart? then [parts[i]] else []);
  }

  function FinishReason(calls: seq<OpenAIToolCall>): string {
    if |calls| > 0 then FinishToolCalls else FinishStop
  }

  /** The completion `generateResponseAsync` returns for the response parts `parts`. */
  function Completion(request: OpenAIChatCompletionOption, model: LanguageModelChat, parts: seq<LanguageModelPart>,
                      stringify: JsonValue -> string, created: int): (r: OpenAIChatCompletion)
    ensures r.created == created && r.model == ResponseModel(request, model)
    ensures |r.choices| == 1 && r.choices[0].finishReason.Some?
  {
    var calls := ToolCallObjects(parts, stringify);
    OpenAIChatCompletion(created, ResponseModel(request, model),
      [OpenAIChatCompletionChoice(Some(0),
         Some(OpenAIChatCompletionMessage(Some(AssistantRole), Some(Join("", Texts(parts))), if |calls| > 0 then Some(calls) else None)),
         None, Some(FinishReason(calls)))])
  }

  /** The completion: one assistant choice whose content is the text parts joined; tool calls
      numbered 0..n-1 in order and absent when there are none; `tool_calls` as finish reason
      exactly when there are some, `stop` otherwise. */
  lemma ResponseAssembly(request: OpenAIChatCompletionOption, model: LanguageModelChat, parts: seq<LanguageModelPart>,
                         stringify: JsonValue -> string, created: int)
    ensures var c := Completion(request, model, parts, stringify, created);
            var n := |ToolCallParts(parts)|;
            |c.choices| == 1 && c.choices[0].message.Some? && c.choices[0].delta.None? &&
            c.choices[0].message.value.content == Some(Join("", Texts(parts))) &&
            (c.choices[0].message.value.toolCalls.None? <==> n == 0) &&
            (n > 0 ==> |c.choices[0].message.value.toolCalls.value| == n &&
                        forall i :: 0 <= i < n ==> c.choices[0].message.value.toolCalls.value[i].index == Some(i) &&
                                                   c.choices[0].message.value.toolCalls.value[i].id == ToolCallParts(parts)[i].callId) &&
            (c.choices[0].finishReason == Some(FinishToolCalls) <==> n > 0) &&
            (c.choices[0].finishReason == Some(FinishStop) <==> n == 0)
  {
  }

  /** `generateResponseAsync`, given the Copilot models and the parts the response streams. */
  method GenerateResponseAsync(request: OpenAIChatCompletionOption, copilotModels: seq<LanguageModelChat>,
                               parseJson: string -> Option<JsonValue>, stringify: JsonValue -> string,
                               stream: seq<LanguageModelPart>, created: int)
    returns (r: Result<OpenAIChatCompletion, string>)
    ensures r == match PrepareRequest(request, copilotModels, parseJson)
                 case Err(e) => Err(e)
                 case Ok(prepared) => Ok(Completion(request, prepared.0, stream, stringify, created))
  {
    var prepared := PrepareRequest(request, copilotModels, parseJson);
    if prepared.Err? {
      return Err(prepared.error);
    }
    var model := prepared.value.0;
    var content, toolCalls := CollectParts(stream, stringify);
    r := Ok(OpenAIChatCompletion(created, ResponseModel(request, model),
          [OpenAIChatCompletionChoice(Some(0),
             Some(OpenAIChatCompletionMessage(Some(AssistantRole), Some(Join("", content)), if |toolCalls| > 0 then Some(toolCalls) else None)),
             None, Some(if |toolCalls| > 0 then FinishToolCalls else FinishStop))]));
  }

  /** The `for await` loop of `generateResponseAsync`: the texts pushed to `content` and the tool
      calls pushed with a running index. */
  method CollectParts(stream: seq<LanguageModelPart>, stringify: JsonValue -> string)
    returns (content: seq<string>, toolCalls: seq<OpenAIToolCall>)
    ensures content == Texts(stream)
    ensures toolCalls == ToolCallObjects(stream, stringify)
  {
    content := [];
    toolCalls := [];
    var toolCallIndex := 0;
    var i := 0;
    while i < |stream|
      invariant 0 <= i <= |stream|
      invariant content == Texts(stream[..i])
      invariant toolCalls == ToolCallObjects(stream[..i], stringify) && toolCallIndex == |toolCalls|
    {
      PartsSnoc(stream, i, stringify);
      var part := stream[i];
      if part.TextPart? {
        content := content + [part.value];
      } else if part.ToolCallPart? {
        toolCalls := toolCalls + [OpenAIToolCall(part.callId, part.toolName, stringify(part.input), Some(toolCallIndex))];
        toolCallIndex := toolCallIndex + 1;
      }
      i := i + 1;
    }
    assert stream[..i] == stream;
  }

  // ---------------------------------------------------------------------------
  // Streaming
  // ---------------------------------------------------------------------------

  function DeltaChunk(model: string, text: string, created: int): OpenAIChatCompletion {
    OpenAIChatCompletion(created, model, [OpenAIChatCompletionChoice(Some(0), None, Some(OpenAIChatCompletionMessage(None, Some(text), None)), None)])
  }

  function FinalChunk(model: string, calls: seq<OpenAIToolCall>, created: int): OpenAIChatCompletion {
    OpenAIChatCompletion(created, model,
      [OpenAIChatCompletionChoice(Some(0), None,
         Some(OpenAIChatCompletionMessage(None, None, if |calls| > 0 then Some(calls) else None)), Some(FinishReason(calls)))])
  }

  function DeltaChunks(model: string, texts: seq<string>, created: int): (r: seq<OpenAIChatCompletion>)
    ensures |r| == |texts|
    ensures forall i :: 0 <= i < |r| ==> r[i] == DeltaChunk(model, texts[i], created)
  {
    seq(|texts|, i requires 0 <= i < |texts| => DeltaChunk(model, texts[i], created))
  }

  /** The chunks `generateStreamingResponseAsync` yields for the parts it processed. */
  function StreamingChunks(request: OpenAIChatCompletionOption, model: LanguageModelChat, parts: seq<LanguageModelPart>,
                           stringify: JsonValue -> string, created: int): (r: seq<OpenAIChatCompletion>)
    ensures |r| == |Texts(parts)| + 1
    ensures forall i :: 0 <= i < |r| ==> r[i].created == created && r[i].model == ResponseModel(request, model)
  {
    var m := ResponseModel(request, model);
    DeltaChunks(m, Texts(parts), created) + [FinalChunk(m, ToolCallObjects(parts, stringify), created)]
  }

  /** How many parts are processed when cancellation is seen before part `cancelAt`, if ever. */
  function ProcessedCount(n: nat, cancelAt: Option<nat>): (k: nat)
    ensures k <= n
    ensures cancelAt.None? ==> k == n
  {
    if cancelAt.Some? && cancelAt.value < n then cancelAt.value else n
  }

  /** The content of a chunk's delta, or "" when it has none. */
  function DeltaContent(c: OpenAIChatCompletion): string {
    if |c.choices| > 0 && c.choices[0].delta.Some? && c.choices[0].delta.value.content.Some?
    then c.choices[0].delta.value.content.value else ""
  }

  function DeltaTexts(chunks: seq<OpenAIChatCompletion>): (r: seq<string>)
    ensures |r| == |chunks|
  {
    seq(|chunks|, i requires 0 <= i < |chunks| => DeltaContent(chunks[i]))
  }

  /** Streaming yields one delta chunk per text part, with no finish reason, and then exactly one
      final chunk carrying every tool call and the same finish reason and content as the
      non-streaming completion of the same parts. */
  lemma StreamingMatchesCompletion(request: OpenAIChatCompletionOption, model: LanguageModelChat, parts: seq<LanguageModelPart>,
                                   stringify: JsonValue -> string, created: int)
    ensures var chunks := StreamingChunks(request, model, parts, stringify, created);
            var c := Completion(request, model, parts, stringify, created);
            |chunks| == |Texts(parts)| + 1 &&
            (forall i :: 0 <= i < |chunks| - 1 ==> chunks[i].choices[0].finishReason.None? && chunks[i].choices[0].delta.value.toolCalls.None?) &&
            var last := chunks[|chunks| - 1];
            last.choices[0].finishReason == c.choices[0].finishReason &&
            last.choices[0].delta.value.toolCalls == c.choices[0].message.value.toolCalls &&
            last.model == c.model &&
            Some(Join("", DeltaTexts(chunks[..|chunks| - 1]))) == c.choices[0].message.value.content
  {
    var chunks := StreamingChunks(request, model, parts, stringify, created);
    assert chunks[..|chunks| - 1] == DeltaChunks(ResponseModel(request, model), Texts(parts), created);
    assert DeltaTexts(chunks[..|chunks| - 1]) == Texts(parts);
  }

  /** `generateStreamingResponseAsync`, given the Copilot models, the parts the response streams,
      and the part before which cancellation is first seen, if any. The final chunk is yielded
      even after cancellation. */
  method GenerateStreamingResponseAsync(request: OpenAIChatCompletionOption, copilotModels: seq<LanguageModelChat>,
                                        parseJson: string -> Option<JsonValue>, stringify: JsonValue -> string,
                                        stream: seq<LanguageModelPart>, cancelAt: Option<nat>, created: int)
    returns (r: Result<seq<OpenAIChatCompletion>, string>)
    ensures r == match PrepareRequest(request, copilotModels, parseJson)
                 case Err(e) => Err(e)
                 case Ok(prepared) => Ok(StreamingChunks(request, prepared.0, stream[..ProcessedCount(|stream|, cancelAt)], stringify, created))
  {
    var prepared := PrepareRequest(request, copilotModels, parseJson);
    if prepared.Err? {
      return Err(prepared.error);
    }
    var model := ResponseModel(request, prepared.value.0);
    var chunks, toolCalls := StreamParts(model, stream, stringify, cancelAt, created);
    r := Ok(chunks + [FinalChunk(model, toolCalls, created)]);
  }

  /** The `for await` loop of `generateStreamingResponseAsync`: a delta chunk per text part and the
      tool calls collected, up to the part before which cancellation is seen. */
  method StreamParts(model: string, stream: seq<LanguageModelPart>, stringify: JsonValue -> string, cancelAt: Option<nat>, created: int)
    returns (chunks: seq<OpenAIChatCompletion>, toolCalls: seq<OpenAIToolCall>)
    ensures var processed := stream[..ProcessedCount(|stream|, cancelAt)];
            chunks == DeltaChunks(model, Texts(processed), created) && toolCalls == ToolCallObjects(processed, stringify)
  {
    chunks := [];
    toolCalls := [];
    var toolCallIndex := 0;
    var i := 0;
    while i < |stream|
      invariant 0 <= i <= ProcessedCount(|stream|, cancelAt)
      invariant chunks == DeltaChunks(model, Texts(stream[..i]), created)
      invariant toolCalls == ToolCallObjects(stream[..i], stringify) && toolCallIndex == |toolCalls|
    {
      if cancelAt.Some? && i >= cancelAt.value {
        break;
      }
      PartsSnoc(stream, i, stringify);
      var part := stream[i];
      if part.TextPart? {
        chunks := chunks + [DeltaChunk(model, part.value, created)];
      } else if part.ToolCallPart? {
        toolCalls := toolCalls + [OpenAIToolCall(part.callId, part.toolName, stringify(part.input), Some(toolCallIndex))];
        toolCallIndex := toolCallIndex + 1;
      }
      i := i + 1;
    }
  }
}
