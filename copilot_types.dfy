/** The messages the dashboard and the extension exchange about GitHub Copilot, in the OpenAI
    chat-completion shape, and the VS Code language-model values they are converted to and from. */
module CopilotTypes {
  import opened Wrappers

  const GhcpStateEnabled := "Enabled"
  const GhcpStateDisabled := "Disabled"
  const GhcpStateUnknown := "Unknown"

  /** `GhcpModelInfo`. */
  datatype GhcpModelInfo = GhcpModelInfo(name: string, displayName: string, family: string, inputTokens: Option<int>)

  /** `GhcpInfoResponse`. */
  datatype GhcpInfoResponse = GhcpInfoResponse(state: string, launcher: Option<string>, models: Option<seq<GhcpModelInfo>>)

  /** A JSON value, as `JSON.parse` produces and `JSON.stringify` consumes. */
  datatype JsonValue =
    | JsonObject(members: seq<(string, JsonValue)>)
    | JsonArray(items: seq<JsonValue>)
    | JsonString(s: string)
    | JsonNumber(n: int)
    | JsonBool(b: bool)
    | JsonNull

  const EmptyJsonObject := JsonObject([])

  /** `OpenAIToolCallResponseObject`; its `type` is always `'function'`. */
  datatype OpenAIToolCall = OpenAIToolCall(id: string, functionName: string, arguments: string, index: Option<nat>)

  /** `OpenAIChatMessage`, by role; a message with any other role is kept as its JSON text. */
  datatype OpenAIChatMessage =
    | SystemMessage(content: string)
    | UserMessage(content: string)
    | AssistantMessage(assistantContent: Option<string>, toolCalls: Option<seq<OpenAIToolCall>>)
    | ToolMessage(content: string, toolCallId: string)
    | UnknownRoleMessage(serialized: string)

  /** `OpenAIToolDefinition`, with whatever `type` the caller sent. */
  datatype OpenAIToolDefinition = OpenAIToolDefinition(toolType: string, name: string, description: Option<string>, parameters: Option<JsonValue>)

  /** `OpenAIChatCompletionOption`. */
  datatype OpenAIChatCompletionOption = OpenAIChatCompletionOption(
    model: Option<string>, messages: seq<OpenAIChatMessage>, tools: Option<seq<OpenAIToolDefinition>>, stream: Option<bool>)

  /** `OpenAIChatCompletionMessage`. */
  datatype OpenAIChatCompletionMessage = OpenAIChatCompletionMessage(role: Option<string>, content: Option<string>, toolCalls: Option<seq<OpenAIToolCall>>)

  /** `OpenAIChatCompletionChoice`. */
  datatype OpenAIChatCompletionChoice = OpenAIChatCompletionChoice(
    index: Option<nat>, message: Option<OpenAIChatCompletionMessage>, delta: Option<OpenAIChatCompletionMessage>, finishReason: Option<string>)

  /** `OpenAIChatCompletion`. */
  datatype OpenAIChatCompletion = OpenAIChatCompletion(created: int, model: string, choices: seq<OpenAIChatCompletionChoice>)

  /** A `vscode.LanguageModelChat` as the extension reads it. */
  datatype LanguageModelChat = LanguageModelChat(name: string, family: string, vendor: string, maxInputTokens: int)

  /** Parts of VS Code language-model messages and responses; `OtherPart` is any response part
      that is neither text nor a tool call. */
  datatype LanguageModelPart =
    | TextPart(value: string)
    | ToolCallPart(callId: string, toolName: string, input: JsonValue)
    | ToolResultPart(resultCallId: string, content: seq<LanguageModelPart>)
    | OtherPart

  datatype LanguageModelRole = User | Assistant

  /** `vscode.LanguageModelChatMessage`; `User(text)` and `Assistant(text)` hold one text part. */
  datatype LanguageModelChatMessage = LanguageModelChatMessage(role: LanguageModelRole, parts: seq<LanguageModelPart>)

  /** `vscode.LanguageModelChatTool`. */
  datatype LanguageModelChatTool = LanguageModelChatTool(name: string, description: string, inputSchema: JsonValue)
}
