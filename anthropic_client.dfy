/**
 * The Anthropic-style provider client (class AnthropicClient of
 * mini_agent/llm/anthropic_client.py): each conversion is computed step by step, as the
 * source does, and proved to compute the function of module AnthropicSpec that specifies it.
 */
module Anthropic {
  import opened Wrappers
  import opened Schema
  import opened ToolBase
  import opened AnthropicWire
  import opened AnthropicSpec

  /** The endpoint used when none is given. */
  const DefaultApiBase := "https://api.minimaxi.com/anthropic"

  /** The model used when none is given. */
  const DefaultModel := "MiniMax-M2"

  class AnthropicClient {
    const apiKey: string
    const apiBase: string
    const model: string

    /** Records the credentials, endpoint and model; the SDK handle it also builds is not modelled. */
    constructor(apiKey: string, apiBase: string := DefaultApiBase, model: string := DefaultModel)
      ensures this.apiKey == apiKey && this.apiBase == apiBase && this.model == model
    {
      this.apiKey := apiKey;
      this.apiBase := apiBase;
      this.model := model;
    }

    /** `convert_tools`: the wire schema of every tool, in order, or the first error raised. */
    method ConvertTools(tools: seq<ToolSpec>) returns (r: Result<seq<JsonObject>>)
      ensures r == ConvertAll(tools)
    {
      var result: seq<JsonObject> := [];
      for i := 0 to |tools|
        invariant ConvertAll(tools[..i]) == Ok(result)
      {
        assert tools[..i + 1][..i] == tools[..i];
        match tools[i]
        case RawSchema(schema) =>
          result := result + [schema];
        case Exportable(tool) =>
          var schema := ToSchema(tool);
          if schema.Err? {
            ConvertAllStopsAtFirstError(tools, i + 1);
            return Err(schema.error);
          }
          result := result + [schema.value];
        case Unsupported(typeName) =>
          ConvertAllStopsAtFirstError(tools, i + 1);
          return Err(TypeError(UnsupportedMessage(typeName)));
      }
      assert tools[..|tools|] == tools;
      return Ok(result);
    }

    /** `convert_messages`: the system instruction (the last system message wins) and the wire messages. */
    method ConvertMessages(messages: seq<Message>) returns (system: Option<Content>, apiMessages: seq<WireMessage>)
      ensures system == SystemOf(messages)
      ensures apiMessages == WireOf(messages)
    {
      system := None;
      apiMessages := [];
      for i := 0 to |messages|
        invariant system == SystemOf(messages[..i])
        invariant apiMessages == WireOf(messages[..i])
      {
        var msg := messages[i];
        assert messages[..i + 1][..i] == messages[..i];
        if msg.role == SystemRole {
          system := Some(msg.content);
          continue;
        }
        if msg.role == UserRole || msg.role == AssistantRole {
          if msg.role == AssistantRole && (NonEmpty(msg.thinking) || HasCalls(msg.toolCalls)) {
            var blocks := AssistantContent(msg);
            apiMessages := apiMessages + [WireMessage(AssistantRole, Blocks(blocks))];
          } else {
            apiMessages := apiMessages + [WireMessage(msg.role, Verbatim(msg.content))];
          }
        } else if msg.role == ToolRole {
          apiMessages := apiMessages + [WireMessage(ToolRole, Blocks([ToolResultBlock(msg.toolCallId, msg.content)]))];
        }
      }
      assert messages[..|messages|] == messages;
    }

    /** The content blocks of an assistant turn: thinking, then text, then one tool use per call. */
    method AssistantContent(msg: Message) returns (blocks: seq<WireBlock>)
      ensures blocks == AssistantBlocks(msg)
    {
      blocks := [];
      if NonEmpty(msg.thinking) {
        blocks := blocks + [ThinkingBlock(msg.thinking.value)];
      }
      if msg.content.Truthy() {
        blocks := blocks + [TextBlock(msg.content)];
      }
      assert blocks == ThinkingRun(msg) + TextRun(msg);
      if HasCalls(msg.toolCalls) {
        var calls := msg.toolCalls.value;
        ghost var head := blocks;
        for k := 0 to |calls|
          invariant blocks == head + ToolUseBlocks(calls[..k])
        {
          assert calls[..k + 1] == calls[..k] + [calls[k]];
          ToolUseBlocksSnoc(calls[..k], calls[k]);
          var b := ToolUseBlock(calls[k].id, calls[k].call.name, calls[k].call.arguments);
          assert head + ToolUseBlocks(calls[..k]) + [b] == head + (ToolUseBlocks(calls[..k]) + [b]);
          blocks := blocks + [b];
        }
        assert calls[..|calls|] == calls;
      }
    }

    /** `_parse_response`: text concatenated, last thinking kept, tool calls collected, usage recomputed. */
    method ParseResponse(response: Response) returns (r: LLMResponse)
      ensures r == Parsed(response)
    {
      var textContent := "";
      var thinkingContent := "";
      var toolCalls: seq<ToolCall> := [];
      var blocks := response.content;
      for i := 0 to |blocks|
        invariant textContent == ResponseText(blocks[..i])
        invariant thinkingContent == ResponseThinking(blocks[..i])
        invariant toolCalls == ResponseToolCalls(blocks[..i])
      {
        assert blocks[..i + 1][..i] == blocks[..i];
        match blocks[i]
        case TextPart(text) =>
          textContent := textContent + text;
        case ThinkingPart(thinking) =>
          thinkingContent := thinking;
        case ToolUsePart(id, name, input) =>
          toolCalls := toolCalls + [ToolCall(id, "function", FunctionCall(name, input))];
        case OtherPart(_) =>
      }
      assert blocks[..|blocks|] == blocks;
      var usage: Option<TokenUsage> := None;
      if response.usage.Some? {
        var u := response.usage.value;
        usage := Some(TokenUsage(
          promptTokens := u.inputTokens.GetOr(0),
          completionTokens := u.outputTokens.GetOr(0),
          totalTokens := u.inputTokens.GetOr(0) + u.outputTokens.GetOr(0)));
      }
      r := LLMResponse(
        content := textContent,
        thinking := if thinkingContent != "" then Some(thinkingContent) else None,
        toolCalls := if toolCalls != [] then Some(toolCalls) else None,
        finishReason := if NonEmpty(response.stopReason) then response.stopReason.value else "stop",
        usage := usage);
    }

    /** The request parameters built in `_make_api_request` before the SDK call. */
    method MakeRequestParams(system: Option<Content>, apiMessages: seq<WireMessage>, tools: Option<seq<ToolSpec>>)
      returns (r: Result<JsonObject>)
      ensures r == RequestParams(model, system, apiMessages, tools)
    {
      var params := map["model" := Str(model), "max_tokens" := Int(MaxTokens), "messages" := MessagesJson(apiMessages)];
      if system.Some? && system.value.Truthy() {
        params := params["system" := ContentJson(system.value)];
      }
      if tools.Some? && tools.value != [] {
        var schemas := ConvertTools(tools.value);
        if schemas.Err? {
          return Err(schemas.error);
        }
        params := params["tools" := SchemasJson(schemas.value)];
      }
      return Ok(params);
    }

    /**
     * `generate` without retries: convert, send, parse. `send` stands for the SDK's request
     * to the provider. A tool list that cannot be converted raises before anything is sent.
     */
    method Generate(messages: seq<Message>, tools: Option<seq<ToolSpec>>, send: JsonObject -> Response)
      returns (r: Result<LLMResponse>)
      ensures r.Err? <==> ToolsGiven(tools) && ConvertAll(tools.value).Err?
      ensures r.Err? ==> r.error == ConvertAll(tools.value).error
      ensures r.Ok? ==>
        r.value == Parsed(send(RequestParams(model, SystemOf(messages), WireOf(messages), tools).value))
    {
      var system, apiMessages := ConvertMessages(messages);
      var params := MakeRequestParams(system, apiMessages, tools);
      if params.Err? {
        return Err(params.error);
      }
      var response := send(params.value);
      var parsed := ParseResponse(response);
      return Ok(parsed);
    }
  }
}
