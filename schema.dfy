/** The provider-neutral data model shared by every client (mini_agent/schema/schema.py). */
module Schema {
  import opened Wrappers

  /** A JSON-compatible value: what `Any` stands for in the source's `dict[str, Any]`. */
  datatype Json =
    | Null
    | Bool(b: bool)
    | Int(i: int)
    | Str(s: string)
    | Arr(items: seq<Json>)
    | Obj(fields: map<string, Json>)

  /** A `dict[str, Any]`. */
  type JsonObject = map<string, Json>

  /** The two backends a client can be built for. */
  datatype LLMProvider = Anthropic | OpenAI

  /** The enum member's value. */
  function ProviderValue(p: LLMProvider): string {
    match p
    case Anthropic => "anthropic"
    case OpenAI => "openai"
  }

  /** `LLMProvider(value)`: the member with that value, or None where Python raises ValueError. */
  function ProviderFromValue(v: string): (r: Option<LLMProvider>)
    ensures r.Some? <==> v == "anthropic" || v == "openai"
    ensures r.Some? ==> ProviderValue(r.value) == v
  {
    if v == "anthropic" then Some(Anthropic)
    else if v == "openai" then Some(OpenAI)
    else None
  }

  /** The two members have distinct values and each value looks up its own member. */
  lemma ProviderValuesRoundTrip(p: LLMProvider)
    ensures ProviderFromValue(ProviderValue(p)) == Some(p)
    ensures ProviderValue(Anthropic) != ProviderValue(OpenAI)
  {
  }

  /** The invocation a tool call asks for: a tool name and its argument mapping. */
  datatype FunctionCall = FunctionCall(name: string, arguments: JsonObject)

  /** One tool invocation; `kind` and `call` are the source's `type` ("function") and `function` fields. */
  datatype ToolCall = ToolCall(id: string, kind: string, call: FunctionCall)

  /** `str | list[dict[str, Any]]`: plain text or a list of content-block mappings. */
  datatype Content = Text(text: string) | Parts(parts: seq<JsonObject>) {

    /** Python truthiness: an empty string and an empty list are false. */
    predicate Truthy() {
      match this
      case Text(s) => s != ""
      case Parts(ps) => ps != []
    }
  }

  /** The four role strings the client tells apart. */
  predicate KnownRoleName(name: string) {
    name == "system" || name == "user" || name == "assistant" || name == "tool"
  }

  /**
   * A message's role. The source keeps it as a string and compares it with "system", "user",
   * "assistant" and "tool"; every other string is an OtherRole.
   */
  datatype Role = SystemRole | UserRole | AssistantRole | ToolRole | OtherRole(name: string) {

    /** The role's string. */
    function Name(): string {
      match this
      case SystemRole => "system"
      case UserRole => "user"
      case AssistantRole => "assistant"
      case ToolRole => "tool"
      case OtherRole(name) => name
    }

    /** An OtherRole never carries one of the four known strings, so each string has one role. */
    predicate Canonical() {
      OtherRole? ==> !KnownRoleName(name)
    }
  }

  /** The roles a message can have: one per role string. */
  type MessageRole = r: Role | r.Canonical() witness SystemRole

  /** The role of a role string. */
  function RoleOf(name: string): (r: MessageRole)
    ensures r.Name() == name
    ensures r.OtherRole? <==> !KnownRoleName(name)
  {
    if name == "system" then SystemRole
    else if name == "user" then UserRole
    else if name == "assistant" then AssistantRole
    else if name == "tool" then ToolRole
    else OtherRole(name)
  }

  /** Reading back the string of any role gives that role: strings and roles correspond one to one. */
  lemma RoleNameRoundTrip(r: MessageRole)
    ensures RoleOf(r.Name()) == r
  {
  }

  /** One conversation turn. */
  datatype Message = Message(
    role: MessageRole,
    content: Content,
    thinking: Option<string> := None,
    toolCalls: Option<seq<ToolCall>> := None,
    toolCallId: Option<string> := None,
    name: Option<string> := None)

  /** Token counters; each defaults to 0. */
  datatype TokenUsage = TokenUsage(promptTokens: int := 0, completionTokens: int := 0, totalTokens: int := 0)

  /** The canonical answer of a provider. */
  datatype LLMResponse = LLMResponse(
    content: string,
    thinking: Option<string> := None,
    toolCalls: Option<seq<ToolCall>> := None,
    finishReason: string,
    usage: Option<TokenUsage> := None)

  /** Truthiness of an optional string: present and non-empty. */
  predicate NonEmpty(s: Option<string>) {
    s.Some? && s.value != ""
  }

  /** Truthiness of an optional list of tool calls: present and non-empty. */
  predicate HasCalls(calls: Option<seq<ToolCall>>) {
    calls.Some? && calls.value != []
  }

  /** A message built from role and content alone has every optional field absent. */
  lemma MessageDefaults(role: MessageRole, content: Content)
    ensures var m := Message(role, content);
      m.thinking == None && m.toolCalls == None && m.toolCallId == None && m.name == None
  {
  }

  /** Every counter of a usage built without arguments is 0. */
  lemma TokenUsageDefaults()
    ensures TokenUsage() == TokenUsage(0, 0, 0)
  {
  }

  /** A response built from content and finish reason alone has thinking, tool calls and usage absent. */
  lemma LLMResponseDefaults(content: string, finishReason: string)
    ensures var r := LLMResponse(content, finishReason := finishReason);
      r.thinking == None && r.toolCalls == None && r.usage == None
  {
  }
}
