/**
 * The Anthropic wire format that mini_agent/llm/anthropic_client.py writes and reads:
 * request content blocks and messages (with their JSON rendering), and response blocks.
 */
module AnthropicWire {
  import opened Wrappers
  import opened Schema

  /** A content block the client writes into a request message. */
  datatype WireBlock =
    | ThinkingBlock(thinking: string)
    | TextBlock(text: Content)
    | ToolUseBlock(id: string, name: string, input: JsonObject)
    | ToolResultBlock(toolUseId: Option<string>, content: Content)

  /** A request message's content: the canonical content as is, or a list of blocks built by the client. */
  datatype WireContent = Verbatim(content: Content) | Blocks(blocks: seq<WireBlock>)

  /** One `{"role": ..., "content": ...}` request message. */
  datatype WireMessage = WireMessage(role: MessageRole, content: WireContent)

  /** The response block types the client reads. */
  predicate ReadBlockType(kind: string) {
    kind == "text" || kind == "thinking" || kind == "tool_use"
  }

  /** A content block of a response; `OtherPart` is a block of a type the client does not read. */
  datatype ResponseBlock =
    | TextPart(text: string)
    | ThinkingPart(thinking: string)
    | ToolUsePart(id: string, name: string, input: JsonObject)
    | OtherPart(kind: string)
  {
    /** An OtherPart never carries a type the client reads, so each block type has one form. */
    predicate Canonical() {
      OtherPart? ==> !ReadBlockType(kind)
    }
  }

  /** The blocks a response can hold. */
  type ReceivedBlock = b: ResponseBlock | b.Canonical() witness TextPart("")

  /** The response's usage counters, each possibly None. */
  datatype WireUsage = WireUsage(inputTokens: Option<int>, outputTokens: Option<int>)

  /** A response: its content blocks, its usage (if any) and its stop reason (if any). */
  datatype Response = Response(content: seq<ReceivedBlock>, usage: Option<WireUsage>, stopReason: Option<string>)

  /** An optional string as JSON: None is null. */
  function OptionJson(s: Option<string>): Json {
    if s.Some? then Str(s.value) else Null
  }

  /** A message content as JSON: a string, or a list of objects. */
  function ContentJson(c: Content): Json {
    match c
    case Text(s) => Str(s)
    case Parts(ps) => Arr(seq(|ps|, i requires 0 <= i < |ps| => Obj(ps[i])))
  }

  /** The dict literal the client writes for each block. */
  function BlockJson(b: WireBlock): JsonObject {
    match b
    case ThinkingBlock(t) => map["type" := Str("thinking"), "thinking" := Str(t)]
    case TextBlock(c) => map["type" := Str("text"), "text" := ContentJson(c)]
    case ToolUseBlock(id, name, input) =>
      map["type" := Str("tool_use"), "id" := Str(id), "name" := Str(name), "input" := Obj(input)]
    case ToolResultBlock(id, c) =>
      map["type" := Str("tool_result"), "tool_use_id" := OptionJson(id), "content" := ContentJson(c)]
  }

  /** The dict the client appends for each request message. */
  function MessageJson(w: WireMessage): (o: JsonObject)
    ensures o.Keys == {"role", "content"} && o["role"] == Str(w.role.Name())
  {
    var content := match w.content
      case Verbatim(c) => ContentJson(c)
      case Blocks(bs) => Arr(seq(|bs|, i requires 0 <= i < |bs| => Obj(BlockJson(bs[i]))));
    map["role" := Str(w.role.Name()), "content" := content]
  }

  /** Reads back an optional string written by OptionJson. */
  function OptionOfJson(j: Json): Option<Option<string>> {
    match j
    case Null => Some(None)
    case Str(s) => Some(Some(s))
    case _ => None
  }

  /** Reads back a message content written by ContentJson. */
  function ContentOfJson(j: Json): Option<Content> {
    match j
    case Str(s) => Some(Text(s))
    case Arr(items) =>
      if forall i | 0 <= i < |items| :: items[i].Obj? then
        Some(Parts(seq(|items|, i requires 0 <= i < |items| && items[i].Obj? => items[i].fields)))
      else None
    case _ => None
  }

  /** Reads back a block written by BlockJson, from its "type" tag and the fields that tag calls for. */
  function BlockOfJson(o: JsonObject): Option<WireBlock> {
    if "type" !in o then None
    else if o["type"] == Str("thinking") then
      if "thinking" in o && o["thinking"].Str? then Some(ThinkingBlock(o["thinking"].s)) else None
    else if o["type"] == Str("text") then
      if "text" in o && ContentOfJson(o["text"]).Some? then Some(TextBlock(ContentOfJson(o["text"]).value)) else None
    else if o["type"] == Str("tool_use") then
      if "id" in o && o["id"].Str? && "name" in o && o["name"].Str? && "input" in o && o["input"].Obj? then
        Some(ToolUseBlock(o["id"].s, o["name"].s, o["input"].fields))
      else None
    else if o["type"] == Str("tool_result") then
      if "tool_use_id" in o && OptionOfJson(o["tool_use_id"]).Some?
        && "content" in o && ContentOfJson(o["content"]).Some?
      then Some(ToolResultBlock(OptionOfJson(o["tool_use_id"]).value, ContentOfJson(o["content"]).value))
      else None
    else None
  }

  /** Rendering a content loses nothing. */
  lemma ContentJsonRoundTrip(c: Content)
    ensures ContentOfJson(ContentJson(c)) == Some(c)
  {
    if c.Parts? {
      var items := ContentJson(c).items;
      assert forall i | 0 <= i < |items| :: items[i] == Obj(c.parts[i]);
      var back := seq(|items|, i requires 0 <= i < |items| && items[i].Obj? => items[i].fields);
      assert back == c.parts;
    }
  }

  /** Rendering a block loses nothing: its dict determines the block. */
  lemma {:induction false} BlockJsonRoundTrip(b: WireBlock)
    ensures BlockOfJson(BlockJson(b)) == Some(b)
  {
    match b
    case ThinkingBlock(_) =>
    case TextBlock(c) => ContentJsonRoundTrip(c);
    case ToolUseBlock(_, _, _) =>
    case ToolResultBlock(_, c) => ContentJsonRoundTrip(c);
  }

  /** Two different blocks never render to the same dict. */
  lemma BlockJsonInjective(a: WireBlock, b: WireBlock)
    requires BlockJson(a) == BlockJson(b)
    ensures a == b
  {
    BlockJsonRoundTrip(a);
    BlockJsonRoundTrip(b);
  }

  /**
   * The dict of a request message carries the message: its role reads back, verbatim content
   * reads back as that content, and a block list is a list of one dict per block, in order,
   * each reading back as its block.
   */
  lemma MessageJsonContent(w: WireMessage)
    ensures MessageJson(w)["role"].Str? && RoleOf(MessageJson(w)["role"].s) == w.role
    ensures w.content.Verbatim? ==> ContentOfJson(MessageJson(w)["content"]) == Some(w.content.content)
    ensures w.content.Blocks? ==>
      var items := MessageJson(w)["content"];
      && items.Arr?
      && |items.items| == |w.content.blocks|
      && forall i | 0 <= i < |items.items| ::
        items.items[i].Obj? && BlockOfJson(items.items[i].fields) == Some(w.content.blocks[i])
  {
    RoleNameRoundTrip(w.role);
    match w.content
    case Verbatim(c) => ContentJsonRoundTrip(c);
    case Blocks(bs) =>
      var items := MessageJson(w)["content"].items;
      forall i | 0 <= i < |items|
        ensures items[i].Obj? && BlockOfJson(items[i].fields) == Some(bs[i])
      {
        assert items[i] == Obj(BlockJson(bs[i]));
        BlockJsonRoundTrip(bs[i]);
      }
  }
}
