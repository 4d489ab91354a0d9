# Mini-Agent: the Anthropic client's message and tool normalisation, in Dafny

This project models the part of Mini-Agent that turns a provider-neutral conversation into an
Anthropic-style request and turns the provider's answer back into a provider-neutral response:

- the canonical data model (`mini_agent/schema/schema.py`): `LLMProvider`, `FunctionCall`,
  `ToolCall`, `Message`, `TokenUsage`, `LLMResponse`, with their optional fields and defaults
  (module `Schema`, file `schema.dfy`); `dict[str, Any]` becomes the `Json` datatype;
- tool results and the two schema exports of a tool (`mini_agent/tools/base.py`, module `ToolBase`);
- the Anthropic wire format: the content blocks and messages the client writes, their JSON
  rendering, and the response blocks it reads (module `AnthropicWire`);
- the client itself (`mini_agent/llm/anthropic_client.py`): class `Anthropic.AnthropicClient`, whose
  methods `ConvertTools`, `ConvertMessages`, `ParseResponse`, `MakeRequestParams` and `Generate`
  work step by step with loops as the source does, and are each proved to compute a function of
  module `AnthropicSpec`; the properties the client promises are lemmas about those functions.

A message's `role` is a string in the source, compared with "system", "user", "assistant" and
"tool"; the model gives it the datatype `Role` with one constructor for each of those four and
`OtherRole(name)` for every other string, and `RoleOf`/`Role.Name` translate between the two.
Messages carry a `MessageRole`, the roles whose `OtherRole` never holds one of the four known
strings, so each role string has exactly one role. In the same way a response holds
`ReceivedBlock`s: an `OtherPart` (a block the client does not read) never has type "text",
"thinking" or "tool_use".

Python's truthiness checks are written out: an optional string is true when present and non-empty
(`NonEmpty`), a list of tool calls when present and non-empty (`HasCalls`), a content when it is a
non-empty string or a non-empty list (`Content.Truthy`), and `x or 0` on a counter is
`x.GetOr(0)`. Exceptions become `Result` values carrying a `TypeError` or `NotImplementedError`
with the source's message.

How the source text is read where it does not run as written:

- `convert_messages` keeps the system instruction of the LAST system message: the loop overwrites
  it on every system message (anthropic_client.py:98-100).
- The `return` of `convert_messages` is indented inside the loop (anthropic_client.py:150); the
  model returns after the loop has seen every message.
- The tool-result append wraps its dict in a set display (anthropic_client.py:136-147); the model
  appends the dict itself. Its role is "tool", as written.
- The `elif msg.role == "tool"` branch (anthropic_client.py:135) is read as the alternative of the
  user/assistant test at line 102, so any other role contributes nothing.
- `_make_api_request` calls `self._convert_tools` (anthropic_client.py:55) and `_prepare_request`
  calls `self._convert_messages` and reads an unbound `system_message`
  (anthropic_client.py:171-174); the model calls `convert_tools` and `convert_messages` and passes
  on the system instruction they return.
- In the base `Tool`, `name` is a plain method (base.py:13) while `description` and `parameters`
  are properties; the model takes every tool's name as a string and models only `description` and
  `parameters` as abstract (absent when not overridden, raising NotImplementedError when read).
- The client's methods start at uneven indentations (anthropic_client.py:15, 39, 62, 92), the body
  of `_make_api_request` (lines 46-58) is indented level with its `def` at line 39, and its
  parameter `api_messages` has no default although it follows the defaulted `system_message`
  (lines 41-42). The model reads these as the evident method bodies and as the signature
  `(system_message, api_messages, tools)`, with all three passed by `generate`.

## Model

| member | source | states |
|---|---|---|
| Schema.ProviderFromValue | mini_agent/schema/schema.py:7-10 | looking up an enum value succeeds exactly for "anthropic" and "openai", and yields the member with that value |
| Schema.ProviderValuesRoundTrip | mini_agent/schema/schema.py:7-10 | each of the two members has its own value, and looking that value up gives the member back |
| Schema.RoleOf | mini_agent/schema/schema.py:25 | every role string reads as a message role whose string is that string, and as an OtherRole exactly when it is none of "system", "user", "assistant", "tool" |
| Schema.RoleNameRoundTrip | mini_agent/schema/schema.py:25 | the string of every message role reads back as that role, so role strings and message roles correspond one to one |
| Schema.MessageDefaults | mini_agent/schema/schema.py:24-30 | a message given only role and content has thinking, tool_calls, tool_call_id and name all None |
| Schema.TokenUsageDefaults | mini_agent/schema/schema.py:33-37 | every token counter defaults to 0 |
| Schema.LLMResponseDefaults | mini_agent/schema/schema.py:39-45 | a response given only content and finish_reason has thinking, tool_calls and usage None |
| ToolBase.ToolResultDefaults | mini_agent/tools/base.py:4-8 | a tool result given only success has content "" and error None |
| ToolBase.ToSchema | mini_agent/tools/base.py:16-35 | the export raises NotImplementedError iff description or parameters is not overridden; otherwise it has exactly the keys name, description, input_schema, holding the tool's name, description and parameters |
| ToolBase.ToOpenAISchema | mini_agent/tools/base.py:37-46 | the export raises under the same condition; otherwise it has exactly the keys type ("function") and function, an object with exactly name, description and parameters |
| ToolBase.ExportsAgree | mini_agent/tools/base.py:30-46 | both exports succeed or raise together, and the OpenAI form's name, description and parameters equal the Anthropic form's name, description and input_schema |
| AnthropicWire.MessageJson | mini_agent/llm/anthropic_client.py:127-148 | every request message is a dict with exactly the keys role and content, role holding the message's role |
| AnthropicWire.MessageJsonContent | mini_agent/llm/anthropic_client.py:127-148 | the role reads back as the message's role; verbatim content (line 132) reads back as that content; a block list (lines 127-129, 136-147) is a list with one dict per block, in order, each reading back as its block |
| AnthropicWire.ContentJsonRoundTrip | mini_agent/llm/anthropic_client.py:112-113 | a message content (string or list of dicts) written into a block can be read back unchanged |
| AnthropicWire.BlockJsonRoundTrip | mini_agent/llm/anthropic_client.py:107-144 | the dict written for a thinking, text, tool_use or tool_result block can be read back to that very block |
| AnthropicWire.BlockJsonInjective | mini_agent/llm/anthropic_client.py:107-144 | two different blocks are never written as the same dict |
| AnthropicSpec.ConvertAll | mini_agent/llm/anthropic_client.py:77-89 | a successful tool conversion has one schema per input element |
| AnthropicSpec.ConvertAllSucceeds | mini_agent/llm/anthropic_client.py:77-89 | the conversion succeeds iff every element converts, and then element i of the result is element i converted |
| AnthropicSpec.ConvertAllFirstError | mini_agent/llm/anthropic_client.py:77-89 | a failed conversion raises the error of some element that fails, every earlier element converting |
| AnthropicSpec.ConvertAllStopsAtFirstError | mini_agent/llm/anthropic_client.py:85-86 | once some prefix of the list raises, the whole conversion raises that same error |
| AnthropicSpec.ConvertAllOutcome | mini_agent/llm/anthropic_client.py:78-86 | dicts pass through unchanged and tool objects become their to_schema(); a TypeError names the type of an element that is neither; without tool objects the conversion fails iff some element is neither a dict nor a tool |
| AnthropicSpec.SystemIsLastSystemMessage | mini_agent/llm/anthropic_client.py:94-100 | there is a system instruction iff some message has role system, and it is the content of the last such message |
| AnthropicSpec.SystemMessageEmitsNothing | mini_agent/llm/anthropic_client.py:97-100 | inserting a system message anywhere in a conversation leaves the wire messages unchanged |
| AnthropicSpec.WireOfRoles | mini_agent/llm/anthropic_client.py:97-148 | every wire message has role user, assistant or tool, never system |
| AnthropicSpec.WireOfAppend | mini_agent/llm/anthropic_client.py:95-150 | the wire messages of a concatenated conversation are the concatenation of the parts' wire messages, so order is kept |
| AnthropicSpec.ConvertMessageShape | mini_agent/llm/anthropic_client.py:102-148 | an assistant turn with thinking or tool calls is one assistant message carrying its blocks; each message yields at most one wire message, exactly when its role is user, assistant or tool, with the same role; plain user and assistant turns keep their content verbatim; a tool turn holds one tool_result block with tool_use_id = tool_call_id and the content |
| AnthropicSpec.AssistantTurnShape | mini_agent/llm/anthropic_client.py:105-125 | the blocks of an assistant turn number (thinking non-empty) + (content non-empty) + number of tool calls; the first is the thinking block when thinking is non-empty, and the text block comes right after it when content is non-empty |
| AnthropicSpec.AssistantTurnToolUses | mini_agent/llm/anthropic_client.py:116-125 | after the thinking and text blocks, block k is the tool_use block of tool call k, with its id, function name and arguments |
| AnthropicSpec.AssistantTurnKinds | mini_agent/llm/anthropic_client.py:105-125 | a block is a thinking block iff it is the first and thinking is non-empty, and a text block iff it comes right after the thinking blocks and content is non-empty; all others are tool_use blocks |
| AnthropicSpec.UsageOf | mini_agent/llm/anthropic_client.py:214-220 | usage is absent iff the response has none; otherwise missing counters count as 0 and total_tokens = prompt_tokens + completion_tokens |
| AnthropicSpec.FinishReason | mini_agent/llm/anthropic_client.py:227 | the finish reason is the stop reason when that is non-empty, and "stop" when it is None or empty; it is never empty |
| AnthropicSpec.ResponseTextAppend | mini_agent/llm/anthropic_client.py:190-196 | the text of consecutive runs of blocks is the concatenation of their texts, in reading order |
| AnthropicSpec.ResponseThinkingAppend | mini_agent/llm/anthropic_client.py:191-199 | a thinking block later in the response replaces every earlier one |
| AnthropicSpec.ResponseThinkingIsLast | mini_agent/llm/anthropic_client.py:191-199 | the thinking is "" without a thinking block, and otherwise that of a thinking block followed by no other thinking block |
| AnthropicSpec.ResponseToolCallsAppend | mini_agent/llm/anthropic_client.py:192-210 | tool calls are collected in encounter order |
| AnthropicSpec.ResponseToolCallsAreFunctions | mini_agent/llm/anthropic_client.py:201-210 | every collected tool call has type "function", and the list is empty iff the response has no tool_use block |
| AnthropicSpec.OtherBlockAddsNoText | mini_agent/llm/anthropic_client.py:190-196 | a block of a type other than text, thinking and tool_use contributes no text |
| AnthropicSpec.OtherBlockAddsNoCall | mini_agent/llm/anthropic_client.py:192-210 | a block of a type other than text, thinking and tool_use contributes no tool call |
| AnthropicSpec.OtherBlockAddsNoThinking | mini_agent/llm/anthropic_client.py:191-199 | a block of a type other than text, thinking and tool_use leaves the thinking as it is |
| AnthropicSpec.OtherBlocksIgnored | mini_agent/llm/anthropic_client.py:194-210 | a block of a type other than text, thinking and tool_use, wherever it stands, leaves the parsed response unchanged |
| AnthropicSpec.ParseOne | mini_agent/llm/anthropic_client.py:190-210 | a response of one block gives that block's text if it is a text block, its call (type "function") if it is a tool_use block, and its thinking if it is a thinking block, and nothing else |
| AnthropicSpec.ParseSnocToolUse | mini_agent/llm/anthropic_client.py:201-210 | a tool_use block at the end of a response appends its call, with id, name and arguments, to the tool calls and changes neither the text nor whether there is thinking |
| AnthropicSpec.EchoToolUses | mini_agent/llm/anthropic_client.py:116-210 | tool_use blocks written for a list of calls, read back as a response, give no text, no thinking and the very same calls |
| AnthropicSpec.AssistantTurnRoundTrip | mini_agent/llm/anthropic_client.py:103-229 | an assistant turn with string content, sent as blocks and answered with the same blocks, parses back to its text, its thinking (None when empty) and its tool calls with ids, names, arguments and order (None when there are none) |
| AnthropicSpec.RequestParams | mini_agent/llm/anthropic_client.py:46-55 | building the request raises iff a non-empty tool list fails to convert, with that conversion's error |
| AnthropicSpec.RequestParamsKeys | mini_agent/llm/anthropic_client.py:46-55 | the request always holds model, max_tokens = 16384 and messages; it holds system iff the system instruction is non-empty and tools iff the tool list is non-empty, and no other key |
| Anthropic.AnthropicClient.constructor | mini_agent/llm/anthropic_client.py:15-30 | the client keeps its key, endpoint (default https://api.minimaxi.com/anthropic) and model (default MiniMax-M2) |
| Anthropic.AnthropicClient.ConvertTools | mini_agent/llm/anthropic_client.py:62-89 | the loop appending each tool's schema computes ConvertAll, including stopping at the first element that raises |
| Anthropic.AnthropicClient.ConvertMessages | mini_agent/llm/anthropic_client.py:92-150 | the loop over messages computes the system instruction SystemOf and the wire messages WireOf |
| Anthropic.AnthropicClient.AssistantContent | mini_agent/llm/anthropic_client.py:105-125 | the blocks appended for an assistant turn, including the loop over its tool calls, are AssistantBlocks |
| Anthropic.AnthropicClient.ParseResponse | mini_agent/llm/anthropic_client.py:180-229 | the loop over response blocks and the usage and finish-reason steps compute Parsed |
| Anthropic.AnthropicClient.MakeRequestParams | mini_agent/llm/anthropic_client.py:46-55 | the conditional key insertions compute RequestParams for the client's model |
| Anthropic.AnthropicClient.Generate | mini_agent/llm/anthropic_client.py:233-268 | without retries: raises iff the tool list fails to convert, with that conversion's error; otherwise returns the parse of what the provider answers to the request built from the converted conversation |

## Left out

- The SDK client built in `__init__` and the call `self.client.messages.create` (anthropic_client.py:33-36, 57): foreign network I/O; `Generate` takes the provider's answer as a function `send` of the request.
- The retry branch of `generate` (anthropic_client.py:250-257): it hands `_make_api_request`, and with it the tool conversion at line 55, to `async_retry` and `RetryConfig`, which are not part of this model. With retries on, a tool-conversion TypeError therefore goes through the retry policy, and the model does not say what that policy does with it. `Generate` models the branch without retries (lines 259-264).
- Objects other than tools that have their own `to_schema` (anthropic_client.py:82-83): `Exportable` always carries a `Tool` whose export is base.py:30-35, so the result or exception of some other object's `to_schema` is not modelled. The TypeError clause of `ConvertAllOutcome` relies on that: a modelled export raises only NotImplementedError.
- `Generate`: the order of effects (the tool conversion fails before anything is sent) is structural in the method's body, not stated in its contract, because the provider is the pure function `send`.
- `_prepare_request` (anthropic_client.py:155-177): it only bundles what `convert_messages` returns with the raw tool list, which `Generate` does directly.
- Asynchrony (`async`/`await`): each modelled call runs to completion.
- `Tool.execute` (base.py:25-26) and the tools in mini_agent/tools/skill_tool.py: execution belongs to each concrete tool, relies on a skill loader that is not part of this model, and is never called by the client.
- The base class's `name` method (base.py:13-14): the model gives every tool a name string instead of modelling a subclass that forgets to override it.
- mini_agent/llm/llm_wrapper.py: only its imports are present, so the client facade and its endpoint derivation have nothing to model.
- The OpenAI client, pydantic's run-time validation of field types, and logging: not part of this model.
- Floating-point values inside JSON payloads: `Json` has no float case.
- Shapes of the SDK's response objects beyond the three block types read here (text, thinking, tool_use); every other block type is `OtherPart`.
