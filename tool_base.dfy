/** Tool results and the schema export of tools (mini_agent/tools/base.py). */
module ToolBase {
  import opened Wrappers
  import opened Schema

  /** The outcome of executing a tool; only `success` is required. */
  datatype ToolResult = ToolResult(success: bool, content: string := "", error: Option<string> := None)

  /** A result built from `success` alone has empty content and no error. */
  lemma ToolResultDefaults(success: bool)
    ensures var r := ToolResult(success);
      r.success == success && r.content == "" && r.error == None
  {
  }

  /** The message of the NotImplementedError raised by the abstract members of the base class. */
  const AbstractMessage := "Subclasses must implement this method"

  /**
   * A tool as its exporters see it. `description` and `parameters` are None where the
   * subclass does not override the abstract property, which then raises when read.
   */
  datatype Tool = Tool(name: string, description: Option<string>, parameters: Option<JsonObject>)

  /** Reading an abstract property: the override's value, or the base class's NotImplementedError. */
  function Property<T>(v: Option<T>): Result<T> {
    if v.Some? then Ok(v.value) else Err(NotImplementedError(AbstractMessage))
  }

  /** `to_schema`: the Anthropic wire form of a tool. */
  function ToSchema(t: Tool): (r: Result<JsonObject>)
    ensures r.Ok? <==> t.description.Some? && t.parameters.Some?
    ensures r.Err? ==> r.error == NotImplementedError(AbstractMessage)
    ensures r.Ok? ==> r.value.Keys == {"name", "description", "input_schema"}
    ensures r.Ok? ==>
      && r.value["name"] == Str(t.name)
      && r.value["description"] == Str(t.description.value)
      && r.value["input_schema"] == Obj(t.parameters.value)
  {
    match Property(t.description)
    case Err(e) => Err(e)
    case Ok(description) =>
      match Property(t.parameters)
      case Err(e) => Err(e)
      case Ok(parameters) =>
        Ok(map["name" := Str(t.name), "description" := Str(description), "input_schema" := Obj(parameters)])
  }

  /** `to_openai_schema`: the OpenAI wire form of a tool. */
  function ToOpenAISchema(t: Tool): (r: Result<JsonObject>)
    ensures r.Ok? <==> t.description.Some? && t.parameters.Some?
    ensures r.Err? ==> r.error == NotImplementedError(AbstractMessage)
    ensures r.Ok? ==> r.value.Keys == {"type", "function"} && r.value["type"] == Str("function")
    ensures r.Ok? ==>
      && r.value["function"].Obj?
      && r.value["function"].fields.Keys == {"name", "description", "parameters"}
  {
    match Property(t.description)
    case Err(e) => Err(e)
    case Ok(description) =>
      match Property(t.parameters)
      case Err(e) => Err(e)
      case Ok(parameters) =>
        Ok(map[
          "type" := Str("function"),
          "function" := Obj(map["name" := Str(t.name), "description" := Str(description), "parameters" := Obj(parameters)])
        ])
  }

  /**
   * The two exports agree: both succeed or both raise the same error, and the OpenAI form's
   * `function` carries the Anthropic form's name, description and input schema.
   */
  lemma {:induction false} ExportsAgree(t: Tool)
    ensures ToSchema(t).Ok? <==> ToOpenAISchema(t).Ok?
    ensures ToSchema(t).Err? ==> ToSchema(t).error == ToOpenAISchema(t).error
    ensures ToSchema(t).Ok? ==>
      var anthropic := ToSchema(t).value;
      var openai := ToOpenAISchema(t).value["function"].fields;
      openai["name"] == anthropic["name"]
      && openai["description"] == anthropic["description"]
      && openai["parameters"] == anthropic["input_schema"]
  {
  }
}
