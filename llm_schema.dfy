/** Conversion of OpenAI-format tool definitions to the Anthropic and Gemini shapes. */
module LlmSchema {
  import opened Wrappers
  import opened Json
  import opened LlmBase

  /** `{"name": ..., "description": ..., "input_schema": {...}}` */
  datatype AnthropicTool = AnthropicTool(name: Option<string>, description: Option<string>, inputSchema: Json)

  /** `{"name": ..., "description": ..., "parameters": {...}}` */
  datatype GeminiDeclaration = GeminiDeclaration(name: Option<string>, description: Option<string>, parameters: Json)

  /** The schema used when a definition gives no `parameters`. */
  const EmptyObjectSchema: Json := Object(map["type" := Str("object"), "properties" := Object(map[])])

  /** `openai_tool.get("function", {})` */
  function FunctionOf(tool: ToolDef): FunctionSpec {
    tool.func.GetOr(FunctionSpec(None, None, None))
  }

  function ParametersOf(tool: ToolDef): Json {
    FunctionOf(tool).parameters.GetOr(EmptyObjectSchema)
  }

  function ConvertToAnthropicTool(tool: ToolDef): (r: AnthropicTool)
    ensures tool.func.Some? ==>
      r.name == tool.func.value.name && r.description == tool.func.value.description
    ensures tool.func.None? ==> r.name.None? && r.description.None?
    ensures tool.func.Some? && tool.func.value.parameters.Some? ==>
      r.inputSchema == tool.func.value.parameters.value
    ensures (tool.func.None? || tool.func.value.parameters.None?) ==>
      r.inputSchema == EmptyObjectSchema
  {
    var f := FunctionOf(tool);
    AnthropicTool(f.name, f.description, ParametersOf(tool))
  }

  function ConvertToGeminiTool(tool: ToolDef): (r: GeminiDeclaration)
    ensures tool.func.Some? ==>
      r.name == tool.func.value.name && r.description == tool.func.value.description
    ensures tool.func.None? ==> r.name.None? && r.description.None?
    ensures tool.func.Some? && tool.func.value.parameters.Some? ==>
      r.parameters == tool.func.value.parameters.value
    ensures (tool.func.None? || tool.func.value.parameters.None?) ==>
      r.parameters == EmptyObjectSchema
  {
    var f := FunctionOf(tool);
    GeminiDeclaration(f.name, f.description, ParametersOf(tool))
  }

  /** Both converters carry the same name, description and (unrewritten) schema:
      they differ only in the key the schema is stored under. */
  lemma ConvertersAgree(tool: ToolDef)
    ensures ConvertToAnthropicTool(tool).name == ConvertToGeminiTool(tool).name
    ensures ConvertToAnthropicTool(tool).description == ConvertToGeminiTool(tool).description
    ensures ConvertToAnthropicTool(tool).inputSchema == ConvertToGeminiTool(tool).parameters
  {
  }
}
