/** The conversion in test_mcp/test-local-mcp.py (`main`) of the tools an MCP
    server lists into the tool declarations the inference service expects:
    each parameter's `type` key is renamed `param_type`, and a parameter named
    in the schema's `required` list is marked `required: True`. */
module ToolSchema {
  import opened Chat

  /** A JSON value, as found in a parameter's schema. */
  datatype Json =
    | JNull
    | JBool(b: bool)
    | JNumber(n: int)
    | JString(s: string)
    | JArray(items: seq<Json>)
    | JObject(fields: map<string, Json>)

  /** The schema of one parameter, a JSON object. */
  type Param = map<string, Json>

  /** The `properties` and `required` entries of a tool's input schema, either possibly absent. */
  datatype InputSchema = InputSchema(properties: Option<map<string, Param>>, required: Option<seq<string>>)

  /** A tool as the MCP session lists it. */
  datatype McpTool = McpTool(name: string, description: Option<string>, inputSchema: InputSchema)

  /** A tool as declared to the inference service. */
  datatype ToolDecl = ToolDecl(toolName: string, description: Option<string>, parameters: map<string, Param>)

  /** `inputSchema.get("properties", {})`. */
  function PropertiesOf(schema: InputSchema): map<string, Param> {
    schema.properties.GetOr(map[])
  }

  /** `"required" in inputSchema and name in inputSchema["required"]`. */
  predicate IsRequired(name: string, schema: InputSchema) {
    schema.required.Some? && name in schema.required.value
  }

  /** The in-place update of one parameter's schema. */
  function ConvertParam(name: string, p: Param, schema: InputSchema): (r: Param)
    ensures "type" !in r
    ensures "type" in p ==> "param_type" in r && r["param_type"] == p["type"]
    ensures "type" !in p ==> ("param_type" in r <==> "param_type" in p)
    ensures "type" !in p && "param_type" in p ==> r["param_type"] == p["param_type"]
    ensures IsRequired(name, schema) ==> "required" in r && r["required"] == JBool(true)
    ensures !IsRequired(name, schema) ==> ("required" in r <==> "required" in p)
    ensures !IsRequired(name, schema) && "required" in p ==> r["required"] == p["required"]
    ensures forall k :: k in p && k != "type" && k != "param_type" && k != "required" ==> k in r && r[k] == p[k]
    ensures forall k :: k in r ==> k in p || k == "param_type" || k == "required"
  {
    var renamed := if "type" in p then p["param_type" := p["type"]] - {"type"} else p;
    if IsRequired(name, schema) then renamed["required" := JBool(true)] else renamed
  }

  /** `decl` is the declaration built from `tool`: same name and description,
      one parameter per listed property, each converted. */
  predicate IsConversion(tool: McpTool, decl: ToolDecl) {
    var properties := PropertiesOf(tool.inputSchema);
    && decl.toolName == tool.name
    && decl.description == tool.description
    && decl.parameters.Keys == properties.Keys
    && forall n :: n in decl.parameters ==>
         decl.parameters[n] == ConvertParam(n, properties[n], tool.inputSchema)
  }

  /** The body of the loop over listed tools: build the declaration and
      update each of its parameters. */
  method ConvertTool(tool: McpTool) returns (decl: ToolDecl)
    ensures IsConversion(tool, decl)
  {
    var properties := PropertiesOf(tool.inputSchema);
    var parameters := properties;
    var pending := parameters.Keys;
    while pending != {}
      invariant pending <= properties.Keys
      invariant parameters.Keys == properties.Keys
      invariant forall n :: n in parameters ==>
                  parameters[n] == if n in pending then properties[n]
                                   else ConvertParam(n, properties[n], tool.inputSchema)
      decreases pending
    {
      var n :| n in pending;
      parameters := parameters[n := ConvertParam(n, parameters[n], tool.inputSchema)];
      pending := pending - {n};
    }
    decl := ToolDecl(tool.name, tool.description, parameters);
  }

  /** The loop that builds `available_tools`: one declaration per listed
      tool, in listing order. */
  method ConvertTools(tools: seq<McpTool>) returns (available: seq<ToolDecl>)
    ensures |available| == |tools|
    ensures forall i :: 0 <= i < |tools| ==> IsConversion(tools[i], available[i])
  {
    available := [];
    for i := 0 to |tools|
      invariant |available| == i
      invariant forall j :: 0 <= j < i ==> IsConversion(tools[j], available[j])
    {
      var decl := ConvertTool(tools[i]);
      available := available + [decl];
    }
  }
}
