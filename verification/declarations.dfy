/** The tools tests/test-tools.py declares to the model, and how they match
    the registry of handlers. */
module FavoriteDeclarations {
  import opened Chat
  import opened FavoriteTools
  import opened ToolSchema

  /** The schema of a required string parameter, in the declaration format. */
  const RequiredString: Param := map["param_type" := JString("string"), "required" := JBool(true)]

  const CityCountry := map["city" := RequiredString, "country" := RequiredString]

  /** The tools the script declares to the model (`available_tools`). */
  const AvailableTools: seq<ToolDecl> := [
    ToolDecl("favorite_color_tool",
      Some("Returns the favorite color for a person given their city and country."), CityCountry),
    ToolDecl("favorite_hockey_tool",
      Some("Returns the favorite hockey team for a person given their city and country."), CityCountry)
  ]

  /** Every declared tool has a handler, and each declares exactly the two
      parameters the handlers read, both required strings. */
  lemma DeclaredToolsAreRegistered()
    ensures forall d :: d in AvailableTools ==> Lookup(d.toolName).Some? && d.parameters.Keys == {"city", "country"}
    ensures forall d, p :: d in AvailableTools && p in d.parameters ==> d.parameters[p] == RequiredString
  {
  }
}
