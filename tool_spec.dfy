/**
 * The tool catalogue offered to the model: the sanitiser that coerces MCP
 * input schemas (JSON Schema 2020-12) into the subset the tool definitions
 * use, the tools configuration derived from the model and the enabled
 * features, the approval parameters of the shell tools, and the registry
 * of tool specs and handlers that `build_specs` assembles.
 */
module ToolSpec {
  import opened Wrappers
  import opened Json
  import Order

  // ---------------------------------------------------------------------------
  // Schema sanitiser

  /** The accept-all schema that boolean schemas and missing `items` become. */
  const StringSchema: Json := JObj(map["type" := JStr("string")])

  /** The `type` values the tool schemas support, in the order a union is searched. */
  const SupportedTypes: seq<string> := ["object", "array", "string", "number", "integer", "boolean"]

  /** The first supported type named in a `type` union. */
  function FirstSupportedType(types: seq<Json>): (r: Option<string>)
    ensures r.Some? ==> r.value in SupportedTypes && JStr(r.value) in types
    ensures r.None? ==> forall t :: t in types && t.JStr? ==> t.s !in SupportedTypes
  {
    if types == [] then None
    else if types[0].JStr? && types[0].s in SupportedTypes then Some(types[0].s)
    else FirstSupportedType(types[1..])
  }

  /** The type a schema declares: a string `type` as is, or the first supported member of a union. */
  function DeclaredType(m: map<string, Json>): Option<string> {
    if "type" in m && m["type"].JStr? then Some(m["type"].s)
    else if "type" in m && m["type"].JArr? then FirstSupportedType(m["type"].items)
    else None
  }

  /** The type implied by the keywords present, first match wins. */
  function InferredType(m: map<string, Json>): (r: Option<string>)
    ensures r == Some("object") <==> "properties" in m || "required" in m || "additionalProperties" in m
    ensures r == Some("array") <==>
      !("properties" in m || "required" in m || "additionalProperties" in m)
      && ("items" in m || "prefixItems" in m)
    ensures r == Some("string") <==>
      !("properties" in m || "required" in m || "additionalProperties" in m || "items" in m || "prefixItems" in m)
      && ("enum" in m || "const" in m || "format" in m)
    ensures r.None? <==>
      !("properties" in m || "required" in m || "additionalProperties" in m || "items" in m || "prefixItems" in m
        || "enum" in m || "const" in m || "format" in m || "minimum" in m || "maximum" in m
        || "exclusiveMinimum" in m || "exclusiveMaximum" in m || "multipleOf" in m)
  {
    if "properties" in m || "required" in m || "additionalProperties" in m then Some("object")
    else if "items" in m || "prefixItems" in m then Some("array")
    else if "enum" in m || "const" in m || "format" in m then Some("string")
    else if "minimum" in m || "maximum" in m || "exclusiveMinimum" in m || "exclusiveMaximum" in m
      || "multipleOf" in m then Some("number")
    else None
  }

  /** The type a sanitised schema gets: declared, else inferred, else "string". */
  function SchemaType(m: map<string, Json>): string {
    match DeclaredType(m)
    case Some(t) => t
    case None => InferredType(m).UnwrapOr("string")
  }

  /**
   * `sanitize_json_schema`: boolean schemas become the accept-all string
   * schema, arrays are sanitised element by element, objects as below, and
   * other values are left alone.
   */
  function Sanitize(v: Json): Json
    decreases v, 2
  {
    match v
    case JBool(_) => StringSchema
    case JArr(xs) => JArr(seq(|xs|, i requires 0 <= i < |xs| => Sanitize(xs[i])))
    case JObj(m) => SanitizeObject(m)
    case _ => v
  }

  /**
   * The nested schema holders sanitised first: every value of an object
   * `properties`, and the schemas under `items`, `oneOf`, `anyOf`, `allOf`
   * and `prefixItems`. Each key is touched once, so the order the source
   * visits them in does not matter.
   */
  function SanitizeChildren(m: map<string, Json>): (r: map<string, Json>)
    decreases JObj(m), 0
    ensures r.Keys == m.Keys
    ensures forall k :: k in m && k !in NestedKeys ==> r[k] == m[k]
  {
    map k | k in m ::
      if k == "properties" then
        (if m[k].JObj? then JObj(map p | p in m[k].fields :: Sanitize(m[k].fields[p])) else m[k])
      else if k in NestedKeys then Sanitize(m[k])
      else m[k]
  }

  const NestedKeys: set<string> := {"properties", "items", "oneOf", "anyOf", "allOf", "prefixItems"}

  /**
   * An object schema: children sanitised, `type` set, an object schema
   * given `properties` if it has none and its schema-valued
   * `additionalProperties` sanitised (a boolean one is kept), an array
   * schema given `items` if it has none.
   */
  function SanitizeObject(m: map<string, Json>): (r: Json)
    decreases JObj(m), 1
    ensures r.JObj? && "type" in r.fields && r.fields["type"] == JStr(SchemaType(m))
    ensures m.Keys <= r.fields.Keys
  {
    var m1 := SanitizeChildren(m);
    assert DeclaredType(m1) == DeclaredType(m) && InferredType(m1) == InferredType(m);
    var ty := SchemaType(m1);
    var m2 := m1["type" := JStr(ty)];
    var m3 :=
      if ty == "object" then
        var withProps := if "properties" !in m2 then m2["properties" := JObj(map[])] else m2;
        // `additionalProperties` is not a nested holder, so its value here is still the input's.
        if "additionalProperties" in m && !m["additionalProperties"].JBool? then
          withProps["additionalProperties" := Sanitize(m["additionalProperties"])]
        else withProps
      else m2;
    var m4 := if ty == "array" && "items" !in m3 then m3["items" := StringSchema] else m3;
    JObj(m4)
  }

  /**
   * What sanitising guarantees, down every schema-holding keyword: no
   * boolean schema (except a boolean `additionalProperties`), and every
   * object schema has a string `type`, with `properties` when it is an
   * object schema and `items` when it is an array schema.
   */
  predicate Sanitized(v: Json)
    decreases v, 2
  {
    match v
    case JBool(_) => false
    case JArr(xs) => forall i :: 0 <= i < |xs| ==> Sanitized(xs[i])
    case JObj(m) => SanitizedObject(m)
    case _ => true
  }

  predicate SanitizedObject(m: map<string, Json>)
    decreases JObj(m), 1
  {
    && "type" in m && m["type"].JStr?
    && PropertiesSanitized(m)
    && HoldersSanitized(m)
    && (m["type"].s == "object" ==> ObjectSchemaComplete(m))
    && (m["type"].s == "array" ==> "items" in m)
  }

  /** Every property schema of an object `properties` is sanitised. */
  predicate PropertiesSanitized(m: map<string, Json>)
    decreases JObj(m), 0
  {
    "properties" in m && m["properties"].JObj? ==>
      forall k :: k in m["properties"].fields ==> Sanitized(m["properties"].fields[k])
  }

  /** The schemas under `items`, `oneOf`, `anyOf`, `allOf` and `prefixItems` are sanitised. */
  predicate HoldersSanitized(m: map<string, Json>)
    decreases JObj(m), 0
  {
    forall k :: k in m && k in NestedKeys - {"properties"} ==> Sanitized(m[k])
  }

  /** An object schema has `properties`, and a schema-valued `additionalProperties` is sanitised. */
  predicate ObjectSchemaComplete(m: map<string, Json>)
    decreases JObj(m), 0
  {
    && "properties" in m
    && ("additionalProperties" in m && !m["additionalProperties"].JBool? ==> Sanitized(m["additionalProperties"]))
  }

  /** A boolean schema becomes `{"type": "string"}`. */
  lemma SanitizeBoolean(b: bool)
    ensures Sanitize(JBool(b)) == StringSchema && Sanitized(Sanitize(JBool(b)))
  {
  }

  /**
   * An object schema keeps a string `type`, takes the first supported
   * member of a union, and otherwise gets the inferred type or "string".
   */
  lemma SanitizeObjectType(m: map<string, Json>)
    ensures var t := Sanitize(JObj(m)).fields["type"];
      && ("type" in m && m["type"].JStr? ==> t == m["type"])
      && ("type" in m && m["type"].JArr? && FirstSupportedType(m["type"].items).Some? ==>
            t == JStr(FirstSupportedType(m["type"].items).value))
      && (DeclaredType(m).None? && InferredType(m).Some? ==> t == JStr(InferredType(m).value))
      && (DeclaredType(m).None? && InferredType(m).None? ==> t == JStr("string"))
  {
  }

  /** Whatever the input, the sanitised schema satisfies the guarantees. */
  lemma {:induction false} SanitizeEstablishes(v: Json)
    ensures Sanitized(Sanitize(v))
    decreases v, 2
  {
    match v
    case JBool(_) =>
    case JArr(xs) =>
      forall i | 0 <= i < |xs|
        ensures Sanitized(Sanitize(xs[i]))
      {
        SanitizeEstablishes(xs[i]);
      }
    case JObj(m) => SanitizeObjectEstablishes(m);
    case _ =>
  }

  /** `items`, `oneOf`, `anyOf`, `allOf` and `prefixItems` hold their sanitised schemas. */
  lemma HoldersSanitizedInPlace(m: map<string, Json>)
    ensures var r := SanitizeObject(m).fields;
      forall k :: k in m && k in NestedKeys - {"properties"} ==> r[k] == Sanitize(m[k])
  {
  }

  /** An object `properties` keeps its names and holds each property's sanitised schema. */
  lemma PropertySchemasSanitized(m: map<string, Json>)
    ensures var r := SanitizeObject(m).fields;
      && ("properties" in m && m["properties"].JObj? ==>
            r["properties"] == JObj(map k | k in m["properties"].fields :: Sanitize(m["properties"].fields[k])))
  {
  }

  /** A `properties` that is not an object is left as it was. */
  lemma PropertiesNonObjectKept(m: map<string, Json>)
    ensures var r := SanitizeObject(m).fields;
      && ("properties" in m && !m["properties"].JObj? ==> r["properties"] == m["properties"])
  {
  }

  /** A `properties` the input lacked can only be the empty object added for object schemas. */
  lemma PropertiesDefaultEmpty(m: map<string, Json>)
    ensures var r := SanitizeObject(m).fields;
      && ("properties" !in m && "properties" in r ==> r["properties"] == JObj(map[]))
  {
  }

  /** An object schema always ends with `properties`. */
  lemma ObjectSchemaGetsProperties(m: map<string, Json>)
    ensures var r := SanitizeObject(m).fields;
      && (SchemaType(m) == "object" ==> "properties" in r)
  {
  }

  /** In an object schema a schema-valued `additionalProperties` is sanitised (a boolean one is kept). */
  lemma AdditionalPropertiesSanitized(m: map<string, Json>)
    ensures var r := SanitizeObject(m).fields;
      && (SchemaType(m) == "object" && "additionalProperties" in m && !m["additionalProperties"].JBool? ==>
            r["additionalProperties"] == Sanitize(m["additionalProperties"]))
  {
  }

  /** An array schema always ends with `items`, the string schema when the input had none. */
  lemma ArraySchemaGetsItems(m: map<string, Json>)
    ensures var r := SanitizeObject(m).fields;
      && (SchemaType(m) == "array" ==> "items" in r)
      && ("items" !in m && "items" in r ==> r["items"] == StringSchema)
  {
  }

  lemma {:induction false} SanitizeObjectEstablishes(m: map<string, Json>)
    ensures SanitizedObject(SanitizeObject(m).fields)
    decreases JObj(m), 1
  {
    var r := SanitizeObject(m).fields;
    PropertiesEstablished(m);
    HoldersEstablished(m);
    if SchemaType(m) == "object" {
      ObjectSchemaEstablished(m);
    }
    ArraySchemaGetsItems(m);
  }

  lemma {:induction false} PropertiesEstablished(m: map<string, Json>)
    ensures PropertiesSanitized(SanitizeObject(m).fields)
    decreases JObj(m), 0
  {
    PropertySchemasSanitized(m);
    PropertiesNonObjectKept(m);
    PropertiesDefaultEmpty(m);
    if "properties" in m && m["properties"].JObj? {
      var props := m["properties"].fields;
      forall k | k in props
        ensures Sanitized(Sanitize(props[k]))
      {
        SanitizeEstablishes(props[k]);
      }
    }
  }

  lemma {:induction false} HoldersEstablished(m: map<string, Json>)
    ensures HoldersSanitized(SanitizeObject(m).fields)
    decreases JObj(m), 0
  {
    var r := SanitizeObject(m).fields;
    HoldersSanitizedInPlace(m);
    ArraySchemaGetsItems(m);
    forall k | k in r && k in NestedKeys - {"properties"}
      ensures Sanitized(r[k])
    {
      if k in m {
        SanitizeEstablishes(m[k]);
      } else {
        assert k == "items";
      }
    }
  }

  lemma {:induction false} ObjectSchemaEstablished(m: map<string, Json>)
    requires SchemaType(m) == "object"
    ensures ObjectSchemaComplete(SanitizeObject(m).fields)
    decreases JObj(m), 0
  {
    ObjectSchemaGetsProperties(m);
    AdditionalPropertiesSanitized(m);
    if "additionalProperties" in m && !m["additionalProperties"].JBool? {
      SanitizeEstablishes(m["additionalProperties"]);
    } else {
      assert "additionalProperties" in SanitizeObject(m).fields ==> "additionalProperties" in m;
    }
  }

  /** A schema that already meets the guarantees is left unchanged. */
  lemma {:induction false} SanitizeFixesSanitized(v: Json)
    requires Sanitized(v)
    ensures Sanitize(v) == v
    decreases v, 2
  {
    match v
    case JArr(xs) =>
      forall i | 0 <= i < |xs|
        ensures Sanitize(xs[i]) == xs[i]
      {
        SanitizeFixesSanitized(xs[i]);
      }
      assert seq(|xs|, i requires 0 <= i < |xs| => Sanitize(xs[i])) == xs;
    case JObj(m) => SanitizeObjectFixesSanitized(m);
    case _ =>
  }

  lemma {:induction false} SanitizeObjectFixesSanitized(m: map<string, Json>)
    requires SanitizedObject(m)
    ensures SanitizeObject(m) == JObj(m)
    decreases JObj(m), 1
  {
    SanitizeChildrenFixesSanitized(m);
    if SchemaType(m) == "object" && "additionalProperties" in m && !m["additionalProperties"].JBool? {
      SanitizeFixesSanitized(m["additionalProperties"]);
    }
  }

  lemma {:induction false} SanitizeChildrenFixesSanitized(m: map<string, Json>)
    requires SanitizedObject(m)
    ensures SanitizeChildren(m) == m
    decreases JObj(m), 0
  {
    if "properties" in m && m["properties"].JObj? {
      var props := m["properties"].fields;
      forall p | p in props
        ensures Sanitize(props[p]) == props[p]
      {
        SanitizeFixesSanitized(props[p]);
      }
      assert (map p | p in props :: Sanitize(props[p])) == props;
    }
    forall k | k in m && k in NestedKeys - {"properties"}
      ensures Sanitize(m[k]) == m[k]
    {
      SanitizeFixesSanitized(m[k]);
    }
  }

  /** Sanitising twice is sanitising once. */
  lemma SanitizeIdempotent(v: Json)
    ensures Sanitize(Sanitize(v)) == Sanitize(v)
  {
    SanitizeEstablishes(v);
    SanitizeFixesSanitized(Sanitize(v));
  }

  // ---------------------------------------------------------------------------
  // Tools configuration

  datatype ConfigShellToolType = Default | Local | UnifiedExec | Disabled | ShellCommand

  datatype ApplyPatchToolType = Freeform | Function

  datatype WebSearchMode = Cached | Live | Disabled

  /** The feature flags the tools configuration reads. */
  datatype Feature = ApplyPatchFreeform | Collab | CollaborationModes | RequestRule | SearchTool | ShellTool | UnifiedExec

  /** What the configuration takes from the model's metadata. */
  datatype ModelInfo = ModelInfo(
    shellType: ConfigShellToolType,
    applyPatchToolType: Option<ApplyPatchToolType>,
    experimentalSupportedTools: seq<string>)

  datatype ToolsConfig = ToolsConfig(
    shellType: ConfigShellToolType,
    applyPatchToolType: Option<ApplyPatchToolType>,
    webSearchMode: Option<WebSearchMode>,
    searchTool: bool,
    collabTools: bool,
    collaborationModesTools: bool,
    requestRuleEnabled: bool,
    experimentalSupportedTools: seq<string>)

  /**
   * `ToolsConfig::new`. Whether the platform's pseudo-console supports the
   * unified exec tool is a probe of the host, passed in as `conptySupported`.
   */
  function NewToolsConfig(modelInfo: ModelInfo, features: set<Feature>, webSearchMode: Option<WebSearchMode>,
                          conptySupported: bool): (r: ToolsConfig)
    ensures Feature.ShellTool !in features ==> r.shellType == ConfigShellToolType.Disabled
    ensures Feature.ShellTool in features && Feature.UnifiedExec in features ==>
      r.shellType == (if conptySupported then ConfigShellToolType.UnifiedExec else ShellCommand)
    ensures Feature.ShellTool in features && Feature.UnifiedExec !in features ==> r.shellType == modelInfo.shellType
    ensures modelInfo.applyPatchToolType.Some? ==> r.applyPatchToolType == modelInfo.applyPatchToolType
    ensures modelInfo.applyPatchToolType.None? ==>
      (r.applyPatchToolType.Some? <==> ApplyPatchFreeform in features) && r.applyPatchToolType != Some(Function)
    ensures r.webSearchMode == webSearchMode
    ensures r.searchTool == (SearchTool in features) && r.collabTools == (Collab in features)
    ensures r.collaborationModesTools == (CollaborationModes in features)
    ensures r.requestRuleEnabled == (RequestRule in features)
    ensures r.experimentalSupportedTools == modelInfo.experimentalSupportedTools
  {
    var shellType :=
      if Feature.ShellTool !in features then ConfigShellToolType.Disabled
      else if Feature.UnifiedExec in features then
        (if conptySupported then ConfigShellToolType.UnifiedExec else ShellCommand)
      else modelInfo.shellType;
    var applyPatchToolType :=
      match modelInfo.applyPatchToolType
      case Some(t) => Some(t)
      case None => if ApplyPatchFreeform in features then Some(Freeform) else None;
    ToolsConfig(shellType, applyPatchToolType, webSearchMode, SearchTool in features, Collab in features,
                CollaborationModes in features, RequestRule in features, modelInfo.experimentalSupportedTools)
  }

  /** Without the shell feature no other flag brings a shell back. */
  lemma ShellToolGatesShell(modelInfo: ModelInfo, features: set<Feature>, webSearchMode: Option<WebSearchMode>,
                            conptySupported: bool)
    ensures (NewToolsConfig(modelInfo, features, webSearchMode, conptySupported).shellType == ConfigShellToolType.Disabled)
      <==> (Feature.ShellTool !in features
            || (Feature.UnifiedExec !in features && modelInfo.shellType == ConfigShellToolType.Disabled))
  {
  }

  // ---------------------------------------------------------------------------
  // Approval parameters

  /** The subset of JSON Schema the tool definitions are written in. */
  datatype JsonSchema =
    | BooleanSchema(description: Option<string>)
    | StringSchemaOf(description: Option<string>)
    | NumberSchema(description: Option<string>)
    | ArraySchema(items: JsonSchema, description: Option<string>)
    | ObjectSchema(properties: map<string, JsonSchema>, required: Option<seq<string>>,
                   additionalProperties: Option<AdditionalProperties>)

  datatype AdditionalProperties = AllowAdditional(allowed: bool) | AdditionalSchema(schema: JsonSchema)

  const SandboxPermissionsDescription: string :=
    "Sandbox permissions for the command. Set to \"require_escalated\" to request running without sandbox restrictions; defaults to \"use_default\"."
  /**
   * These two are raw strings in the source: the backslashes before the
   * quotes, the line breaks and the continuation lines' indentation are part
   * of the text the model sees.
   */
  const JustificationDescription: string :=
    "Only set if sandbox_permissions is \\\"require_escalated\\\". \n"
    + "                    Request approval from the user to run this command outside the sandbox. \n"
    + "                    Phrased as a simple question that summarizes the purpose of the \n"
    + "                    command as it relates to the task at hand - e.g. 'Do you want to \n"
    + "                    fetch and pull the latest version of this git branch?'"
  const PrefixRuleDescription: string :=
    "Only specify when sandbox_permissions is `require_escalated`. \n"
    + "                    Suggest a prefix command pattern that will allow you to fulfill similar requests from the user in the future.\n"
    + "                    Should be a short but reasonable prefix, e.g. [\\\"git\\\", \\\"pull\\\"] or [\\\"uv\\\", \\\"run\\\"] or [\\\"pytest\\\"]."

  /**
   * The approval parameters the shell tools accept: the sandbox permissions
   * and their justification, and the suggested prefix rule when the
   * request-rule feature is on.
   */
  function CreateApprovalParameters(includePrefixRule: bool): (r: map<string, JsonSchema>)
    ensures r.Keys == {"sandbox_permissions", "justification"} + (if includePrefixRule then {"prefix_rule"} else {})
    ensures r["sandbox_permissions"].StringSchemaOf? && r["justification"].StringSchemaOf?
    ensures includePrefixRule ==> r["prefix_rule"].ArraySchema? && r["prefix_rule"].items == StringSchemaOf(None)
  {
    var properties := map[
      "sandbox_permissions" := StringSchemaOf(Some(SandboxPermissionsDescription)),
      "justification" := StringSchemaOf(Some(JustificationDescription))];
    if includePrefixRule then
      properties["prefix_rule" := ArraySchema(StringSchemaOf(None), Some(PrefixRuleDescription))]
    else properties
  }

  /** Turning the prefix rule on only adds `prefix_rule`; the other parameters stay as they were. */
  lemma PrefixRuleOnlyAdds()
    ensures var without := CreateApprovalParameters(false);
      var with := CreateApprovalParameters(true);
      && without.Keys + {"prefix_rule"} == with.Keys
      && forall k :: k in without ==> with[k] == without[k]
  {
  }
}
