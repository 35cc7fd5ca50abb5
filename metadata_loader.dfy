/**
 * Tool metadata written in YAML: the conversion of a tree of parameter
 * definitions into a zod validation schema, the required-field checks made
 * on a loaded metadata document, and the naming of a tool's metadata file.
 *
 * A zod schema is represented by the `ZodSchema` datatype: its base type
 * and the three modifiers the converter applies (`describe`, `optional`,
 * `default`). A JavaScript record is the list of its entries in
 * `Object.entries` order.
 */
module MetadataLoader {
  import opened Wrappers
  import opened JsString

  /** A YAML `default` value, as written in the document. YAML `null` is a
      value too: it is not `undefined`. */
  datatype DefaultValue = DefaultValue(yaml: string)

  /** YAMLParameter. `typ` is the `type` field as loaded, which may be any
      string; an absent optional field is `None`. */
  datatype YAMLParameter = YAMLParameter(
    typ: string,
    description: Option<string>,
    required: Option<bool>,
    default: Option<DefaultValue>,
    options: Option<seq<string>>,
    properties: Option<Properties>,
    items: Option<YAMLParameter>)

  /** One `name: definition` entry of a parameter record. */
  datatype Entry = Entry(name: string, param: YAMLParameter)

  /** An object parameter's `properties` record. */
  datatype Properties = Properties(entries: seq<Entry>)

  /** The zod base types the converter builds. */
  datatype ZodType =
    | ZString
    | ZNumber
    | ZBoolean
    | ZEnum(options: seq<string>)
    | ZArray(item: ZodSchema)
    | ZObject(shape: seq<(string, ZodSchema)>)

  /** A base type with its description, whether `.optional()` was applied and
      the value given to `.default(...)`, if any. */
  datatype ZodSchema = ZodSchema(base: ZodType, description: Option<string>, optional: bool, default: Option<DefaultValue>)

  /** The keys of a parameter record, in order. */
  function Names(entries: seq<Entry>): (ks: seq<string>)
    ensures |ks| == |entries|
    ensures forall i :: 0 <= i < |entries| ==> ks[i] == entries[i].name
  {
    if entries == [] then [] else [entries[0].name] + Names(entries[1..])
  }

  /** The keys of a zod object shape, in order. */
  function Keys(shape: seq<(string, ZodSchema)>): (ks: seq<string>)
    ensures |ks| == |shape|
    ensures forall i :: 0 <= i < |shape| ==> ks[i] == shape[i].0
  {
    if shape == [] then [] else [shape[0].0] + Keys(shape[1..])
  }

  // ---------------------------------------------------------------------
  // buildZodSchemaForParameter
  // ---------------------------------------------------------------------

  function EnumError(name: string): string {
    "Enum parameter \"" + name + "\" must have options defined"
  }

  function ArrayError(name: string): string {
    "Array parameter \"" + name + "\" must have items defined"
  }

  function ObjectError(name: string): string {
    "Object parameter \"" + name + "\" must have properties defined"
  }

  function UnsupportedTypeError(typ: string): string {
    "Unsupported parameter type: " + typ
  }

  /** `param.description` is truthy: present and non-empty. */
  function DescriptionOf(param: YAMLParameter): Option<string> {
    if param.description.Some? && param.description.value != "" then param.description else None
  }

  /** The modifiers applied after the base type: a description when there is
      one, and `.optional()` when the parameter is not required or has a default. */
  function Decorate(base: ZodType, param: YAMLParameter): ZodSchema {
    ZodSchema(base, DescriptionOf(param), param.required == Some(false) || param.default.Some?, None)
  }

  /** The schema `buildZodSchemaForParameter(name, param)` returns, or the
      message of the `Error` it throws. */
  function ParameterSchema(name: string, param: YAMLParameter): Result<ZodSchema>
    decreases param
  {
    var base :=
      if param.typ == "string" then Ok(ZString)
      else if param.typ == "number" then Ok(ZNumber)
      else if param.typ == "boolean" then Ok(ZBoolean)
      else if param.typ == "enum" then
        if param.options.None? || |param.options.value| == 0 then Err(EnumError(name)) else Ok(ZEnum(param.options.value))
      else if param.typ == "array" then
        if param.items.None? then Err(ArrayError(name))
        else
          match ParameterSchema(name + "Item", param.items.value)
          case Ok(item) => Ok(ZArray(item))
          case Err(e) => Err(e)
      else if param.typ == "object" then
        if param.properties.None? then Err(ObjectError(name))
        else
          match PropertySchemas(param.properties.value.entries)
          case Ok(shape) => Ok(ZObject(shape))
          case Err(e) => Err(e)
      else Err(UnsupportedTypeError(param.typ));
    match base
    case Ok(b) => Ok(Decorate(b, param))
    case Err(e) => Err(e)
  }

  /** The properties converted in order, each under its own name; the first
      failing property's error wins. */
  function PropertySchemas(entries: seq<Entry>): (r: Result<seq<(string, ZodSchema)>>)
    ensures r.Ok? ==> |r.value| == |entries|
    decreases entries
  {
    if entries == [] then Ok([])
    else
      var last := entries[|entries| - 1];
      match PropertySchemas(entries[..|entries| - 1])
      case Err(e) => Err(e)
      case Ok(init) =>
        match ParameterSchema(last.name, last.param)
        case Err(e) => Err(e)
        case Ok(s) => Ok(init + [(last.name, s)])
  }

  /** Once a prefix of the properties fails, the whole record fails with the same error. */
  lemma {:induction false} PropertySchemasPrefixErr(entries: seq<Entry>, n: nat)
    requires n <= |entries| && PropertySchemas(entries[..n]).Err?
    ensures PropertySchemas(entries) == PropertySchemas(entries[..n])
    decreases |entries| - n
  {
    if n < |entries| {
      assert entries[..n + 1][..n] == entries[..n];
      PropertySchemasPrefixErr(entries, n + 1);
    } else {
      assert entries[..n] == entries;
    }
  }

  /**
   * buildZodSchemaForParameter: the base schema by type (recursing into
   * array items and object properties), then the description and the
   * optional marker. A thrown `Error` is returned as `Err`.
   */
  method BuildZodSchemaForParameter(name: string, param: YAMLParameter) returns (r: Result<ZodSchema>)
    ensures r == ParameterSchema(name, param)
    decreases param
  {
    var schema: ZodType;
    if param.typ == "string" {
      schema := ZString;
    } else if param.typ == "number" {
      schema := ZNumber;
    } else if param.typ == "boolean" {
      schema := ZBoolean;
    } else if param.typ == "enum" {
      if param.options.None? || |param.options.value| == 0 {
        return Err(EnumError(name));
      }
      schema := ZEnum(param.options.value);
    } else if param.typ == "array" {
      if param.items.None? {
        return Err(ArrayError(name));
      }
      var itemSchema := BuildZodSchemaForParameter(name + "Item", param.items.value);
      if itemSchema.Err? {
        return Err(itemSchema.error);
      }
      schema := ZArray(itemSchema.value);
    } else if param.typ == "object" {
      if param.properties.None? {
        return Err(ObjectError(name));
      }
      var entries := param.properties.value.entries;
      var objProps: seq<(string, ZodSchema)> := [];
      var i := 0;
      while i < |entries|
        invariant 0 <= i <= |entries|
        invariant PropertySchemas(entries[..i]) == Ok(objProps)
      {
        var entry := entries[i];
        var propSchema := BuildZodSchemaForParameter(entry.name, entry.param);
        assert entries[..i + 1][..i] == entries[..i];
        if propSchema.Err? {
          PropertySchemasPrefixErr(entries, i + 1);
          return Err(propSchema.error);
        }
        objProps := objProps + [(entry.name, propSchema.value)];
        i := i + 1;
      }
      assert entries[..i] == entries;
      schema := ZObject(objProps);
    } else {
      return Err(UnsupportedTypeError(param.typ));
    }
    var description := None;
    if param.description.Some? && param.description.value != "" {
      description := param.description;
    }
    var optional := param.required == Some(false) || param.default.Some?;
    r := Ok(ZodSchema(schema, description, optional, None));
  }

  // ---------------------------------------------------------------------
  // buildZodSchema
  // ---------------------------------------------------------------------

  /** The top-level shape: each parameter converted under its own name, with
      its `default` attached; the first failing parameter's error wins. */
  function ShapeOf(params: seq<Entry>): (r: Result<seq<(string, ZodSchema)>>)
    ensures r.Ok? ==> |r.value| == |params|
  {
    if params == [] then Ok([])
    else
      var last := params[|params| - 1];
      match ShapeOf(params[..|params| - 1])
      case Err(e) => Err(e)
      case Ok(init) =>
        match ParameterSchema(last.name, last.param)
        case Err(e) => Err(e)
        case Ok(s) => Ok(init + [(last.name, s.(default := last.param.default))])
  }

  lemma {:induction false} ShapeOfPrefixErr(params: seq<Entry>, n: nat)
    requires n <= |params| && ShapeOf(params[..n]).Err?
    ensures ShapeOf(params) == ShapeOf(params[..n])
    decreases |params| - n
  {
    if n < |params| {
      assert params[..n + 1][..n] == params[..n];
      ShapeOfPrefixErr(params, n + 1);
    } else {
      assert params[..n] == params;
    }
  }

  /** buildZodSchema: the object schema over all parameters. */
  method BuildZodSchema(params: seq<Entry>) returns (r: Result<ZodSchema>)
    ensures r.Ok? <==> ShapeOf(params).Ok?
    ensures r.Ok? ==> r.value == ZodSchema(ZObject(ShapeOf(params).value), None, false, None)
    ensures r.Err? ==> r.error == ShapeOf(params).error
  {
    var shape: seq<(string, ZodSchema)> := [];
    var i := 0;
    while i < |params|
      invariant 0 <= i <= |params|
      invariant ShapeOf(params[..i]) == Ok(shape)
    {
      var entry := params[i];
      var schema := BuildZodSchemaForParameter(entry.name, entry.param);
      assert params[..i + 1][..i] == params[..i];
      if schema.Err? {
        ShapeOfPrefixErr(params, i + 1);
        return Err(schema.error);
      }
      var s := schema.value;
      if entry.param.default.Some? {
        s := s.(default := entry.param.default);
      }
      shape := shape + [(entry.name, s)];
      i := i + 1;
    }
    assert params[..i] == params;
    r := Ok(ZodSchema(ZObject(shape), None, false, None));
  }

  // ---------------------------------------------------------------------
  // Reference definition and properties
  // ---------------------------------------------------------------------

  /** A parameter tree the converter accepts: a known type, enum options
      present and non-empty, array items present and well formed, object
      properties present and all well formed. */
  predicate WellFormed(param: YAMLParameter)
    decreases param
  {
    if param.typ in {"string", "number", "boolean"} then true
    else if param.typ == "enum" then param.options.Some? && |param.options.value| > 0
    else if param.typ == "array" then param.items.Some? && WellFormed(param.items.value)
    else if param.typ == "object" then
      param.properties.Some? && AllWellFormed(param.properties.value.entries)
    else false
  }

  predicate AllWellFormed(entries: seq<Entry>)
    decreases entries
  {
    forall i :: 0 <= i < |entries| ==> WellFormed(entries[i].param)
  }

  /** Conversion fails exactly on the trees that are not well formed. */
  lemma {:induction false} ParameterSchemaOkIff(name: string, param: YAMLParameter)
    ensures ParameterSchema(name, param).Ok? <==> WellFormed(param)
    decreases param
  {
    if param.typ == "array" && param.items.Some? {
      ParameterSchemaOkIff(name + "Item", param.items.value);
    } else if param.typ == "object" && param.properties.Some? {
      PropertySchemasOkIff(param.properties.value.entries);
    }
  }

  lemma {:induction false} PropertySchemasOkIff(entries: seq<Entry>)
    ensures PropertySchemas(entries).Ok? <==> AllWellFormed(entries)
    decreases entries
  {
    if entries != [] {
      var init := entries[..|entries| - 1];
      var last := entries[|entries| - 1];
      PropertySchemasOkIff(init);
      ParameterSchemaOkIff(last.name, last.param);
      assert forall i :: 0 <= i < |init| ==> init[i] == entries[i];
    }
  }

  /** An enum without options, an array without items and an object without
      properties are rejected with an error naming the parameter; an unknown
      type is rejected with an error naming the type. */
  lemma ParameterErrors(name: string, param: YAMLParameter)
    ensures param.typ == "enum" && (param.options.None? || param.options.value == []) ==>
      ParameterSchema(name, param) == Err("Enum parameter \"" + name + "\" must have options defined")
    ensures param.typ == "array" && param.items.None? ==>
      ParameterSchema(name, param) == Err("Array parameter \"" + name + "\" must have items defined")
    ensures param.typ == "object" && param.properties.None? ==>
      ParameterSchema(name, param) == Err("Object parameter \"" + name + "\" must have properties defined")
    ensures param.typ !in {"string", "number", "boolean", "enum", "array", "object"} ==>
      ParameterSchema(name, param) == Err("Unsupported parameter type: " + param.typ)
  {
  }

  /** An array's item is converted under the name `<name>Item`: its schema
      becomes the array's element, and its error is the array's error. */
  lemma ArrayItemNamed(name: string, param: YAMLParameter)
    requires param.typ == "array" && param.items.Some?
    ensures var item := ParameterSchema(name + "Item", param.items.value);
      && (item.Err? ==> ParameterSchema(name, param) == Err(item.error))
      && (item.Ok? ==> ParameterSchema(name, param).Ok? && ParameterSchema(name, param).value.base == ZArray(item.value))
  {
  }

  /** Converted properties keep their keys in order, and each is the
      property's own conversion under its own key. */
  lemma {:induction false} PropertySchemasShape(entries: seq<Entry>)
    requires PropertySchemas(entries).Ok?
    ensures var shape := PropertySchemas(entries).value;
      && Keys(shape) == Names(entries)
      && forall i :: 0 <= i < |entries| ==>
           ParameterSchema(entries[i].name, entries[i].param) == Ok(shape[i].1)
    decreases entries
  {
    PropertySchemasPointwise(entries);
    var shape := PropertySchemas(entries).value;
    assert Keys(shape) == Names(entries);
  }

  lemma {:induction false} PropertySchemasPointwise(entries: seq<Entry>)
    requires PropertySchemas(entries).Ok?
    ensures var shape := PropertySchemas(entries).value;
      forall i :: 0 <= i < |entries| ==>
        shape[i].0 == entries[i].name && ParameterSchema(entries[i].name, entries[i].param) == Ok(shape[i].1)
    decreases entries
  {
    if entries != [] {
      var init := entries[..|entries| - 1];
      var last := entries[|entries| - 1];
      PropertySchemasPointwise(init);
      var shape := PropertySchemas(entries).value;
      var shape0 := PropertySchemas(init).value;
      var s := ParameterSchema(last.name, last.param);
      assert shape == shape0 + [(last.name, s.value)];
      forall i | 0 <= i < |entries|
        ensures shape[i].0 == entries[i].name && ParameterSchema(entries[i].name, entries[i].param) == Ok(shape[i].1)
      {
        if i < |init| {
          assert init[i] == entries[i] && shape[i] == shape0[i];
        }
      }
    }
  }

  /** An object keeps exactly the property keys it was given. */
  lemma ObjectKeepsKeys(name: string, param: YAMLParameter)
    requires param.typ == "object" && param.properties.Some?
    requires ParameterSchema(name, param).Ok?
    ensures ParameterSchema(name, param).value.base.ZObject?
    ensures Keys(ParameterSchema(name, param).value.base.shape) == Names(param.properties.value.entries)
  {
    PropertySchemasShape(param.properties.value.entries);
  }

  /** A converted parameter is optional exactly when `required` is `false` or a
      default is given (a missing `required` does not make it optional), carries
      its description exactly when that is non-empty, and has no default of
      its own: nested defaults make a property optional and nothing more. */
  lemma ParameterModifiers(name: string, param: YAMLParameter)
    requires ParameterSchema(name, param).Ok?
    ensures var s := ParameterSchema(name, param).value;
      && (s.optional <==> param.required == Some(false) || param.default.Some?)
      && (s.description.Some? <==> param.description.Some? && param.description.value != "")
      && (s.description.Some? ==> s.description == param.description)
      && s.default.None?
  {
  }

  /** The top-level shape keeps the parameter keys in order; each entry is the
      parameter's conversion with its `default` attached exactly where the
      parameter defines one. */
  lemma {:induction false} ShapeOfKeepsKeysAndDefaults(params: seq<Entry>)
    requires ShapeOf(params).Ok?
    ensures var shape := ShapeOf(params).value;
      && Keys(shape) == Names(params)
      && forall i :: 0 <= i < |params| ==>
           && ParameterSchema(params[i].name, params[i].param).Ok?
           && shape[i].1 == ParameterSchema(params[i].name, params[i].param).value.(default := params[i].param.default)
  {
    ShapeOfPointwise(params);
    var shape := ShapeOf(params).value;
    assert Keys(shape) == Names(params);
  }

  lemma {:induction false} ShapeOfPointwise(params: seq<Entry>)
    requires ShapeOf(params).Ok?
    ensures var shape := ShapeOf(params).value;
      forall i :: 0 <= i < |params| ==>
        && shape[i].0 == params[i].name
        && ParameterSchema(params[i].name, params[i].param).Ok?
        && shape[i].1 == ParameterSchema(params[i].name, params[i].param).value.(default := params[i].param.default)
  {
    if params != [] {
      var init := params[..|params| - 1];
      var last := params[|params| - 1];
      ShapeOfPointwise(init);
      var shape := ShapeOf(params).value;
      var shape0 := ShapeOf(init).value;
      var s := ParameterSchema(last.name, last.param);
      assert shape == shape0 + [(last.name, s.value.(default := last.param.default))];
      forall i | 0 <= i < |params|
        ensures && shape[i].0 == params[i].name
                && ParameterSchema(params[i].name, params[i].param).Ok?
                && shape[i].1 == ParameterSchema(params[i].name, params[i].param).value.(default := params[i].param.default)
      {
        if i < |init| {
          assert init[i] == params[i] && shape[i] == shape0[i];
        }
      }
    }
  }

  /** A default is attached to a top-level parameter exactly where its
      definition gives one. */
  lemma DefaultsWhereDefined(params: seq<Entry>, i: nat)
    requires ShapeOf(params).Ok? && i < |params|
    ensures ShapeOf(params).value[i].1.default == params[i].param.default
  {
    ShapeOfKeepsKeysAndDefaults(params);
  }

  /** The object schema is built exactly when every parameter is well formed. */
  lemma {:induction false} ShapeOfOkIff(params: seq<Entry>)
    ensures ShapeOf(params).Ok? <==> AllWellFormed(params)
  {
    if params != [] {
      var init := params[..|params| - 1];
      ShapeOfOkIff(init);
      ParameterSchemaOkIff(params[|params| - 1].name, params[|params| - 1].param);
      assert forall i :: 0 <= i < |init| ==> init[i] == params[i];
    }
  }

  // ---------------------------------------------------------------------
  // loadToolMetadata's required fields, getMetadataFilename
  // ---------------------------------------------------------------------

  datatype Annotations = Annotations(readOnly: bool, openWorld: bool)

  /** A loaded YAMLToolMetadata document; every field may be missing. */
  datatype ToolMetadata = ToolMetadata(
    name: Option<string>,
    description: Option<string>,
    parameters: Option<Properties>,
    annotations: Option<Annotations>,
    instructions: Option<string>,
    notes: Option<string>)

  /** A string field is truthy: present and non-empty. */
  predicate Truthy(s: Option<string>) {
    s.Some? && s.value != ""
  }

  /** The required-field checks, in their order; the document is returned as loaded. */
  function CheckRequiredFields(m: ToolMetadata): Result<ToolMetadata> {
    if !Truthy(m.name) then Err("Metadata must have a \"name\" field")
    else if !Truthy(m.description) then Err("Metadata must have a \"description\" field")
    else if m.parameters.None? then Err("Metadata must have a \"parameters\" field")
    else if m.annotations.None? then Err("Metadata must have an \"annotations\" field")
    else Ok(m)
  }

  /**
   * loadToolMetadata after the file has been read and parsed: `loaded` is the
   * parsed document, or the text of the error raised while checking, reading
   * or parsing the file at `yamlPath`. Every failure is rethrown with the path.
   */
  function LoadToolMetadata(yamlPath: string, loaded: Result<ToolMetadata>): Result<ToolMetadata> {
    var checked := match loaded
      case Err(e) => Err(e)
      case Ok(m) =>
        match CheckRequiredFields(m)
        case Ok(v) => Ok(v)
        case Err(msg) => Err("Error: " + msg);
    match checked
    case Ok(m) => Ok(m)
    case Err(e) => Err("Failed to load metadata from " + yamlPath + ": " + e)
  }

  /** A document is accepted exactly when its name and description are
      non-empty and its parameters and annotations are present; an accepted
      document is returned unchanged, and every rejection names the path. */
  lemma LoadToolMetadataAccepts(yamlPath: string, loaded: Result<ToolMetadata>)
    ensures var r := LoadToolMetadata(yamlPath, loaded);
      && (r.Ok? <==> loaded.Ok? && Truthy(loaded.value.name) && Truthy(loaded.value.description)
                     && loaded.value.parameters.Some? && loaded.value.annotations.Some?)
      && (r.Ok? ==> r == loaded)
      && (r.Err? ==> |r.error| >= |"Failed to load metadata from " + yamlPath + ": "|
                     && r.error[..|"Failed to load metadata from " + yamlPath + ": "|] == "Failed to load metadata from " + yamlPath + ": ")
  {
  }

  /** The first missing field is the one reported, as a validation `Error`
      wrapped in the path message. */
  lemma MissingFieldReported(yamlPath: string, m: ToolMetadata)
    ensures CheckRequiredFields(m).Err? ==>
      LoadToolMetadata(yamlPath, Ok(m))
        == Err("Failed to load metadata from " + yamlPath + ": " + ("Error: " + CheckRequiredFields(m).error))
    ensures !Truthy(m.name) ==> CheckRequiredFields(m) == Err("Metadata must have a \"name\" field")
    ensures Truthy(m.name) && !Truthy(m.description) ==>
      CheckRequiredFields(m) == Err("Metadata must have a \"description\" field")
    ensures Truthy(m.name) && Truthy(m.description) && m.parameters.None? ==>
      CheckRequiredFields(m) == Err("Metadata must have a \"parameters\" field")
    ensures Truthy(m.name) && Truthy(m.description) && m.parameters.Some? && m.annotations.None? ==>
      CheckRequiredFields(m) == Err("Metadata must have an \"annotations\" field")
  {
  }

  /** `toolFilename.replace('.ts', '.yaml')`: only the first `.ts` is replaced. */
  function GetMetadataFilename(toolFilename: string): string {
    var i := IndexOf(toolFilename, ".ts", 0);
    if i < 0 then toolFilename else toolFilename[..i] + ".yaml" + toolFilename[i + 3..]
  }

  /** A name without `.ts` is kept; otherwise the first `.ts` becomes `.yaml`,
      with everything before and after it kept, so the name grows by two. */
  lemma MetadataFilenameReplacesFirst(toolFilename: string)
    ensures !Includes(toolFilename, ".ts") ==> GetMetadataFilename(toolFilename) == toolFilename
    ensures Includes(toolFilename, ".ts") ==>
      exists i :: 0 <= i <= |toolFilename| - 3 && toolFilename[i..i + 3] == ".ts"
        && (forall k :: 0 <= k < i ==> !OccursAt(toolFilename, ".ts", k))
        && GetMetadataFilename(toolFilename) == toolFilename[..i] + ".yaml" + toolFilename[i + 3..]
    ensures |GetMetadataFilename(toolFilename)| == |toolFilename| + (if Includes(toolFilename, ".ts") then 2 else 0)
  {
    var i := IndexOf(toolFilename, ".ts", 0);
    assert Clamp(0, |toolFilename|) == 0;
    if i >= 0 {
      assert OccursAt(toolFilename, ".ts", i);
      assert i + 3 <= |toolFilename| && toolFilename[i..i + 3] == ".ts";
      assert forall k :: 0 <= k < i ==> !OccursAt(toolFilename, ".ts", k);
      var r := toolFilename[..i] + ".yaml" + toolFilename[i + 3..];
      assert GetMetadataFilename(toolFilename) == r;
      assert |r| == i + 5 + (|toolFilename| - (i + 3));
    }
  }

  /** `scroll.ts` is described by `scroll.yaml`. */
  lemma MetadataFilenameExample()
    ensures GetMetadataFilename("scroll.ts") == "scroll.yaml"
  {
    var s := "scroll.ts";
    forall k | 0 <= k < 6
      ensures !OccursAt(s, ".ts", k)
    {
      assert s[k..k + 3][0] == s[k] != '.';
    }
    assert OccursAt(s, ".ts", 6);
    IndexOfFirst(s, ".ts", 0, 6);
  }
}
