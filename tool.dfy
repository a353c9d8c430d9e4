/**
 * The tool declaration builder of src/types/workflow/Tool.ts: the JSON-Schema
 * view of a Zod object schema (`zodToJsonSchema`), the declaration `tool()`
 * builds, and `toolWithFixedParams`, which hides fixed parameters from the
 * declaration and merges them back in when the tool runs.
 */
module Tools {
  import opened Wrappers
  import opened Records
  import opened Values
  import opened Zod

  // ---------------------------------------------------------------- JSON-Schema properties

  /** What a property's `enum` holds: an enum's values, or the text of a string's `includes` check. */
  datatype EnumSpec = Listed(values: seq<string>) | Included(text: string)

  /** One entry of `properties`. */
  datatype Property = Property(typ: string, description: Option<string>, enumSpec: Option<EnumSpec>,
                               minimum: Option<int>, maximum: Option<int>)

  /** The `parameters` object of a declaration. */
  datatype Parameters = Parameters(typ: string, properties: Rec<Property>, required: seq<string>, additionalProperties: bool)

  /** The field schema once an `Optional` wrapper and then a `Default` wrapper are taken off, and whether the first was there. */
  function Unwrapped(field: Schema): (r: (Schema, bool))
    ensures r.1 <==> field.ZOptional?
  {
    var (f, optional) := if field.ZOptional? then (field.inner, true) else (field, false);
    (if f.ZDefault? then f.inner else f, optional)
  }

  /** A description is copied only when it is a non-empty string. */
  function Described(d: Option<string>): (r: Option<string>)
    ensures r.Some? <==> d.Some? && d.value != ""
    ensures r.Some? ==> r == d
  {
    if d.Some? && d.value != "" then d else None
  }

  /**
   * The property a field contributes: only string, enum and number fields,
   * read after unwrapping, have one. It carries the unwrapped field's
   * description when that is non-empty; a string's `includes` check becomes
   * its `enum`, an enum's values become its `enum`, and only a number has
   * bounds.
   */
  function FieldProperty(field: Schema): (r: Option<Property>)
    ensures var f := Unwrapped(field).0; r.Some? <==> f.ZString? || f.ZEnum? || f.ZNumber?
    ensures r.Some? ==> r.value.typ == (if Unwrapped(field).0.ZNumber? then "number" else "string")
    ensures r.Some? ==> r.value.description == Described(Unwrapped(field).0.description)
    ensures var f := Unwrapped(field).0;
      f.ZString? ==> r.value.enumSpec == (if f.includes.Some? then Some(Included(f.includes.value)) else None)
    ensures var f := Unwrapped(field).0; f.ZEnum? ==> r.value.enumSpec == Some(Listed(f.values))
    ensures var f := Unwrapped(field).0; f.ZNumber? ==> r.value.enumSpec.None?
    ensures var f := Unwrapped(field).0;
      r.Some? ==> r.value.minimum == (if f.ZNumber? then f.min else None) && r.value.maximum == (if f.ZNumber? then f.max else None)
  {
    match Unwrapped(field).0
    case ZString(d, includes) =>
      Some(Property("string", Described(d), if includes.Some? then Some(Included(includes.value)) else None, None, None))
    case ZEnum(values, d) => Some(Property("string", Described(d), Some(Listed(values)), None, None))
    case ZNumber(d, min, max) => Some(Property("number", Described(d), None, min, max))
    case _ => None
  }

  /** A field is required unless its outer wrapper is `Optional` or, after unwrapping, it is still a `Default`. */
  predicate Required(field: Schema)
  {
    var (f, optional) := Unwrapped(field);
    !optional && !f.ZDefault?
  }

  /** The properties of the fields named by `ks`, in that order. */
  function PropertiesOf(shape: Rec<Schema>, ks: seq<string>): (r: Rec<Property>)
    requires forall k | k in ks :: k in shape.fields
    ensures Valid(r)
    ensures forall k :: k in r.fields <==> k in ks && FieldProperty(shape.fields[k]).Some?
    ensures forall k | k in r.fields :: r.fields[k] == FieldProperty(shape.fields[k]).value
  {
    if ks == [] then Empty()
    else
      var init := ks[..|ks| - 1];
      var k := ks[|ks| - 1];
      var before := PropertiesOf(shape, init);
      match FieldProperty(shape.fields[k])
      case Some(p) => Put(before, k, p)
      case None => before
  }

  /** One more key: its property, if any, goes last. */
  lemma PropertiesStep(shape: Rec<Schema>, ks: seq<string>, i: nat)
    requires i < |ks| && forall k | k in ks :: k in shape.fields
    ensures var before := PropertiesOf(shape, ks[..i]);
      var p := FieldProperty(shape.fields[ks[i]]);
      PropertiesOf(shape, ks[..i + 1]) == if p.Some? then Put(before, ks[i], p.value) else before
    ensures RequiredOf(shape, ks[..i + 1])
      == RequiredOf(shape, ks[..i]) + if Required(shape.fields[ks[i]]) then [ks[i]] else []
  {
    assert ks[..i + 1][..i] == ks[..i];
  }

  /** The required fields among `ks`, in that order. */
  function RequiredOf(shape: Rec<Schema>, ks: seq<string>): (r: seq<string>)
    requires forall k | k in ks :: k in shape.fields
    ensures forall k :: k in r <==> k in ks && Required(shape.fields[k])
    ensures |r| <= |ks|
  {
    if ks == [] then []
    else
      var k := ks[|ks| - 1];
      RequiredOf(shape, ks[..|ks| - 1]) + (if Required(shape.fields[k]) then [k] else [])
  }

  const NotAnObject := "TypeError: schema._def.shape is not a function"

  /** `zodToJsonSchema`: the parameters object for an object schema; any other schema has no shape to read. */
  function JsonSchema(schema: Schema): Result<Parameters>
    requires schema.ZObject? ==> Valid(schema.shape)
  {
    if !schema.ZObject? then Err(NotAnObject)
    else
      var shape := schema.shape;
      KeysAreFields(shape);
      Ok(Parameters("object", PropertiesOf(shape, shape.keys), RequiredOf(shape, shape.keys), false))
  }

  lemma KeysAreFields<V>(r: Rec<V>)
    requires Valid(r)
    ensures forall k :: k in r.keys <==> k in r.fields
  {
    forall k ensures k in r.keys <==> k in r.fields {
      assert k in r.keys <==> k in (set x | x in r.keys);
    }
  }

  /** The loop of `zodToJsonSchema` over the shape's entries. */
  method ZodToJsonSchema(schema: Schema) returns (r: Result<Parameters>)
    requires schema.ZObject? ==> Valid(schema.shape)
    ensures r == JsonSchema(schema)
  {
    if !schema.ZObject? {
      return Err(NotAnObject);
    }
    var shape := schema.shape;
    KeysAreFields(shape);
    var properties: Rec<Property> := Empty();
    var required: seq<string> := [];
    for i := 0 to |shape.keys|
      invariant properties == PropertiesOf(shape, shape.keys[..i])
      invariant required == RequiredOf(shape, shape.keys[..i])
    {
      var key := shape.keys[i];
      PropertiesStep(shape, shape.keys, i);
      var property := FieldProperty(shape.fields[key]);
      if property.Some? {
        properties := Put(properties, key, property.value);
      }
      if Required(shape.fields[key]) {
        required := required + [key];
      }
    }
    assert shape.keys[..|shape.keys|] == shape.keys;
    r := Ok(Parameters("object", properties, required, false));
  }

  // ---------------------------------------------------------------- declarations

  /**
   * A tool's `run` function: the one given to `tool()`, or the wrapper
   * `toolWithFixedParams` puts around another tool's `run`.
   */
  datatype Runner = Base(run: Rec<Value> -> Value) | WithFixed(fixed: Rec<Value>, inner: Runner)

  predicate Runnable(runner: Runner)
  {
    match runner
    case Base(_) => true
    case WithFixed(fixed, inner) => Valid(fixed) && Runnable(inner)
  }

  /** Calling a tool's `run`: a wrapper calls the inner `run` with `{...fixedParams, ...params}`. */
  function Invoke(runner: Runner, params: Rec<Value>): Value
    requires Runnable(runner) && Valid(params)
  {
    match runner
    case Base(run) => run(params)
    case WithFixed(fixed, inner) => Invoke(inner, Spread(fixed, params))
  }

  /** A `FunctionTool` declaration. */
  datatype Declaration = Declaration(typ: string, name: string, description: Option<string>, strict: bool, parameters: Parameters)

  datatype NodeTool = NodeTool(declaration: Declaration, runner: Runner, fixedParams: Option<Rec<Value>>)

  datatype ToolConfig = ToolConfig(name: string, description: Option<string>, params: Schema, run: Rec<Value> -> Value)

  /** `tool(config)`: a strict function declaration over the parameters' JSON schema. */
  function MakeTool(config: ToolConfig): (r: Result<NodeTool>)
    requires config.params.ZObject? ==> Valid(config.params.shape)
    ensures r.Ok? <==> config.params.ZObject?
    ensures r.Ok? ==> (r.value.declaration.typ == "function" && r.value.declaration.strict
      && r.value.declaration.name == config.name && r.value.declaration.description == config.description
      && r.value.declaration.parameters == JsonSchema(config.params).value
      && r.value.runner == Base(config.run) && r.value.fixedParams.None?)
  {
    match JsonSchema(config.params)
    case Err(e) => Err(e)
    case Ok(parameters) => Ok(NodeTool(Declaration("function", config.name, config.description, true, parameters), Base(config.run), None))
  }

  /** The properties among `ks` that are not fixed, in that order. */
  function KeptProperties(properties: Rec<Property>, ks: seq<string>, fixed: Rec<Value>): (r: Rec<Property>)
    requires forall k | k in ks :: k in properties.fields
    ensures Valid(r)
    ensures forall k :: k in r.fields <==> k in ks && k !in fixed.fields
    ensures forall k | k in r.fields :: r.fields[k] == properties.fields[k]
  {
    if ks == [] then Empty()
    else
      var init := ks[..|ks| - 1];
      var k := ks[|ks| - 1];
      var before := KeptProperties(properties, init, fixed);
      if k in fixed.fields then before else Put(before, k, properties.fields[k])
  }

  /** The kept keys among `ks` that were required, in the order of `ks`. */
  function KeptRequired(ks: seq<string>, required: seq<string>, fixed: Rec<Value>): (r: seq<string>)
    ensures forall k :: k in r <==> k in ks && k !in fixed.fields && k in required
  {
    if ks == [] then []
    else
      var k := ks[|ks| - 1];
      KeptRequired(ks[..|ks| - 1], required, fixed) + (if k !in fixed.fields && k in required then [k] else [])
  }

  /** One more key: kept, and kept as required, unless it is fixed. */
  lemma KeptStep(properties: Rec<Property>, ks: seq<string>, required: seq<string>, fixed: Rec<Value>, i: nat)
    requires i < |ks| && forall k | k in ks :: k in properties.fields
    ensures var before := KeptProperties(properties, ks[..i], fixed);
      KeptProperties(properties, ks[..i + 1], fixed)
        == if ks[i] in fixed.fields then before else Put(before, ks[i], properties.fields[ks[i]])
    ensures KeptRequired(ks[..i + 1], required, fixed)
      == KeptRequired(ks[..i], required, fixed) + if ks[i] !in fixed.fields && ks[i] in required then [ks[i]] else []
  {
    assert ks[..i + 1][..i] == ks[..i];
  }

  /** The parameters object of `toolWithFixedParams`: the same object with fixed keys taken out of `properties` and `required`. */
  function FixedParameters(parameters: Parameters, fixed: Rec<Value>): Parameters
    requires Valid(parameters.properties)
  {
    var ks := parameters.properties.keys;
    KeysAreFields(parameters.properties);
    parameters.(properties := KeptProperties(parameters.properties, ks, fixed),
                required := KeptRequired(ks, parameters.required, fixed))
  }

  /** `toolWithFixedParams(baseTool, fixedParams)`: the loop over the base declaration's properties. */
  method WithFixedParams(base: NodeTool, fixed: Rec<Value>) returns (r: NodeTool)
    requires Valid(base.declaration.parameters.properties)
    ensures r == NodeTool(base.declaration.(parameters := FixedParameters(base.declaration.parameters, fixed)),
                          WithFixed(fixed, base.runner), Some(fixed))
  {
    var original := base.declaration.parameters;
    var ks := original.properties.keys;
    KeysAreFields(original.properties);
    var properties: Rec<Property> := Empty();
    var required: seq<string> := [];
    for i := 0 to |ks|
      invariant properties == KeptProperties(original.properties, ks[..i], fixed)
      invariant required == KeptRequired(ks[..i], original.required, fixed)
    {
      var key := ks[i];
      KeptStep(original.properties, ks, original.required, fixed, i);
      if key !in fixed.fields {
        properties := Put(properties, key, original.properties.fields[key]);
        if key in original.required {
          required := required + [key];
        }
      }
    }
    assert ks[..|ks|] == ks;
    r := NodeTool(base.declaration.(parameters := original.(properties := properties, required := required)),
                  WithFixed(fixed, base.runner), Some(fixed));
  }

  // ---------------------------------------------------------------- properties

  /** The JSON schema of an object schema: type 'object', no additional properties, properties only for string, enum and number fields, required exactly the fields not optional or still defaulted. */
  lemma JsonSchemaOfObject(schema: Schema)
    requires schema.ZObject? && Valid(schema.shape)
    ensures var p := JsonSchema(schema).value;
      p.typ == "object" && !p.additionalProperties && Valid(p.properties)
      && (forall k :: k in p.properties.fields <==> k in schema.shape.fields && FieldProperty(schema.shape.fields[k]).Some?)
      && (forall k :: k in p.required <==> k in schema.shape.fields && Required(schema.shape.fields[k]))
  {
    KeysAreFields(schema.shape);
  }

  /** `required` lists keys in shape order: the list for a concatenation is the concatenation of the lists. */
  lemma {:induction false} RequiredOfAppend(shape: Rec<Schema>, a: seq<string>, b: seq<string>)
    requires forall k | k in a + b :: k in shape.fields
    ensures RequiredOf(shape, a + b) == RequiredOf(shape, a) + RequiredOf(shape, b)
    decreases |b|
  {
    if b == [] {
      assert a + b == a;
    } else {
      var k := b[|b| - 1];
      var b' := b[..|b| - 1];
      var last := if Required(shape.fields[k]) then [k] else [];
      assert (a + b)[..|a + b| - 1] == a + b';
      assert (a + b)[|a + b| - 1] == k;
      assert RequiredOf(shape, a + b) == RequiredOf(shape, a + b') + last;
      RequiredOfAppend(shape, a, b');
      assert RequiredOf(shape, b) == RequiredOf(shape, b') + last;
    }
  }

  /** `required` has no duplicates when the shape's keys have none. */
  lemma {:induction false} RequiredOfDistinct(shape: Rec<Schema>, ks: seq<string>)
    requires forall k | k in ks :: k in shape.fields
    requires Distinct(ks)
    ensures Distinct(RequiredOf(shape, ks))
  {
    if ks != [] {
      var init := ks[..|ks| - 1];
      var k := ks[|ks| - 1];
      RequiredOfDistinct(shape, init);
      assert k !in init by {
        assert forall j | 0 <= j < |init| :: init[j] != k;
      }
      assert k !in RequiredOf(shape, init);
    }
  }

  /** An optional field is never required; a field with a default is required (its wrapper is gone by the time it is tested) and still gets its property. */
  lemma WrapperRules(inner: Schema, d: Option<string>)
    requires !inner.ZOptional? && !inner.ZDefault?
    ensures !Required(ZOptional(inner, d))
    ensures Required(ZDefault(inner, d))
    ensures FieldProperty(ZDefault(inner, d)) == FieldProperty(inner)
    ensures FieldProperty(ZOptional(ZDefault(inner, d), d)) == FieldProperty(inner)
  {
  }

  /** A field of another type has no property but is still required. */
  lemma OtherTypesRequiredWithoutProperty(typeName: string, d: Option<string>)
    ensures FieldProperty(ZOther(typeName, d)).None? && Required(ZOther(typeName, d))
  {
  }

  /** A number's checks become `minimum` and `maximum`; an enum's values become `enum`. */
  lemma NumberAndEnumProperties(d: Option<string>, min: Option<int>, max: Option<int>, values: seq<string>)
    ensures var p := FieldProperty(ZNumber(d, min, max)).value;
      p.typ == "number" && p.minimum == min && p.maximum == max && p.enumSpec.None?
    ensures var p := FieldProperty(ZEnum(values, d)).value;
      p.typ == "string" && p.enumSpec == Some(Listed(values))
  {
  }

  /** Fixing parameters drops exactly the fixed keys from `properties`, keeps the rest unchanged, and keeps a key required only if it still has a property. */
  lemma FixedParametersContents(parameters: Parameters, fixed: Rec<Value>)
    requires Valid(parameters.properties)
    ensures var p := FixedParameters(parameters, fixed);
      p.typ == parameters.typ && p.additionalProperties == parameters.additionalProperties
      && (forall k :: k in p.properties.fields <==> k in parameters.properties.fields && k !in fixed.fields)
      && (forall k | k in p.properties.fields :: p.properties.fields[k] == parameters.properties.fields[k])
      && (forall k :: k in p.required <==> k in parameters.required && k in p.properties.fields)
  {
    KeysAreFields(parameters.properties);
  }

  /** The wrapped `run` passes `{...fixedParams, ...params}` on: a call-time value overrides a fixed one, and a fixed value fills a key the call leaves out. */
  lemma FixedRunMerges(base: Runner, fixed: Rec<Value>, params: Rec<Value>, k: string)
    requires Runnable(base) && Valid(fixed) && Valid(params)
    ensures Invoke(WithFixed(fixed, base), params) == Invoke(base, Spread(fixed, params))
    ensures k in params.fields ==> Spread(fixed, params).fields[k] == params.fields[k]
    ensures k in fixed.fields && k !in params.fields ==> Spread(fixed, params).fields[k] == fixed.fields[k]
  {
  }
}
