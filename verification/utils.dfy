/** Property schemas, default elaboration and structural value validation
    (dsl_parser/utils.py). */
module Utils {
  import opened Values
  import opened Errors

  /** The built-in type names; user data types may not take them. */
  const PRIMITIVE_TYPES: set<string> := {"string", "integer", "float", "boolean"}

  /** One entry of a property schema: `{type: ..., default: ..., description: ...}`.
      `default == Some(Null)` is an explicit `default: null`, which differs
      from an absent default only in that the key is present. */
  datatype PropertySchema = PropertySchema(
    typeName: Option<string>,
    default: Option<Value>,
    description: Option<string>)

  /** A property schema: property name to its entry. */
  type Schema = map<string, PropertySchema>

  /** What `_parse_value` consults: the data types it may recurse into, each
      given by its property schema, and the intrinsic-function recogniser
      (`functions.parse`, which is not part of this model). */
  datatype Registry = Registry(types: map<string, Schema>, isIntrinsic: Value -> bool)

  /** `prop['default']` when present, `None` otherwise. */
  function DefaultOf(p: PropertySchema): Value
  {
    if p.default.Some? then p.default.value else Null
  }

  /** The flattened schema: every property mapped to its default. */
  function Defaults(schema: Schema): (d: map<string, Value>)
    ensures d.Keys == schema.Keys
  {
    map k | k in schema :: DefaultOf(schema[k])
  }

  /** `flatten_schema`: built key by key, as the source does. */
  method FlattenSchema(schema: Schema) returns (flat: map<string, Value>)
    ensures flat.Keys == schema.Keys
    ensures forall k :: k in flat ==>
      flat[k] == (if schema[k].default.Some? then schema[k].default.value else Null)
    ensures flat == Defaults(schema)
  {
    flat := map[];
    var todo := schema.Keys;
    while todo != {}
      invariant todo <= schema.Keys
      invariant flat.Keys == schema.Keys - todo
      invariant forall k :: k in flat ==> flat[k] == DefaultOf(schema[k])
      decreases todo
    {
      var key :| key in todo;
      var prop := schema[key];
      if prop.default.Some? {
        flat := flat[key := prop.default.value];
      } else {
        flat := flat[key := Null];
      }
      todo := todo - {key};
    }
  }

  /** `d.get(key, {})` for a sub-dict that may be absent. */
  function SubDict<V>(d: Option<map<string, V>>): map<string, V>
  {
    if d.Some? then d.value else map[]
  }

  /** `merge_sub_dicts`: the union of the two sub-dicts, the overriding one
      winning on shared keys; an absent sub-dict acts as `{}`. */
  function MergeSubDicts<V>(overridden: Option<map<string, V>>, overriding: Option<map<string, V>>): (r: map<string, V>)
    ensures r.Keys == SubDict(overridden).Keys + SubDict(overriding).Keys
    ensures forall k :: k in SubDict(overriding) ==> r[k] == SubDict(overriding)[k]
    ensures forall k :: k in SubDict(overridden) && k !in SubDict(overriding) ==>
      r[k] == SubDict(overridden)[k]
  {
    SubDict(overridden) + SubDict(overriding)
  }

  /** The type-mismatch error (code 50) for a property. */
  function Mismatch(prop: string): Outcome<Value>
  {
    Fail({LogicError(TYPE_MISMATCH, prop)})
  }

  /** `_parse_value`: validate `v` against the declared type `typeName` of
      property `prop`, recursing into data types. `fuel` bounds the depth of
      that recursion. */
  function ParseValue(v: Value, typeName: Option<string>, prop: string, reg: Registry, fuel: nat): (r: Outcome<Value>)
    ensures r.Fail? ==> r.errors != {}
    ensures r.Ok? ==> r.value == v || (v.Dict? && r.value.Dict?)
    decreases fuel, 0
  {
    if typeName.None? then Ok(v)
    else if reg.isIntrinsic(v) then Ok(v)
    else
      var t := typeName.value;
      if t == "integer" then (if v.Int? then Ok(v) else Mismatch(prop))
      else if t == "float" then (if v.Int? || v.Float? then Ok(v) else Mismatch(prop))
      else if t == "boolean" then (if v.Bool? then Ok(v) else Mismatch(prop))
      else if t == "string" then Ok(v)
      else if t in reg.types then
        if !v.Dict? then Mismatch(prop)
        else if fuel == 0 then Fail({DepthExhausted(t)})
        else
          match Merge(v.entries, reg.types[t], reg, fuel - 1)
          case Ok(m) => Ok(Dict(m))
          case Fail(e) => Fail(e)
      else Fail({RuntimeError(prop)})
  }

  /** One iteration of the merge loop: a `None` value is a missing property
      (code 107), anything else goes through `_parse_value`. */
  function ParseField(key: string, v: Value, typeName: Option<string>, reg: Registry, fuel: nat): (r: Outcome<Value>)
    ensures r.Fail? ==> r.errors != {}
    decreases fuel, 1
  {
    if v == Null then Fail({LogicError(MISSING_PROPERTY, key)})
    else ParseValue(v, typeName, key, reg, fuel)
  }

  /** `merge_schema_and_instance_properties`: reject undefined keys (106),
      overlay the instance on the defaults, then reject missing values (107)
      and type-check every value. */
  function Merge(inst: map<string, Value>, schema: Schema, reg: Registry, fuel: nat): (r: Outcome<map<string, Value>>)
    ensures r.Fail? ==> r.errors != {}
    ensures r.Ok? ==> r.value.Keys == schema.Keys
    decreases fuel, 3
  {
    if !(inst.Keys <= schema.Keys) then
      UndefinedErrorsNonEmpty(inst, schema);
      Fail(UndefinedErrors(inst, schema))
    else Collect(MergedFields(inst, schema, reg, fuel))
  }

  /** The undefined-property errors (106), one per instance key the schema
      does not declare. */
  function UndefinedErrors(inst: map<string, Value>, schema: Schema): set<Error>
  {
    set k | k in inst.Keys && k !in schema.Keys :: LogicError(UNDEFINED_PROPERTY, k)
  }

  lemma UndefinedErrorsNonEmpty(inst: map<string, Value>, schema: Schema)
    requires !(inst.Keys <= schema.Keys)
    ensures UndefinedErrors(inst, schema) != {}
  {
    var k :| k in inst.Keys && k !in schema.Keys;
    assert LogicError(UNDEFINED_PROPERTY, k) in UndefinedErrors(inst, schema);
  }

  /** The second loop's iterations: every schema key, with its instance value
      when given and its default otherwise. */
  function MergedFields(inst: map<string, Value>, schema: Schema, reg: Registry, fuel: nat): (fields: map<string, Outcome<Value>>)
    requires inst.Keys <= schema.Keys
    ensures fields.Keys == schema.Keys
    ensures forall k :: k in fields && fields[k].Fail? ==> fields[k].errors != {}
    ensures forall k :: k in fields ==>
      fields[k] == ParseField(k, (Defaults(schema) + inst)[k], schema[k].typeName, reg, fuel)
    decreases fuel, 2
  {
    var merged := Defaults(schema) + inst;
    map k | k in schema.Keys :: ParseField(k, merged[k], schema[k].typeName, reg, fuel)
  }

  /** Every error some field of `fields` reports. */
  function FieldErrors<T>(fields: map<string, Outcome<T>>): set<Error>
  {
    set k, e | k in fields && fields[k].Fail? && e in fields[k].errors :: e
  }

  /** A loop over a dict that builds a result key by key and stops at the
      first failing key: it succeeds when every key does, and otherwise fails
      with the error of whichever failing key the iteration reaches first. */
  function Collect<T(==)>(fields: map<string, Outcome<T>>): (r: Outcome<map<string, T>>)
    requires forall k :: k in fields && fields[k].Fail? ==> fields[k].errors != {}
    ensures r.Ok? <==> forall k :: k in fields ==> fields[k].Ok?
    ensures r.Ok? ==> r.value.Keys == fields.Keys
    ensures r.Ok? ==> forall k :: k in fields ==> fields[k] == Ok(r.value[k])
    ensures r.Fail? ==> r.errors == FieldErrors(fields) && r.errors != {}
  {
    if forall k | k in fields :: fields[k].Ok? then
      Ok(map k | k in fields :: fields[k].value)
    else
      SomeFieldError(fields);
      Fail(FieldErrors(fields))
  }

  lemma SomeFieldError<T>(fields: map<string, Outcome<T>>)
    requires forall k :: k in fields && fields[k].Fail? ==> fields[k].errors != {}
    requires exists k :: k in fields && fields[k].Fail?
    ensures FieldErrors(fields) != {}
  {
    var k :| k in fields && fields[k].Fail?;
    var e :| e in fields[k].errors;
    assert e in FieldErrors(fields);
  }

  /** A loop that stops at a failing key may report any of its errors. */
  lemma CollectReportsFieldError<T>(fields: map<string, Outcome<T>>, key: string, e: Error)
    requires forall k :: k in fields && fields[k].Fail? ==> fields[k].errors != {}
    requires key in fields && fields[key].Fail? && e in fields[key].errors
    ensures Collect(fields).Fail? && e in Collect(fields).errors
  {
    assert e in FieldErrors(fields);
  }

  /** A loop that went through every key without failing built what
      `Collect` describes. */
  lemma CollectAllOk<T>(fields: map<string, Outcome<T>>, result: map<string, T>)
    requires result.Keys == fields.Keys
    requires forall k :: k in result ==> fields[k] == Ok(result[k])
    ensures Collect(fields) == Ok(result)
  {
    assert forall k :: k in fields ==> fields[k].Ok?;
    var c := Collect(fields);
    assert c.Ok?;
    assert c.value.Keys == result.Keys;
    assert forall k :: k in fields ==> c.value[k] == result[k];
    assert c.value == result;
  }

  /** The first loop of `merge_schema_and_instance_properties`: look for an
      instance key the flattened schema does not declare. Which one is found
      depends on the iteration order. */
  method FindUndefinedKey(inst: map<string, Value>, flattened: map<string, Value>) returns (undefined: Option<string>)
    ensures undefined.None? <==> inst.Keys <= flattened.Keys
    ensures undefined.Some? ==> undefined.value in inst && undefined.value !in flattened
  {
    var unchecked := inst.Keys;
    while unchecked != {}
      invariant unchecked <= inst.Keys
      invariant forall k :: k in inst.Keys - unchecked ==> k in flattened
      decreases unchecked
    {
      var key :| key in unchecked;
      if key !in flattened {
        return Some(key);
      }
      unchecked := unchecked - {key};
    }
    return None;
  }

  /** `merge_schema_and_instance_properties`, with its two loops. Which
      offending key is reported depends on the iteration order; the method
      reports one of those the specification allows. */
  method MergeSchemaAndInstanceProperties(inst: map<string, Value>, schema: Schema, reg: Registry, fuel: nat)
    returns (r: Result<map<string, Value>>)
    ensures Admits(Merge(inst, schema, reg, fuel), r)
  {
    var flattened := FlattenSchema(schema);
    var undefined := FindUndefinedKey(inst, flattened);
    if undefined.Some? {
      assert LogicError(UNDEFINED_PROPERTY, undefined.value) in UndefinedErrors(inst, schema);
      return Failure(LogicError(UNDEFINED_PROPERTY, undefined.value));
    }
    var merged := flattened + inst;
    ghost var fields := MergedFields(inst, schema, reg, fuel);
    assert Merge(inst, schema, reg, fuel) == Collect(fields);
    var result := map[];
    var todo := merged.Keys;
    while todo != {}
      invariant todo <= schema.Keys
      invariant result.Keys == schema.Keys - todo
      invariant forall k :: k in result ==> fields[k] == Ok(result[k])
      decreases todo
    {
      var key :| key in todo;
      var value := merged[key];
      assert fields[key] == ParseField(key, value, schema[key].typeName, reg, fuel);
      if value == Null {
        CollectReportsFieldError(fields, key, LogicError(MISSING_PROPERTY, key));
        return Failure(LogicError(MISSING_PROPERTY, key));
      }
      var parsed := ParseValue(value, schema[key].typeName, key, reg, fuel);
      if parsed.Fail? {
        var e :| e in parsed.errors;
        CollectReportsFieldError(fields, key, e);
        return Failure(e);
      }
      result := result[key := parsed.value];
      todo := todo - {key};
    }
    CollectAllOk(fields, result);
    return Success(result);
  }

  /** One iteration of `parse_type_fields`: the declared type must be a
      primitive or a known data type (format error 1); a truthy default is
      validated and replaced by its parsed value; otherwise the entry is
      copied unchanged. */
  function ParseTypeField(name: string, p: PropertySchema, reg: Registry, fuel: nat): (r: Outcome<PropertySchema>)
    ensures r.Fail? ==> r.errors != {}
  {
    if p.typeName.Some? && p.typeName.value !in reg.types && p.typeName.value !in PRIMITIVE_TYPES then
      Fail({FormatError(ILLEGAL_TYPE_NAME, p.typeName.value)})
    else if p.default.Some? && Truthy(p.default.value) then
      match ParseValue(p.default.value, p.typeName, name, reg, fuel)
      case Ok(d) => Ok(p.(default := Some(d)))
      case Fail(e) => Fail(e)
    else Ok(p)
  }

  /** `parse_type_fields` as a specification. */
  function TypeFields(fields: Schema, reg: Registry, fuel: nat): (r: Outcome<Schema>)
    ensures r.Fail? ==> r.errors != {}
    ensures r.Ok? ==> r.value.Keys == fields.Keys
  {
    Collect(map k | k in fields.Keys :: ParseTypeField(k, fields[k], reg, fuel))
  }

  /** `parse_type_fields`, with its loop. */
  method ParseTypeFields(fields: Schema, reg: Registry, fuel: nat) returns (r: Result<Schema>)
    ensures Admits(TypeFields(fields, reg, fuel), r)
  {
    ghost var checked := map k | k in fields.Keys :: ParseTypeField(k, fields[k], reg, fuel);
    assert TypeFields(fields, reg, fuel) == Collect(checked);
    var result: Schema := map[];
    var todo := fields.Keys;
    while todo != {}
      invariant todo <= fields.Keys
      invariant result.Keys == fields.Keys - todo
      invariant forall k :: k in result ==> checked[k] == Ok(result[k])
      decreases todo
    {
      var name :| name in todo;
      var prop := fields[name];
      var typeName := prop.typeName;
      if typeName.Some? && typeName.value !in reg.types && typeName.value !in PRIMITIVE_TYPES {
        assert checked[name] == Fail({FormatError(ILLEGAL_TYPE_NAME, typeName.value)});
        assert FormatError(ILLEGAL_TYPE_NAME, typeName.value) in FieldErrors(checked);
        return Failure(FormatError(ILLEGAL_TYPE_NAME, typeName.value));
      }
      var clone := prop;
      if prop.default.Some? && Truthy(prop.default.value) {
        var parsed := ParseValue(prop.default.value, typeName, name, reg, fuel);
        if parsed.Fail? {
          var e :| e in parsed.errors;
          assert checked[name] == Fail(parsed.errors);
          assert e in FieldErrors(checked);
          return Failure(e);
        }
        clone := clone.(default := Some(parsed.value));
      }
      result := result[name := clone];
      todo := todo - {name};
    }
    CollectAllOk(checked, result);
    return Success(result);
  }
}
