/** What the property validator of dsl_parser/utils.py promises, proved about
    the definitions in module Utils. */
module UtilsLemmas {
  import opened Values
  import opened Errors
  import opened Utils

  /** The value a merge type-checks for `k`: the instance's when given, the
      schema default otherwise. */
  function MergedValue(inst: map<string, Value>, schema: Schema, k: string): Value
  {
    if k in inst then inst[k] else if k in schema then DefaultOf(schema[k]) else Null
  }

  // ---------------------------------------------------------------- _parse_value

  /** No declared type, an intrinsic function, or the type `string`: the value
      comes back unchanged, whatever it is. */
  lemma ParseValueUnchecked(v: Value, typeName: Option<string>, prop: string, reg: Registry, fuel: nat)
    requires typeName.None? || reg.isIntrinsic(v) || typeName == Some("string")
    ensures ParseValue(v, typeName, prop, reg, fuel) == Ok(v)
  {
  }

  /** `integer` takes integers only (not booleans), `float` integers and
      floats (not booleans), `boolean` booleans only; anything else is a type
      mismatch (50) naming the property. */
  lemma ParseValuePrimitives(v: Value, prop: string, reg: Registry, fuel: nat)
    requires !reg.isIntrinsic(v)
    ensures ParseValue(v, Some("integer"), prop, reg, fuel).Ok? <==> v.Int?
    ensures ParseValue(v, Some("float"), prop, reg, fuel).Ok? <==> v.Int? || v.Float?
    ensures ParseValue(v, Some("boolean"), prop, reg, fuel).Ok? <==> v.Bool?
    ensures forall t :: t in {"integer", "float", "boolean"} ==>
      ParseValue(v, Some(t), prop, reg, fuel) in {Ok(v), Fail({LogicError(TYPE_MISMATCH, prop)})}
  {
  }

  /** A boolean is refused where an integer or a float is declared. */
  lemma BooleanIsNotANumber(b: bool, prop: string, reg: Registry, fuel: nat)
    requires !reg.isIntrinsic(Bool(b))
    ensures ParseValue(Bool(b), Some("integer"), prop, reg, fuel) == Fail({LogicError(TYPE_MISMATCH, prop)})
    ensures ParseValue(Bool(b), Some("float"), prop, reg, fuel) == Fail({LogicError(TYPE_MISMATCH, prop)})
  {
  }

  /** A data-typed property accepts only dicts, and a dict is merged against
      the data type's schema; a type name that is neither primitive nor
      registered is a runtime error. */
  lemma ParseValueDataType(v: Value, t: string, prop: string, reg: Registry, fuel: nat)
    requires !reg.isIntrinsic(v) && t !in PRIMITIVE_TYPES
    ensures t in reg.types && !v.Dict? ==>
      ParseValue(v, Some(t), prop, reg, fuel) == Fail({LogicError(TYPE_MISMATCH, prop)})
    ensures t in reg.types && v.Dict? && fuel > 0 ==>
      (ParseValue(v, Some(t), prop, reg, fuel).Ok? <==> Merge(v.entries, reg.types[t], reg, fuel - 1).Ok?) &&
      (ParseValue(v, Some(t), prop, reg, fuel).Ok? ==>
        ParseValue(v, Some(t), prop, reg, fuel).value == Dict(Merge(v.entries, reg.types[t], reg, fuel - 1).value)) &&
      (ParseValue(v, Some(t), prop, reg, fuel).Fail? ==>
        ParseValue(v, Some(t), prop, reg, fuel).errors == Merge(v.entries, reg.types[t], reg, fuel - 1).errors)
    ensures t in reg.types && v.Dict? && fuel == 0 ==> ParseValue(v, Some(t), prop, reg, fuel) == Fail({DepthExhausted(t)})
    ensures t !in reg.types ==> ParseValue(v, Some(t), prop, reg, fuel) == Fail({RuntimeError(prop)})
  {
  }

  // ---------------------------------------------------------------- merge

  /** An instance key the schema does not declare fails the merge with 106,
      before any value is looked at: every error is an undefined-property
      error naming such a key, and every such key can be the one reported. */
  lemma MergeRejectsUndefined(inst: map<string, Value>, schema: Schema, reg: Registry, fuel: nat)
    requires exists k :: k in inst && k !in schema
    ensures Merge(inst, schema, reg, fuel).Fail?
    ensures forall e :: e in Merge(inst, schema, reg, fuel).errors ==>
      e.LogicError? && e.code == UNDEFINED_PROPERTY && e.subject in inst && e.subject !in schema
    ensures forall k :: k in inst && k !in schema ==>
      LogicError(UNDEFINED_PROPERTY, k) in Merge(inst, schema, reg, fuel).errors
  {
  }

  /** With every key declared, a schema key that ends up `None` (no default
      and no instance value, or an explicit `None`) can be reported as
      missing (107). */
  lemma {:induction false} MergeRejectsMissing(inst: map<string, Value>, schema: Schema, reg: Registry, fuel: nat, k: string)
    requires inst.Keys <= schema.Keys
    requires k in schema && MergedValue(inst, schema, k) == Null
    ensures Merge(inst, schema, reg, fuel).Fail?
    ensures LogicError(MISSING_PROPERTY, k) in Merge(inst, schema, reg, fuel).errors
  {
    var fields := MergedFields(inst, schema, reg, fuel);
    assert (Defaults(schema) + inst)[k] == Null;
    assert fields[k] == Fail({LogicError(MISSING_PROPERTY, k)});
    assert LogicError(MISSING_PROPERTY, k) in FieldErrors(fields);
  }

  /** `e` is what checking key `k` of a merge raises: the missing-property
      error of a `None` value, or an error of type-checking the value. */
  predicate MissingOrIllTyped(inst: map<string, Value>, schema: Schema, reg: Registry, fuel: nat, k: string, e: Error)
    requires k in schema
  {
    var v := MergedValue(inst, schema, k);
    if v == Null then e == LogicError(MISSING_PROPERTY, k)
    else
      var p := ParseValue(v, schema[k].typeName, k, reg, fuel);
      p.Fail? && e in p.errors
  }

  /** Every error of a merge whose keys are all declared comes from one key:
      it is that key's missing-property error, or an error of type-checking
      that key's value. */
  lemma {:induction false} MergeErrorsHaveACause(inst: map<string, Value>, schema: Schema, reg: Registry, fuel: nat, e: Error)
    requires inst.Keys <= schema.Keys
    requires Merge(inst, schema, reg, fuel).Fail? && e in Merge(inst, schema, reg, fuel).errors
    ensures exists k :: k in schema && MissingOrIllTyped(inst, schema, reg, fuel, k, e)
  {
    var fields := MergedFields(inst, schema, reg, fuel);
    assert e in FieldErrors(fields);
    var k :| k in fields && fields[k].Fail? && e in fields[k].errors;
    assert (Defaults(schema) + inst)[k] == MergedValue(inst, schema, k);
  }

  /** The merge succeeds exactly when every key is declared and every schema
      key has a non-`None` value (the instance's taking precedence over the
      default) that type-checks; the result has exactly the schema's keys,
      each holding its checked value. */
  lemma {:induction false} MergeSucceeds(inst: map<string, Value>, schema: Schema, reg: Registry, fuel: nat, m: map<string, Value>)
    ensures Merge(inst, schema, reg, fuel) == Ok(m) <==>
      && inst.Keys <= schema.Keys
      && m.Keys == schema.Keys
      && forall k :: k in schema ==>
           MergedValue(inst, schema, k) != Null &&
           ParseValue(MergedValue(inst, schema, k), schema[k].typeName, k, reg, fuel) == Ok(m[k])
  {
    if inst.Keys <= schema.Keys {
      var fields := MergedFields(inst, schema, reg, fuel);
      assert forall k :: k in schema ==> (Defaults(schema) + inst)[k] == MergedValue(inst, schema, k);
      if Merge(inst, schema, reg, fuel) == Ok(m) {
        assert forall k :: k in schema ==> fields[k] == Ok(m[k]);
      }
      if m.Keys == schema.Keys && forall k :: k in schema ==>
           MergedValue(inst, schema, k) != Null &&
           ParseValue(MergedValue(inst, schema, k), schema[k].typeName, k, reg, fuel) == Ok(m[k]) {
        CollectAllOk(fields, m);
      }
    }
  }

  /** Merging an empty instance reproduces the declared defaults, when each
      is present and already of its declared type. */
  lemma MergeOfNothingIsTheDefaults(schema: Schema, reg: Registry, fuel: nat)
    requires forall k :: k in schema ==> (
      DefaultOf(schema[k]) != Null &&
      ParseValue(DefaultOf(schema[k]), schema[k].typeName, k, reg, fuel) == Ok(DefaultOf(schema[k])))
    ensures Merge(map[], schema, reg, fuel) == Ok(Defaults(schema))
  {
    MergeSucceeds(map[], schema, reg, fuel, Defaults(schema));
  }

  /** Type-checking is idempotent: a checked value checks to itself. */
  lemma {:induction false} ParseValueIdempotent(v: Value, t: Option<string>, prop: string, reg: Registry, fuel: nat)
    requires ParseValue(v, t, prop, reg, fuel).Ok?
    ensures ParseValue(ParseValue(v, t, prop, reg, fuel).value, t, prop, reg, fuel)
            == Ok(ParseValue(v, t, prop, reg, fuel).value)
    decreases fuel, 2
  {
    if t.None? || reg.isIntrinsic(v) || t.value == "string" {
      ParseValueUnchecked(v, t, prop, reg, fuel);
    } else if t.value in PRIMITIVE_TYPES {
      PrimitiveValueUnchanged(v, t.value, prop, reg, fuel);
    } else {
      DataTypedValueIdempotent(v, t.value, prop, reg, fuel);
    }
  }

  /** A value that checks against a primitive type is its own check. */
  lemma PrimitiveValueUnchanged(v: Value, u: string, prop: string, reg: Registry, fuel: nat)
    requires u in PRIMITIVE_TYPES && u != "string" && !reg.isIntrinsic(v)
    requires ParseValue(v, Some(u), prop, reg, fuel).Ok?
    ensures ParseValue(v, Some(u), prop, reg, fuel) == Ok(v)
  {
    ParseValuePrimitives(v, prop, reg, fuel);
    assert u in {"integer", "float", "boolean"};
  }

  /** The data-type case of `ParseValueIdempotent`: a checked dict is the
      merge of its entries, and merging is idempotent. */
  lemma {:induction false} DataTypedValueIdempotent(v: Value, u: string, prop: string, reg: Registry, fuel: nat)
    requires u !in PRIMITIVE_TYPES && !reg.isIntrinsic(v)
    requires ParseValue(v, Some(u), prop, reg, fuel).Ok?
    ensures ParseValue(ParseValue(v, Some(u), prop, reg, fuel).value, Some(u), prop, reg, fuel)
            == Ok(ParseValue(v, Some(u), prop, reg, fuel).value)
    decreases fuel, 1
  {
    ParseValueDataType(v, u, prop, reg, fuel);
    var f: nat := fuel - 1;
    var schema := reg.types[u];
    MergeIdempotent(v.entries, schema, reg, f);
    var w := ParseValue(v, Some(u), prop, reg, fuel).value;
    assert w == Dict(Merge(v.entries, schema, reg, f).value);
    if reg.isIntrinsic(w) {
      ParseValueUnchecked(w, Some(u), prop, reg, fuel);
    } else {
      ParseValueDataType(w, u, prop, reg, fuel);
    }
  }

  /** Merging is idempotent: re-validating a merge result against the same
      schema gives it back unchanged. */
  lemma {:induction false} MergeIdempotent(inst: map<string, Value>, schema: Schema, reg: Registry, fuel: nat)
    requires Merge(inst, schema, reg, fuel).Ok?
    ensures Merge(Merge(inst, schema, reg, fuel).value, schema, reg, fuel) == Ok(Merge(inst, schema, reg, fuel).value)
    decreases fuel, 3
  {
    var m := Merge(inst, schema, reg, fuel).value;
    MergeSucceeds(inst, schema, reg, fuel, m);
    forall k | k in schema
      ensures MergedValue(m, schema, k) != Null
      ensures ParseValue(MergedValue(m, schema, k), schema[k].typeName, k, reg, fuel) == Ok(m[k])
    {
      ParseValueIdempotent(MergedValue(inst, schema, k), schema[k].typeName, k, reg, fuel);
    }
    MergeSucceeds(m, schema, reg, fuel, m);
  }

  // ---------------------------------------------------------------- parse_type_fields

  /** A field typed by a name that is neither primitive nor a known data type
      fails `parse_type_fields` with format error 1 (which field is reported
      first depends on the iteration order). */
  lemma {:induction false} TypeFieldsRejectsIllegalType(fields: Schema, reg: Registry, fuel: nat, k: string)
    requires k in fields && fields[k].typeName.Some?
    requires fields[k].typeName.value !in reg.types && fields[k].typeName.value !in PRIMITIVE_TYPES
    ensures TypeFields(fields, reg, fuel).Fail?
    ensures FormatError(ILLEGAL_TYPE_NAME, fields[k].typeName.value) in TypeFields(fields, reg, fuel).errors
  {
    var checked := map k | k in fields.Keys :: ParseTypeField(k, fields[k], reg, fuel);
    assert checked[k].Fail?;
    assert FormatError(ILLEGAL_TYPE_NAME, fields[k].typeName.value) in FieldErrors(checked);
  }

  /** On success every field keeps its entry, except that a truthy default is
      replaced by its checked value; a field whose default is absent or falsy
      is an unchanged copy. */
  lemma {:induction false} TypeFieldsElaboratesTruthyDefaults(fields: Schema, reg: Registry, fuel: nat)
    requires TypeFields(fields, reg, fuel).Ok?
    ensures TypeFields(fields, reg, fuel).value.Keys == fields.Keys
    ensures forall k :: k in fields ==>
      var p, q := fields[k], TypeFields(fields, reg, fuel).value[k];
      if p.default.Some? && Truthy(p.default.value) then
        var d := ParseValue(p.default.value, p.typeName, k, reg, fuel);
        d.Ok? && q == p.(default := Some(d.value))
      else q == p
  {
    var checked := map k | k in fields.Keys :: ParseTypeField(k, fields[k], reg, fuel);
    assert forall k :: k in fields ==> checked[k] == Ok(TypeFields(fields, reg, fuel).value[k]);
  }

  /** A falsy default is never type-checked: `{type: integer, default: false}`
      passes `parse_type_fields`, while `default: true` is a type mismatch. */
  lemma FalsyDefaultIsNotChecked(reg: Registry, fuel: nat)
    requires !reg.isIntrinsic(Bool(true))
    ensures TypeFields(map["p" := PropertySchema(Some("integer"), Some(Bool(false)), None)], reg, fuel)
            == Ok(map["p" := PropertySchema(Some("integer"), Some(Bool(false)), None)])
    ensures TypeFields(map["p" := PropertySchema(Some("integer"), Some(Bool(true)), None)], reg, fuel)
            == Fail({LogicError(TYPE_MISMATCH, "p")})
  {
    var ok := map["p" := PropertySchema(Some("integer"), Some(Bool(false)), None)];
    CollectAllOk(map k | k in ok.Keys :: ParseTypeField(k, ok[k], reg, fuel), ok);
    var bad := map["p" := PropertySchema(Some("integer"), Some(Bool(true)), None)];
    var checked := map k | k in bad.Keys :: ParseTypeField(k, bad[k], reg, fuel);
    assert checked == map["p" := Fail({LogicError(TYPE_MISMATCH, "p")})];
    assert "p" in checked && checked["p"].Fail? && LogicError(TYPE_MISMATCH, "p") in checked["p"].errors;
    assert LogicError(TYPE_MISMATCH, "p") in FieldErrors(checked);
    assert forall e :: e in FieldErrors(checked) ==> e == LogicError(TYPE_MISMATCH, "p");
  }

  // ---------------------------------------------------------------- worked examples

  /** A one-property schema behaves like its one field: the merge fails
      exactly with the errors of checking the value. */
  lemma {:induction false} SingleFieldMerge(k: string, v: Value, p: PropertySchema, reg: Registry, fuel: nat)
    requires v != Null
    ensures ParseValue(v, p.typeName, k, reg, fuel).Fail? ==>
      Merge(map[k := v], map[k := p], reg, fuel) == Fail(ParseValue(v, p.typeName, k, reg, fuel).errors)
    ensures ParseValue(v, p.typeName, k, reg, fuel).Ok? ==>
      Merge(map[k := v], map[k := p], reg, fuel) == Ok(map[k := ParseValue(v, p.typeName, k, reg, fuel).value])
  {
    var fields := MergedFields(map[k := v], map[k := p], reg, fuel);
    var pv := ParseValue(v, p.typeName, k, reg, fuel);
    assert fields == map[k := pv];
    if pv.Fail? {
      assert forall e :: e in FieldErrors(fields) ==> e in pv.errors;
      forall e | e in pv.errors ensures e in FieldErrors(fields) {
        assert k in fields && fields[k].Fail? && e in fields[k].errors;
      }
    } else {
      CollectAllOk(fields, map[k := pv.value]);
    }
  }

  /** `pair_type = {first: {}, second: {}}` takes `{first: 1, second: 2}`
      unchanged and refuses `{first: 1, second: 2, third: 4}` with an
      undefined-property error naming `third`. */
  lemma PairTypeExample(reg: Registry, fuel: nat)
    ensures var pair := map["first" := PropertySchema(None, None, None), "second" := PropertySchema(None, None, None)];
      && Merge(map["first" := Int(1), "second" := Int(2)], pair, reg, fuel) == Ok(map["first" := Int(1), "second" := Int(2)])
      && Merge(map["first" := Int(1), "second" := Int(2), "third" := Int(4)], pair, reg, fuel)
         == Fail({LogicError(UNDEFINED_PROPERTY, "third")})
  {
    var pair := map["first" := PropertySchema(None, None, None), "second" := PropertySchema(None, None, None)];
    var good := map["first" := Int(1), "second" := Int(2)];
    MergeSucceeds(good, pair, reg, fuel, good);
    var bad := map["first" := Int(1), "second" := Int(2), "third" := Int(4)];
    assert LogicError(UNDEFINED_PROPERTY, "third") in UndefinedErrors(bad, pair);
    assert forall e :: e in UndefinedErrors(bad, pair) ==> e == LogicError(UNDEFINED_PROPERTY, "third");
  }

  /** A failed merge of a data-typed dict is the failure of the value, one
      level of fuel up. */
  lemma {:induction false} MergeFailureFailsValue(entries: map<string, Value>, t: string, schema: Schema, prop: string,
                                                  reg: Registry, fuel: nat, errors: set<Error>)
    requires t !in PRIMITIVE_TYPES && t in reg.types && reg.types[t] == schema && !reg.isIntrinsic(Dict(entries))
    requires Merge(entries, schema, reg, fuel) == Fail(errors)
    ensures ParseValue(Dict(entries), Some(t), prop, reg, fuel + 1) == Fail(errors)
  {
  }

  /** A failure inside the only field of a data type is the failure of the
      whole data-typed value. */
  lemma {:induction false} FieldFailureLifts(x: Value, k: string, p: PropertySchema, t: string, prop: string, reg: Registry,
                                             fuel: nat, errors: set<Error>)
    requires x != Null
    requires t !in PRIMITIVE_TYPES && t in reg.types && reg.types[t] == map[k := p]
    requires !reg.isIntrinsic(Dict(map[k := x]))
    requires ParseValue(x, p.typeName, k, reg, fuel) == Fail(errors)
    ensures ParseValue(Dict(map[k := x]), Some(t), prop, reg, fuel + 1) == Fail(errors)
  {
    SingleFieldMergeFails(k, x, p, reg, fuel, errors);
    MergeFailureFailsValue(map[k := x], t, map[k := p], prop, reg, fuel, errors);
  }

  /** The failing half of `SingleFieldMerge`, for given errors. */
  lemma {:induction false} SingleFieldMergeFails(k: string, v: Value, p: PropertySchema, reg: Registry, fuel: nat, errors: set<Error>)
    requires v != Null && ParseValue(v, p.typeName, k, reg, fuel) == Fail(errors)
    ensures Merge(map[k := v], map[k := p], reg, fuel) == Fail(errors)
  {
    SingleFieldMerge(k, v, p, reg, fuel);
  }

  /** Nested types `a -> b -> c` with `c.d: integer` and the value
      `{b: {c: {d: "should_be_int"}}}` for an `a`-typed property: the
      mismatch surfaces through every level as error 50 naming only the
      innermost property `d` (no dotted path is built). */
  lemma NestedMismatchNamesInnermostProperty(reg: Registry, fuel: nat)
    requires fuel >= 3
    requires forall v :: !reg.isIntrinsic(v)
    requires "a" in reg.types && reg.types["a"] == map["b" := PropertySchema(Some("b"), None, None)]
    requires "b" in reg.types && reg.types["b"] == map["c" := PropertySchema(Some("c"), None, None)]
    requires "c" in reg.types && reg.types["c"] == map["d" := PropertySchema(Some("integer"), None, None)]
    ensures ParseValue(Dict(map["b" := Dict(map["c" := Dict(map["d" := Str("should_be_int")])])]), Some("a"), "a", reg, fuel)
            == Fail({LogicError(TYPE_MISMATCH, "d")})
  {
    var errors := {LogicError(TYPE_MISMATCH, "d")};
    var f: nat := fuel - 3;
    ParsePrimitiveMismatch(Str("should_be_int"), "d", reg, f);
    FailureLiftsTwice(Str("should_be_int"), "d", PropertySchema(Some("integer"), None, None), "c", "b", reg, f, errors);
    FieldFailureLifts(Dict(map["c" := Dict(map["d" := Str("should_be_int")])]), "b",
      PropertySchema(Some("b"), None, None), "a", "a", reg, f + 2, errors);
  }

  /** Two levels of lifting: a failure two data types deep. */
  lemma {:induction false} FailureLiftsTwice(x: Value, k: string, p: PropertySchema, t: string, u: string, reg: Registry,
                                             fuel: nat, errors: set<Error>)
    requires x != Null
    requires t !in PRIMITIVE_TYPES && t in reg.types && reg.types[t] == map[k := p]
    requires u !in PRIMITIVE_TYPES && u in reg.types && reg.types[u] == map[t := PropertySchema(Some(t), None, None)]
    requires !reg.isIntrinsic(Dict(map[k := x])) && !reg.isIntrinsic(Dict(map[t := Dict(map[k := x])]))
    requires ParseValue(x, p.typeName, k, reg, fuel) == Fail(errors)
    ensures ParseValue(Dict(map[t := Dict(map[k := x])]), Some(u), u, reg, fuel + 2) == Fail(errors)
  {
    FieldFailureLifts(x, k, p, t, t, reg, fuel, errors);
    FieldFailureLifts(Dict(map[k := x]), t, PropertySchema(Some(t), None, None), u, u, reg, fuel + 1, errors);
  }

  lemma ParsePrimitiveMismatch(v: Value, prop: string, reg: Registry, fuel: nat)
    requires v.Str? && !reg.isIntrinsic(v)
    ensures ParseValue(v, Some("integer"), prop, reg, fuel) == Fail({LogicError(TYPE_MISMATCH, prop)})
  {
  }
}
