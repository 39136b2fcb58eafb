/** What the data-type registry of dsl_parser/elements/data_types.py
    promises, proved about the definitions in module DataTypes. */
module DataTypesLemmas {
  import opened Values
  import opened Errors
  import opened Utils
  import opened UtilsLemmas
  import opened DataTypes

  // ---------------------------------------------------------------- declaration

  /** A type named like a primitive fails with format error 1, and the
      first loop reports nothing else: no unknown-type error (39) can be
      raised while any type has an illegal name. */
  lemma PrimitiveNameRejected(types: map<string, DataTypeRecord>, n: string)
    requires n in types && n in PRIMITIVE_TYPES
    ensures RequirementEdges(types).Fail?
    ensures FormatError(ILLEGAL_TYPE_NAME, n) in RequirementEdges(types).errors
    ensures forall e :: e in RequirementEdges(types).errors ==>
      e.FormatError? && e.code == ILLEGAL_TYPE_NAME && e.subject in types && e.subject in PRIMITIVE_TYPES
  {
    assert FormatError(ILLEGAL_TYPE_NAME, n) in IllegalNameErrors(types);
  }

  /** With no illegal name, a `derived_from` naming an undeclared type is
      error 39 naming that parent. */
  lemma UnknownParentRejected(types: map<string, DataTypeRecord>, n: string)
    requires forall m :: m in types ==> m !in PRIMITIVE_TYPES
    requires n in types && Present(types[n].derivedFrom) && types[n].derivedFrom.value !in types
    ensures RequirementEdges(types).Fail?
    ensures ElementMatchError(UNKNOWN_TYPE, types[n].derivedFrom.value) in RequirementEdges(types).errors
  {
    assert IllegalNameErrors(types) == {};
    UnknownTypeIsRequirementError(types, n, ElementMatchError(UNKNOWN_TYPE, types[n].derivedFrom.value));
  }

  /** Deriving from a primitive type is an unknown-type error too: no
      declared type can carry a primitive name. */
  lemma DerivingFromPrimitiveRejected(types: map<string, DataTypeRecord>, n: string)
    requires forall m :: m in types ==> m !in PRIMITIVE_TYPES
    requires n in types && types[n].derivedFrom.Some? && types[n].derivedFrom.value in PRIMITIVE_TYPES
    ensures RequirementEdges(types).Fail?
    ensures ElementMatchError(UNKNOWN_TYPE, types[n].derivedFrom.value) in RequirementEdges(types).errors
  {
    UnknownParentRejected(types, n);
  }

  /** With no illegal name and a parent that is absent or declared, a
      property whose type is neither primitive nor declared is error 39
      naming that type. */
  lemma UnknownPropertyTypeRejected(types: map<string, DataTypeRecord>, n: string, k: string)
    requires forall m :: m in types ==> m !in PRIMITIVE_TYPES
    requires n in types && (Present(types[n].derivedFrom) ==> types[n].derivedFrom.value in types)
    requires k in types[n].properties && IsTypeReference(types[n].properties[k])
    requires types[n].properties[k].typeName.value !in types
    ensures RequirementEdges(types).Fail?
    ensures ElementMatchError(UNKNOWN_TYPE, types[n].properties[k].typeName.value) in RequirementEdges(types).errors
  {
    var t := types[n].properties[k].typeName.value;
    assert t in PropertyTypes(types[n]);
    assert ElementMatchError(UNKNOWN_TYPE, t) in UnknownTypeErrors(types[n], types.Keys);
    UnknownTypeIsRequirementError(types, n, ElementMatchError(UNKNOWN_TYPE, t));
  }

  /** The edges are registered exactly when no type has an illegal name and
      every required type is declared; each type's edges are then its
      parent and its properties' data types, and nothing else. */
  lemma EdgesExact(types: map<string, DataTypeRecord>)
    ensures RequirementEdges(types).Ok? <==>
      (forall n :: n in types ==> n !in PRIMITIVE_TYPES) &&
      (forall n :: n in types ==> RequiredTypes(types[n]) <= types.Keys)
    ensures RequirementEdges(types).Ok? ==> forall n :: n in types ==>
      RequirementEdges(types).value[n] == ParentOf(types[n]) + PropertyTypes(types[n])
  {
    if exists n :: n in types && n in PRIMITIVE_TYPES {
      var n :| n in types && n in PRIMITIVE_TYPES;
      assert FormatError(ILLEGAL_TYPE_NAME, n) in IllegalNameErrors(types);
    } else if exists n, r :: n in types && r in RequiredTypes(types[n]) && r !in types {
      var n, r :| n in types && r in RequiredTypes(types[n]) && r !in types;
      assert IllegalNameErrors(types) == {};
      if Present(types[n].derivedFrom) && types[n].derivedFrom.value !in types {
        UnknownTypeIsRequirementError(types, n, ElementMatchError(UNKNOWN_TYPE, types[n].derivedFrom.value));
      } else {
        UnknownTypeIsRequirementError(types, n, ElementMatchError(UNKNOWN_TYPE, r));
      }
    } else {
      EdgesWhenAllKnown(types, map n | n in types :: RequiredTypes(types[n]));
    }
  }

  /** A property that is untyped or primitive-typed adds no edge. */
  lemma PrimitivePropertyAddsNoEdge(rec: DataTypeRecord, k: string, p: PropertySchema)
    requires k !in rec.properties && !IsTypeReference(p)
    ensures RequiredTypes(rec.(properties := rec.properties[k := p])) == RequiredTypes(rec)
  {
    var rec' := rec.(properties := rec.properties[k := p]);
    assert PropertyTypes(rec') == PropertyTypes(rec) by {
      forall t | t in PropertyTypes(rec')
        ensures t in PropertyTypes(rec)
      {
        var j :| j in rec'.properties && IsTypeReference(rec'.properties[j]) && rec'.properties[j].typeName.value == t;
        assert j != k;
      }
      forall t | t in PropertyTypes(rec)
        ensures t in PropertyTypes(rec')
      {
        var j :| j in rec.properties && IsTypeReference(rec.properties[j]) && rec.properties[j].typeName.value == t;
        assert j in rec'.properties && rec'.properties[j] == rec.properties[j];
      }
    }
  }

  /** Edges do not depend on defaults: a property typed by a data type
      requires that type whether or not it declares a default. */
  lemma EdgesIgnoreDefaults(rec: DataTypeRecord, k: string, d: Option<Value>)
    requires k in rec.properties
    ensures RequiredTypes(rec.(properties := rec.properties[k := rec.properties[k].(default := d)])) == RequiredTypes(rec)
  {
    var rec' := rec.(properties := rec.properties[k := rec.properties[k].(default := d)]);
    assert PropertyTypes(rec') == PropertyTypes(rec) by {
      forall t | t in PropertyTypes(rec')
        ensures t in PropertyTypes(rec)
      {
        var j :| j in rec'.properties && IsTypeReference(rec'.properties[j]) && rec'.properties[j].typeName.value == t;
        assert rec.properties[j].typeName == rec'.properties[j].typeName;
      }
      forall t | t in PropertyTypes(rec)
        ensures t in PropertyTypes(rec')
      {
        var j :| j in rec.properties && IsTypeReference(rec.properties[j]) && rec.properties[j].typeName.value == t;
        assert rec.properties[j].typeName == rec'.properties[j].typeName;
      }
    }
  }

  // ---------------------------------------------------------------- evaluation order

  /** The position of a listed type. */
  function IndexOf(order: seq<string>, n: string): (i: nat)
    requires n in order
    ensures i < |order| && order[i] == n
  {
    if order[0] == n then 0 else 1 + IndexOf(order[1..], n)
  }

  /** In an order respecting the requirements, a required type sits strictly
      before the type requiring it. */
  lemma RequiredComesFirst(types: map<string, DataTypeRecord>, order: seq<string>, a: string, b: string)
    requires ValidOrder(types, order)
    requires a in types && b in RequiredTypes(types[a])
    ensures b in order && IndexOf(order, b) < IndexOf(order, a)
  {
    var i := IndexOf(order, a);
    var j :| 0 <= j < i && order[j] == b;
    assert IndexOf(order, b) == j;
  }

  /** Along a chain of requirements, positions strictly decrease. */
  lemma {:induction false} ChainDescends(types: map<string, DataTypeRecord>, order: seq<string>, chain: seq<string>, k: nat)
    requires ValidOrder(types, order)
    requires k < |chain|
    requires forall i :: 0 <= i < |chain| ==> chain[i] in types
    requires forall i :: 0 <= i < |chain| - 1 ==> chain[i + 1] in RequiredTypes(types[chain[i]])
    ensures IndexOf(order, chain[k]) + k <= IndexOf(order, chain[0])
  {
    if k > 0 {
      ChainDescends(types, order, chain, k - 1);
      RequiredComesFirst(types, order, chain[k - 1], chain[k]);
    }
  }

  /** A cycle of requirements (a type deriving from, or holding a property
      of, a type that leads back to it, itself included) leaves the
      framework no evaluation order: the cycle error. */
  lemma CycleHasNoOrder(types: map<string, DataTypeRecord>, cycle: seq<string>, order: seq<string>)
    requires |cycle| > 0
    requires forall i :: 0 <= i < |cycle| ==> cycle[i] in types
    requires forall i :: 0 <= i < |cycle| - 1 ==> cycle[i + 1] in RequiredTypes(types[cycle[i]])
    requires cycle[0] in RequiredTypes(types[cycle[|cycle| - 1]])
    ensures !ValidOrder(types, order)
  {
    if ValidOrder(types, order) {
      ChainDescends(types, order, cycle, |cycle| - 1);
      RequiredComesFirst(types, order, cycle[|cycle| - 1], cycle[0]);
    }
  }

  /** `list_type` with `tail: {type: list_type, default: {head: 1}}` requires
      itself: no evaluation order exists. */
  lemma InfiniteListHasNoOrder(types: map<string, DataTypeRecord>, order: seq<string>)
    requires "list_type" in types
    requires types["list_type"].properties == map[
      "head" := PropertySchema(Some("integer"), None, None),
      "tail" := PropertySchema(Some("list_type"), Some(Dict(map["head" := Int(1)])), None)]
    ensures !ValidOrder(types, order)
  {
    assert "list_type" in PropertyTypes(types["list_type"]) by {
      assert IsTypeReference(types["list_type"].properties["tail"]);
    }
    CycleHasNoOrder(types, ["list_type"], order);
  }

  /** Two types deriving from each other have no evaluation order. */
  lemma DerivationCycleHasNoOrder(types: map<string, DataTypeRecord>, a: string, b: string, order: seq<string>)
    requires a in types && b in types
    requires types[a].derivedFrom == Some(b) && types[b].derivedFrom == Some(a)
    requires a != "" && b != ""
    ensures !ValidOrder(types, order)
  {
    CycleHasNoOrder(types, [a, b], order);
  }

  // ---------------------------------------------------------------- resolution

  /** A prefix of an order respecting the requirements respects them too. */
  lemma PrefixRespects(types: map<string, DataTypeRecord>, order: seq<string>, m: nat)
    requires RespectsRequirements(types, order) && m <= |order|
    ensures RespectsRequirements(types, order[..m])
  {
    var prefix := order[..m];
    forall i, r | 0 <= i < |prefix| && r in RequiredTypes(types[prefix[i]])
      ensures exists j :: 0 <= j < i && prefix[j] == r
    {
      var j :| 0 <= j < i && order[j] == r;
      assert prefix[j] == r;
    }
  }

  /** The last step of a successful resolution: the types before the last
      one were resolved first, in an order that still respects the
      requirements, and the last one is new. */
  lemma ResolveAllLast(types: map<string, DataTypeRecord>, order: seq<string>,
                       isIntrinsic: Value -> bool, fuel: nat, res: map<string, DataTypeRecord>)
      returns (done: map<string, DataTypeRecord>, resolved: DataTypeRecord)
    requires order != [] && RespectsRequirements(types, order)
    requires ResolveAll(types, order, isIntrinsic, fuel) == Ok(res)
    ensures RespectsRequirements(types, order[..|order| - 1])
    ensures ResolveAll(types, order[..|order| - 1], isIntrinsic, fuel) == Ok(done)
    ensures done.Keys == set j | 0 <= j < |order| - 1 :: order[j]
    ensures order[|order| - 1] !in done
    ensures ResolveType(types[order[|order| - 1]], Requirements(done, types[order[|order| - 1]]), isIntrinsic, fuel) == Ok(resolved)
    ensures res == done[order[|order| - 1] := resolved]
  {
    var last := |order| - 1;
    var prefix := order[..last];
    PrefixRespects(types, order, last);
    done := ResolveAll(types, prefix, isIntrinsic, fuel).value;
    resolved := ResolveType(types[order[last]], Requirements(done, types[order[last]]), isIntrinsic, fuel).value;
    assert done.Keys == set j | 0 <= j < last :: order[j] by {
      assert done.Keys == set j | 0 <= j < last :: prefix[j];
      assert forall j :: 0 <= j < last ==> prefix[j] == order[j];
    }
    LastIsNew(types, order, done);
  }

  /** Requirements looked up in a larger resolution are the same, once all
      of them are resolved. */
  lemma RequirementsAgree(done: map<string, DataTypeRecord>, res: map<string, DataTypeRecord>, rec: DataTypeRecord)
    requires RequiredTypes(rec) <= done.Keys
    requires forall k :: k in done ==> k in res && res[k] == done[k]
    ensures Requirements(res, rec) == Requirements(done, rec)
  {
  }

  /** Every type resolved along a valid order is `DataTypeInternal.parse` of
      its record, given the resolved records of the types it requires. */
  lemma {:induction false} ResolvedFromRequirements(types: map<string, DataTypeRecord>, order: seq<string>,
                                                   isIntrinsic: Value -> bool, fuel: nat, res: map<string, DataTypeRecord>, i: nat)
    requires RespectsRequirements(types, order) && i < |order|
    requires ResolveAll(types, order, isIntrinsic, fuel) == Ok(res)
    ensures RequiredTypes(types[order[i]]) <= res.Keys
    ensures ResolveType(types[order[i]], Requirements(res, types[order[i]]), isIntrinsic, fuel) == Ok(res[order[i]])
    decreases |order|
  {
    var last := |order| - 1;
    var prefix := order[..last];
    var done, resolved := ResolveAllLast(types, order, isIntrinsic, fuel, res);
    if i < last {
      ResolvedFromRequirements(types, prefix, isIntrinsic, fuel, done, i);
      assert prefix[i] == order[i];
    }
    ResolvedAfterStep(types, order, isIntrinsic, fuel, done, resolved, res, i);
  }

  /** The last type of an order is not among those listed before it. */
  lemma LastIsNew(types: map<string, DataTypeRecord>, order: seq<string>, done: map<string, DataTypeRecord>)
    requires RespectsRequirements(types, order) && order != []
    requires done.Keys == set j | 0 <= j < |order| - 1 :: order[j]
    ensures order[|order| - 1] !in done
  {
  }

  /** The induction step of `ResolvedFromRequirements`, for one position. */
  lemma ResolvedAfterStep(types: map<string, DataTypeRecord>, order: seq<string>, isIntrinsic: Value -> bool, fuel: nat,
                          done: map<string, DataTypeRecord>, resolved: DataTypeRecord, res: map<string, DataTypeRecord>, i: nat)
    requires RespectsRequirements(types, order) && i < |order|
    requires done.Keys == set j | 0 <= j < |order| - 1 :: order[j]
    requires order[|order| - 1] !in done
    requires i < |order| - 1 ==>
      RequiredTypes(types[order[i]]) <= done.Keys &&
      ResolveType(types[order[i]], Requirements(done, types[order[i]]), isIntrinsic, fuel) == Ok(done[order[i]])
    requires i == |order| - 1 ==>
      ResolveType(types[order[i]], Requirements(done, types[order[i]]), isIntrinsic, fuel) == Ok(resolved)
    requires res == done[order[|order| - 1] := resolved]
    ensures RequiredTypes(types[order[i]]) <= res.Keys
    ensures ResolveType(types[order[i]], Requirements(res, types[order[i]]), isIntrinsic, fuel) == Ok(res[order[i]])
  {
    var t := order[i];
    if i == |order| - 1 {
      forall r | r in RequiredTypes(types[t])
        ensures r in done
      {
        var j :| 0 <= j < i && order[j] == r;
      }
    } else {
      assert t in done;
    }
    RequirementsAgree(done, res, types[t]);
  }

  /** A resolved field keeps its declared type and description; only a
      truthy default can have been replaced (by its checked value). */
  predicate KeepsDeclaration(declared: PropertySchema, resolved: PropertySchema)
  {
    && resolved.typeName == declared.typeName
    && resolved.description == declared.description
    && (!(declared.default.Some? && Truthy(declared.default.value)) ==> resolved == declared)
  }

  /** The own fields a successful resolution produces keep their
      declarations. */
  lemma {:induction false} OwnFieldsKeepDeclarations(rec: DataTypeRecord, deps: map<string, DataTypeRecord>, isIntrinsic: Value -> bool, fuel: nat)
    requires ResolveType(rec, deps, isIntrinsic, fuel).Ok?
    ensures var own := TypeFields(rec.properties, DepsRegistry(deps, isIntrinsic), fuel);
      own.Ok? && own.value.Keys == rec.properties.Keys &&
      forall k :: k in rec.properties ==> KeepsDeclaration(rec.properties[k], own.value[k])
  {
    TypeFieldsElaboratesTruthyDefaults(rec.properties, DepsRegistry(deps, isIntrinsic), fuel);
  }

  /** Inheritance (a type with a parent, resolved along a valid order): the
      type's resolved properties are the parent's resolved properties
      overridden field by field by the type's own parsed fields; every
      parent field it does not redeclare is unchanged, every field it
      declares keeps its declaration. */
  lemma InheritanceMergesFieldByField(types: map<string, DataTypeRecord>, order: seq<string>,
                                      isIntrinsic: Value -> bool, fuel: nat, res: map<string, DataTypeRecord>, n: string)
    requires ValidOrder(types, order)
    requires ResolveAll(types, order, isIntrinsic, fuel) == Ok(res)
    requires n in types && Present(types[n].derivedFrom)
    ensures var p := types[n].derivedFrom.value;
      && n in res && p in res
      && res[n].properties.Keys == res[p].properties.Keys + types[n].properties.Keys
      && (forall k :: k in res[p].properties && k !in types[n].properties ==>
            res[n].properties[k] == res[p].properties[k])
      && (forall k :: k in types[n].properties ==> KeepsDeclaration(types[n].properties[k], res[n].properties[k]))
    ensures var own := TypeFields(types[n].properties, DepsRegistry(Requirements(res, types[n]), isIntrinsic), fuel);
      && own.Ok?
      && res[n].properties == MergeSubDicts(Some(res[types[n].derivedFrom.value].properties), Some(own.value))
  {
    var i := IndexOf(order, n);
    ResolvedFromRequirements(types, order, isIntrinsic, fuel, res, i);
    var deps := Requirements(res, types[n]);
    var p := types[n].derivedFrom.value;
    assert p in RequiredTypes(types[n]);
    OwnFieldsKeepDeclarations(types[n], deps, isIntrinsic, fuel);
  }

  /** A type without a parent resolves to exactly `parse_type_fields` of
      its own properties, with its requirements as the known data types. */
  lemma NoParentResolvesToOwnFields(types: map<string, DataTypeRecord>, order: seq<string>,
                                    isIntrinsic: Value -> bool, fuel: nat, res: map<string, DataTypeRecord>, n: string)
    requires ValidOrder(types, order)
    requires ResolveAll(types, order, isIntrinsic, fuel) == Ok(res)
    requires n in types && !Present(types[n].derivedFrom)
    ensures n in res
    ensures TypeFields(types[n].properties, DepsRegistry(Requirements(res, types[n]), isIntrinsic), fuel)
            == Ok(res[n].properties)
    ensures res[n].properties.Keys == types[n].properties.Keys
    ensures forall k :: k in types[n].properties ==> KeepsDeclaration(types[n].properties[k], res[n].properties[k])
  {
    var i := IndexOf(order, n);
    ResolvedFromRequirements(types, order, isIntrinsic, fuel, res, i);
    OwnFieldsKeepDeclarations(types[n], Requirements(res, types[n]), isIntrinsic, fuel);
  }
}
