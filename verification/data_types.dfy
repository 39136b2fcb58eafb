/** User data types: their declaration, the requirement edges between them,
    and the resolution of each type's properties against its parent
    (dsl_parser/elements/data_types.py). */
module DataTypes {
  import opened Values
  import opened Errors
  import opened Utils

  /** A `data_types` entry as written: every key may be absent. */
  datatype RawDataType = RawDataType(
    properties: Option<Schema>,
    description: Option<string>,
    derivedFrom: Option<string>,
    version: Option<string>)

  /** A data type once parsed: `properties` is always there. */
  datatype DataTypeRecord = DataTypeRecord(
    properties: Schema,
    description: Option<string>,
    derivedFrom: Option<string>,
    version: Option<string>)

  /** `DataType.parse`: an undeclared `properties` becomes `{}`; everything
      else is kept as written. */
  function ParseDataType(raw: RawDataType): (r: DataTypeRecord)
    ensures raw.properties.None? ==> r.properties == map[]
    ensures raw.properties.Some? ==> r.properties == raw.properties.value
    ensures r.description == raw.description && r.derivedFrom == raw.derivedFrom && r.version == raw.version
  {
    DataTypeRecord(SubDict(raw.properties), raw.description, raw.derivedFrom, raw.version)
  }

  // ---------------------------------------------------------------- requirement edges

  /** The parent a type requires: its `derived_from`, when truthy. */
  function ParentOf(rec: DataTypeRecord): set<string>
  {
    if Present(rec.derivedFrom) then {rec.derivedFrom.value} else {}
  }

  /** A property entry whose type names a (would-be) data type: a truthy
      type that is not primitive. */
  predicate IsTypeReference(p: PropertySchema)
  {
    Present(p.typeName) && p.typeName.value !in PRIMITIVE_TYPES
  }

  /** The data types a type's properties refer to. */
  function PropertyTypes(rec: DataTypeRecord): set<string>
  {
    set k | k in rec.properties && IsTypeReference(rec.properties[k]) :: rec.properties[k].typeName.value
  }

  /** Every type a type requires: its parent and its properties' data types. */
  function RequiredTypes(rec: DataTypeRecord): set<string>
  {
    ParentOf(rec) + PropertyTypes(rec)
  }

  /** The format errors (code 1) of the first loop: one per type named like a
      primitive. */
  function IllegalNameErrors(types: map<string, DataTypeRecord>): set<Error>
  {
    set n | n in types && n in PRIMITIVE_TYPES :: FormatError(ILLEGAL_TYPE_NAME, n)
  }

  /** What registering the edges of one type can raise (code 39): its
      undeclared parent, checked first, or else any undeclared property type. */
  function UnknownTypeErrors(rec: DataTypeRecord, declared: set<string>): set<Error>
  {
    if Present(rec.derivedFrom) && rec.derivedFrom.value !in declared then
      {ElementMatchError(UNKNOWN_TYPE, rec.derivedFrom.value)}
    else
      set r | r in PropertyTypes(rec) && r !in declared :: ElementMatchError(UNKNOWN_TYPE, r)
  }

  /** What the second loop can raise, over every iteration order. */
  function RequirementErrors(types: map<string, DataTypeRecord>): set<Error>
  {
    set n, e | n in types && e in UnknownTypeErrors(types[n], types.Keys) :: e
  }

  /** `DataTypes.parse` up to the framework call, as a specification: the
      requirement edges of every type, or the errors some iteration order
      raises. Every illegal name is found before any edge is looked at. */
  function RequirementEdges(types: map<string, DataTypeRecord>): (r: Outcome<map<string, set<string>>>)
    ensures r.Fail? ==> r.errors != {}
    ensures r.Ok? ==> r.value.Keys == types.Keys
  {
    if IllegalNameErrors(types) != {} then Fail(IllegalNameErrors(types))
    else if RequirementErrors(types) != {} then Fail(RequirementErrors(types))
    else Ok(map n | n in types :: RequiredTypes(types[n]))
  }

  /** The per-parse registry of declared types (`types_internal`) and the
      `requires` table of each of them. */
  class RequirementGraph {
    var declared: set<string>
    var edges: map<string, set<string>>

    /** Every declared type has a `requires` table, and only those. */
    predicate Valid()
      reads this
    {
      edges.Keys == declared
    }

    constructor ()
      ensures Valid() && declared == {} && edges == map[]
    {
      declared := {};
      edges := map[];
    }

    /** `types_internal[name] = DataTypeInternal`: a new type class with an
        empty `requires` table. */
    method Declare(name: string)
      requires Valid() && name !in declared
      modifies this
      ensures Valid()
      ensures declared == old(declared) + {name}
      ensures edges == old(edges)[name := {}]
    {
      declared := declared + {name};
      edges := edges[name := {}];
    }

    /** `_add_requirement_if_exists`: an edge to an undeclared type is error
        39 and changes nothing; otherwise the edge is added to `current`'s
        table and to no other. */
    method AddRequirementIfExists(current: string, required: string) returns (err: Option<Error>)
      requires Valid() && current in declared
      modifies this
      ensures Valid() && declared == old(declared)
      ensures required !in declared ==>
        err == Some(ElementMatchError(UNKNOWN_TYPE, required)) && edges == old(edges)
      ensures required in declared ==>
        err == None && edges == old(edges)[current := old(edges)[current] + {required}]
    {
      if required !in declared {
        return Some(ElementMatchError(UNKNOWN_TYPE, required));
      }
      edges := edges[current := edges[current] + {required}];
      return None;
    }
  }

  /** `DataTypes.parse` up to the framework call, with its loops: declare
      every type, then register the edges of each. */
  method DeclareDataTypes(types: map<string, DataTypeRecord>) returns (r: Result<map<string, set<string>>>)
    ensures Admits(RequirementEdges(types), r)
  {
    var g := new RequirementGraph();
    var err := DeclareAll(g, types);
    if err.Some? {
      assert RequirementEdges(types) == Fail(IllegalNameErrors(types));
      return Failure(err.value);
    }
    var todo := types.Keys;
    while todo != {}
      invariant todo <= types.Keys
      invariant g.Valid() && g.declared == types.Keys
      invariant forall n :: n in types && n !in todo ==>
        g.edges[n] == RequiredTypes(types[n]) && RequiredTypes(types[n]) <= types.Keys
      invariant forall n :: n in todo ==> g.edges[n] == {}
      decreases todo
    {
      var name :| name in todo;
      err := RegisterRequirements(g, name, types[name]);
      if err.Some? {
        UnknownTypeIsRequirementError(types, name, err.value);
        return Failure(err.value);
      }
      todo := todo - {name};
    }
    EdgesWhenAllKnown(types, g.edges);
    return Success(g.edges);
  }

  /** An unknown reference of one type is among the errors of the whole. */
  lemma UnknownTypeIsRequirementError(types: map<string, DataTypeRecord>, n: string, e: Error)
    requires IllegalNameErrors(types) == {}
    requires n in types && e in UnknownTypeErrors(types[n], types.Keys)
    ensures RequirementEdges(types).Fail? && e in RequirementEdges(types).errors
  {
    assert e in RequirementErrors(types);
  }

  /** With no illegal name and no unknown reference, the edges are exactly
      the required types. */
  lemma EdgesWhenAllKnown(types: map<string, DataTypeRecord>, edges: map<string, set<string>>)
    requires IllegalNameErrors(types) == {}
    requires edges.Keys == types.Keys
    requires forall n :: n in types ==> edges[n] == RequiredTypes(types[n]) && RequiredTypes(types[n]) <= types.Keys
    ensures RequirementEdges(types) == Ok(edges)
  {
    assert edges == map n | n in types :: RequiredTypes(types[n]);
    assert forall n :: n in types ==> UnknownTypeErrors(types[n], types.Keys) == {};
    assert RequirementErrors(types) == {};
  }

  /** The first loop of `DataTypes.parse`: every type is declared, unless one
      is named like a primitive (format error 1). */
  method DeclareAll(g: RequirementGraph, types: map<string, DataTypeRecord>) returns (err: Option<Error>)
    requires g.Valid() && g.declared == {}
    modifies g
    ensures g.Valid()
    ensures err.None? ==>
      IllegalNameErrors(types) == {} && g.declared == types.Keys && forall n :: n in g.edges ==> g.edges[n] == {}
    ensures err.Some? ==> err.value in IllegalNameErrors(types)
  {
    var todo := types.Keys;
    while todo != {}
      invariant todo <= types.Keys
      invariant g.Valid() && g.declared == types.Keys - todo
      invariant forall n :: n in g.edges ==> g.edges[n] == {}
      invariant forall n :: n in g.declared ==> n !in PRIMITIVE_TYPES
      decreases todo
    {
      var name :| name in todo;
      if name in PRIMITIVE_TYPES {
        return Some(FormatError(ILLEGAL_TYPE_NAME, name));
      }
      g.Declare(name);
      todo := todo - {name};
    }
    return None;
  }

  /** One iteration of the second loop of `DataTypes.parse`: the parent's
      edge first, then the properties'. */
  method RegisterRequirements(g: RequirementGraph, name: string, rec: DataTypeRecord) returns (err: Option<Error>)
    requires g.Valid() && name in g.declared
    modifies g
    ensures g.Valid() && g.declared == old(g.declared)
    ensures err.None? ==>
      RequiredTypes(rec) <= g.declared &&
      g.edges == old(g.edges)[name := old(g.edges)[name] + RequiredTypes(rec)]
    ensures err.Some? ==> err.value in UnknownTypeErrors(rec, g.declared)
  {
    if Present(rec.derivedFrom) {
      err := g.AddRequirementIfExists(name, rec.derivedFrom.value);
      if err.Some? {
        return;
      }
    }
    assert old(g.edges)[name] + ParentOf(rec) == old(g.edges)[name] || Present(rec.derivedFrom);
    assert g.edges == old(g.edges)[name := old(g.edges)[name] + ParentOf(rec)];
    ghost var mid := g.edges;
    err := RegisterPropertyTypes(g, name, rec);
    if err.Some? {
      assert err.value in UnknownTypeErrors(rec, g.declared);
      return;
    }
    assert mid[name] + PropertyTypes(rec) == old(g.edges)[name] + RequiredTypes(rec);
  }

  /** The inner loop of `DataTypes.parse`: an edge from `name` to every data
      type its properties refer to, or error 39 for one that is undeclared. */
  method RegisterPropertyTypes(g: RequirementGraph, name: string, rec: DataTypeRecord) returns (err: Option<Error>)
    requires g.Valid() && name in g.declared
    modifies g
    ensures g.Valid() && g.declared == old(g.declared)
    ensures err.None? ==>
      PropertyTypes(rec) <= g.declared && g.edges == old(g.edges)[name := old(g.edges)[name] + PropertyTypes(rec)]
    ensures err.Some? ==>
      err.value.ElementMatchError? && err.value.code == UNKNOWN_TYPE &&
      err.value.subject in PropertyTypes(rec) && err.value.subject !in g.declared
  {
    var todo := rec.properties.Keys;
    ghost var seen: set<string> := {};
    assert old(g.edges)[name] + seen == old(g.edges)[name];
    assert g.edges == old(g.edges)[name := old(g.edges)[name] + seen];
    while todo != {}
      invariant todo <= rec.properties.Keys
      invariant g.Valid() && g.declared == old(g.declared)
      invariant seen == set k | k in rec.properties && k !in todo && IsTypeReference(rec.properties[k]) :: rec.properties[k].typeName.value
      invariant seen <= g.declared && g.edges == old(g.edges)[name := old(g.edges)[name] + seen]
      decreases todo
    {
      var prop :| prop in todo;
      var propertyType := rec.properties[prop].typeName;
      if Present(propertyType) && propertyType.value !in PRIMITIVE_TYPES {
        ghost var before := g.edges;
        err := g.AddRequirementIfExists(name, propertyType.value);
        if err.Some? {
          return;
        }
        assert g.edges == before[name := before[name] + {propertyType.value}];
        seen := seen + {propertyType.value};
        assert before[name] + {propertyType.value} == old(g.edges)[name] + seen;
      }
      todo := todo - {prop};
    }
    assert seen == PropertyTypes(rec);
    return None;
  }

  // ---------------------------------------------------------------- resolution

  /** The data types `_parse_value` sees while a type is resolved: each
      required type's resolved property schema, with the intrinsic-function
      recogniser. */
  function DepsRegistry(deps: map<string, DataTypeRecord>, isIntrinsic: Value -> bool): (reg: Registry)
    ensures reg.types.Keys == deps.Keys
    ensures forall n :: n in deps ==> reg.types[n] == deps[n].properties
  {
    Registry(map n | n in deps :: deps[n].properties, isIntrinsic)
  }

  /** `DataTypeInternal.parse`, given the resolved records `deps` of the
      types it requires: its own fields go through `parse_type_fields`,
      and with a parent they are merged field by field over the parent's
      resolved properties. A parent missing from `deps` is Python's
      `KeyError`. */
  function ResolveType(rec: DataTypeRecord, deps: map<string, DataTypeRecord>, isIntrinsic: Value -> bool, fuel: nat): (r: Outcome<DataTypeRecord>)
    ensures r.Fail? ==> r.errors != {}
    ensures r.Ok? ==> r.value.description == rec.description && r.value.derivedFrom == rec.derivedFrom && r.value.version == rec.version
    ensures r.Ok? ==> TypeFields(rec.properties, DepsRegistry(deps, isIntrinsic), fuel).Ok?
  {
    match TypeFields(rec.properties, DepsRegistry(deps, isIntrinsic), fuel)
    case Fail(e) => Fail(e)
    case Ok(own) =>
      if !Present(rec.derivedFrom) then Ok(rec.(properties := own))
      else if rec.derivedFrom.value in deps then
        Ok(rec.(properties := MergeSubDicts(Some(deps[rec.derivedFrom.value].properties), Some(own))))
      else Fail({RuntimeError(rec.derivedFrom.value)})
  }

  /** The resolved records of a type's requirements, out of those resolved so far. */
  function Requirements(done: map<string, DataTypeRecord>, rec: DataTypeRecord): (deps: map<string, DataTypeRecord>)
    ensures deps.Keys == RequiredTypes(rec) * done.Keys
  {
    map r | r in RequiredTypes(rec) && r in done :: done[r]
  }

  /** `order` lists distinct declared types, each after every type it
      requires. */
  predicate RespectsRequirements(types: map<string, DataTypeRecord>, order: seq<string>)
  {
    && (forall i :: 0 <= i < |order| ==> order[i] in types)
    && (forall i, j :: 0 <= i < j < |order| ==> order[i] != order[j])
    && (forall i, r :: 0 <= i < |order| && r in RequiredTypes(types[order[i]]) ==>
          exists j :: 0 <= j < i && order[j] == r)
  }

  /** An evaluation order the framework may choose: every declared type, each
      after every type it requires. None exists when the requirements have a
      cycle (see `DataTypesLemmas.CycleHasNoOrder`). */
  predicate ValidOrder(types: map<string, DataTypeRecord>, order: seq<string>)
  {
    RespectsRequirements(types, order) && forall n :: n in types ==> n in order
  }

  /** Resolving the types in `order`, each from its requirements' resolved
      records; the first failure ends the pass. */
  function ResolveAll(types: map<string, DataTypeRecord>, order: seq<string>, isIntrinsic: Value -> bool, fuel: nat): (r: Outcome<map<string, DataTypeRecord>>)
    requires forall i :: 0 <= i < |order| ==> order[i] in types
    ensures r.Fail? ==> r.errors != {}
    ensures r.Ok? ==> r.value.Keys == set i | 0 <= i < |order| :: order[i]
    decreases |order|
  {
    if order == [] then Ok(map[])
    else
      var n := order[|order| - 1];
      match ResolveAll(types, order[..|order| - 1], isIntrinsic, fuel)
      case Fail(e) => Fail(e)
      case Ok(done) =>
        match ResolveType(types[n], Requirements(done, types[n]), isIntrinsic, fuel)
        case Fail(e) => Fail(e)
        case Ok(resolved) => Ok(done[n := resolved])
  }
}
