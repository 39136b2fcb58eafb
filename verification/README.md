# Cloudify DSL parser: property validation, data types and operation resolution

This project is a Dafny model of three connected pieces of the Cloudify
blueprint parser (`dsl_parser`). It also models one version-gated section.

- **Property validation and default elaboration** (`dsl_parser/utils.py`).
  A property schema maps each property name to `{type, default, description}`.
  - `flatten_schema` turns a schema into its map of defaults.
  - `merge_schema_and_instance_properties` does four things, in order:
    - rejects instance keys that the schema does not declare (error 106);
    - overlays the instance on the defaults;
    - rejects values that end up `None` (error 107);
    - type-checks every value with `_parse_value`.
  - `_parse_value` handles the primitive types `integer`, `float`, `boolean`
    and `string`, lets intrinsic functions through, and recurses into nested
    data types (error 50 on a mismatch).
  - `parse_type_fields` checks the type names of a type's own fields (format
    error 1) and replaces every truthy default by its validated value.
  - `merge_sub_dicts` is the field-level override used for inheritance.
- **The data-type registry** (`dsl_parser/elements/data_types.py`).
  - `DataTypes.parse` refuses type names that are primitive type names
    (format error 1).
  - It then builds a requirement table for each type: the `derived_from`
    parent plus every non-primitive property type. An edge to an undeclared
    type is error 39.
  - `DataTypeInternal.parse` resolves a type. Its own fields go through
    `parse_type_fields`; those fields are then merged over the parent's
    resolved properties.
- **Operation normalisation and plugin resolution**
  (`dsl_parser/elements/operation.py`).
  - A bare string or a mapping becomes one operation record.
  - The executor, `max_retries` and `retry_interval` leaves are validated,
    gated on the DSL version.
  - `process_operation` resolves the mapping to a plugin by its `plugin.`
    prefix:
    - two candidate plugins are error 91;
    - with no candidate, the script-plugin fallback applies (errors 60, 61);
    - otherwise the caller's error code is used.
- **The `dsl_definitions` gate and the output schema**
  (`dsl_parser/elements/misc.py`).

The modules follow the source files:

- `Values`, `Versions` and `Errors` hold the document values, the DSL
  version tuple, and the parser's exceptions and error codes.
- `Utils` and `UtilsLemmas` model `utils.py`.
- `DataTypes` and `DataTypesLemmas` model `elements/data_types.py`.
- `Operation` and `OperationLemmas` model `elements/operation.py`.
- `Misc` and `MiscLemmas` model `elements/misc.py`.

Python 2 gives no iteration order for a dict, so several loops can report
different offending keys on the same input. Each such operation is therefore
specified by a function that returns `Ok(value)` or `Fail(errors)`. Here
`errors` is the set of every exception some iteration order raises. The
methods that keep the source's loops (`FlattenSchema`,
`MergeSchemaAndInstanceProperties`, `ParseTypeFields`, `DeclareDataTypes`)
pick keys nondeterministically. Each is proved to produce one of the
behaviours its specification admits.

## Model

| member | source | states |
|---|---|---|
| `Utils.Defaults` | dsl_parser/utils.py:35-42 | the flattened schema has exactly the schema's keys |
| `Utils.FlattenSchema` | dsl_parser/utils.py:35-42 | the loop builds a map with exactly the schema's keys; each value is the declared default when one is given, else `None` |
| `Utils.MergeSubDicts` | dsl_parser/utils.py:29-32 | the result's keys are the union of both sub-dicts; the overriding value wins on shared keys; overridden-only keys keep their value; an absent sub-dict acts as `{}` |
| `Utils.ParseValue` | dsl_parser/utils.py:90-136 | a failure always carries an error; a success returns the value itself, or for a data-typed dict a dict |
| `Utils.ParseField` | dsl_parser/utils.py:69-85 | a failure of one merge iteration always carries an error |
| `Utils.Merge` | dsl_parser/utils.py:45-87 | a failed merge reports at least one error; a successful merge has exactly the schema's keys |
| `Utils.MergedFields` | dsl_parser/utils.py:66-85 | every schema key is checked once, with the instance value overlaid on the defaults |
| `Utils.Collect` | dsl_parser/utils.py:68-87 | a loop that stops at the first failing key succeeds iff every key does; on success each key holds its checked value; on failure it reports exactly the errors of failing keys |
| `Utils.FindUndefinedKey` | dsl_parser/utils.py:57-63 | finds no key exactly when every instance key is declared; a key it finds is an instance key the schema lacks |
| `Utils.MergeSchemaAndInstanceProperties` | dsl_parser/utils.py:45-87 | the two loops return one of the outcomes the merge specification admits, under any iteration order |
| `Utils.ParseTypeField` | dsl_parser/utils.py:141-164 | a failing field always carries an error |
| `Utils.TypeFields` | dsl_parser/utils.py:139-165 | on success the parsed fields have exactly the input's keys; a failure carries an error |
| `Utils.ParseTypeFields` | dsl_parser/utils.py:139-165 | the loop returns one of the outcomes `parse_type_fields` admits, under any iteration order |
| `UtilsLemmas.ParseValueUnchecked` | dsl_parser/utils.py:98-115 | with no type, an intrinsic function, or type `string`, any value is returned unchanged |
| `UtilsLemmas.ParseValuePrimitives` | dsl_parser/utils.py:103-136 | `integer` accepts exactly integers, `float` exactly integers and floats, `boolean` exactly booleans; otherwise error 50 naming the property |
| `UtilsLemmas.BooleanIsNotANumber` | dsl_parser/utils.py:103-110 | a boolean is refused where an integer or float is declared |
| `UtilsLemmas.ParseValueDataType` | dsl_parser/utils.py:116-131 | a data type accepts only dicts (else error 50); a dict succeeds iff its merge against the type's schema does, with the same result or errors (with no depth left, the model reports depth exhaustion instead); an unknown type name is a runtime error |
| `UtilsLemmas.MergeRejectsUndefined` | dsl_parser/utils.py:58-64 | an undeclared instance key fails the merge; every error is a 106 naming such a key; every such key can be reported |
| `UtilsLemmas.MergeRejectsMissing` | dsl_parser/utils.py:66-75 | with all keys declared, a key with neither a default nor an instance value, or an explicit `None`, can be reported as 107 |
| `UtilsLemmas.MergeErrorsHaveACause` | dsl_parser/utils.py:66-85 | every error of a merge comes from one schema key: it is that key's 107, or an error of type-checking that key's value |
| `UtilsLemmas.MergeSucceeds` | dsl_parser/utils.py:66-87 | the merge succeeds with `m` iff every key is declared, `m` has exactly the schema's keys, and each key's value (the instance's, else the default) is non-`None` and type-checks to `m`'s entry |
| `UtilsLemmas.MergeOfNothingIsTheDefaults` | dsl_parser/utils.py:52-87 | merging an empty instance gives back the defaults, when each default is present and well-typed |
| `UtilsLemmas.ParseValueIdempotent` | dsl_parser/utils.py:90-136 | a value that type-checks re-checks to itself |
| `UtilsLemmas.MergeIdempotent` | dsl_parser/utils.py:45-87 | merging a merge result against the same schema gives it back unchanged |
| `UtilsLemmas.TypeFieldsRejectsIllegalType` | dsl_parser/utils.py:142-147 | a field typed by a name that is neither primitive nor a known data type fails with format error 1 naming that type |
| `UtilsLemmas.TypeFieldsElaboratesTruthyDefaults` | dsl_parser/utils.py:148-164 | on success each field is its input, except that a truthy default is replaced by its checked value |
| `UtilsLemmas.FalsyDefaultIsNotChecked` | dsl_parser/utils.py:149-150 | `{type: integer, default: false}` passes unchecked, while `default: true` is error 50 |
| `UtilsLemmas.SingleFieldMerge` | dsl_parser/utils.py:66-87 | a one-property schema merges exactly as its one value checks |
| `UtilsLemmas.PairTypeExample` | dsl_parser/tests/test_data_types.py:80-99 | a pair type takes `{first, second}` unchanged and refuses a third key with 106 naming it |
| `UtilsLemmas.MergeFailureFailsValue` | dsl_parser/utils.py:116-127 | a data-typed dict whose merge fails fails with the merge's errors |
| `UtilsLemmas.FieldFailureLifts` | dsl_parser/utils.py:116-127 | a failure inside the only field of a data type is the failure of the whole value |
| `UtilsLemmas.FailureLiftsTwice` | dsl_parser/utils.py:116-127 | a failure two data types deep is the failure of the outer value |
| `UtilsLemmas.ParsePrimitiveMismatch` | dsl_parser/utils.py:103-106 | a string is refused where an integer is declared, with error 50 |
| `UtilsLemmas.NestedMismatchNamesInnermostProperty` | dsl_parser/utils.py:133-136 | for nested types `a -> b -> c` with an integer `d`, a string `d` fails the outer value with error 50 naming only `d` |
| `DataTypes.ParseDataType` | dsl_parser/elements/data_types.py:41-45 | an absent `properties` becomes `{}`; every other key is kept as written |
| `DataTypes.RequirementEdges` | dsl_parser/elements/data_types.py:63-119 | on success there is one requirement table per declared type; a failure carries an error |
| `DataTypes.RequirementGraph.constructor` | dsl_parser/elements/data_types.py:69-78 | the registry of declared types starts empty |
| `DataTypes.RequirementGraph.Declare` | dsl_parser/elements/data_types.py:77-95 | declaring a type adds it with an empty requirement table and keeps every other table |
| `DataTypes.RequirementGraph.AddRequirementIfExists` | dsl_parser/elements/data_types.py:48-57 | an undeclared target is error 39 and changes nothing; otherwise the edge is added to the current type's table only |
| `DataTypes.DeclareDataTypes` | dsl_parser/elements/data_types.py:63-119 | the two loops return one of the outcomes the specification admits: the exact edges, or an error that some iteration order raises |
| `DataTypes.DeclareAll` | dsl_parser/elements/data_types.py:70-95 | every type is declared with an empty table, unless one is named like a primitive (error 1 naming such a type) |
| `DataTypes.RegisterRequirements` | dsl_parser/elements/data_types.py:97-119 | on success, exactly the type's parent and property types are added to its table; otherwise the error is one of its unknown references, the parent's first |
| `DataTypes.RegisterPropertyTypes` | dsl_parser/elements/data_types.py:107-119 | on success, exactly the non-primitive property types are added; otherwise 39 naming an undeclared one |
| `DataTypes.DepsRegistry` | dsl_parser/elements/data_types.py:80-84 | the data types visible to `parse_type_fields` are exactly the requirements, each given by its resolved properties |
| `DataTypes.ResolveType` | dsl_parser/elements/data_types.py:80-92 | a resolution keeps the description, parent and version, and succeeds only when the own fields parse |
| `DataTypes.Requirements` | dsl_parser/elements/data_types.py:56-57 | a type receives exactly its required types that are already resolved |
| `DataTypes.ResolveAll` | dsl_parser/elements/data_types.py:121 | evaluating along an order resolves exactly the types in it |
| `DataTypesLemmas.PrimitiveNameRejected` | dsl_parser/elements/data_types.py:70-75 | a type named like a primitive fails with error 1, and while any name is illegal only such errors are raised |
| `DataTypesLemmas.UnknownParentRejected` | dsl_parser/elements/data_types.py:97-106 | a `derived_from` naming an undeclared type is error 39 naming the parent |
| `DataTypesLemmas.DerivingFromPrimitiveRejected` | dsl_parser/elements/data_types.py:97-106 | deriving from a primitive type is error 39 too |
| `DataTypesLemmas.UnknownPropertyTypeRejected` | dsl_parser/elements/data_types.py:107-119 | a property typed by an undeclared non-primitive type is error 39 naming that type |
| `DataTypesLemmas.EdgesExact` | dsl_parser/elements/data_types.py:97-119 | the edges are built iff no name is primitive and every required type is declared; each type's edges are then exactly its parent plus its non-primitive property types |
| `DataTypesLemmas.PrimitivePropertyAddsNoEdge` | dsl_parser/elements/data_types.py:109-111 | an untyped or primitive-typed property adds no requirement |
| `DataTypesLemmas.EdgesIgnoreDefaults` | dsl_parser/elements/data_types.py:107-119 | a property's default has no effect on the requirements |
| `DataTypesLemmas.RequiredComesFirst` | dsl_parser/elements/data_types.py:56-57 | in a valid evaluation order a required type comes strictly before the type requiring it |
| `DataTypesLemmas.ChainDescends` | dsl_parser/elements/data_types.py:56-57 | along a chain of requirements, positions in a valid order strictly decrease |
| `DataTypesLemmas.CycleHasNoOrder` | dsl_parser/elements/data_types.py:97-121 | any cycle of requirements, a self-requirement included, admits no evaluation order |
| `DataTypesLemmas.InfiniteListHasNoOrder` | dsl_parser/tests/test_data_types.py:65-78 | a list type whose `tail` property has its own type admits no evaluation order |
| `DataTypesLemmas.DerivationCycleHasNoOrder` | dsl_parser/elements/data_types.py:98-106 | two types deriving from each other admit no evaluation order |
| `DataTypesLemmas.ResolvedFromRequirements` | dsl_parser/elements/data_types.py:80-121 | along a valid order, every type's requirements are resolved, and its record is `DataTypeInternal.parse` of them |
| `DataTypesLemmas.OwnFieldsKeepDeclarations` | dsl_parser/elements/data_types.py:81-84 | a resolved type's own fields keep their types and descriptions; only a truthy default can change |
| `DataTypesLemmas.InheritanceMergesFieldByField` | dsl_parser/elements/data_types.py:81-91 | a derived type's own fields parse, and its resolved properties are exactly the parent's resolved properties overridden by those parsed fields: the keys are the union, parent fields it does not redeclare are unchanged, its own keep their declarations |
| `DataTypesLemmas.NoParentResolvesToOwnFields` | dsl_parser/elements/data_types.py:81-84 | a type without a parent resolves to exactly `parse_type_fields` of its own properties |
| `Operation.ParseImplementation` | dsl_parser/elements/operation.py:33-34 | an absent implementation is `''`; a present one is kept |
| `Operation.ParseTemplateInputs` | dsl_parser/elements/operation.py:63-64 | absent template inputs are `{}`; present ones are kept |
| `Operation.ValidateExecutor` | dsl_parser/elements/operation.py:41-56 | passes iff the executor is absent, `central_deployment_agent` or `host_agent`; otherwise error 28 |
| `Operation.ValidateMaxRetries` | dsl_parser/elements/operation.py:74-88 | passes iff the value is absent, or the version is at least 1.1 and the value is at least -1; version error 81 takes precedence over the value error |
| `Operation.ValidateRetryInterval` | dsl_parser/elements/operation.py:98-110 | passes iff the value is absent, or the version is at least 1.1 and the value is non-negative; version error 81 takes precedence |
| `Operation.ParseOperation` | dsl_parser/elements/operation.py:115-125 | a bare string becomes the implementation with no executor, empty inputs and no retry settings; a mapping keeps its parsed leaves |
| `Operation.NodeResult` | dsl_parser/elements/operation.py:318-334 | a node operation's result carries the given fields and is never flagged as holding intrinsic functions |
| `Operation.Candidates` | dsl_parser/elements/operation.py:227-228 | a plugin is a candidate iff its name followed by `.` starts the mapping |
| `Operation.EffectiveExecutor` | dsl_parser/elements/operation.py:242-243 | the operation's own truthy executor wins; otherwise the plugin's default executor is used |
| `Operation.ScriptPayload` | dsl_parser/elements/operation.py:253-275 | a payload already holding `script_path` is error 60; otherwise the result is the payload's keys plus `script_path` |
| `Operation.ProcessOperation` | dsl_parser/elements/operation.py:195-311 | a success is a workflow result exactly for workflows, and a node result carries the operation's name; every failure is one of the five outcomes the source raises |
| `Operation.ProcessInterfaceOperations` | dsl_parser/elements/operation.py:180-192 | on success there is one result per operation, each being that operation's resolution; a failure is some operation's failure |
| `OperationLemmas.BareIsImplementationOnly` | dsl_parser/elements/operation.py:115-123 | a bare string means the same as a mapping that gives only the implementation |
| `OperationLemmas.EmptyMapping` | dsl_parser/elements/operation.py:213-225 | an empty node mapping resolves to plugin `''`, operation `''`, inputs `{}`, no executor and no retries, whatever was declared; for a workflow it is a runtime error |
| `OperationLemmas.AmbiguousMapping` | dsl_parser/elements/operation.py:227-233 | more than one candidate plugin is error 91, before any script lookup |
| `OperationLemmas.NestedPluginNamesAreAmbiguous` | dsl_parser/elements/operation.py:227-233 | with plugins `cloud` and `cloud.aws`, `cloud.aws.create` is ambiguous: there is no longest-prefix rule |
| `OperationLemmas.SinglePluginResolution` | dsl_parser/elements/operation.py:234-251 | with one candidate `p`: the operation is the mapping with `p.` stripped (so `p + "." + operation` is the mapping), inputs and retries pass through, and the executor is the declared one or else `p`'s |
| `OperationLemmas.ScriptPathAlreadyDefined` | dsl_parser/elements/operation.py:252-260 | in the script fallback, a payload already defining `script_path` is error 60, whether or not the script plugin exists |
| `OperationLemmas.ScriptPluginMissing` | dsl_parser/elements/operation.py:276-282 | in the script fallback, with no `script_path` in the payload, an undeclared script plugin is error 61 |
| `OperationLemmas.ScriptOperation` | dsl_parser/elements/operation.py:261-300 | a node script operation runs `script_runner.tasks.run`; its inputs are the declared ones plus `script_path` set to the original mapping, other inputs unchanged |
| `OperationLemmas.ScriptWorkflow` | dsl_parser/elements/operation.py:262-288 | a script workflow runs `script_runner.tasks.execute_workflow` with a `script_path` parameter defaulting to the original mapping; other parameters unchanged |
| `OperationLemmas.UnresolvedMapping` | dsl_parser/elements/operation.py:301-311 | a non-empty mapping that matches no plugin and no existing script raises the caller's error code |
| `OperationLemmas.InterfaceResolvesIffEveryOperationDoes` | dsl_parser/elements/operation.py:180-192 | an interface resolves iff each of its operations does |
| `Misc.DSLDefinitionsShape` | dsl_parser/elements/misc.py:59 | the schema of `dsl_definitions` admits nothing, a dict or a list |
| `Misc.OutputAccepted` | dsl_parser/elements/misc.py:40-45 | an output has only `description` and `value` keys, a given non-`None` `value`, and a string `description` when one is given |
| `Misc.OutputsAccepted` | dsl_parser/elements/misc.py:48-50 | the `outputs` section is accepted when every output in it is |
| `Misc.ValidateDSLDefinitions` | dsl_parser/elements/misc.py:64-76 | passes iff the value is absent or the definitions version is at least (1, 2); otherwise the definitions-version-mismatch error |
| `MiscLemmas.DefinitionsGateIsLexicographic` | dsl_parser/elements/misc.py:68 | versions 0.x, 1.0 and 1.1 are refused; 1.2 and above and 2.x are accepted, as a tuple comparison gives |
| `MiscLemmas.DefinitionsGateIsMonotone` | dsl_parser/elements/misc.py:68 | a version at least as late as an accepted one is accepted |
| `MiscLemmas.DefinitionsSectionAcceptance` | dsl_parser/elements/misc.py:57-76 | below 1.2 only an absent section passes; from 1.2 any dict or list passes; a scalar never fits the schema |
| `MiscLemmas.AcceptedOutputKeys` | dsl_parser/elements/misc.py:40-45 | an accepted output has exactly the keys `{value}` or `{description, value}` |
| `MiscLemmas.OutputRefusals` | dsl_parser/elements/misc.py:34-45 | an output with another key, without `value`, or with a `None` value is refused |
| `MiscLemmas.OutputsAcceptedOneByOne` | dsl_parser/elements/misc.py:48-50 | the outputs section is accepted output by output |

## Left out

- The evaluation framework (`dsl_parser/framework/*`) is not part of this
  model. This covers the element tree, the requirement resolver and cycle
  detection. The order in which it evaluates the data types is a given
  sequence: `ValidOrder` requires each type to come strictly after every type
  it requires. A cycle is stated as "no such order exists"
  (`CycleHasNoOrder`); the cycle error and its path are not modelled.
- Requirement edges do not depend on defaults
  (dsl_parser/elements/data_types.py:107-119, `EdgesIgnoreDefaults`). A
  self-referential property type is therefore a cycle with or without a
  default: the type has no valid evaluation order whether or not its
  recursive property declares a default.
- Data types seen by `_parse_value`. `DataTypeInternal.parse` passes whole
  resolved records to `parse_type_fields`
  (dsl_parser/elements/data_types.py:81-84). `_parse_value` then uses
  `data_types[type_name]` directly as a property schema
  (dsl_parser/utils.py:118). The model passes each record's `properties`
  (`DepsRegistry`). That is the reading under which `test_nested_validation`
  (dsl_parser/tests/test_data_types.py:184-215), which expects error 50,
  would pass. Read literally, the record flattens to the schema keys
  `properties`, `description`, `derived_from` and `version`, so a
  data-typed default such as `{first: 1, second: 2}` would fail the merge
  with 106 on one of its own keys (dsl_parser/utils.py:58-64), and an empty
  instance would fail with 107 on `properties` (dsl_parser/utils.py:70-75).
- `DataTypeInternal.parse` receives only its direct requirements (its parent
  and its property types), as the framework's `Value(required_type)` binding
  gives. `Utils.Registry` is built from exactly those.
- Fuel. The mutual recursion between `_parse_value` and the merge is bounded
  by a `fuel` argument. When the fuel runs out the model reports
  `DepthExhausted`, an error the source does not have. The source's
  recursion also enters schema defaults that are not part of the value
  (dsl_parser/utils.py:66-67, 116-127); it ends because the data-type
  requirement graph is acyclic. Every lemma holds for any fuel or states the
  fuel it needs.
- Plugin matching is not longest-prefix: any two matching `plugin.`
  prefixes are ambiguous (dsl_parser/elements/operation.py:227-233,
  `NestedPluginNamesAreAmbiguous`).
- Values from the parser's constants module, which is not part of this
  model, are taken from the published parser:
  - the primitive type names;
  - the executor names;
  - the script plugin's name and task names;
  - `script_path`.
- `ERROR_CODE_DSL_DEFINITIONS_VERSION_MISMATCH` is its own error
  constructor, because its numeric value is defined outside these files.
- `Operation.ValidateExecutor`: error 28 names the rejected executor value,
  not the `interface.operation` name built for its message.
- Exception messages are not modelled, and neither is the
  `partial_error_message` argument. Errors carry their code and the name
  they are about. No dotted property path (`a.b.c.d`) is built;
  dsl_parser/utils.py:133-136 names only the innermost property.
- `functions.parse` (intrinsic-function detection) is not part of this
  model. It is the `isIntrinsic` parameter of `Utils.Registry`.
- `_resource_exists` and `url_exists` are the `resourceExists` oracle
  parameter. `load_yaml` and `url_exists` are YAML and network I/O, left out.
- `NodeTypeOperation` inputs (a `properties.Schema`, not part of this model)
  and the schema-level type checks the framework makes on leaves (for
  example that `max_retries` is an `int`) are not modelled.
  `ParseOperation` models the node-template form.
- An output's `value` must be present and not `None`, and its
  `description` must be a string. The leaf types allowed for `value`
  (`elements.PRIMITIVE_TYPES`, outside these files) are not checked.
- `retry_interval` is a `real`. Only its sign matters.
- `deepcopy` of the payload and of schema entries is implicit: values are
  immutable, so the caller's inputs are never changed.
