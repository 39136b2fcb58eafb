/** The version-gated `dsl_definitions` section and the shape of blueprint
    outputs (dsl_parser/elements/misc.py). */
module Misc {
  import opened Values
  import opened Errors
  import opened Versions

  /** `DSLDefinitions.validate`: a `dsl_definitions` section needs
      definitions version 1.2 or later; an absent one is always fine. */
  function ValidateDSLDefinitions(value: Value, definitionsVersion: Version): (r: Check)
    ensures r.Pass? <==> value.Null? || !Below(definitionsVersion, 1, 2)
    ensures r.Reject? ==> r.error == DefinitionsVersionMismatch("dsl_definitions")
  {
    if value.Null? then Pass
    else if Below(definitionsVersion, 1, 2) then Reject(DefinitionsVersionMismatch("dsl_definitions"))
    else Pass
  }

  /** The shape the schema of `dsl_definitions` admits: a dict or a list
      (or nothing at all). */
  predicate DSLDefinitionsShape(value: Value)
  {
    value.Null? || value.Dict? || value.List?
  }

  /** The keys an output may have. */
  const OUTPUT_KEYS: set<string> := {"description", "value"}

  /** The schema of one output: only `description` and `value`, `value`
      required and given, `description` a string. */
  predicate OutputAccepted(output: map<string, Value>)
  {
    && output.Keys <= OUTPUT_KEYS
    && "value" in output && output["value"] != Null
    && ("description" in output ==> output["description"].Str?)
  }

  /** The `outputs` section: every output has the shape of one. */
  predicate OutputsAccepted(outputs: map<string, map<string, Value>>)
  {
    forall name :: name in outputs ==> OutputAccepted(outputs[name])
  }
}
