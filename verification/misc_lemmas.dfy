/** What dsl_parser/elements/misc.py promises, proved about the definitions
    in module Misc. */
module MiscLemmas {
  import opened Values
  import opened Errors
  import opened Versions
  import opened Misc

  /** The gate is the lexicographic `(major, minor) < (1, 2)`: versions
      1.0, 1.1 and every 0.x are refused, 1.2, 1.10 and 2.0 are accepted. */
  lemma DefinitionsGateIsLexicographic(value: Value, minor: int)
    requires !value.Null? && minor >= 0
    ensures ValidateDSLDefinitions(value, Version(0, minor)).Reject?
    ensures ValidateDSLDefinitions(value, Version(1, 0)).Reject?
    ensures ValidateDSLDefinitions(value, Version(1, 1)).Reject?
    ensures ValidateDSLDefinitions(value, Version(1, 2 + minor)).Pass?
    ensures ValidateDSLDefinitions(value, Version(2, minor)).Pass?
  {
  }

  /** Accepting a definitions version is upward closed: a later version
      accepts whatever an earlier one does. */
  lemma DefinitionsGateIsMonotone(value: Value, v: Version, w: Version)
    requires !Below(w, v.major, v.minor)
    requires ValidateDSLDefinitions(value, v).Pass?
    ensures ValidateDSLDefinitions(value, w).Pass?
  {
  }

  /** An accepted output has exactly the keys `{value}` or
      `{description, value}`. */
  lemma {:induction false} AcceptedOutputKeys(output: map<string, Value>)
    requires OutputAccepted(output)
    ensures output.Keys == {"value"} || output.Keys == {"description", "value"}
  {
    if "description" in output {
      assert output.Keys == {"description", "value"};
    } else {
      assert output.Keys == {"value"};
    }
  }

  /** An output with any other key, or without a value, is refused. */
  lemma OutputRefusals(output: map<string, Value>, k: string)
    ensures k in output && k !in OUTPUT_KEYS ==> !OutputAccepted(output)
    ensures "value" !in output ==> !OutputAccepted(output)
    ensures "value" in output && output["value"] == Null ==> !OutputAccepted(output)
  {
  }

  /** A `dsl_definitions` section that passes both its schema and its
      version gate under a definitions version below 1.2 is absent; under
      1.2 or later, any dict or list passes both. */
  lemma DefinitionsSectionAcceptance(value: Value, v: Version)
    ensures DSLDefinitionsShape(value) && ValidateDSLDefinitions(value, v).Pass? && Below(v, 1, 2) ==> value.Null?
    ensures (value.Dict? || value.List?) && !Below(v, 1, 2) ==>
      DSLDefinitionsShape(value) && ValidateDSLDefinitions(value, v).Pass?
    ensures value.Str? || value.Int? || value.Float? || value.Bool? ==> !DSLDefinitionsShape(value)
  {
  }

  /** The `outputs` section is accepted output by output: adding one keeps
      it accepted exactly when the added output is. */
  lemma {:induction false} OutputsAcceptedOneByOne(outputs: map<string, map<string, Value>>, name: string, output: map<string, Value>)
    requires OutputsAccepted(outputs)
    ensures OutputsAccepted(outputs[name := output]) <==> OutputAccepted(output)
  {
    var updated := outputs[name := output];
    if OutputAccepted(output) {
      forall n | n in updated
        ensures OutputAccepted(updated[n])
      {
        if n != name {
          assert updated[n] == outputs[n];
        }
      }
    } else {
      assert name in outputs[name := output];
    }
  }
}
