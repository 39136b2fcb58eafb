/** What operation resolution in dsl_parser/elements/operation.py promises,
    proved about the definitions in module Operation. */
module OperationLemmas {
  import opened Values
  import opened Errors
  import opened Operation

  /** A bare-string operation means the same as a mapping that gives only
      the implementation. */
  lemma BareIsImplementationOnly(s: string)
    ensures ParseOperation(Bare(s)) == ParseOperation(Mapping(Some(s), None, None, None, None))
    ensures ParseOperation(Bare(s)).payload == Some(map[])
  {
  }

  /** A node operation with an empty mapping resolves to the empty
      operation, whatever else it declares; a workflow with one is an
      illegal state. */
  lemma EmptyMapping(plugins: map<string, Plugin>, name: string, content: OperationContent, errorCode: int,
                     resourceBase: Option<string>, resourceExists: (string, string) -> bool)
    requires content.mapping == ""
    ensures ProcessOperation(plugins, name, content, errorCode, resourceBase, false, resourceExists)
            == Success(NodeOperation(name, "", "", None, Some(map[]), false, None, None))
    ensures ProcessOperation(plugins, name, content, errorCode, resourceBase, true, resourceExists)
            == Failure(RuntimeError(name))
  {
  }

  /** Two or more plugins whose `name.` starts the mapping make it
      ambiguous (error 91), before any script lookup. */
  lemma AmbiguousMapping(plugins: map<string, Plugin>, name: string, content: OperationContent, errorCode: int,
                         resourceBase: Option<string>, isWorkflows: bool, resourceExists: (string, string) -> bool)
    requires content.mapping != "" && |Candidates(plugins, content.mapping)| > 1
    ensures ProcessOperation(plugins, name, content, errorCode, resourceBase, isWorkflows, resourceExists)
            == Failure(LogicError(AMBIGUOUS_MAPPING, name))
  {
  }

  /** Matching is by `plugin.` prefix, not longest prefix: with plugins
      `cloud` and `cloud.aws`, the mapping `cloud.aws.create` is ambiguous. */
  lemma NestedPluginNamesAreAmbiguous(name: string, errorCode: int, resourceBase: Option<string>,
                                      resourceExists: (string, string) -> bool)
    ensures var plugins := map["cloud" := Plugin(None), "cloud.aws" := Plugin(None)];
      var content := OperationContent("cloud.aws.create", None, None, None, None);
      ProcessOperation(plugins, name, content, errorCode, resourceBase, false, resourceExists)
        == Failure(LogicError(AMBIGUOUS_MAPPING, name))
  {
    var plugins := map["cloud" := Plugin(None), "cloud.aws" := Plugin(None)];
    assert "cloud" + "." <= "cloud.aws.create";
    assert "cloud.aws" + "." <= "cloud.aws.create";
    assert {"cloud", "cloud.aws"} <= Candidates(plugins, "cloud.aws.create");
    assert |{"cloud", "cloud.aws"}| == 2;
    SubsetCardinality({"cloud", "cloud.aws"}, Candidates(plugins, "cloud.aws.create"));
  }

  /** A subset is no larger than its superset. */
  lemma {:induction false} SubsetCardinality(a: set<string>, b: set<string>)
    requires a <= b
    ensures |a| <= |b|
    decreases |b|
  {
    if a != {} {
      var x :| x in a;
      SubsetCardinality(a - {x}, b - {x});
    }
  }

  /** With exactly one candidate plugin `p`, the operation is the mapping
      without its `p.` prefix (so `p + "." + operation` gives the mapping
      back); a node operation keeps its inputs and retry settings and runs
      on its own executor or else on `p`'s; a workflow keeps its
      parameters. */
  lemma SinglePluginResolution(plugins: map<string, Plugin>, name: string, content: OperationContent, errorCode: int,
                               resourceBase: Option<string>, isWorkflows: bool, resourceExists: (string, string) -> bool, p: string)
    requires content.mapping != "" && Candidates(plugins, content.mapping) == {p}
    ensures var r := ProcessOperation(plugins, name, content, errorCode, resourceBase, isWorkflows, resourceExists);
      && r.Success?
      && r.value.plugin == p
      && p + "." + r.value.operation == content.mapping
      && (isWorkflows ==> r.value.parameters == content.payload)
      && (!isWorkflows ==>
            && r.value.inputs == content.payload
            && r.value.executor == (if Present(content.executor) then content.executor else plugins[p].executor)
            && r.value.maxRetries == content.maxRetries
            && r.value.retryInterval == content.retryInterval)
  {
    assert p in plugins && p + "." <= content.mapping;
    assert |Candidates(plugins, content.mapping)| == 1;
    var entry := content.mapping[|p| + 1..];
    assert p + "." + entry == content.mapping;
  }

  /** The script fallback applies when no plugin matches, a resource base
      is given and the mapping names an existing resource. */
  predicate ScriptFallback(plugins: map<string, Plugin>, content: OperationContent, resourceBase: Option<string>,
                           resourceExists: (string, string) -> bool)
  {
    && content.mapping != ""
    && Candidates(plugins, content.mapping) == {}
    && Present(resourceBase)
    && resourceExists(resourceBase.value, content.mapping)
  }

  /** In the script fallback, a payload that already defines `script_path`
      is error 60, whether or not the script plugin is declared. */
  lemma ScriptPathAlreadyDefined(plugins: map<string, Plugin>, name: string, content: OperationContent, errorCode: int,
                                 resourceBase: Option<string>, isWorkflows: bool, resourceExists: (string, string) -> bool)
    requires ScriptFallback(plugins, content, resourceBase, resourceExists)
    requires content.payload.Some? && SCRIPT_PATH_PROPERTY in content.payload.value
    ensures ProcessOperation(plugins, name, content, errorCode, resourceBase, isWorkflows, resourceExists)
            == Failure(LogicError(SCRIPT_PATH_ALREADY_DEFINED, name))
  {
  }

  /** In the script fallback, without `script_path` in the payload, an
      undeclared script plugin is error 61. */
  lemma ScriptPluginMissing(plugins: map<string, Plugin>, name: string, content: OperationContent, errorCode: int,
                            resourceBase: Option<string>, isWorkflows: bool, resourceExists: (string, string) -> bool)
    requires ScriptFallback(plugins, content, resourceBase, resourceExists)
    requires !(content.payload.Some? && SCRIPT_PATH_PROPERTY in content.payload.value)
    requires SCRIPT_PLUGIN_NAME !in plugins
    ensures ProcessOperation(plugins, name, content, errorCode, resourceBase, isWorkflows, resourceExists)
            == Failure(LogicError(SCRIPT_PLUGIN_MISSING, name))
  {
  }

  /** A node operation resolved by the script fallback runs the script
      plugin's run task; its inputs are the declared ones (`{}` for none)
      with `script_path` added as the original mapping, every other input
      unchanged. */
  lemma ScriptOperation(plugins: map<string, Plugin>, name: string, content: OperationContent, errorCode: int,
                        resourceBase: Option<string>, resourceExists: (string, string) -> bool)
    requires ScriptFallback(plugins, content, resourceBase, resourceExists)
    requires !(content.payload.Some? && SCRIPT_PATH_PROPERTY in content.payload.value)
    requires SCRIPT_PLUGIN_NAME in plugins
    ensures var r := ProcessOperation(plugins, name, content, errorCode, resourceBase, false, resourceExists);
      var declared := if content.payload.Some? then content.payload.value else map[];
      && r.Success? && r.value.NodeOperation?
      && r.value.plugin == SCRIPT_PLUGIN_NAME && r.value.operation == SCRIPT_PLUGIN_RUN_TASK
      && r.value.inputs.Some?
      && r.value.inputs.value.Keys == declared.Keys + {SCRIPT_PATH_PROPERTY}
      && r.value.inputs.value[SCRIPT_PATH_PROPERTY] == Str(content.mapping)
      && (forall k :: k in declared ==> r.value.inputs.value[k] == declared[k])
      && r.value.executor == (if Present(content.executor) then content.executor else plugins[SCRIPT_PLUGIN_NAME].executor)
      && r.value.maxRetries == content.maxRetries && r.value.retryInterval == content.retryInterval
  {
  }

  /** A workflow resolved by the script fallback runs the script plugin's
      workflow task, with a `script_path` parameter whose default is the
      original mapping; every other parameter is unchanged. */
  lemma ScriptWorkflow(plugins: map<string, Plugin>, name: string, content: OperationContent, errorCode: int,
                       resourceBase: Option<string>, resourceExists: (string, string) -> bool)
    requires ScriptFallback(plugins, content, resourceBase, resourceExists)
    requires !(content.payload.Some? && SCRIPT_PATH_PROPERTY in content.payload.value)
    requires SCRIPT_PLUGIN_NAME in plugins
    ensures var r := ProcessOperation(plugins, name, content, errorCode, resourceBase, true, resourceExists);
      var declared := if content.payload.Some? then content.payload.value else map[];
      && r.Success? && r.value.WorkflowOperation?
      && r.value.plugin == SCRIPT_PLUGIN_NAME && r.value.operation == SCRIPT_PLUGIN_EXECUTE_WORKFLOW_TASK
      && r.value.parameters.Some?
      && r.value.parameters.value.Keys == declared.Keys + {SCRIPT_PATH_PROPERTY}
      && r.value.parameters.value[SCRIPT_PATH_PROPERTY]
           == Dict(map["default" := Str(content.mapping), "description" := Str(WORKFLOW_SCRIPT_DESCRIPTION)])
      && (forall k :: k in declared ==> r.value.parameters.value[k] == declared[k])
  {
  }

  /** A non-empty mapping that no plugin matches and that is not an
      existing script is the caller's error, with the caller's code. */
  lemma UnresolvedMapping(plugins: map<string, Plugin>, name: string, content: OperationContent, errorCode: int,
                          resourceBase: Option<string>, isWorkflows: bool, resourceExists: (string, string) -> bool)
    requires content.mapping != "" && Candidates(plugins, content.mapping) == {}
    requires !(Present(resourceBase) && resourceExists(resourceBase.value, content.mapping))
    ensures ProcessOperation(plugins, name, content, errorCode, resourceBase, isWorkflows, resourceExists)
            == Failure(LogicError(errorCode, name))
  {
  }

  /** The operations of an interface resolve exactly when each of them
      does, one result per operation. */
  lemma {:induction false} InterfaceResolvesIffEveryOperationDoes(items: seq<(string, OperationContent)>, plugins: map<string, Plugin>,
                                                                 errorCode: int, resourceBase: Option<string>,
                                                                 resourceExists: (string, string) -> bool)
    ensures ProcessInterfaceOperations(items, plugins, errorCode, resourceBase, resourceExists).Success? <==>
      forall i :: 0 <= i < |items| ==>
        ProcessOperation(plugins, items[i].0, items[i].1, errorCode, resourceBase, false, resourceExists).Success?
  {
    if items != [] {
      InterfaceResolvesIffEveryOperationDoes(items[1..], plugins, errorCode, resourceBase, resourceExists);
      assert forall i :: 1 <= i < |items| ==> items[i] == items[1..][i - 1];
    }
  }
}
