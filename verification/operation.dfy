/** Operation declarations: their normalisation, the validation of their
    leaves, and their resolution to a plugin invocation
    (dsl_parser/elements/operation.py). */
module Operation {
  import opened Values
  import opened Errors
  import opened Versions

  // Names from the parser's constants module.
  const CENTRAL_DEPLOYMENT_AGENT := "central_deployment_agent"
  const HOST_AGENT := "host_agent"
  const SCRIPT_PLUGIN_NAME := "script"
  const SCRIPT_PLUGIN_RUN_TASK := "script_runner.tasks.run"
  const SCRIPT_PLUGIN_EXECUTE_WORKFLOW_TASK := "script_runner.tasks.execute_workflow"
  const SCRIPT_PATH_PROPERTY := "script_path"
  const WORKFLOW_SCRIPT_DESCRIPTION := "Workflow script executed by the script plugin"

  /** The executors an operation may name. */
  const VALID_EXECUTORS: set<string> := {CENTRAL_DEPLOYMENT_AGENT, HOST_AGENT}

  // ---------------------------------------------------------------- leaves

  /** `OperationImplementation.parse`: an absent implementation is `''`. */
  function ParseImplementation(v: Option<string>): (r: string)
    ensures v.None? ==> r == ""
    ensures v.Some? ==> r == v.value
  {
    if v.Some? then v.value else ""
  }

  /** `NodeTemplateOperationInputs.parse`: absent inputs are `{}`. */
  function ParseTemplateInputs(v: Option<map<string, Value>>): (r: map<string, Value>)
    ensures v.None? ==> r == map[]
    ensures v.Some? ==> r == v.value
  {
    if v.Some? then v.value else map[]
  }

  /** `OperationExecutor.validate`: no executor, or one of the two valid
      ones; anything else is error 28 naming the value. */
  function ValidateExecutor(executor: Option<string>): (r: Check)
    ensures r.Pass? <==> executor.None? || executor.value in VALID_EXECUTORS
    ensures r.Reject? ==> r.error == LogicError(ILLEGAL_EXECUTOR, executor.value)
  {
    if executor.None? then Pass
    else if executor.value !in VALID_EXECUTORS then Reject(LogicError(ILLEGAL_EXECUTOR, executor.value))
    else Pass
  }

  /** `OperationMaxRetries.validate`: a value needs DSL version 1.1 or
      later (error 81), and must be -1 (unlimited) or non-negative. */
  function ValidateMaxRetries(value: Option<int>, version: Version): (r: Check)
    ensures r.Pass? <==> value.None? || (!Below(version, 1, 1) && value.value >= -1)
    ensures r.Reject? && Below(version, 1, 1) ==> r.error == LogicError(VERSION_TOO_OLD, "max_retries")
    ensures r.Reject? && !Below(version, 1, 1) ==> r.error == ValueError("max_retries")
  {
    if value.None? then Pass
    else if Below(version, 1, 1) then Reject(LogicError(VERSION_TOO_OLD, "max_retries"))
    else if value.value < -1 then Reject(ValueError("max_retries"))
    else Pass
  }

  /** `OperationRetryInterval.validate`: a value needs DSL version 1.1 or
      later (error 81), and must not be negative. */
  function ValidateRetryInterval(value: Option<real>, version: Version): (r: Check)
    ensures r.Pass? <==> value.None? || (!Below(version, 1, 1) && value.value >= 0.0)
    ensures r.Reject? && Below(version, 1, 1) ==> r.error == LogicError(VERSION_TOO_OLD, "retry_interval")
    ensures r.Reject? && !Below(version, 1, 1) ==> r.error == ValueError("retry_interval")
  {
    if value.None? then Pass
    else if Below(version, 1, 1) then Reject(LogicError(VERSION_TOO_OLD, "retry_interval"))
    else if value.value < 0.0 then Reject(ValueError("retry_interval"))
    else Pass
  }

  // ---------------------------------------------------------------- normalisation

  /** A node template operation as written: a bare string, or a mapping
      whose keys may each be absent. */
  datatype RawOperation =
    | Bare(implementation: string)
    | Mapping(
        impl: Option<string>,
        inputs: Option<map<string, Value>>,
        executor: Option<string>,
        maxRetries: Option<int>,
        retryInterval: Option<real>)

  /** What `process_operation` reads from an operation: its mapping
      (`implementation`, or `mapping` for a workflow), its payload
      (`inputs`, or `parameters`), and the executor and retry settings. */
  datatype OperationContent = OperationContent(
    mapping: string,
    payload: Option<map<string, Value>>,
    executor: Option<string>,
    maxRetries: Option<int>,
    retryInterval: Option<real>)

  /** `Operation.parse` for a node template operation: a bare string is
      the implementation, with no executor, empty inputs and no retry
      settings; a mapping has its leaves parsed. */
  function ParseOperation(raw: RawOperation): (r: OperationContent)
    ensures raw.Bare? ==> r == OperationContent(raw.implementation, Some(map[]), None, None, None)
    ensures raw.Mapping? ==> r.mapping == ParseImplementation(raw.impl) && r.payload == Some(ParseTemplateInputs(raw.inputs))
    ensures raw.Mapping? ==> r.executor == raw.executor && r.maxRetries == raw.maxRetries && r.retryInterval == raw.retryInterval
  {
    match raw
    case Bare(s) => OperationContent(s, Some(map[]), None, None, None)
    case Mapping(impl, inputs, executor, maxRetries, retryInterval) =>
      OperationContent(ParseImplementation(impl), Some(ParseTemplateInputs(inputs)), executor, maxRetries, retryInterval)
  }

  // ---------------------------------------------------------------- resolution

  /** A declared plugin; only its default executor matters here. */
  datatype Plugin = Plugin(executor: Option<string>)

  /** What `process_operation` returns: `_operation` for a node operation,
      `_workflow_operation` for a workflow. */
  datatype ProcessedOperation =
    | NodeOperation(
        name: string,
        plugin: string,
        operation: string,
        executor: Option<string>,
        inputs: Option<map<string, Value>>,
        hasIntrinsicFunctions: bool,
        maxRetries: Option<int>,
        retryInterval: Option<real>)
    | WorkflowOperation(plugin: string, operation: string, parameters: Option<map<string, Value>>)

  /** `_operation`: a node operation's result, never flagged as holding
      intrinsic functions. */
  function NodeResult(name: string, plugin: string, operation: string, inputs: Option<map<string, Value>>,
                      executor: Option<string>, maxRetries: Option<int>, retryInterval: Option<real>): (r: ProcessedOperation)
    ensures r.NodeOperation? && !r.hasIntrinsicFunctions
    ensures r.name == name && r.plugin == plugin && r.operation == operation && r.inputs == inputs
    ensures r.executor == executor && r.maxRetries == maxRetries && r.retryInterval == retryInterval
  {
    NodeOperation(name, plugin, operation, executor, inputs, false, maxRetries, retryInterval)
  }

  /** The plugins whose name followed by `.` starts the mapping. */
  function Candidates(plugins: map<string, Plugin>, mapping: string): (c: set<string>)
    ensures forall p :: p in c <==> p in plugins && p + "." <= mapping
  {
    set p | p in plugins && p + "." <= mapping
  }

  /** The executor a resolved node operation runs on: its own when truthy,
      else the plugin's default. */
  function EffectiveExecutor(own: Option<string>, plugin: Plugin): (e: Option<string>)
    ensures Present(own) ==> e == own
    ensures !Present(own) ==> e == plugin.executor
  {
    if Present(own) then own else plugin.executor
  }

  /** The payload of a script operation, before the script plugin is
      looked up: a copy of the payload (`{}` when it is `None` or empty)
      with the script path added; a payload that already defines it is
      error 60. */
  function ScriptPayload(payload: Option<map<string, Value>>, scriptPath: string, name: string, isWorkflows: bool): (r: Result<map<string, Value>>)
    ensures r.Failure? <==> payload.Some? && SCRIPT_PATH_PROPERTY in payload.value
    ensures r.Failure? ==> r.error == LogicError(SCRIPT_PATH_ALREADY_DEFINED, name)
    ensures r.Success? ==> r.value.Keys == (if payload.Some? then payload.value.Keys else {}) + {SCRIPT_PATH_PROPERTY}
  {
    var copy := if payload.Some? then payload.value else map[];
    if SCRIPT_PATH_PROPERTY in copy then Failure(LogicError(SCRIPT_PATH_ALREADY_DEFINED, name))
    else if isWorkflows then
      Success(copy[SCRIPT_PATH_PROPERTY := Dict(map["default" := Str(scriptPath), "description" := Str(WORKFLOW_SCRIPT_DESCRIPTION)])])
    else
      Success(copy[SCRIPT_PATH_PROPERTY := Str(scriptPath)])
  }

  /** `process_operation`: resolve an operation's mapping to a plugin
      invocation. `resourceExists(base, name)` stands for `_resource_exists`;
      `errorCode` is the caller's code for a mapping that cannot be
      resolved. */
  function ProcessOperation(plugins: map<string, Plugin>, name: string, content: OperationContent, errorCode: int,
                            resourceBase: Option<string>, isWorkflows: bool,
                            resourceExists: (string, string) -> bool): (r: Result<ProcessedOperation>)
    ensures r.Success? ==> r.value.WorkflowOperation? == isWorkflows
    ensures r.Success? && !isWorkflows ==> r.value.name == name
    ensures r.Failure? ==> r.error in {
      RuntimeError(name), LogicError(AMBIGUOUS_MAPPING, name), LogicError(SCRIPT_PATH_ALREADY_DEFINED, name),
      LogicError(SCRIPT_PLUGIN_MISSING, name), LogicError(errorCode, name)}
  {
    var mapping := content.mapping;
    if mapping == "" then
      if isWorkflows then Failure(RuntimeError(name))
      else Success(NodeResult(name, "", "", Some(map[]), None, None, None))
    else
      var candidates := Candidates(plugins, mapping);
      if |candidates| > 1 then Failure(LogicError(AMBIGUOUS_MAPPING, name))
      else if |candidates| == 1 then
        var p := PickOne(candidates);
        var entry := mapping[|p| + 1..];
        if isWorkflows then Success(WorkflowOperation(p, entry, content.payload))
        else
          Success(NodeResult(name, p, entry, content.payload, EffectiveExecutor(content.executor, plugins[p]),
                             content.maxRetries, content.retryInterval))
      else if Present(resourceBase) && resourceExists(resourceBase.value, mapping) then
        match ScriptPayload(content.payload, mapping, name, isWorkflows)
        case Failure(e) => Failure(e)
        case Success(payload) =>
          if SCRIPT_PLUGIN_NAME !in plugins then Failure(LogicError(SCRIPT_PLUGIN_MISSING, name))
          else if isWorkflows then Success(WorkflowOperation(SCRIPT_PLUGIN_NAME, SCRIPT_PLUGIN_EXECUTE_WORKFLOW_TASK, Some(payload)))
          else
            Success(NodeResult(name, SCRIPT_PLUGIN_NAME, SCRIPT_PLUGIN_RUN_TASK, Some(payload),
                               EffectiveExecutor(content.executor, plugins[SCRIPT_PLUGIN_NAME]),
                               content.maxRetries, content.retryInterval))
      else Failure(LogicError(errorCode, name))
  }

  /** The single element of a singleton set. */
  function PickOne(s: set<string>): (x: string)
    requires |s| == 1
    ensures s == {x}
  {
    SingletonHasOneElement(s);
    var x :| x in s;
    x
  }

  /** Two elements of a singleton set are equal. */
  lemma SingletonHasOneElement(s: set<string>)
    requires |s| == 1
    ensures forall x, y :: x in s && y in s ==> x == y
  {
    forall x, y | x in s && y in s
      ensures x == y
    {
      assert |s - {x}| == 0;
      assert y !in s - {x};
    }
  }

  /** `process_interface_operations`: every operation of an interface, in
      the order of its items; the first failure is raised. */
  function ProcessInterfaceOperations(items: seq<(string, OperationContent)>, plugins: map<string, Plugin>, errorCode: int,
                                      resourceBase: Option<string>, resourceExists: (string, string) -> bool): (r: Result<seq<ProcessedOperation>>)
    ensures r.Success? ==> |r.value| == |items| && forall i :: 0 <= i < |items| ==>
      ProcessOperation(plugins, items[i].0, items[i].1, errorCode, resourceBase, false, resourceExists) == Success(r.value[i])
    ensures r.Failure? ==> exists i :: (0 <= i < |items| &&
      ProcessOperation(plugins, items[i].0, items[i].1, errorCode, resourceBase, false, resourceExists) == Failure(r.error))
  {
    if items == [] then Success([])
    else
      match ProcessOperation(plugins, items[0].0, items[0].1, errorCode, resourceBase, false, resourceExists)
      case Failure(e) => Failure(e)
      case Success(op) =>
        match ProcessInterfaceOperations(items[1..], plugins, errorCode, resourceBase, resourceExists)
        case Failure(e) => Failure(e)
        case Success(ops) => Success([op] + ops)
  }
}
