/**
 * The flow builder's records: node types, action definitions, flow nodes and
 * edges, and the per-node execution result whose `meta` defaults to `{}`.
 * Positioning and styling metadata that the executor ignores are left out.
 */
module Models {
  import opened Values

  datatype NodeType =
    | ManualTrigger
    | Set
    | Postgres
    | Function
    | DatasetSelector
    | Deepeval
    | BackendAction
    | FileUpload
    | CrewaiFlow
    | DeepevalSynthesizer

  datatype ActionParamType = String | Number | Boolean | Select | File | Json

  /** `default` is `VNone` when the parameter declares no default. */
  datatype ActionParam = ActionParam(
    name: string,
    labelText: string,   // `label` in the source (a reserved word here)
    paramType: ActionParamType,
    required: bool,
    options: Option<seq<string>>,
    default: Value)

  datatype NodeActionDefinition = NodeActionDefinition(
    id: string,
    labelText: string,   // `label` in the source (a reserved word here)
    description: Option<string>,
    nodeType: NodeType,
    params: seq<ActionParam>)

  datatype FlowNodeData = FlowNodeData(
    labelText: string,   // `label` in the source (a reserved word here)
    actionId: Option<string>,
    params: map<string, Value>)

  datatype FlowNode = FlowNode(id: string, nodeType: NodeType, data: FlowNodeData)

  datatype FlowEdge = FlowEdge(id: string, source: string, target: string)

  datatype NodeExecutionResult = NodeExecutionResult(
    status: string,
    output: Option<map<string, Value>>,
    error: Option<string>,
    meta: map<string, Value>)

  /** `NodeExecutionResult(status="success", output=...)`, with the default empty `meta`. */
  function SuccessResult(output: map<string, Value>): NodeExecutionResult {
    NodeExecutionResult("success", Some(output), None, map[])
  }

  /** `NodeExecutionResult(status="error", error=...)`, with the default empty `meta`. */
  function ErrorResult(message: string): NodeExecutionResult {
    NodeExecutionResult("error", None, Some(message), map[])
  }

  /** The flow context shared by all handlers of one run. */
  type Context = map<string, Value>

  /**
   * What calling a handler produces: the result it returned, or the message
   * of the exception it raised. Either way the context it leaves behind is
   * kept, because the handler mutates the shared context object in place.
   */
  datatype HandlerOutcome =
    | Returned(result: NodeExecutionResult, ctx: Context)
    | Raised(message: string, ctx: Context)

  /** An action handler, `(node, ctx) -> result`, with its effect on the context made explicit. */
  type Handler = (FlowNode, Context) -> HandlerOutcome

  /** `result.meta and result.meta.get("requires_user_action")`: the signal that pauses a run. */
  predicate RequiresUserAction(r: NodeExecutionResult) {
    "requires_user_action" in r.meta && Truthy(r.meta["requires_user_action"])
  }
}
