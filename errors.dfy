/**
 * The error taxonomy of src/errors.rs: one datatype per error enum, each
 * with the text its `Display` implementation writes, and the `From`
 * conversions that wrap a specific error in the library-wide error.
 */
module Errors {
  import opened Text

  datatype NodeError =
    | NodeNotFound(id: int)
    | NodeAlreadyExists(id: int)
    | InvalidNodeId(id: int)
  {
    function Display(): string
    {
      match this
      case NodeNotFound(id) => "Node " + IntToString(id) + " not found"
      case NodeAlreadyExists(id) => "Node " + IntToString(id) + " already exists"
      case InvalidNodeId(id) => "Invalid node ID: " + IntToString(id)
    }
  }

  datatype ToolError =
    | ToolNotFound(name: string)
    | ToolExecutionFailed(name: string, error: string)
    | InvalidArguments(name: string, error: string)
    | ToolAlreadyRegistered(name: string)
  {
    function Display(): string
    {
      match this
      case ToolNotFound(name) => "Tool '" + name + "' not found"
      case ToolExecutionFailed(name, error) => "Tool '" + name + "' execution failed: " + error
      case InvalidArguments(name, error) => "Invalid arguments for tool '" + name + "': " + error
      case ToolAlreadyRegistered(name) => "Tool '" + name + "' is already registered"
    }
  }

  datatype ApiError =
    | RequestFailed(msg: string)
    | InvalidResponse(msg: string)
    | RateLimitExceeded
    | AuthenticationFailed
    | Timeout
  {
    function Display(): string
    {
      match this
      case RequestFailed(msg) => "API request failed: " + msg
      case InvalidResponse(msg) => "Invalid API response: " + msg
      case RateLimitExceeded => "API rate limit exceeded"
      case AuthenticationFailed => "API authentication failed"
      case Timeout => "API request timed out"
    }
  }

  datatype AgentError =
    | ExecutionFailed(agent: string, error: string)
    | InvalidInput(msg: string)
    | InvalidOutput(msg: string)
    | MaxIterationsExceeded
  {
    function Display(): string
    {
      match this
      case ExecutionFailed(agent, error) => "Agent '" + agent + "' execution failed: " + error
      case InvalidInput(msg) => "Invalid input: " + msg
      case InvalidOutput(msg) => "Invalid output: " + msg
      case MaxIterationsExceeded => "Maximum iterations exceeded"
    }
  }

  datatype GraphError =
    | CycleDetected
    | DisconnectedGraph
    | InvalidEdge(from: int, to: int)
    | EmptyGraph
  {
    function Display(): string
    {
      match this
      case CycleDetected => "Cycle detected in graph"
      case DisconnectedGraph => "Graph is disconnected"
      case InvalidEdge(from, to) => "Invalid edge from " + IntToString(from) + " to " + IntToString(to)
      case EmptyGraph => "Graph is empty"
    }
  }

  /** `LLMGraphError`: one variant per category, wrapping that category's error. */
  datatype LlmGraphError =
    | NodeErr(node: NodeError)
    | ToolErr(tool: ToolError)
    | ApiErr(api: ApiError)
    | AgentErr(agent: AgentError)
    | GraphErr(graph: GraphError)
    | SerializationError(text: string)
  {
    /** The category prefix the display writes before the wrapped error. */
    function Prefix(): string
    {
      match this
      case NodeErr(_) => "Node error: "
      case ToolErr(_) => "Tool error: "
      case ApiErr(_) => "API error: "
      case AgentErr(_) => "Agent error: "
      case GraphErr(_) => "Graph error: "
      case SerializationError(_) => "Serialization error: "
    }

    /** The display text of the wrapped error. */
    function Inner(): string
    {
      match this
      case NodeErr(e) => e.Display()
      case ToolErr(e) => e.Display()
      case ApiErr(e) => e.Display()
      case AgentErr(e) => e.Display()
      case GraphErr(e) => e.Display()
      case SerializationError(s) => s
    }

    function Display(): string
    {
      match this
      case NodeErr(e) => "Node error: " + e.Display()
      case ToolErr(e) => "Tool error: " + e.Display()
      case ApiErr(e) => "API error: " + e.Display()
      case AgentErr(e) => "Agent error: " + e.Display()
      case GraphErr(e) => "Graph error: " + e.Display()
      case SerializationError(s) => "Serialization error: " + s
    }
  }

  // The `From` conversions.

  function FromNodeError(e: NodeError): (r: LlmGraphError)
    ensures r.NodeErr? && r.Inner() == e.Display()
  {
    NodeErr(e)
  }

  function FromToolError(e: ToolError): (r: LlmGraphError)
    ensures r.ToolErr? && r.Inner() == e.Display()
  {
    ToolErr(e)
  }

  function FromApiError(e: ApiError): (r: LlmGraphError)
    ensures r.ApiErr? && r.Inner() == e.Display()
  {
    ApiErr(e)
  }

  function FromAgentError(e: AgentError): (r: LlmGraphError)
    ensures r.AgentErr? && r.Inner() == e.Display()
  {
    AgentErr(e)
  }

  function FromGraphError(e: GraphError): (r: LlmGraphError)
    ensures r.GraphErr? && r.Inner() == e.Display()
  {
    GraphErr(e)
  }

  /**
   * Every wrapped error displays as its category prefix followed by the
   * wrapped error's own text, so that text always survives the wrapping.
   */
  lemma DisplayIsPrefixThenInner(e: LlmGraphError)
    ensures e.Display() == e.Prefix() + e.Inner()
    ensures Contains(e.Display(), e.Inner())
  {
    ContainsAt(e.Display(), e.Inner(), |e.Prefix()|);
  }

  /** The wrapped `NodeNotFound(id)` mentions "Node {id} not found". */
  lemma WrappedNodeNotFound(id: int)
    ensures Contains(FromNodeError(NodeNotFound(id)).Display(), "Node " + IntToString(id) + " not found")
  {
    DisplayIsPrefixThenInner(FromNodeError(NodeNotFound(id)));
  }

  /** The wrapped `ToolNotFound(name)` mentions "Tool '{name}' not found". */
  lemma WrappedToolNotFound(name: string)
    ensures Contains(FromToolError(ToolNotFound(name)).Display(), "Tool '" + name + "' not found")
  {
    DisplayIsPrefixThenInner(FromToolError(ToolNotFound(name)));
  }

  /** The wrapped `InvalidEdge { from, to }` mentions "Invalid edge from {from} to {to}". */
  lemma WrappedInvalidEdge(from: int, to: int)
    ensures Contains(FromGraphError(InvalidEdge(from, to)).Display(),
                     "Invalid edge from " + IntToString(from) + " to " + IntToString(to))
  {
    DisplayIsPrefixThenInner(FromGraphError(InvalidEdge(from, to)));
  }

  /** The wrapped `RateLimitExceeded` mentions "rate limit". */
  lemma WrappedRateLimit()
    ensures Contains(FromApiError(RateLimitExceeded).Display(), "rate limit")
  {
    var d := FromApiError(RateLimitExceeded).Display();
    assert d == "API error: API rate limit exceeded";
    assert d[15..25] == "rate limit";
    ContainsAt(d, "rate limit", 15);
  }
}
