/**
 * The graph engine of src/models/graph.rs: a table of integer-keyed
 * nodes, each holding an agent, its neighbour list and its own tool
 * registry, beside one registry shared by every node; and the run loop
 * that hands each agent's output to the node it names next.
 */
module Graphs {
  import opened Prelude
  import opened Text
  import Tools
  import Agents

  /** `Node`: an agent, the ids of its neighbours and its node-local tool registry. */
  datatype Node = Node(agent: Agents.Agent, neighbors: seq<int>, toolRegistry: Tools.ToolRegistry)

  /** The text the run appends when it is sent to an id with no node. */
  function NodeMissing(id: int): string
  {
    "Error: Node " + IntToString(id) + " does not exist\n"
  }

  /** The error `add_edge` returns when an endpoint has no node. */
  const MissingEndpoint: string := "One or both nodes do not exist"

  /** The error `register_tool_for_node` returns for an id with no node. */
  function NoSuchNode(id: int): string
  {
    "Node " + IntToString(id) + " does not exist"
  }

  predicate NoDuplicates(s: seq<int>)
  {
    forall i, j :: 0 <= i < j < |s| ==> s[i] != s[j]
  }

  /** `x` pushed onto `ns` unless it is there already. */
  function WithNeighbor(ns: seq<int>, x: int): (r: seq<int>)
    ensures forall y :: y in r <==> y in ns || y == x
    ensures NoDuplicates(ns) ==> NoDuplicates(r)
    ensures |ns| <= |r| <= |ns| + 1 && r[..|ns|] == ns
  {
    if x in ns then ns else ns + [x]
  }

  /** Adding a neighbour a second time changes nothing. */
  lemma WithNeighborIdempotent(ns: seq<int>, x: int)
    ensures WithNeighbor(WithNeighbor(ns, x), x) == WithNeighbor(ns, x)
  {
    assert x in WithNeighbor(ns, x);
  }

  /**
   * The node table after a successful `add_edge(u, v)`: `v` added to the
   * neighbours of `u`, then `u` to those of `v`.
   */
  function Connect(nodes: map<int, Node>, u: int, v: int): map<int, Node>
    requires u in nodes && v in nodes
  {
    var first := nodes[u := nodes[u].(neighbors := WithNeighbor(nodes[u].neighbors, v))];
    first[v := first[v].(neighbors := WithNeighbor(first[v].neighbors, u))]
  }

  /**
   * After `Connect` each endpoint lists the other and nothing else was
   * added to either list; no node appears or disappears, no agent or
   * registry changes, and every other node is untouched.
   */
  lemma ConnectLinksBoth(nodes: map<int, Node>, u: int, v: int)
    requires u in nodes && v in nodes
    ensures var r := Connect(nodes, u, v);
      r.Keys == nodes.Keys
      && v in r[u].neighbors && u in r[v].neighbors
      && (forall y :: y in r[u].neighbors <==> y in nodes[u].neighbors || y == v || (u == v && y == u))
      && (forall y :: y in r[v].neighbors <==> y in nodes[v].neighbors || y == u || (u == v && y == v))
      && (forall id :: id in r ==> r[id].agent == nodes[id].agent && r[id].toolRegistry == nodes[id].toolRegistry)
      && (forall id :: id in r && id != u && id != v ==> r[id] == nodes[id])
  {
  }

  /** `add_edge` is idempotent, loops `u == v` included. */
  lemma ConnectIdempotent(nodes: map<int, Node>, u: int, v: int)
    requires u in nodes && v in nodes
    ensures Connect(Connect(nodes, u, v), u, v) == Connect(nodes, u, v)
  {
    var once := Connect(nodes, u, v);
    ConnectLinksBoth(nodes, u, v);
    assert v in once[u].neighbors && u in once[v].neighbors;
    var first := once[u := once[u].(neighbors := WithNeighbor(once[u].neighbors, v))];
    assert first == once;
  }

  /** Neighbour lists without repeats stay without repeats. */
  lemma ConnectNoDuplicates(nodes: map<int, Node>, u: int, v: int)
    requires u in nodes && v in nodes
    requires forall id :: id in nodes ==> NoDuplicates(nodes[id].neighbors)
    ensures var r := Connect(nodes, u, v);
      forall id :: id in r ==> NoDuplicates(r[id].neighbors)
  {
  }

  /** Neighbour lists hold ids that have nodes, each at most once. */
  predicate NeighborsWellFormed(nodes: map<int, Node>)
  {
    forall id :: id in nodes ==> NoDuplicates(nodes[id].neighbors) && forall y :: y in nodes[id].neighbors ==> y in nodes
  }

  /** `add_edge` between existing nodes keeps neighbour lists well formed. */
  lemma ConnectWellFormed(nodes: map<int, Node>, u: int, v: int)
    requires u in nodes && v in nodes && NeighborsWellFormed(nodes)
    ensures NeighborsWellFormed(Connect(nodes, u, v))
  {
    ConnectLinksBoth(nodes, u, v);
    ConnectNoDuplicates(nodes, u, v);
  }

  /** Every edge is recorded at both of its ends. */
  ghost predicate Symmetric(nodes: map<int, Node>)
  {
    forall a, b :: a in nodes && b in nodes[a].neighbors ==> b in nodes && a in nodes[b].neighbors
  }

  /** `add_edge` keeps every edge recorded at both ends. */
  lemma ConnectKeepsSymmetric(nodes: map<int, Node>, u: int, v: int)
    requires u in nodes && v in nodes && Symmetric(nodes)
    ensures Symmetric(Connect(nodes, u, v))
  {
    ConnectLinksBoth(nodes, u, v);
    var r := Connect(nodes, u, v);
    forall a, b | a in r && b in r[a].neighbors ensures b in r && a in r[b].neighbors {
      if (a == u && b == v) || (a == v && b == u) {
      } else if a == u || a == v {
        assert b in nodes[a].neighbors;
      } else {
        assert r[a] == nodes[a];
      }
    }
  }

  /** Installing a node under a fresh id keeps every edge recorded at both ends. */
  lemma FreshNodeKeepsSymmetric(nodes: map<int, Node>, id: int, node: Node)
    requires Symmetric(nodes) && id !in nodes && node.neighbors == []
    ensures Symmetric(nodes[id := node])
  {
  }

  /**
   * `add_node` under an id already in use replaces the node with one
   * that has no neighbours, while its former neighbours still list it:
   * the edges become one-sided.
   */
  lemma ReplacingNodeDropsOneSide(nodes: map<int, Node>, id: int, b: int, node: Node)
    requires Symmetric(nodes) && id in nodes && b in nodes[id].neighbors && b != id
    requires node.neighbors == []
    ensures b in nodes[id := node] && id in nodes[id := node][b].neighbors
    ensures !Symmetric(nodes[id := node])
  {
    var r := nodes[id := node];
    assert id in r[b].neighbors && id !in r[id].neighbors;
  }

  /** How a run ended: an agent named no next node or an unknown one, or the fuel ran out. */
  datatype Outcome = Outcome(transcript: string, nodes: map<int, Node>, halted: bool)

  /** How one agent runs: `Agents.AgentStep` for the graph itself. */
  type StepFunction = (Agents.Agent, string, Tools.CombinedToolRegistry) -> Agents.Reply

  /** The registry an agent at `node` is handed: its own over the shared one. */
  function ViewAt(node: Node, global: Tools.ToolRegistry): (v: Tools.CombinedToolRegistry)
    ensures v.primary == node.toolRegistry && v.secondary == global
  {
    Tools.CombinedToolRegistry(node.toolRegistry, global)
  }

  /**
   * The run from node `current` on `input`, with at most `fuel` agent
   * runs, each made by `run`: the transcript it appends, the node table
   * afterwards (each agent that ran replaced by its state after the run)
   * and whether it stopped of its own accord.
   */
  function Dispatch(run: StepFunction, nodes: map<int, Node>, global: Tools.ToolRegistry, current: int,
                    input: string, fuel: nat): Outcome
    decreases fuel
  {
    if current !in nodes then Outcome(NodeMissing(current), nodes, true)
    else if fuel == 0 then Outcome([], nodes, false)
    else
      var node := nodes[current];
      var step := run(node.agent, input, ViewAt(node, global));
      var after := nodes[current := node.(agent := step.agent)];
      var line := step.output + "\n";
      match step.next
      case None => Outcome(line, after, true)
      case Some(next) =>
        if next in after then
          var rest := Dispatch(run, after, global, next, step.output, fuel - 1);
          Outcome(line + rest.transcript, rest.nodes, rest.halted)
        else
          Outcome(line + NodeMissing(next), after, true)
  }

  /**
   * A run changes agents only: no node appears or disappears, and every
   * node keeps its neighbours and its registry.
   */
  lemma {:induction false} DispatchKeepsShape(run: StepFunction, nodes: map<int, Node>, global: Tools.ToolRegistry,
                                              current: int, input: string, fuel: nat)
    ensures var r := Dispatch(run, nodes, global, current, input, fuel);
      r.nodes.Keys == nodes.Keys
      && forall id :: id in nodes ==>
           r.nodes[id].neighbors == nodes[id].neighbors && r.nodes[id].toolRegistry == nodes[id].toolRegistry
    decreases fuel
  {
    if current in nodes && fuel > 0 {
      var node := nodes[current];
      var step := run(node.agent, input, ViewAt(node, global));
      var after := nodes[current := node.(agent := step.agent)];
      if step.next.Some? && step.next.value in after {
        DispatchKeepsShape(run, after, global, step.next.value, step.output, fuel - 1);
      }
    }
  }

  /** A run that stops of its own accord has written at least one line, and ends with a newline. */
  lemma {:induction false} HaltedEndsLine(run: StepFunction, nodes: map<int, Node>, global: Tools.ToolRegistry,
                                          current: int, input: string, fuel: nat)
    ensures var r := Dispatch(run, nodes, global, current, input, fuel);
      r.halted ==> r.transcript != [] && r.transcript[|r.transcript| - 1] == '\n'
    decreases fuel
  {
    if current in nodes && fuel > 0 {
      var node := nodes[current];
      var step := run(node.agent, input, ViewAt(node, global));
      var after := nodes[current := node.(agent := step.agent)];
      var line := step.output + "\n";
      if step.next.Some? && step.next.value in after {
        var rest := Dispatch(run, after, global, step.next.value, step.output, fuel - 1);
        HaltedEndsLine(run, after, global, step.next.value, step.output, fuel - 1);
        if rest.halted {
          assert (line + rest.transcript)[|line + rest.transcript| - 1] == rest.transcript[|rest.transcript| - 1];
        }
      }
    }
  }

  /** When every step keeps the agent's name, so does a run of the graph. */
  lemma {:induction false} DispatchKeepsNames(run: StepFunction, nodes: map<int, Node>, global: Tools.ToolRegistry,
                                              current: int, input: string, fuel: nat)
    requires forall a, i, v :: Agents.Name(run(a, i, v).agent) == Agents.Name(a)
    ensures var r := Dispatch(run, nodes, global, current, input, fuel);
      forall id :: id in nodes ==> id in r.nodes && Agents.Name(r.nodes[id].agent) == Agents.Name(nodes[id].agent)
    decreases fuel
  {
    DispatchKeepsShape(run, nodes, global, current, input, fuel);
    if current in nodes && fuel > 0 {
      var node := nodes[current];
      var step := run(node.agent, input, ViewAt(node, global));
      var after := nodes[current := node.(agent := step.agent)];
      if step.next.Some? && step.next.value in after {
        DispatchKeepsNames(run, after, global, step.next.value, step.output, fuel - 1);
      }
    }
  }

  /** Agents keep their names through a run of the graph. */
  lemma RunKeepsNames(nodes: map<int, Node>, global: Tools.ToolRegistry, current: int, input: string, fuel: nat)
    ensures var r := Dispatch(Agents.AgentStep, nodes, global, current, input, fuel);
      forall id :: id in nodes ==> id in r.nodes && Agents.Name(r.nodes[id].agent) == Agents.Name(nodes[id].agent)
  {
    forall a, i, v ensures Agents.Name(Agents.AgentStep(a, i, v).agent) == Agents.Name(a) {
      Agents.StepKeepsName(a, i, v);
    }
    DispatchKeepsNames(Agents.AgentStep, nodes, global, current, input, fuel);
  }

  /** A run from an id with no node reports it and runs no agent. */
  lemma MissingStart(run: StepFunction, nodes: map<int, Node>, global: Tools.ToolRegistry, start: int, input: string, fuel: nat)
    requires start !in nodes
    ensures Dispatch(run, nodes, global, start, input, fuel) == Outcome("Error: Node " + IntToString(start) + " does not exist\n", nodes, true)
  {
  }

  /**
   * One step of a run: the current agent runs on the input, handed its
   * node's registry over the shared one; its output and a newline open
   * the transcript, and the run goes on at the node it names, on its
   * output, or ends there.
   */
  lemma DispatchStep(run: StepFunction, nodes: map<int, Node>, global: Tools.ToolRegistry, current: int,
                     input: string, fuel: nat, step: Agents.Reply)
    requires current in nodes && fuel > 0
    requires step == run(nodes[current].agent, input, Tools.CombinedToolRegistry(nodes[current].toolRegistry, global))
    ensures var after := nodes[current := nodes[current].(agent := step.agent)];
      var r := Dispatch(run, nodes, global, current, input, fuel);
      step.output + "\n" <= r.transcript
      && (step.next.None? ==> r == Outcome(step.output + "\n", after, true))
      && (step.next.Some? && step.next.value !in nodes ==>
            r == Outcome(step.output + "\n" + NodeMissing(step.next.value), after, true))
      && (step.next.Some? && step.next.value in nodes ==>
            var rest := Dispatch(run, after, global, step.next.value, step.output, fuel - 1);
            r.transcript == step.output + "\n" + rest.transcript && r.nodes == rest.nodes && r.halted == rest.halted)
  {
  }

  /**
   * Fuel only bounds a run: once a run stops of its own accord, more
   * fuel gives the same transcript and node table.
   */
  lemma {:induction false} FuelIrrelevant(run: StepFunction, nodes: map<int, Node>, global: Tools.ToolRegistry,
                                          current: int, input: string, fuel: nat, more: nat)
    requires Dispatch(run, nodes, global, current, input, fuel).halted && fuel <= more
    ensures Dispatch(run, nodes, global, current, input, more) == Dispatch(run, nodes, global, current, input, fuel)
    decreases fuel
  {
    if current in nodes && fuel > 0 {
      var node := nodes[current];
      var step := run(node.agent, input, ViewAt(node, global));
      var after := nodes[current := node.(agent := step.agent)];
      if step.next.Some? && step.next.value in after {
        FuelIrrelevant(run, after, global, step.next.value, step.output, fuel - 1, more - 1);
      }
    }
  }

  /**
   * A two-node graph: a router that sends everything to node 1, and an
   * echo agent there. The run from node 0 writes both replies, the echo
   * of the router's reply second, and stops.
   */
  lemma TwoNodeRun(global: Tools.ToolRegistry, r0: Tools.ToolRegistry, r1: Tools.ToolRegistry,
                   input: string, fuel: nat)
    requires fuel >= 2
    ensures var nodes := map[0 := Node(Agents.FixedRoute("Router", 1), [1], r0), 1 := Node(Agents.Echo("Echo"), [0], r1)];
      var routed := "Routing '" + input + "' to node 1";
      Dispatch(Agents.AgentStep, nodes, global, 0, input, fuel) == Outcome(routed + "\n" + ("Echo: " + routed + "\n"), nodes, true)
  {
    var nodes := map[0 := Node(Agents.FixedRoute("Router", 1), [1], r0), 1 := Node(Agents.Echo("Echo"), [0], r1)];
    var routed := "Routing '" + input + "' to node 1";
    var first := Agents.AgentStep(nodes[0].agent, input, ViewAt(nodes[0], global));
    assert IntToString(1) == "1";
    assert first == Agents.Reply(nodes[0].agent, routed, Some(1));
    assert nodes[0 := nodes[0].(agent := first.agent)] == nodes;
    DispatchStep(Agents.AgentStep, nodes, global, 0, input, fuel, first);
    var second := Agents.AgentStep(nodes[1].agent, routed, ViewAt(nodes[1], global));
    assert second == Agents.Reply(nodes[1].agent, "Echo: " + routed, None);
    assert nodes[1 := nodes[1].(agent := second.agent)] == nodes;
    DispatchStep(Agents.AgentStep, nodes, global, 1, routed, fuel - 1, second);
  }

  /** A run's outcome with `done` written before its transcript. */
  function After(done: string, o: Outcome): (r: Outcome)
    ensures r.transcript == done + o.transcript && r.nodes == o.nodes && r.halted == o.halted
  {
    o.(transcript := done + o.transcript)
  }

  /**
   * The loop's view of a step that goes on to an existing node: the node
   * table `after` it leaves and the text `written` so far, continued from
   * the next node, still end in `goal`.
   */
  lemma ContinueRun(run: StepFunction, nodes: map<int, Node>, global: Tools.ToolRegistry, current: int,
                    input: string, fuel: nat, step: Agents.Reply, done: string, goal: Outcome,
                    after: map<int, Node>, written: string, next: int, rest: nat)
    requires current in nodes && fuel > 0 && rest == fuel - 1
    requires step == run(nodes[current].agent, input, Tools.CombinedToolRegistry(nodes[current].toolRegistry, global))
    requires After(done, Dispatch(run, nodes, global, current, input, fuel)) == goal
    requires step.next == Some(next) && next in nodes
    requires after == nodes[current := nodes[current].(agent := step.agent)]
    requires written == done + (step.output + "\n")
    ensures After(written, Dispatch(run, after, global, next, step.output, rest)) == goal
  {
    DispatchStep(run, nodes, global, current, input, fuel, step);
    var tail := Dispatch(run, after, global, next, step.output, rest);
    assert done + (step.output + "\n" + tail.transcript) == written + tail.transcript;
  }

  /** The loop's view of a step that names no next node: the run is over. */
  lemma StopRun(run: StepFunction, nodes: map<int, Node>, global: Tools.ToolRegistry, current: int,
                input: string, fuel: nat, step: Agents.Reply, done: string, goal: Outcome)
    requires current in nodes && fuel > 0
    requires step == run(nodes[current].agent, input, Tools.CombinedToolRegistry(nodes[current].toolRegistry, global))
    requires After(done, Dispatch(run, nodes, global, current, input, fuel)) == goal
    requires step.next.None?
    ensures goal.transcript == done + (step.output + "\n")
    ensures goal.nodes == nodes[current := nodes[current].(agent := step.agent)]
  {
    DispatchStep(run, nodes, global, current, input, fuel, step);
  }

  /** The loop's view of a step that names a node that does not exist. */
  lemma StopAtMissingNext(run: StepFunction, nodes: map<int, Node>, global: Tools.ToolRegistry, current: int,
                          input: string, fuel: nat, step: Agents.Reply, done: string, goal: Outcome)
    requires current in nodes && fuel > 0
    requires step == run(nodes[current].agent, input, Tools.CombinedToolRegistry(nodes[current].toolRegistry, global))
    requires After(done, Dispatch(run, nodes, global, current, input, fuel)) == goal
    requires step.next.Some? && step.next.value !in nodes
    ensures goal.transcript == done + (step.output + "\n") + NodeMissing(step.next.value)
    ensures goal.nodes == nodes[current := nodes[current].(agent := step.agent)]
  {
    DispatchStep(run, nodes, global, current, input, fuel, step);
    var line := step.output + "\n";
    assert done + (line + NodeMissing(step.next.value)) == done + line + NodeMissing(step.next.value);
  }

  /** The loop's view of a run that reaches a missing node or runs out of steps. */
  lemma StopBeforeStep(run: StepFunction, nodes: map<int, Node>, global: Tools.ToolRegistry, current: int,
                       input: string, fuel: nat, done: string, goal: Outcome)
    requires After(done, Dispatch(run, nodes, global, current, input, fuel)) == goal
    requires current !in nodes || fuel == 0
    ensures current !in nodes ==> goal.transcript == done + NodeMissing(current)
    ensures current in nodes ==> goal.transcript == done
    ensures goal.nodes == nodes
  {
  }

  /**
   * One pass of the loop of `run`: stop at a missing node or when no step
   * is left, otherwise run the current node's agent, record its output and
   * its new state, and either stop or move on to the node it names. The
   * run that remains still ends in `goal`.
   */
  method RunOnce(table: map<int, Node>, global: Tools.ToolRegistry, current: int, currentInput: string,
                 remaining: nat, result: string, ghost goal: Outcome)
    returns (stop: bool, table': map<int, Node>, current': int, input': string, remaining': nat, result': string)
    requires After(result, Dispatch(Agents.AgentStep, table, global, current, currentInput, remaining)) == goal
    ensures stop ==> result' == goal.transcript && table' == goal.nodes
    ensures !stop ==> (remaining' < remaining
      && After(result', Dispatch(Agents.AgentStep, table', global, current', input', remaining')) == goal)
  {
    current', input', remaining' := current, currentInput, remaining;
    if current !in table || remaining == 0 {
      StopBeforeStep(Agents.AgentStep, table, global, current, currentInput, remaining, result, goal);
      stop, table' := true, table;
      result' := if current !in table then result + NodeMissing(current) else result;
      return;
    }
    var node := table[current];
    var step := Agents.RunAgent(node.agent, currentInput, Tools.CombinedToolRegistry(node.toolRegistry, global));
    table' := table[current := node.(agent := step.agent)];
    result' := result + (step.output + "\n");
    if step.next.None? {
      StopRun(Agents.AgentStep, table, global, current, currentInput, remaining, step, result, goal);
      stop := true;
      return;
    }
    var next := step.next.value;
    if next !in table {
      StopAtMissingNext(Agents.AgentStep, table, global, current, currentInput, remaining, step, result, goal);
      stop, result' := true, result' + NodeMissing(next);
      return;
    }
    stop, current', input', remaining' := false, next, step.output, remaining - 1;
    ContinueRun(Agents.AgentStep, table, global, current, currentInput, remaining, step, result, goal,
                table', result', current', remaining');
  }

  /**
   * The loop of `run` over a node table: each agent is run in turn,
   * handed its node's registry over the shared one, its output and a
   * newline appended to the result, and replaced in the table by its
   * state after the run.
   */
  method RunFrom(nodes: map<int, Node>, global: Tools.ToolRegistry, start: int, input: string, fuel: nat)
    returns (result: string, table: map<int, Node>)
    ensures var d := Dispatch(Agents.AgentStep, nodes, global, start, input, fuel);
      result == d.transcript && table == d.nodes
  {
    table := nodes;
    ghost var goal := Dispatch(Agents.AgentStep, table, global, start, input, fuel);
    var current := start;
    var currentInput := input;
    var remaining := fuel;
    result := [];
    while true
      invariant After(result, Dispatch(Agents.AgentStep, table, global, current, currentInput, remaining)) == goal
      decreases remaining
    {
      var stop;
      stop, table, current, currentInput, remaining, result :=
        RunOnce(table, global, current, currentInput, remaining, result, goal);
      if stop {
        return;
      }
    }
  }

  /** `Graph`: the node table and the registry shared by all nodes. */
  class Graph {
    var nodes: map<int, Node>
    var toolRegistry: Tools.ToolRegistry

    /** Every registry the graph owns: the shared one and one per node. */
    ghost function Registries(): set<Tools.ToolRegistry>
      reads this
    {
      {toolRegistry} + set id | id in nodes :: nodes[id].toolRegistry
    }

    /**
     * Every registry is well formed; each node owns its registry, shared
     * with no other node and distinct from the shared one; neighbour
     * lists hold existing ids, each once.
     */
    ghost predicate Valid()
      reads this, Registries()
    {
      && toolRegistry.Valid()
      && (forall id :: id in nodes ==> nodes[id].toolRegistry.Valid() && nodes[id].toolRegistry != toolRegistry)
      && (forall a, b :: a in nodes && b in nodes && a != b ==> nodes[a].toolRegistry != nodes[b].toolRegistry)
      && NeighborsWellFormed(nodes)
    }

    /** `Graph::new`: no nodes and an empty shared registry. */
    constructor ()
      ensures Valid()
      ensures nodes == map[] && fresh(toolRegistry)
      ensures toolRegistry.tools == map[] && toolRegistry.functions == map[]
    {
      nodes := map[];
      toolRegistry := new Tools.ToolRegistry();
    }

    /** `register_tool`: registers in the shared registry only. */
    method RegisterTool(tool: Tools.Tool, implementation: Tools.ToolFunction)
      requires Valid()
      modifies toolRegistry
      ensures Valid()
      ensures toolRegistry.tools == old(toolRegistry.tools)[tool.Name() := tool]
      ensures toolRegistry.functions == old(toolRegistry.functions)[tool.Name() := implementation]
    {
      toolRegistry.RegisterTool(tool, implementation);
    }

    /**
     * `register_tool_for_node`: registers in the registry of node
     * `nodeId`, and in no other; an id with no node is an error that
     * changes nothing.
     */
    method RegisterToolForNode(nodeId: int, tool: Tools.Tool, implementation: Tools.ToolFunction)
      returns (r: Result<Unit, string>)
      requires Valid()
      modifies if nodeId in nodes then {nodes[nodeId].toolRegistry} else {}
      ensures Valid()
      ensures nodeId !in nodes ==> r == Err(NoSuchNode(nodeId))
      ensures nodeId in nodes ==> (r.Ok?
        && nodes[nodeId].toolRegistry.tools == old(nodes[nodeId].toolRegistry.tools)[tool.Name() := tool]
        && nodes[nodeId].toolRegistry.functions == old(nodes[nodeId].toolRegistry.functions)[tool.Name() := implementation])
      ensures unchanged(toolRegistry)
      ensures forall id :: id in nodes && id != nodeId ==> unchanged(nodes[id].toolRegistry)
    {
      if nodeId in nodes {
        nodes[nodeId].toolRegistry.RegisterTool(tool, implementation);
        r := Ok(Unit);
      } else {
        r := Err(NoSuchNode(nodeId));
      }
    }

    /** `get_node_tool_registry`. */
    function GetNodeToolRegistry(nodeId: int): (r: Option<Tools.ToolRegistry>)
      reads this
      ensures r.Some? <==> nodeId in nodes
      ensures r.Some? ==> r.value == nodes[nodeId].toolRegistry
    {
      if nodeId in nodes then Some(nodes[nodeId].toolRegistry) else None
    }

    /** `get_shared_tool_registry`. */
    function GetSharedToolRegistry(): Tools.ToolRegistry
      reads this
    {
      toolRegistry
    }

    /**
     * `add_node`: installs, under `id`, `agent` with no neighbours and a
     * new empty registry, replacing any node already there; every other
     * node and the shared registry stay as they were.
     */
    method AddNode(id: int, agent: Agents.Agent)
      requires Valid()
      modifies this
      ensures Valid()
      ensures id in nodes && nodes == old(nodes)[id := nodes[id]]
      ensures nodes[id].agent == agent && nodes[id].neighbors == [] && fresh(nodes[id].toolRegistry)
      ensures nodes[id].toolRegistry.tools == map[] && nodes[id].toolRegistry.functions == map[]
      ensures toolRegistry == old(toolRegistry)
    {
      var registry := new Tools.ToolRegistry();
      nodes := nodes[id := Node(agent, [], registry)];
    }

    /**
     * `add_edge`: records the undirected edge at both ends, at most once
     * each; with an endpoint missing it fails and changes nothing.
     */
    method AddEdge(u: int, v: int) returns (r: Result<Unit, string>)
      requires Valid()
      modifies this
      ensures Valid()
      ensures (u !in old(nodes) || v !in old(nodes)) ==> r == Err(MissingEndpoint) && nodes == old(nodes)
      ensures (u in old(nodes) && v in old(nodes)) ==> r == Ok(Unit) && nodes == Connect(old(nodes), u, v)
      ensures toolRegistry == old(toolRegistry)
    {
      if u !in nodes || v !in nodes {
        return Err(MissingEndpoint);
      }
      ghost var target := Connect(nodes, u, v);
      ConnectLinksBoth(nodes, u, v);
      ConnectWellFormed(nodes, u, v);
      var nu := nodes[u];
      nodes := nodes[u := nu.(neighbors := WithNeighbor(nu.neighbors, v))];
      var nv := nodes[v];
      nodes := nodes[v := nv.(neighbors := WithNeighbor(nv.neighbors, u))];
      assert nodes == target;
      r := Ok(Unit);
    }

    /**
     * `run`, with at most `fuel` agent runs: the transcript and the new
     * agents are those `Dispatch` prescribes for `Agents.AgentStep`;
     * neighbours and registries are left alone.
     */
    method Run(start: int, input: string, fuel: nat) returns (result: string)
      requires Valid()
      modifies this
      ensures Valid()
      ensures var d := Dispatch(Agents.AgentStep, old(nodes), old(toolRegistry), start, input, fuel);
        result == d.transcript && nodes == d.nodes
      ensures toolRegistry == old(toolRegistry)
    {
      DispatchKeepsShape(Agents.AgentStep, nodes, toolRegistry, start, input, fuel);
      result, nodes := RunFrom(nodes, toolRegistry, start, input, fuel);
    }
  }
}
