/**
 * The stateful agent of src/agents/state.rs: a key-value memory, a
 * bounded history of inputs and an execution counter, updated by every
 * run before an optional user processor sees them.
 */
module State {
  import opened Prelude
  import opened Text
  import opened History
  import Json

  datatype AgentState = AgentState(
    data: map<string, Json.Value>,
    history: seq<string>,
    context: Option<string>,
    executionCount: nat)

  /** `AgentState::default()`. */
  function DefaultState(): (s: AgentState)
    ensures s.data == map[] && s.history == [] && s.context.None? && s.executionCount == 0
  {
    AgentState(map[], [], None, 0)
  }

  /**
   * A user processor: it receives the input and the already-updated state
   * and returns the state it leaves behind, the reply and the next node.
   */
  type Processor = (string, AgentState) -> (AgentState, string, Option<int>)

  datatype StatefulAgent = StatefulAgent(
    name: string,
    state: AgentState,
    processor: Option<Processor>,
    maxHistory: nat)

  /** `StatefulAgent::new`: default state, no processor, history of 100. */
  function NewStateful(name: string): (a: StatefulAgent)
    ensures a.name == name && a.state == DefaultState()
    ensures a.processor.None? && a.maxHistory == 100
  {
    StatefulAgent(name, DefaultState(), None, 100)
  }

  function WithProcessor(a: StatefulAgent, p: Processor): StatefulAgent
  {
    a.(processor := Some(p))
  }

  function WithMaxHistory(a: StatefulAgent, max: nat): StatefulAgent
  {
    a.(maxHistory := max)
  }

  function GetState(a: StatefulAgent): AgentState
  {
    a.state
  }

  function SetState(a: StatefulAgent, s: AgentState): (r: StatefulAgent)
    ensures GetState(r) == s
    ensures r.name == a.name && r.processor == a.processor && r.maxHistory == a.maxHistory
  {
    a.(state := s)
  }

  function Store(a: StatefulAgent, key: string, value: Json.Value): (r: StatefulAgent)
    ensures Retrieve(r, key) == Some(value)
    ensures forall k :: k != key ==> Retrieve(r, k) == Retrieve(a, k)
    ensures r.state.history == a.state.history && r.state.executionCount == a.state.executionCount
    ensures r.state.context == a.state.context
    ensures r.name == a.name && r.processor == a.processor && r.maxHistory == a.maxHistory
  {
    a.(state := a.state.(data := a.state.data[key := value]))
  }

  function Retrieve(a: StatefulAgent, key: string): (r: Option<Json.Value>)
    ensures r.Some? <==> key in a.state.data
    ensures r.Some? ==> r.value == a.state.data[key]
  {
    if key in a.state.data then Some(a.state.data[key]) else None
  }

  function ClearState(a: StatefulAgent): (r: StatefulAgent)
    ensures GetState(r) == DefaultState()
    ensures forall k :: Retrieve(r, k).None?
    ensures r.name == a.name && r.processor == a.processor && r.maxHistory == a.maxHistory
  {
    a.(state := DefaultState())
  }

  /** The bookkeeping every run does first: count the run and remember the input. */
  function Record(s: AgentState, input: string, maxHistory: nat): (r: AgentState)
    ensures r.executionCount == s.executionCount + 1
    ensures r.data == s.data && r.context == s.context
    ensures |s.history| <= maxHistory ==> |r.history| <= maxHistory
    ensures r.history == PushBounded(s.history, input, maxHistory)
  {
    s.(executionCount := s.executionCount + 1,
       history := PushBounded(s.history, input, maxHistory))
  }

  /** The reply of a run without a processor, given the updated state. */
  function DefaultReply(input: string, s: AgentState): string
  {
    "Stateful agent processed: " + input
    + " (execution #" + NatToString(s.executionCount)
    + ", history: " + NatToString(|s.history|) + " items)"
  }

  /** One run: the agent afterwards, its reply and the next node. */
  function Run(a: StatefulAgent, input: string): (r: (StatefulAgent, string, Option<int>))
    ensures r.0.name == a.name && r.0.processor == a.processor && r.0.maxHistory == a.maxHistory
    ensures a.processor.Some? ==>
      var (s, out, next) := a.processor.value(input, Record(a.state, input, a.maxHistory));
      r.0.state == s && r.1 == out && r.2 == next
    ensures a.processor.None? ==>
      r.0.state == Record(a.state, input, a.maxHistory)
      && r.1 == DefaultReply(input, r.0.state) && r.2.None?
  {
    var s := Record(a.state, input, a.maxHistory);
    match a.processor
    case Some(p) =>
      var (s', out, next) := p(input, s);
      (a.(state := s'), out, next)
    case None =>
      (a.(state := s), DefaultReply(input, s), None)
  }

  /** Running a processor-less agent once per input, in order. */
  function RunAll(a: StatefulAgent, inputs: seq<string>): StatefulAgent
    decreases |inputs|
  {
    if inputs == [] then a else RunAll(Run(a, inputs[0]).0, inputs[1..])
  }

  /**
   * Without a processor, `n` runs add exactly `n` to the counter, leave
   * the data and context alone, and leave in the history the last
   * `maxHistory` of all inputs ever seen, oldest first.
   */
  lemma {:induction false} RunAllRemembersLast(a: StatefulAgent, inputs: seq<string>)
    requires a.processor.None? && |a.state.history| <= a.maxHistory
    ensures RunAll(a, inputs).state.executionCount == a.state.executionCount + |inputs|
    ensures RunAll(a, inputs).state.data == a.state.data
    ensures RunAll(a, inputs).state.context == a.state.context
    ensures RunAll(a, inputs).state.history == PushAll(a.state.history, inputs, a.maxHistory)
    ensures RunAll(a, inputs).state.history == LastN(a.state.history + inputs, a.maxHistory)
    decreases |inputs|
  {
    if inputs != [] {
      var next := Run(a, inputs[0]).0;
      RunAllRemembersLast(next, inputs[1..]);
    }
    PushAllKeepsLast(a.state.history, inputs, a.maxHistory);
  }

  /** A fresh agent with a history of five, after some runs, remembers the last five inputs. */
  lemma FreshAgentHistory(name: string, inputs: seq<string>)
    ensures
      var a := RunAll(WithMaxHistory(NewStateful(name), 5), inputs);
      a.state.executionCount == |inputs| && a.state.history == LastN(inputs, 5)
  {
    var a := WithMaxHistory(NewStateful(name), 5);
    RunAllRemembersLast(a, inputs);
    assert a.state.history + inputs == inputs;
  }

  /** The first run of a fresh agent reports execution #1 and one history item. */
  lemma FirstRunReply(name: string, input: string)
    ensures Run(NewStateful(name), input).1
      == "Stateful agent processed: " + input + " (execution #1, history: 1 items)"
  {
    var s := Record(DefaultState(), input, 100);
    assert s.history == [input];
    assert Run(NewStateful(name), input).1 == DefaultReply(input, s);
    FirstCounts(input, s);
  }

  /** The default reply of a state that has run once and holds one item. */
  lemma FirstCounts(input: string, s: AgentState)
    requires s.executionCount == 1 && |s.history| == 1
    ensures DefaultReply(input, s) == "Stateful agent processed: " + input + " (execution #1, history: 1 items)"
  {
    assert NatToString(1) == "1";
  }
}
