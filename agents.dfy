/**
 * The `Agent` trait of src/models/graph.rs and every agent the repository
 * ships, as one datatype with a variant per agent: the library's retry,
 * stateful, parallel, validator, router and summarizer agents, and the
 * echo, fixed-route and flakey agents its tests run graphs with.
 *
 * An agent is owned by exactly one node (or one wrapping agent) and is
 * run through `&mut self`, so a run is modelled as a step from the
 * agent's value before to its value after, together with the output
 * and the next node. `AgentStep` is that step as a function; `RunAgent`
 * and the loops of the retry and parallel agents are methods proved to
 * compute it.
 */
module Agents {
  import opened Prelude
  import opened Text
  import Tools
  import Retry
  import State
  import Parallel
  import Validator
  import Router
  import Summarizer

  datatype Agent =
    | Echo(name: string)
    | FixedRoute(name: string, target: int)
    | Flakey(failuresRemaining: nat)
    | RetryAgent(inner: Agent, retry: Retry.RetryConfig)
    | StatefulAgent(stateful: State.StatefulAgent)
    | ParallelAgent(agents: seq<Agent>, parallel: Parallel.ParallelConfig)
    | ValidatorAgent(validator: Validator.ValidatorAgent)
    | RouterAgent(router: Router.RouterAgent)
    | SummarizerAgent(summarizer: Summarizer.SummarizerAgent)

  /** `get_name`. */
  function Name(a: Agent): string
  {
    match a
    case Echo(name) => name
    case FixedRoute(name, _) => name
    case Flakey(_) => "FlakeyAgent"
    case RetryAgent(_, c) => c.name
    case StatefulAgent(s) => s.name
    case ParallelAgent(_, c) => c.name
    case ValidatorAgent(v) => v.name
    case RouterAgent(r) => r.name
    case SummarizerAgent(s) => s.name
  }

  /** `RetryAgent::new`: the default retry configuration around `inner`. */
  function NewRetryAgent(inner: Agent): (a: Agent)
    ensures a.RetryAgent? && a.inner == inner
    ensures Name(a) == "Retry[" + Name(inner) + "]"
    ensures a.retry.maxRetries == 3 && a.retry.strategy == Retry.Fixed(1000)
  {
    RetryAgent(inner, Retry.NewRetryConfig(Name(inner)))
  }

  /** `ParallelAgent::add_agent`. */
  function AddAgent(p: Agent, a: Agent): Agent
    requires p.ParallelAgent?
  {
    p.(agents := p.agents + [a])
  }

  /** The number of agents inside `a`, counting `a` itself. */
  function Size(a: Agent): nat
  {
    match a
    case RetryAgent(inner, _) => 1 + Size(inner)
    case ParallelAgent(agents, _) => 1 + SizeAll(agents)
    case _ => 1
  }

  function SizeAll(agents: seq<Agent>): nat
    decreases agents
  {
    if agents == [] then 0 else Size(agents[0]) + SizeAll(agents[1..])
  }

  lemma {:induction false} SizeAllBounds(agents: seq<Agent>, i: nat)
    requires i < |agents|
    ensures Size(agents[i]) <= SizeAll(agents)
    decreases i
  {
    if i > 0 {
      SizeAllBounds(agents[1..], i - 1);
    }
  }

  lemma {:induction false} SizeAllAppend(agents: seq<Agent>, a: Agent)
    ensures SizeAll(agents + [a]) == SizeAll(agents) + Size(a)
    decreases |agents|
  {
    if agents == [] {
      assert [] + [a] == [a];
    } else {
      assert (agents + [a])[1..] == agents[1..] + [a];
      SizeAllAppend(agents[1..], a);
    }
  }

  /** What one run produces: the agent afterwards, its output and the next node. */
  datatype Reply = Reply(agent: Agent, output: string, next: Option<int>)

  /**
   * One run of `a` on `input`, handed the tool registry `view`. No agent
   * of the repository consults the registry; the retry and parallel
   * agents pass it on to the agents they wrap.
   */
  function AgentStep(a: Agent, input: string, view: Tools.CombinedToolRegistry): (r: Reply)
    ensures Size(r.agent) == Size(a)
    decreases Size(a), 1, 0
  {
    match a
    case Echo(_) => Reply(a, "Echo: " + input, None)
    case FixedRoute(_, target) =>
      Reply(a, "Routing '" + input + "' to node " + IntToString(target), Some(target))
    case Flakey(failures) =>
      if failures > 0 then Reply(Flakey(failures - 1), "Error: temporary failure", None)
      else Reply(a, "Success: " + input, None)
    case RetryAgent(inner, c) =>
      var tries := RetryAttempts(inner, c, input, view, 0);
      var last := tries[|tries| - 1];
      Reply(RetryAgent(last.agent, c), last.output, last.next)
    case StatefulAgent(s) =>
      var (s', output, next) := State.Run(s, input);
      Reply(StatefulAgent(s'), output, next)
    case ParallelAgent(agents, c) =>
      if agents == [] then Reply(a, Parallel.NoAgentsMessage, None)
      else if c.timeout.Some? && c.timeout.value.missed(input) then Reply(a, Parallel.TimedOutMessage, None)
      else
        var (agents', outputs) := ParallelSteps(agents, input, view);
        Reply(ParallelAgent(agents', c), Parallel.CombineResults(c.strategy, outputs), None)
    case ValidatorAgent(v) =>
      var (output, next) := Validator.Run(v, input);
      Reply(a, output, next)
    case RouterAgent(router) =>
      var (output, next) := Router.Run(router, input);
      Reply(a, output, next)
    case SummarizerAgent(s) =>
      var (s', output, next) := Summarizer.Run(s, input);
      Reply(SummarizerAgent(s'), output, next)
  }

  /** A run never renames an agent. */
  lemma StepKeepsName(a: Agent, input: string, view: Tools.CombinedToolRegistry)
    ensures Name(AgentStep(a, input, view).agent) == Name(a)
  {
  }

  /**
   * The attempts a retry agent makes from attempt number `attempt` on:
   * each runs the inner agent as the previous one left it, and another
   * follows exactly when the output counts as a failure and the retry
   * budget is not spent. The agent's reply is the last attempt's.
   */
  function RetryAttempts(inner: Agent, c: Retry.RetryConfig, input: string,
                         view: Tools.CombinedToolRegistry, attempt: nat): (tries: seq<Reply>)
    requires attempt <= c.maxRetries
    ensures 1 <= |tries| <= c.maxRetries + 1 - attempt
    ensures Size(tries[|tries| - 1].agent) == Size(inner)
    decreases Size(inner) + 1, 0, c.maxRetries - attempt
  {
    var step := AgentStep(inner, input, view);
    if !Retry.ShouldRetry(c, step.output) || attempt == c.maxRetries then [step]
    else [step] + RetryAttempts(step.agent, c, input, view, attempt + 1)
  }

  /**
   * The inner agents of a parallel agent, each run once on the same input,
   * in order: the fan-out of all but the last, then the last.
   */
  function ParallelSteps(agents: seq<Agent>, input: string, view: Tools.CombinedToolRegistry): (r: (seq<Agent>, seq<string>))
    ensures |r.0| == |agents| && |r.1| == |agents|
    ensures SizeAll(r.0) == SizeAll(agents)
    decreases SizeAll(agents), 2, 0
  {
    if agents == [] then ([], [])
    else
      var n := |agents| - 1;
      assert agents[..n] + [agents[n]] == agents;
      SizeAllAppend(agents[..n], agents[n]);
      var (before, outputs) := ParallelSteps(agents[..n], input, view);
      var step := AgentStep(agents[n], input, view);
      SizeAllAppend(before, step.agent);
      (before + [step.agent], outputs + [step.output])
  }

  /** Every inner agent's entry in a parallel run is its own step on the shared input. */
  lemma ParallelStepsPointwise(agents: seq<Agent>, input: string, view: Tools.CombinedToolRegistry)
    ensures var r := ParallelSteps(agents, input, view);
      forall i :: 0 <= i < |agents| ==>
        r.0[i] == AgentStep(agents[i], input, view).agent && r.1[i] == AgentStep(agents[i], input, view).output
  {
    forall i | 0 <= i < |agents|
      ensures ParallelSteps(agents, input, view).0[i] == AgentStep(agents[i], input, view).agent
      ensures ParallelSteps(agents, input, view).1[i] == AgentStep(agents[i], input, view).output
    {
      ParallelStepAt(agents, input, view, i);
    }
  }

  /** The entry of one inner agent, by induction on the agents after it. */
  lemma {:induction false} ParallelStepAt(agents: seq<Agent>, input: string, view: Tools.CombinedToolRegistry, i: nat)
    requires i < |agents|
    ensures ParallelSteps(agents, input, view).0[i] == AgentStep(agents[i], input, view).agent
    ensures ParallelSteps(agents, input, view).1[i] == AgentStep(agents[i], input, view).output
    decreases |agents|
  {
    var n := |agents| - 1;
    var before := ParallelSteps(agents[..n], input, view);
    var step := AgentStep(agents[n], input, view);
    assert ParallelSteps(agents, input, view) == (before.0 + [step.agent], before.1 + [step.output]);
    if i < n {
      ParallelStepAt(agents[..n], input, view, i);
      assert agents[..n][i] == agents[i];
    }
  }

  /**
   * One attempt of the retry loop: given the attempts so far, the attempt
   * just made either is the last one or leaves the remaining attempts to
   * the agent it produced.
   */
  lemma RetryLoopStep(inner: Agent, c: Retry.RetryConfig, input: string, view: Tools.CombinedToolRegistry,
                      done: seq<Reply>, current: Agent, attempt: nat, step: Reply)
    requires attempt <= c.maxRetries && |done| == attempt
    requires RetryAttempts(inner, c, input, view, 0) == done + RetryAttempts(current, c, input, view, attempt)
    requires step == AgentStep(current, input, view)
    ensures var tries := RetryAttempts(inner, c, input, view, 0);
      (!Retry.ShouldRetry(c, step.output) || attempt == c.maxRetries) ==> |tries| - 1 == attempt && tries[attempt] == step
    ensures Retry.ShouldRetry(c, step.output) && attempt < c.maxRetries ==>
      RetryAttempts(inner, c, input, view, 0) == (done + [step]) + RetryAttempts(step.agent, c, input, view, attempt + 1)
  {
    if Retry.ShouldRetry(c, step.output) && attempt < c.maxRetries {
      assert RetryAttempts(current, c, input, view, attempt) == [step] + RetryAttempts(step.agent, c, input, view, attempt + 1);
    } else {
      assert RetryAttempts(current, c, input, view, attempt) == [step];
    }
  }

  /** What the retry loop returns after a pass that stops. */
  lemma RetryLoopStop(inner: Agent, c: Retry.RetryConfig, input: string, view: Tools.CombinedToolRegistry,
                      done: seq<Reply>, current: Agent, attempt: nat, last: Reply, delays: seq<nat>)
    requires attempt <= c.maxRetries && |done| == attempt
    requires RetryAttempts(inner, c, input, view, 0) == done + RetryAttempts(current, c, input, view, attempt)
    requires last == AgentStep(current, input, view)
    requires !Retry.ShouldRetry(c, last.output) || attempt == c.maxRetries
    requires delays == DelaySchedule(c.strategy, attempt)
    ensures var tries := RetryAttempts(inner, c, input, view, 0);
      last == tries[|tries| - 1] && delays == DelaySchedule(c.strategy, |tries| - 1)
  {
    RetryLoopStep(inner, c, input, view, done, current, attempt, last);
  }

  /** The retry loop's invariant for the variables after a pass that goes on. */
  lemma RetryLoopContinue(inner: Agent, c: Retry.RetryConfig, input: string, view: Tools.CombinedToolRegistry,
                          done: seq<Reply>, current: Agent, attempt: nat, step: Reply,
                          done': seq<Reply>, current': Agent, attempt': nat)
    requires attempt < c.maxRetries && |done| == attempt
    requires RetryAttempts(inner, c, input, view, 0) == done + RetryAttempts(current, c, input, view, attempt)
    requires step == AgentStep(current, input, view) && Retry.ShouldRetry(c, step.output)
    requires done' == done + [step] && current' == step.agent && attempt' == attempt + 1
    ensures Size(current') == Size(current)
    ensures RetryAttempts(inner, c, input, view, 0) == done' + RetryAttempts(current', c, input, view, attempt')
  {
    RetryLoopStep(inner, c, input, view, done, current, attempt, step);
  }

  lemma DelayScheduleGrows(strategy: Retry.RetryStrategy, n: nat)
    ensures DelaySchedule(strategy, n + 1) == DelaySchedule(strategy, n) + [Retry.CalculateDelay(strategy, n)]
  {
  }

  /** The sleeps before attempts 1 to `n`: the delay for indices 0 to `n - 1`. */
  function DelaySchedule(strategy: Retry.RetryStrategy, n: nat): (r: seq<nat>)
    ensures |r| == n
    ensures forall k :: 1 <= k <= n ==> Retry.DelayBefore(strategy, k) == Some(r[k - 1])
  {
    seq(n, k requires 0 <= k < n => Retry.CalculateDelay(strategy, k))
  }

  /** A retry agent's reply is the last attempt's, with the agent that attempt left behind. */
  lemma RetryStepIsLast(inner: Agent, c: Retry.RetryConfig, input: string, view: Tools.CombinedToolRegistry,
                        last: Reply, r: Reply)
    requires var tries := RetryAttempts(inner, c, input, view, 0); last == tries[|tries| - 1]
    requires r == Reply(RetryAgent(last.agent, c), last.output, last.next)
    ensures r == AgentStep(RetryAgent(inner, c), input, view)
  {
    var a := RetryAgent(inner, c);
    assert a.RetryAgent? && a.inner == inner && a.retry == c;
  }

  /** `Agent::run`, dispatching on the kind of agent. */
  method RunAgent(a: Agent, input: string, view: Tools.CombinedToolRegistry) returns (r: Reply)
    ensures r == AgentStep(a, input, view)
    decreases Size(a), 1, 0
  {
    match a {
      case RetryAgent(inner, c) =>
        var last, delays := RunRetry(inner, c, input, view);
        r := Reply(RetryAgent(last.agent, c), last.output, last.next);
        RetryStepIsLast(inner, c, input, view, last, r);
      case ParallelAgent(agents, c) =>
        r := RunParallel(agents, c, input, view);
      case _ =>
        r := AgentStep(a, input, view);
    }
  }

  /**
   * The attempt loop of `RetryAgent::run`: the reply of the last attempt
   * and the delays slept before the attempts after the first.
   */
  method RunRetry(inner: Agent, c: Retry.RetryConfig, input: string, view: Tools.CombinedToolRegistry)
    returns (last: Reply, delays: seq<nat>)
    ensures var tries := RetryAttempts(inner, c, input, view, 0);
      last == tries[|tries| - 1] && delays == DelaySchedule(c.strategy, |tries| - 1)
    decreases Size(inner) + 1, 0, 0
  {
    var current := inner;
    var attempt := 0;
    ghost var done: seq<Reply> := [];
    delays := [];
    while true
      invariant attempt <= c.maxRetries && |done| == attempt
      invariant Size(current) == Size(inner)
      invariant RetryAttempts(inner, c, input, view, 0) == done + RetryAttempts(current, c, input, view, attempt)
      invariant delays == DelaySchedule(c.strategy, if attempt == 0 then 0 else attempt - 1)
      decreases c.maxRetries - attempt
    {
      if attempt > 0 {
        DelayScheduleGrows(c.strategy, attempt - 1);
        delays := delays + [Retry.CalculateDelay(c.strategy, attempt - 1)];
      }
      assert delays == DelaySchedule(c.strategy, attempt);
      var step := RunAgent(current, input, view);
      if !Retry.ShouldRetry(c, step.output) || attempt == c.maxRetries {
        last := step;
        RetryLoopStop(inner, c, input, view, done, current, attempt, last, delays);
        return;
      }
      ghost var before, previous, count := done, current, attempt;
      done, current, attempt := done + [step], step.agent, attempt + 1;
      RetryLoopContinue(inner, c, input, view, before, previous, count, step, done, current, attempt);
    }
  }

  /** `ParallelAgent::run`, with the inner agents run one after another in order. */
  method RunParallel(agents: seq<Agent>, c: Parallel.ParallelConfig, input: string, view: Tools.CombinedToolRegistry)
    returns (r: Reply)
    ensures r == AgentStep(ParallelAgent(agents, c), input, view)
    decreases SizeAll(agents), 3, 0
  {
    if agents == [] {
      return Reply(ParallelAgent(agents, c), Parallel.NoAgentsMessage, None);
    }
    if c.timeout.Some? && c.timeout.value.missed(input) {
      return Reply(ParallelAgent(agents, c), Parallel.TimedOutMessage, None);
    }
    var after, results := RunEach(agents, input, view);
    r := Reply(ParallelAgent(after, c), Parallel.CombineResults(c.strategy, results), None);
  }

  /** The fan-out of the parallel agent: every inner agent once, in order, on the same input. */
  method RunEach(agents: seq<Agent>, input: string, view: Tools.CombinedToolRegistry)
    returns (after: seq<Agent>, results: seq<string>)
    ensures (after, results) == ParallelSteps(agents, input, view)
    decreases SizeAll(agents), 2, 0
  {
    after, results := [], [];
    var i := 0;
    while i < |agents|
      invariant 0 <= i <= |agents|
      invariant (after, results) == ParallelSteps(agents[..i], input, view)
    {
      SizeAllBounds(agents, i);
      var step := RunAgent(agents[i], input, view);
      assert agents[..i + 1][..i] == agents[..i] && agents[..i + 1][i] == agents[i];
      after := after + [step.agent];
      results := results + [step.output];
      i := i + 1;
    }
    assert agents[..i] == agents;
  }

  // Properties of the retry agent.

  /** The step function of `AgentStep` on a fixed input and registry. */
  function StepOn(input: string, view: Tools.CombinedToolRegistry): Agent -> Reply
  {
    a => AgentStep(a, input, view)
  }

  /**
   * The retry loop over any step function `run`: the attempts
   * `RetryAttempts` makes when `run` is `AgentStep` (`RetryAttemptsAre`).
   * Properties of the loop that do not depend on what the inner agents do
   * are proved here once.
   */
  function Attempts(run: Agent -> Reply, inner: Agent, c: Retry.RetryConfig, attempt: nat): (tries: seq<Reply>)
    requires attempt <= c.maxRetries
    ensures 1 <= |tries| <= c.maxRetries + 1 - attempt
    decreases c.maxRetries - attempt
  {
    var step := run(inner);
    if !Retry.ShouldRetry(c, step.output) || attempt == c.maxRetries then [step]
    else [step] + Attempts(run, step.agent, c, attempt + 1)
  }

  lemma {:induction false} RetryAttemptsAre(inner: Agent, c: Retry.RetryConfig, input: string,
                                            view: Tools.CombinedToolRegistry, attempt: nat)
    requires attempt <= c.maxRetries
    ensures RetryAttempts(inner, c, input, view, attempt) == Attempts(StepOn(input, view), inner, c, attempt)
    decreases c.maxRetries - attempt
  {
    var step := AgentStep(inner, input, view);
    assert StepOn(input, view)(inner) == step;
    if Retry.ShouldRetry(c, step.output) && attempt < c.maxRetries {
      RetryAttemptsAre(step.agent, c, input, view, attempt + 1);
    }
  }

  /**
   * Each attempt after the first runs the agent the previous one left
   * behind, and every attempt but the last counts as a failure.
   */
  lemma {:induction false} AttemptsChain(run: Agent -> Reply, inner: Agent, c: Retry.RetryConfig, attempt: nat)
    requires attempt <= c.maxRetries
    ensures var tries := Attempts(run, inner, c, attempt);
      tries[0] == run(inner)
      && forall i :: 0 <= i < |tries| - 1 ==> Retry.ShouldRetry(c, tries[i].output) && tries[i + 1] == run(tries[i].agent)
    decreases c.maxRetries - attempt
  {
    var step := run(inner);
    var tries := Attempts(run, inner, c, attempt);
    if Retry.ShouldRetry(c, step.output) && attempt < c.maxRetries {
      var rest := Attempts(run, step.agent, c, attempt + 1);
      AttemptsChain(run, step.agent, c, attempt + 1);
      assert tries == [step] + rest;
      forall i | 0 <= i < |tries| - 1
        ensures Retry.ShouldRetry(c, tries[i].output) && tries[i + 1] == run(tries[i].agent)
      {
        if i > 0 {
          assert tries[i] == rest[i - 1] && tries[i + 1] == rest[i];
        }
      }
    }
  }

  /** The last attempt succeeds, or the retry budget is spent. */
  lemma {:induction false} AttemptsLast(run: Agent -> Reply, inner: Agent, c: Retry.RetryConfig, attempt: nat)
    requires attempt <= c.maxRetries
    ensures var tries := Attempts(run, inner, c, attempt);
      !Retry.ShouldRetry(c, tries[|tries| - 1].output) || |tries| == c.maxRetries + 1 - attempt
    decreases c.maxRetries - attempt
  {
    var step := run(inner);
    if Retry.ShouldRetry(c, step.output) && attempt < c.maxRetries {
      var rest := Attempts(run, step.agent, c, attempt + 1);
      AttemptsLast(run, step.agent, c, attempt + 1);
      assert Attempts(run, inner, c, attempt) == [step] + rest;
    }
  }

  /**
   * A retry agent's reply is, verbatim, that of the first attempt whose
   * output does not count as a failure; when every attempt fails it is
   * the last attempt's own output and next node, never a summary message.
   * Each attempt after the first runs the agent the previous one left.
   */
  lemma RetryReply(inner: Agent, c: Retry.RetryConfig, input: string, view: Tools.CombinedToolRegistry)
    ensures var tries := RetryAttempts(inner, c, input, view, 0);
      var r := AgentStep(RetryAgent(inner, c), input, view);
      tries[0] == AgentStep(inner, input, view)
      && (forall i :: 0 <= i < |tries| - 1 ==> tries[i + 1] == AgentStep(tries[i].agent, input, view))
      && (exists k :: 0 <= k < |tries| && k <= c.maxRetries
            && r.output == tries[k].output && r.next == tries[k].next && r.agent == RetryAgent(tries[k].agent, c)
            && (forall j :: 0 <= j < k ==> Retry.ShouldRetry(c, tries[j].output))
            && (!Retry.ShouldRetry(c, tries[k].output) || k == c.maxRetries))
  {
    var run := StepOn(input, view);
    RetryAttemptsAre(inner, c, input, view, 0);
    AttemptsChain(run, inner, c, 0);
    AttemptsLast(run, inner, c, 0);
    var tries := RetryAttempts(inner, c, input, view, 0);
    forall i | 0 <= i < |tries| - 1 ensures tries[i + 1] == AgentStep(tries[i].agent, input, view) {
      assert tries[i + 1] == run(tries[i].agent);
    }
    assert tries[0] == run(inner);
  }

  /** Without retries the inner agent runs exactly once and its reply passes through unchanged. */
  lemma NoRetriesRunsOnce(inner: Agent, c: Retry.RetryConfig, input: string, view: Tools.CombinedToolRegistry)
    requires c.maxRetries == 0
    ensures RetryAttempts(inner, c, input, view, 0) == [AgentStep(inner, input, view)]
    ensures var step := AgentStep(inner, input, view);
      AgentStep(RetryAgent(inner, c), input, view) == Reply(RetryAgent(step.agent, c), step.output, step.next)
  {
  }

  /** The flakey agent's reply while it still has `k` failures to go. */
  function FlakeyReply(k: nat, input: string): Reply
  {
    if k > 0 then Reply(Flakey(k - 1), "Error: temporary failure", None) else Reply(Flakey(0), "Success: " + input, None)
  }

  lemma FlakeyStep(input: string, view: Tools.CombinedToolRegistry)
    ensures forall k: nat {:trigger StepOn(input, view)(Flakey(k))} :: StepOn(input, view)(Flakey(k)) == FlakeyReply(k, input)
  {
    forall k: nat ensures StepOn(input, view)(Flakey(k)) == FlakeyReply(k, input) {
      assert StepOn(input, view)(Flakey(k)) == AgentStep(Flakey(k), input, view);
    }
  }

  lemma {:induction false} AttemptsFlakeyRecovers(run: Agent -> Reply, k: nat, c: Retry.RetryConfig, input: string, attempt: nat)
    requires forall j: nat {:trigger run(Flakey(j))} :: run(Flakey(j)) == FlakeyReply(j, input)
    requires c.retryCondition.None? && attempt + k <= c.maxRetries
    requires !Retry.ShouldRetry(c, "Success: " + input)
    ensures var tries := Attempts(run, Flakey(k), c, attempt);
      |tries| == k + 1 && tries[k] == Reply(Flakey(0), "Success: " + input, None)
    decreases k
  {
    var step := run(Flakey(k));
    if k > 0 {
      Retry.ErrorInAnyCase(c);
      assert step == Reply(Flakey(k - 1), "Error: temporary failure", None);
      AttemptsFlakeyRecovers(run, k - 1, c, input, attempt + 1);
      assert Attempts(run, Flakey(k), c, attempt) == [step] + Attempts(run, Flakey(k - 1), c, attempt + 1);
    } else {
      assert step == Reply(Flakey(0), "Success: " + input, None);
    }
  }

  lemma {:induction false} AttemptsFlakeyExhausts(run: Agent -> Reply, k: nat, c: Retry.RetryConfig, input: string, attempt: nat)
    requires forall j: nat {:trigger run(Flakey(j))} :: run(Flakey(j)) == FlakeyReply(j, input)
    requires c.retryCondition.None? && attempt <= c.maxRetries < attempt + k
    ensures var tries := Attempts(run, Flakey(k), c, attempt);
      |tries| == c.maxRetries + 1 - attempt
      && tries[|tries| - 1] == Reply(Flakey(k - |tries|), "Error: temporary failure", None)
    decreases c.maxRetries - attempt
  {
    Retry.ErrorInAnyCase(c);
    var step := run(Flakey(k));
    assert step == Reply(Flakey(k - 1), "Error: temporary failure", None);
    var tries := Attempts(run, Flakey(k), c, attempt);
    if attempt < c.maxRetries {
      AttemptsFlakeyExhausts(run, k - 1, c, input, attempt + 1);
      var rest := Attempts(run, Flakey(k - 1), c, attempt + 1);
      assert tries == [step] + rest;
      assert |tries| == |rest| + 1 && tries[|tries| - 1] == rest[|rest| - 1];
    } else {
      assert tries == [step];
    }
  }

  /**
   * A flakey agent that fails `k` more times, inside a retry agent with
   * the default failure test and budget for them, succeeds on attempt
   * `k + 1` and is left with no failures to go.
   */
  lemma FlakeyRecovers(k: nat, c: Retry.RetryConfig, input: string, view: Tools.CombinedToolRegistry)
    requires c.retryCondition.None? && k <= c.maxRetries
    requires !Retry.ShouldRetry(c, "Success: " + input)
    ensures var tries := RetryAttempts(Flakey(k), c, input, view, 0);
      |tries| == k + 1 && tries[k] == Reply(Flakey(0), "Success: " + input, None)
  {
    RetryAttemptsAre(Flakey(k), c, input, view, 0);
    FlakeyStep(input, view);
    AttemptsFlakeyRecovers(StepOn(input, view), k, c, input, 0);
  }

  /**
   * A flakey agent with more failures than the retry budget allows fails
   * every attempt: the retry agent replies with the raw failure of the
   * last one.
   */
  lemma FlakeyExhausts(k: nat, c: Retry.RetryConfig, input: string, view: Tools.CombinedToolRegistry)
    requires c.retryCondition.None? && c.maxRetries < k
    ensures var tries := RetryAttempts(Flakey(k), c, input, view, 0);
      |tries| == c.maxRetries + 1
      && AgentStep(RetryAgent(Flakey(k), c), input, view)
         == Reply(RetryAgent(Flakey(k - c.maxRetries - 1), c), "Error: temporary failure", None)
  {
    RetryAttemptsAre(Flakey(k), c, input, view, 0);
    FlakeyStep(input, view);
    AttemptsFlakeyExhausts(StepOn(input, view), k, c, input, 0);
  }

  /**
   * The flakey retry scenario: an agent that fails twice, inside a retry
   * agent allowing three retries 10 ms apart. The reply is the success,
   * after two sleeps of 10 ms.
   */
  lemma FlakeyScenario(c: Retry.RetryConfig, input: string, view: Tools.CombinedToolRegistry)
    requires c == Retry.WithStrategy(Retry.WithMaxRetries(Retry.NewRetryConfig("FlakeyAgent"), 3), Retry.Fixed(10))
    requires input == "test"
    ensures var tries := RetryAttempts(Flakey(2), c, input, view, 0);
      AgentStep(RetryAgent(Flakey(2), c), input, view).output == "Success: " + input
      && DelaySchedule(c.strategy, |tries| - 1) == [10, 10]
  {
    assert c.maxRetries == 3 && c.strategy == Retry.Fixed(10) && c.retryCondition.None?;
    Retry.SuccessNotRetried(c);
    FlakeyTwice(c, input, view);
  }

  lemma FlakeyTwice(c: Retry.RetryConfig, input: string, view: Tools.CombinedToolRegistry)
    requires c.maxRetries == 3 && c.strategy == Retry.Fixed(10) && c.retryCondition.None?
    requires !Retry.ShouldRetry(c, "Success: " + input)
    ensures var tries := RetryAttempts(Flakey(2), c, input, view, 0);
      AgentStep(RetryAgent(Flakey(2), c), input, view).output == "Success: " + input
      && DelaySchedule(c.strategy, |tries| - 1) == [10, 10]
  {
    FlakeyRecovers(2, c, input, view);
    var d := DelaySchedule(c.strategy, 2);
    assert d[0] == 10 && d[1] == 10;
  }

  // Properties of the parallel agent.

  /**
   * A parallel agent never names a next node. Without inner agents, or
   * when its time limit runs out, it replies with a fixed message and
   * leaves every inner agent as it was; otherwise every inner agent runs
   * once on the same input, and the reply combines their outputs in
   * registration order.
   */
  lemma ParallelReply(agents: seq<Agent>, c: Parallel.ParallelConfig, input: string, view: Tools.CombinedToolRegistry)
    ensures AgentStep(ParallelAgent(agents, c), input, view).next.None?
    ensures agents == [] ==>
      AgentStep(ParallelAgent(agents, c), input, view) == Reply(ParallelAgent(agents, c), Parallel.NoAgentsMessage, None)
    ensures agents != [] && c.timeout.Some? && c.timeout.value.missed(input) ==>
      AgentStep(ParallelAgent(agents, c), input, view) == Reply(ParallelAgent(agents, c), Parallel.TimedOutMessage, None)
    ensures agents != [] && (c.timeout.None? || !c.timeout.value.missed(input)) ==>
      var r := AgentStep(ParallelAgent(agents, c), input, view);
      r.agent.ParallelAgent? && |r.agent.agents| == |agents|
      && (forall i :: 0 <= i < |agents| ==> r.agent.agents[i] == AgentStep(agents[i], input, view).agent)
      && r.output == Parallel.CombineResults(c.strategy,
           seq(|agents|, i requires 0 <= i < |agents| => AgentStep(agents[i], input, view).output))
  {
    ParallelStepsPointwise(agents, input, view);
    var outputs := seq(|agents|, i requires 0 <= i < |agents| => AgentStep(agents[i], input, view).output);
    assert ParallelSteps(agents, input, view).1 == outputs;
  }
}
