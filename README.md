# llmgraph in Dafny

A model of the agent-graph engine of `llmgraph`, with proofs about it.

In llmgraph, integer-identified nodes each hold an agent, a list of
neighbours and a tool registry of their own. A registry shared by all nodes
sits beside them. A run starts at one node. That node's agent turns the
input into an output and optionally names the next node. The output becomes
the next agent's input, and every output is appended to a transcript, one
line each. The run stops when an agent names no next node, or names one that
does not exist; in that case an error line is appended.

The project covers these parts:

- **Graph engine** (`graph.dfy`, module `Graphs`):
  - the node table as a `Graph` class, with `AddNode`, `AddEdge`,
    `RegisterTool`, `RegisterToolForNode` and `GetNodeToolRegistry`;
  - the run loop (`Graphs.RunFrom`, `Graphs.Graph.Run`), proved against the
    recursive specification `Graphs.Dispatch`.
- **Tool registries** (`tools.dfy`):
  - `ToolRegistry` is a class with two maps: declarations and
    implementations;
  - `CombinedToolRegistry` is the two-tier read view handed to an agent:
    its node's registry over the shared one.
- **Agents** (`agents.dfy`):
  - every agent is a value of the datatype `Agents.Agent`. It has one
    variant per agent of the repository, plus the Echo, FixedRoute and
    Flakey test agents;
  - one run of an agent is the function `Agents.AgentStep`. It returns the
    agent as the run leaves it, its output and its next node;
  - methods with loops (`RunAgent`, `RunRetry`, `RunParallel`, `RunEach`)
    are proved equal to `AgentStep`.
  - The per-agent logic lives in one module each: `retry.dfy`, `state.dfy`,
    `parallel.dfy`, `validator.dfy`, `router.dfy`, `summarizer.dfy`.
  - The bounded input history that the stateful agent and the summarizer
    share is in `history.dfy`.
- **Error taxonomy** (`errors.dfy`): the `Display` texts and the `From`
  conversions into `LLMGraphError`.
- **Support**:
  - `text.dfy` models Rust's `contains`, `split`, `join`, `trim`,
    `to_lowercase` and integer formatting on `seq<char>`;
  - `json.dfy` models JSON values and serde_json's string-array encoding;
  - `prelude.dfy` holds `Option`, `Result` and `Unit`.

Things the program takes from outside are parameters of the model:
- the regex engine is `Text.RegexEngine`, giving "compiles" and "matches";
- JSON argument parsing is `Tools.ArgumentParser`;
- tool implementations, custom combiners, retry conditions, processors and
  validation checks are function values;
- whether a parallel fan-out misses its deadline is the oracle
  `Parallel.Deadline.missed`.

Behaviours that follow the code rather than the obvious reading:
- `CombinedToolRegistry::execute_tool` falls back to the secondary registry
  on any primary error, not only on a missing name (src/models/tools.rs:277-282).
  So a failing primary tool can be reported as "not found"
  (`Tools.PrimaryFailureMasked`).
- `ToolRegistry::execute_tool` parses the arguments before it looks the name
  up. Unparsable arguments give the parse error even for unknown names
  (`Tools.ParseCheckedBeforeLookup`).
- `RetryAgent::run` never reaches its "All N retries exhausted" message. The
  last attempt always returns from inside the loop
  (src/agents/retry.rs:151 against 166-171). The model returns the final
  attempt's reply verbatim (`Agents.RetryReply`, `Agents.FlakeyExhausts`).
- `add_node` on an id already in use replaces the node with one that has no
  neighbours. Its former neighbours still list it, so the edge becomes
  one-sided (`Graphs.ReplacingNodeDropsOneSide`).
- The summarizer's bullet marker is the three characters U+00E2 U+20AC
  U+00A2, exactly as src/agents/summarizer.rs:96 spells it. This is the
  UTF-8 encoding of "•" misread as Windows-1252. The model uses it as
  written.

## Model

| member | source | states |
|---|---|---|
| Graphs.WithNeighbor | src/models/graph.rs:245-253 | pushing `x` unless present: the list then holds exactly the old ids and `x`, keeps the old list as its prefix, grows by at most one, and stays free of repeats |
| Graphs.WithNeighborIdempotent | src/models/graph.rs:245-247 | pushing the same neighbour twice is the same as pushing it once |
| Graphs.ConnectLinksBoth | src/models/graph.rs:244-254 | after `add_edge(u, v)`, `v` is a neighbour of `u` and `u` of `v`, nothing else is added to either list, no node appears or disappears, no agent or registry changes, and every other node is untouched |
| Graphs.ConnectIdempotent | src/models/graph.rs:239-257 | repeating `add_edge(u, v)`, `u == v` included, leaves the node table as the first call left it |
| Graphs.ConnectNoDuplicates | src/models/graph.rs:245-253 | neighbour lists without repeats stay without repeats |
| Graphs.ConnectWellFormed | src/models/graph.rs:239-257 | neighbour lists that hold only existing ids, each once, still do after `add_edge` |
| Graphs.ConnectKeepsSymmetric | src/models/graph.rs:244-254 | if every edge is recorded at both ends before `add_edge`, it still is afterwards |
| Graphs.FreshNodeKeepsSymmetric | src/models/graph.rs:211-220 | `add_node` under an unused id keeps every edge recorded at both ends |
| Graphs.ReplacingNodeDropsOneSide | src/models/graph.rs:211-220 | `add_node` under an id in use leaves a former neighbour listing the id while the new node lists nobody, so the edges are no longer symmetric |
| Graphs.ViewAt | src/models/graph.rs:331-334 | the registry an agent is handed has its node's registry as primary and the shared registry as secondary |
| Graphs.DispatchKeepsShape | src/models/graph.rs:304-357 | a run changes agents only: the same node ids, and each node keeps its neighbours and its registry |
| Graphs.HaltedEndsLine | src/models/graph.rs:342-356 | a run that stops of its own accord has written something, and its transcript ends with a newline |
| Graphs.DispatchKeepsNames | src/models/graph.rs:337-339 | if every agent run keeps the agent's name, every node's agent has its old name after a whole run |
| Graphs.RunKeepsNames | src/models/graph.rs:304-357 | every node's agent keeps its `get_name` through a run of the graph |
| Graphs.MissingStart | src/models/graph.rs:311-314 | a run from an id without a node returns exactly "Error: Node {id} does not exist\n", runs no agent and leaves the table as it was |
| Graphs.DispatchStep | src/models/graph.rs:339-356 | one step: the transcript opens with the output and a newline. With no next node the run ends there. With an unknown next node the missing-node line follows and the run ends. Otherwise the run continues at the next node, with the output as its input |
| Graphs.FuelIrrelevant | src/models/graph.rs:309-357 | once a run stops of its own accord, a larger step bound gives the same transcript and node table |
| Graphs.TwoNodeRun | src/tests.rs:121-137 | a FixedRoute agent routing to an Echo agent writes the routing line, then the echo of that line, and stops, leaving both agents as they were |
| Graphs.ContinueRun | src/models/graph.rs:342-349 | after a step that names an existing node, the text written so far plus the step's line, followed by the run from that node on the output, still gives the whole run's transcript and table |
| Graphs.StopRun | src/models/graph.rs:342-356 | a step that names no next node ends the run: the transcript is what was written plus the step's line, and the table holds the agent's new state |
| Graphs.StopAtMissingNext | src/models/graph.rs:345-353 | a step that names a missing node ends the run with its line followed by the missing-node line |
| Graphs.StopBeforeStep | src/models/graph.rs:311-314 | at a missing node the missing-node line is the last thing written; with no steps left nothing more is written; the table is unchanged |
| Graphs.RunOnce | src/models/graph.rs:309-357 | one pass of the loop: it either stops with exactly the whole run's transcript and table, or takes one fewer step and leaves a remaining run that still ends in them |
| Graphs.RunFrom | src/models/graph.rs:304-360 | the loop returns exactly the transcript and the new node table that `Dispatch` prescribes for the real agents |
| Graphs.Graph.constructor | src/models/graph.rs:112-117 | a new graph has no nodes and an empty shared registry |
| Graphs.Graph.RegisterTool | src/models/graph.rs:134-139 | registers in the shared registry only, last write wins |
| Graphs.Graph.RegisterToolForNode | src/models/graph.rs:161-176 | an id without a node gives `Err("Node {id} does not exist")` and changes nothing. Otherwise only that node's registry gains the tool; the shared registry and every other node's registry are unchanged |
| Graphs.Graph.GetNodeToolRegistry | src/models/graph.rs:186-188 | the node's registry exactly when the node exists |
| Graphs.Graph.AddNode | src/models/graph.rs:211-220 | under `id`: the agent, no neighbours and a new empty registry; every other node and the shared registry are as before |
| Graphs.Graph.AddEdge | src/models/graph.rs:239-257 | with an endpoint missing: `Err("One or both nodes do not exist")` and nothing changes. Otherwise `Ok` and the table is `Connect(old, u, v)`; the invariants (well-formed neighbour lists, one registry per node) are kept |
| Graphs.Graph.Run | src/models/graph.rs:304-360 | the returned text and the new node table are those `Dispatch` prescribes; the shared registry is kept |
| Tools.ToolRegistry.constructor | src/models/tools.rs:191-196 | both maps start empty |
| Tools.ToolRegistry.RegisterTool | src/models/tools.rs:213-220 | last write wins: the tool's name maps to the new declaration and implementation, other names are untouched, and both maps keep the same names |
| Tools.ToolRegistry.GetTools | src/models/tools.rs:224-226 | every registered declaration exactly once (names distinct), in some order |
| Tools.ListingLength | src/models/tools.rs:224-226 | a listing has one entry per registered name, so one registration lists one tool |
| Tools.ToolRegistry.ExecuteTool | src/models/tools.rs:228-236 | with arguments that parse and a registered name, the result is exactly that tool's result on the parsed arguments, success or error; a success needs both |
| Tools.ParseCheckedBeforeLookup | src/models/tools.rs:229-230 | unparsable arguments give "Failed to parse arguments: …" in every registry and for every name |
| Tools.UnknownToolNotFound | src/models/tools.rs:231-235 | parsable arguments and an unknown name give "Tool '{name}' not found" |
| Tools.WithoutNames | src/models/tools.rs:268-270 | `retain`: exactly the tools whose name is not among the given names, with distinct names kept distinct |
| Tools.CombineListingsMeaning | src/models/tools.rs:263-275 | the combined listing holds every primary tool plus every secondary tool whose name is not a primary name; its names are the union of both; its names are distinct when each input's are |
| Tools.KeptIsListing | src/models/tools.rs:268-270 | the kept secondary tools list exactly the secondary registry without the primary names |
| Tools.OverlayIsListing | src/models/tools.rs:272-274 | kept secondary tools followed by the primary listing list the overlay in which primary definitions win |
| Tools.CombinedToolRegistry.GetTools | src/models/tools.rs:263-275 | the unshadowed secondary tools, then all primary tools; together one entry per name of either registry, with the primary definition of a shared name |
| Tools.CombinedToolRegistry.ExecuteTool | src/models/tools.rs:277-282 | a primary success is returned as is; on any primary error the result is exactly the secondary registry's; a success comes from a registry that has the name |
| Tools.PrimaryWins | src/models/tools.rs:277-279 | a primary tool that succeeds decides the result, even when the secondary registry has the same name |
| Tools.SecondaryOnlyTool | src/models/tools.rs:277-282 | a name only the secondary registry has runs exactly as in the secondary registry |
| Tools.PrimaryFailureMasked | src/models/tools.rs:277-282 | a primary tool that fails, under a name the secondary lacks, is reported as "Tool '{name}' not found", losing its own error |
| Retry.NewRetryConfig | src/agents/retry.rs:60-70 | defaults: 3 retries, a fixed 1000 ms delay, the built-in failure test, not verbose, name "Retry[{inner}]" |
| Retry.CalculateDelay | src/agents/retry.rs:100-112 | a linear delay is `min(initial + increment * attempt, max)`: at most both, and equal to one of them |
| Retry.DelayBefore | src/agents/retry.rs:141-147 | no sleep before attempt 0; before attempt k ≥ 1 the delay for index k - 1 |
| Retry.FixedIsConstant | src/agents/retry.rs:102 | a fixed delay is the same for every attempt |
| Retry.LinearIsMonotone | src/agents/retry.rs:108-111 | linear delays never decrease with the attempt and never exceed the cap |
| Retry.LinearSaturates | src/agents/retry.rs:108-111 | once the uncapped delay reaches the cap, every later delay is the cap |
| Retry.ShouldRetryMeaning | src/agents/retry.rs:117-127 | a custom condition decides alone; otherwise retry iff the output is empty or its lower-case form contains "error", "failed" or "exception" |
| Retry.ErrorInAnyCase | src/agents/retry.rs:121-125 | the built-in test retries "Error: temporary failure" and the empty output |
| Retry.SuccessNotRetried | src/agents/retry.rs:121-125 | the built-in test accepts "Success: test" |
| Agents.NewRetryAgent | src/agents/retry.rs:60-70 | a retry agent around `inner`, named "Retry[{name of inner}]", with 3 retries 1000 ms apart |
| Agents.AgentStep | src/models/graph.rs:48-55 | a run never changes how many agents an agent wraps |
| Agents.StepKeepsName | src/models/graph.rs:55 | `get_name` is the same after a run |
| Agents.RetryAttempts | src/agents/retry.rs:140-164 | a retry agent makes between 1 and `max_retries + 1` attempts |
| Agents.Attempts | src/agents/retry.rs:140-156 | the same attempt count for the attempt loop over any way of running the inner agent |
| Agents.AttemptsChain | src/agents/retry.rs:140-163 | the first attempt runs the inner agent; each later attempt follows an output that counts as a failure and runs the inner agent as the previous attempt left it |
| Agents.AttemptsLast | src/agents/retry.rs:151-155 | the loop stops on the first output that is not a failure, or when the budget is spent |
| Agents.RetryReply | src/agents/retry.rs:140-171 | the reply is some attempt `k`'s output and next node, verbatim: every earlier attempt failed, and attempt `k` did not fail or was the last allowed one. The "exhausted" message never appears |
| Agents.NoRetriesRunsOnce | src/agents/retry.rs:140-155 | with `max_retries == 0` the inner agent runs once and its reply is returned unchanged |
| Agents.RetryLoopStep | src/agents/retry.rs:149-163 | one pass of the retry loop either ends with the attempt just made or adds it to the attempts and goes on |
| Agents.DelaySchedule | src/agents/retry.rs:141-147 | the k-th sleep is the delay before attempt k |
| Agents.DelayScheduleGrows | src/agents/retry.rs:141-147 | one more attempt adds exactly the delay for the previous index |
| Agents.RunRetry | src/agents/retry.rs:132-172 | the loop returns the last attempt's reply and sleeps exactly the delays before attempts 1 … n-1 |
| Agents.RetryLoopStop | src/agents/retry.rs:149-156 | a pass whose attempt did not fail, or was the last allowed, returns that attempt's reply as the last attempt, with the delays slept so far |
| Agents.RetryLoopContinue | src/agents/retry.rs:149-164 | after a failing attempt within the budget, the attempts made so far plus the rest from the agent that attempt left behind are all the attempts |
| Agents.RetryStepIsLast | src/agents/retry.rs:140-171 | the retry agent's reply is its last attempt's output and next node, with the inner agent as that attempt left it |
| Agents.FlakeyStep | src/tests.rs:233-246 | a Flakey agent with k > 0 failures left fails with "Error: temporary failure" and has k - 1 left; with none left it answers "Success: {input}" |
| Agents.AttemptsFlakeyRecovers | src/tests.rs:220-264 | an inner agent that fails k times within the budget succeeds on attempt k + 1, and no attempt follows |
| Agents.AttemptsFlakeyExhausts | src/agents/retry.rs:151-171 | an inner agent that fails more often than the budget allows is run until the budget is spent, and its last failure is what remains |
| Agents.FlakeyRecovers | src/tests.rs:254-264 | a retry agent around an agent failing k ≤ max_retries times makes exactly k + 1 attempts, the last one the success |
| Agents.FlakeyExhausts | src/agents/retry.rs:151-171 | with more failures than retries the agent makes `max_retries + 1` attempts and returns the last failure verbatim |
| Agents.FlakeyScenario | src/tests.rs:255-264 | a Flakey agent failing twice behind `max_retries(3)` and a fixed 10 ms delay answers "Success: test" after sleeping 10 ms twice |
| Agents.FlakeyTwice | src/tests.rs:255-264 | the same for any input with the default failure test, 3 retries and a fixed 10 ms delay |
| Agents.ParallelSteps | src/agents/parallel.rs:113-135 | one output and one updated agent per inner agent |
| Agents.ParallelStepsPointwise | src/agents/parallel.rs:113-124 | the i-th output and the i-th agent afterwards are those of the i-th agent run on the same input |
| Agents.ParallelStepAt | src/agents/parallel.rs:113-124 | the entry of one inner agent in a parallel run is that agent's own step on the shared input |
| Agents.ParallelReply | src/agents/parallel.rs:103-140 | no next node ever. With no agents, "No agents configured for parallel execution". On a missed deadline, "Parallel execution timed out" with no partial results. Otherwise the configured combination of the outputs in registration order, each inner agent replaced by its state after its run |
| Agents.RunEach | src/agents/parallel.rs:113-135 | the sequential fan-out produces exactly `ParallelSteps` |
| Agents.RunParallel | src/agents/parallel.rs:103-140 | the parallel agent's run equals `AgentStep` on it |
| Agents.RunAgent | src/models/graph.rs:339 | dispatching a run to the agent's kind equals `AgentStep` |
| State.DefaultState | src/agents/state.rs:23-32 | empty data, empty history, no context, count 0 |
| State.NewStateful | src/agents/state.rs:63-70 | the default state, no processor, a history bound of 100 |
| State.SetState | src/agents/state.rs:88-95 | `get_state` after `set_state(s)` is `s`; nothing else changes |
| State.Store | src/agents/state.rs:98-100 | afterwards `retrieve(key)` is the value, every other key reads as before, and history, count, context, name, processor and history bound are unchanged |
| State.Retrieve | src/agents/state.rs:103-105 | `Some` exactly for a stored key, with its value |
| State.ClearState | src/agents/state.rs:108-110 | back to the default state; every key reads as `None` |
| State.Record | src/agents/state.rs:136-142 | the count goes up by one, the input is pushed and the oldest entry dropped when over the bound, and data and context are unchanged |
| State.Run | src/agents/state.rs:128-161 | a processor sees the already-updated state and its result is returned unchanged. Without one, the reply is "Stateful agent processed: {input} (execution #{n}, history: {len} items)" with no next node |
| State.RunAllRemembersLast | src/agents/state.rs:136-142 | after any number of runs the count has grown by that number, data and context are unchanged, and the history is the last `max_history` of everything seen |
| State.FreshAgentHistory | src/tests.rs:184-198 | a new agent with a bound of 5 has run n times and remembers the last min(n, 5) inputs in order |
| State.FirstRunReply | src/tests.rs:188-189 | the first run of a new agent reports "execution #1" and one history item |
| History.PushBounded | src/agents/state.rs:137-142 | the history with the entry appended when that fits the bound; otherwise the same with its single oldest entry dropped, so an over-long history stays over-long; a history within its bound stays within it |
| History.PushAllKeepsLast | src/agents/summarizer.rs:145-148 | pushing entries one by one keeps exactly the last `max` of all entries, in order |
| Parallel.NewParallelConfig | src/agents/parallel.rs:45-52 | concatenation, named "Parallel", no time limit |
| Parallel.FirstNonEmpty | src/agents/parallel.rs:82-86 | empty iff every result is empty; otherwise the first non-empty result |
| Parallel.CombineResults | src/agents/parallel.rs:79-92 | concatenation joins with "\n", first-valid takes the first non-empty result, JSON-array encodes the list, and a custom combiner receives the ordered list |
| Parallel.ConcatenateSplitsBack | src/agents/parallel.rs:81 | one-line results joined by "\n" split back into the same results |
| Validator.NewValidator | src/agents/validator.rs:63-71 | no rules, no routes, not strict, named "Validator" |
| Validator.LengthCheck | src/agents/validator.rs:109-121 | too short gives "Input too short (min: m)"; otherwise too long gives "Input too long (max: M)"; it passes iff both present bounds hold |
| Validator.PatternCheck | src/agents/validator.rs:91-98 | fails, with the rule's message, iff the pattern compiles and does not match; an uncompilable pattern always passes |
| Validator.AddLengthRule | src/agents/validator.rs:106-126 | appends one rule, named "length_check", with the given criticality and the length check |
| Validator.AddPatternRule | src/agents/validator.rs:80-103 | appends one named rule with the given criticality and the pattern check |
| Validator.SortedAppend | src/agents/validator.rs:157-169 | one more rule adds its own message, if any, after the earlier ones |
| Validator.ValidateRules | src/agents/validator.rs:153-176 | the loop over the rules computes `Validate`: errors and warnings in rule order |
| Validator.SortedPartition | src/agents/validator.rs:158-167 | every failing rule gives exactly one message, either an error or a warning |
| Validator.StrictHasNoWarnings | src/agents/validator.rs:162 | in strict mode no warnings arise and every failure is an error |
| Validator.NoErrorsIff | src/agents/validator.rs:158-171 | there are no errors iff no failing rule is critical (or strict mode makes it one) |
| Validator.ValidateOkIff | src/agents/validator.rs:171-175 | validation passes iff no failing rule is critical, with strict mode making every rule critical |
| Validator.Run | src/agents/validator.rs:187-209 | a pass routes to the success node and a failure to the failure node, with the reply text of the outcome |
| Validator.FailureReplyMentions | src/agents/validator.rs:200-206 | a failure reply contains whatever the first error contains |
| Validator.WarningsAnnounced | src/agents/validator.rs:193-197 | a passing reply with warnings contains "Warning" |
| Validator.SampleRules | src/tests.rs:277-286 | the test validator has a critical 5-to-100 length rule, then a non-critical "no_numbers" pattern rule, routing to 1 on success and 2 on failure |
| Validator.ShortInputFails | src/tests.rs:293-295 | "Hi" routes to node 2 and the reply contains "too short" |
| Validator.DigitsOnlyOutcome | src/tests.rs:298-300 | "Hello123" passes with the single warning "no_numbers: Input should not contain numbers" |
| Validator.DigitsOnlyWarn | src/tests.rs:298-300 | "Hello123" routes to node 1 and the reply contains "Warning" |
| Router.NewRouter | src/agents/router.rs:48-55 | no rules, no default, case-insensitive, named "Router" |
| Router.RouteFrom | src/agents/router.rs:89-103 | from rule `from` on: the target of the first rule whose pattern compiles and matches, else the default |
| Router.Route | src/agents/router.rs:82-104 | the target of the first matching rule in insertion order, else the default route, which may be `None` |
| Router.FindRoute | src/agents/router.rs:82-104 | the loop over the rules returns `Route` |
| Router.Run | src/agents/router.rs:115-132 | next is the route found, with "Routing to node {id}: {input}" or "No matching route found for: {input}" |
| Router.LaterRulesIgnored | src/agents/router.rs:89-100 | rules after one that matches are never consulted: replacing them changes nothing |
| Router.FirstFiring | src/agents/router.rs:89-100 | if some rule matches, a first matching rule exists |
| Router.SupportRouting | src/tests.rs:149-172 | with those regex answers, "I found a bug" routes to 1, "What's the pricing?" to 2 and "General question" to the default 3 |
| Summarizer.DefaultConfig | src/agents/summarizer.rs:32-41 | maximum length 500, entities preserved, no timestamps, paragraph style |
| Summarizer.NewSummarizer | src/agents/summarizer.rs:66-73 | the default configuration, named "Summarizer", an empty history bounded by 10 |
| Summarizer.Take | src/agents/summarizer.rs:95 | `take(n)`: the first min(length, n) elements |
| Summarizer.BulletLines | src/agents/summarizer.rs:93-97 | one line per sentence: the marker, a space and the trimmed sentence |
| Summarizer.KeyPointsOf | src/agents/summarizer.rs:101-108 | only sentences with a key word, taken from the input; none iff no sentence has one; a leading key sentence comes first |
| Summarizer.KeyPointsOfOne | src/agents/summarizer.rs:101-108 | a single sentence is kept exactly when it has a key word |
| Summarizer.KeyPointsOfAppend | src/agents/summarizer.rs:101-108 | the filter of two parts is the filter of the first followed by that of the second, so every key sentence is kept and input order is preserved |
| Summarizer.Truncate | src/agents/summarizer.rs:121-125 | unchanged when within the limit; otherwise the first `max` characters and "..." |
| Summarizer.Run | src/agents/summarizer.rs:139-155 | the input is pushed onto the bounded history, the reply is "Summary: " and the summary, with no next node |
| Summarizer.BulletsStartWithMarker | src/tests.rs:321-322 | a bullet summary opens with, and so contains, the bullet marker |
| Summarizer.BulletLinesOfSummary | src/agents/summarizer.rs:92-99 | for a one-line text, the summary's lines are exactly the bullet lines of the first min(n, 3) sentences |
| Summarizer.KeyPointsChoice | src/agents/summarizer.rs:100-118 | with some key sentence, up to three key sentences joined by ". "; with none, the first two sentences joined by ". " |
| Summarizer.TruncatedLength | src/agents/summarizer.rs:119-126 | the other styles give at most `max_length + 3` characters, and the text itself when it fits |
| Summarizer.RunAllPushes | src/agents/summarizer.rs:145-148 | each run pushes its input in turn; configuration and bound are unchanged |
| Summarizer.RunAllHistory | src/agents/summarizer.rs:145-148 | the history is always the last `max_history` inputs, in order, and never longer |
| Summarizer.FreshSummarizerHistory | src/agents/summarizer.rs:71 | a new summarizer remembers the last 10 inputs |
| Errors.FromNodeError | src/errors.rs:159-163 | wraps the error unchanged in the node category |
| Errors.FromToolError | src/errors.rs:165-169 | wraps the error unchanged in the tool category |
| Errors.FromApiError | src/errors.rs:171-175 | wraps the error unchanged in the API category |
| Errors.FromAgentError | src/errors.rs:177-181 | wraps the error unchanged in the agent category |
| Errors.FromGraphError | src/errors.rs:183-187 | wraps the error unchanged in the graph category |
| Errors.DisplayIsPrefixThenInner | src/errors.rs:70-80 | the display is the category prefix followed by the wrapped error's display, which it therefore contains |
| Errors.WrappedNodeNotFound | src/tests.rs:412-414 | wrapped `NodeNotFound(id)` mentions "Node {id} not found" |
| Errors.WrappedToolNotFound | src/tests.rs:417-419 | wrapped `ToolNotFound(name)` mentions "Tool '{name}' not found" |
| Errors.WrappedRateLimit | src/tests.rs:422-424 | wrapped `RateLimitExceeded` mentions "rate limit" |
| Errors.WrappedInvalidEdge | src/errors.rs:140-142 | wrapped `InvalidEdge { from, to }` mentions "Invalid edge from {from} to {to}" |
| Json.EscapeChar | src/agents/parallel.rs:88 | a character needing no escape is written as itself; the others start with a backslash |
| Json.QuotePlain | src/agents/parallel.rs:88 | a string with nothing to escape is written between quotes unchanged |
| Json.EscapeBodyPlain | src/agents/parallel.rs:88 | escaping leaves such a string unchanged |
| Json.QuoteAll | src/agents/parallel.rs:88 | one JSON string literal per result, in order |
| Text.Lower | src/agents/router.rs:86 | same length, each character lower-cased |
| Text.TrimStart | src/agents/summarizer.rs:96 | a suffix of the text that does not start with white space, with only white space removed |
| Text.TrimEnd | src/agents/summarizer.rs:96 | a prefix of the text that does not end with white space, with only white space removed |
| Text.Split | src/agents/summarizer.rs:89 | `split` yields at least one piece, the first piece opens the text, and no piece contains the separator |
| Text.JoinSplit | src/agents/summarizer.rs:89 | joining the pieces with the separator gives the text back |
| Text.LinesOfJoin | src/agents/summarizer.rs:98 | lines without line breaks joined by "\n" split back into the same lines |
| Text.NatToString | src/agents/validator.rs:112 | decimal formatting gives digits whose decimal value is the number, with no leading zero except for 0 itself, which is written "0" |

## Left out

- Agents are values, not objects updated in place. A run returns the agent as it leaves it, and the graph stores that back into its node. This captures every state change the agents make through `&mut self`. It does not capture aliasing: no agent is shared between nodes in the model. The stateful agent's `Arc<Mutex<AgentState>>` is modelled as a plain field for the same reason.
- Graphs.Graph.Run: the run loop takes a bound on the number of agent runs (`fuel`), because the source loop need not terminate. When the bound is hit the model stops without writing anything further. `Graphs.FuelIrrelevant` shows the bound never changes a run that ends by itself.
- The run loop works on a copy of the node table and writes it back. The `unsafe` raw-pointer workaround of the source (src/models/graph.rs:316-340) is not modelled.
- `Graph::print` and all `println!` output, including verbose retry logging, are left out as I/O.
- `get_shared_tool_registry` is the field `Graphs.Graph.toolRegistry`, read through `GetSharedToolRegistry`. It has no contract of its own.
- `RetryStrategy::ExponentialBackoff` is left out: it computes with `f64` (`powi`, `min`).
- `tokio::sleep` is not modelled: the delays are returned as a list instead (`Agents.RunRetry`).
- Agents.RunRetry: the unreachable "All N retries exhausted" return is not modelled. The loop always returns from its last attempt.
- The parallel agent runs its inner agents one after another. On a missed deadline, every inner agent keeps its old state. The source may have run some of them partway by then, and that is not captured.
- Whether the deadline is missed is an oracle of the input (`Parallel.Deadline`). Real time is not modelled.
- The regex crate is left abstract (`Text.RegexEngine`), as is serde_json's parsing of tool arguments (`Tools.ArgumentParser`).
- `save_state` and `load_state` are left out as serde serialisation, and so is `From<serde_json::Error>`. `LLMGraphError::SerializationError` keeps only the message text.
- JSON numbers are integers. Floating-point values are not modelled.
- `to_lowercase` is ASCII-only (`Text.Lower`) and `trim` removes ASCII white space only (`Text.IsSpace`).
- Strings are sequences of characters. Where the source counts bytes (`input.len()` in the length rule, `text.len()` and the byte slice `&text[..max]` in truncation), the model counts characters. The two agree on ASCII text. The panic on a slice inside a multi-byte character is not modelled.
- Integers are unbounded. `usize`/`u128` overflow in the linear delay and `i32` node ids are not bounded in the model.
- The `Message`, `ToolCall`, `LLMResponse` and related records of src/models/tools.rs are only used by the LLM client. They are not part of this model.
- src/generate/generate.rs (the HTTP client), src/lib.rs and the module files are not part of this model.
- `ParallelAgent::add_agent` and the builder methods `with_*`, `set_*` and `add_route` are plain field updates (`Agents.AddAgent`, `Retry.WithMaxRetries` and the like). They have no contract of their own.
