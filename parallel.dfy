/**
 * The result-combining half of the parallel agent in
 * src/agents/parallel.rs. Running the inner agents lives with the other
 * agents in module Agents.
 */
module Parallel {
  import opened Prelude
  import opened Text
  import Json

  datatype CombineStrategy =
    | Concatenate
    | FirstValid
    | JsonArray
    | Custom(combiner: seq<string> -> string)

  /**
   * A time limit on the whole fan-out. Whether the inner agents finish in
   * time is outside the model: `missed(input)` says whether the limit of
   * `millis` milliseconds ran out for a run on `input`.
   */
  datatype Deadline = Deadline(millis: nat, missed: string -> bool)

  /** Everything a parallel agent holds besides its inner agents. */
  datatype ParallelConfig = ParallelConfig(
    strategy: CombineStrategy,
    name: string,
    timeout: Option<Deadline>)

  /** `ParallelAgent::new`: concatenation, named "Parallel", no time limit. */
  function NewParallelConfig(): (c: ParallelConfig)
    ensures c.strategy == Concatenate && c.name == "Parallel" && c.timeout.None?
  {
    ParallelConfig(Concatenate, "Parallel", None)
  }

  function WithStrategy(c: ParallelConfig, strategy: CombineStrategy): ParallelConfig
  {
    c.(strategy := strategy)
  }

  function WithTimeout(c: ParallelConfig, deadline: Deadline): ParallelConfig
  {
    c.(timeout := Some(deadline))
  }

  function WithName(c: ParallelConfig, name: string): ParallelConfig
  {
    c.(name := name)
  }

  const NoAgentsMessage: string := "No agents configured for parallel execution"
  const TimedOutMessage: string := "Parallel execution timed out"

  /** The first non-empty result in order, or the empty string when there is none. */
  function FirstNonEmpty(results: seq<string>): (r: string)
    ensures r == [] <==> forall i :: 0 <= i < |results| ==> results[i] == []
    ensures r != [] ==>
      (exists i :: 0 <= i < |results| && results[i] == r && forall j :: 0 <= j < i ==> results[j] == [])
    decreases |results|
  {
    if results == [] then []
    else if results[0] != [] then results[0]
    else
      var r := FirstNonEmpty(results[1..]);
      if r != [] then
        var i :| 0 <= i < |results[1..]| && results[1..][i] == r
          && forall j :: 0 <= j < i ==> results[1..][j] == [];
        assert results[i + 1] == r;
        assert forall j :: 0 <= j < i + 1 ==> results[j] == [] by {
          forall j | 0 <= j < i + 1 ensures results[j] == [] {
            if j > 0 { assert results[j] == results[1..][j - 1]; }
          }
        }
        r
      else
        r
  }

  /** The combined reply for the ordered list of inner results. */
  function CombineResults(strategy: CombineStrategy, results: seq<string>): (r: string)
    ensures strategy.Concatenate? ==> r == Join(results, "\n")
    ensures strategy.FirstValid? ==> r == FirstNonEmpty(results)
    ensures strategy.JsonArray? ==> r == Json.EncodeStringArray(results)
    ensures strategy.Custom? ==> r == strategy.combiner(results)
  {
    match strategy
    case Concatenate => Join(results, "\n")
    case FirstValid => FirstNonEmpty(results)
    case JsonArray => Json.EncodeStringArray(results)
    case Custom(combiner) => combiner(results)
  }

  /**
   * Concatenation loses nothing when no result spans several lines: the
   * lines of the combined reply are the results, in order.
   */
  lemma ConcatenateSplitsBack(results: seq<string>)
    requires |results| >= 1
    requires forall i :: 0 <= i < |results| ==> '\n' !in results[i]
    ensures Split(CombineResults(Concatenate, results), "\n") == results
  {
    LinesOfJoin(results);
  }
}
