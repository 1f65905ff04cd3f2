/**
 * The router agent of src/agents/router.rs: an ordered list of pattern
 * rules, each naming a target node, and a default for input no rule
 * matches. Matching is case-insensitive unless switched off.
 */
module Router {
  import opened Prelude
  import opened Text

  datatype RouteRule = RouteRule(pattern: string, targetNode: int, description: Option<string>)

  datatype RouterAgent = RouterAgent(
    routes: seq<RouteRule>,
    defaultRoute: Option<int>,
    caseSensitive: bool,
    name: string,
    regex: RegexEngine)

  /** `RouterAgent::new`: no rules, no default, case-insensitive, named "Router". */
  function NewRouter(regex: RegexEngine): (r: RouterAgent)
    ensures r.routes == [] && r.defaultRoute.None? && !r.caseSensitive && r.name == "Router"
  {
    RouterAgent([], None, false, "Router", regex)
  }

  function AddRoute(r: RouterAgent, rule: RouteRule): RouterAgent
  {
    r.(routes := r.routes + [rule])
  }

  function SetDefault(r: RouterAgent, node: int): RouterAgent
  {
    r.(defaultRoute := Some(node))
  }

  function SetCaseSensitive(r: RouterAgent, sensitive: bool): RouterAgent
  {
    r.(caseSensitive := sensitive)
  }

  function WithName(r: RouterAgent, name: string): RouterAgent
  {
    r.(name := name)
  }

  /** The text a rule's pattern is matched against. */
  function TestInput(r: RouterAgent, input: string): string
  {
    if r.caseSensitive then input else Lower(input)
  }

  /**
   * Whether `rule` sends `input` to its target: its pattern, lower-cased
   * unless matching is case-sensitive, compiles and matches the test input.
   */
  predicate Fires(r: RouterAgent, rule: RouteRule, input: string)
  {
    var pattern := if r.caseSensitive then rule.pattern else Lower(rule.pattern);
    r.regex.compiles(pattern) && r.regex.isMatch(pattern, TestInput(r, input))
  }

  /** The routing decision over the rules from index `from` on. */
  function RouteFrom(r: RouterAgent, input: string, from: nat): (next: Option<int>)
    requires from <= |r.routes|
    ensures (forall i :: from <= i < |r.routes| ==> !Fires(r, r.routes[i], input)) ==> next == r.defaultRoute
    ensures forall i :: from <= i < |r.routes| && Fires(r, r.routes[i], input) ==>
      ((forall j :: from <= j < i ==> !Fires(r, r.routes[j], input)) ==> next == Some(r.routes[i].targetNode))
    decreases |r.routes| - from
  {
    if from == |r.routes| then r.defaultRoute
    else if Fires(r, r.routes[from], input) then Some(r.routes[from].targetNode)
    else RouteFrom(r, input, from + 1)
  }

  /**
   * The route for `input`: the target of the first rule, in insertion
   * order, that fires; the default route when none does.
   */
  function Route(r: RouterAgent, input: string): (next: Option<int>)
    ensures (forall i :: 0 <= i < |r.routes| ==> !Fires(r, r.routes[i], input)) ==> next == r.defaultRoute
    ensures forall i :: 0 <= i < |r.routes| && Fires(r, r.routes[i], input) ==>
      ((forall j :: 0 <= j < i ==> !Fires(r, r.routes[j], input)) ==> next == Some(r.routes[i].targetNode))
  {
    RouteFrom(r, input, 0)
  }

  /** `find_route`: the first-match scan over the rules. */
  method FindRoute(r: RouterAgent, input: string) returns (next: Option<int>)
    ensures next == Route(r, input)
  {
    var testInput := if r.caseSensitive then input else Lower(input);
    var i := 0;
    while i < |r.routes|
      invariant 0 <= i <= |r.routes|
      invariant testInput == TestInput(r, input)
      invariant RouteFrom(r, input, i) == Route(r, input)
    {
      var rule := r.routes[i];
      var pattern := if r.caseSensitive then rule.pattern else Lower(rule.pattern);
      if r.regex.compiles(pattern) && r.regex.isMatch(pattern, testInput) {
        return Some(rule.targetNode);
      }
      i := i + 1;
    }
    return r.defaultRoute;
  }

  /** The reply that accompanies a routing decision. */
  function RouteMessage(route: Option<int>, input: string): string
  {
    match route
    case Some(node) => "Routing to node " + IntToString(node) + ": " + input
    case None => "No matching route found for: " + input
  }

  /** One run: the reply and the next node; a router keeps no state between runs. */
  function Run(r: RouterAgent, input: string): (reply: (string, Option<int>))
    ensures reply.1 == Route(r, input)
    ensures reply.0 == RouteMessage(reply.1, input)
  {
    var route := Route(r, input);
    (RouteMessage(route, input), route)
  }

  /** Rules after the first one that fires are never consulted. */
  lemma LaterRulesIgnored(r: RouterAgent, input: string, i: nat, extra: seq<RouteRule>)
    requires i < |r.routes| && Fires(r, r.routes[i], input)
    ensures Route(r.(routes := r.routes[..i + 1] + extra), input) == Route(r, input)
  {
    var r' := r.(routes := r.routes[..i + 1] + extra);
    FirstFiring(r, input, i);
    var k :| 0 <= k <= i && Fires(r, r.routes[k], input) &&
      (forall j :: 0 <= j < k ==> !Fires(r, r.routes[j], input));
    assert TestInput(r', input) == TestInput(r, input);
    assert r'.routes[k] == r.routes[k];
    assert forall j :: 0 <= j < k ==> r'.routes[j] == r.routes[j];
    assert Fires(r', r'.routes[k], input);
  }

  /** Some rule at or before `i` is the first one that fires. */
  lemma {:induction false} FirstFiring(r: RouterAgent, input: string, i: nat)
    requires i < |r.routes| && Fires(r, r.routes[i], input)
    ensures exists k ::
      (0 <= k <= i && Fires(r, r.routes[k], input) && forall j :: 0 <= j < k ==> !Fires(r, r.routes[j], input))
    decreases i
  {
    if exists j :: 0 <= j < i && Fires(r, r.routes[j], input) {
      var j :| 0 <= j < i && Fires(r, r.routes[j], input);
      FirstFiring(r, input, j);
    }
  }

  /**
   * The support router: technical words to node 1, sales words to node 2,
   * everything else to node 3.
   */
  function SupportRouter(regex: RegexEngine): RouterAgent
  {
    SetDefault(
      AddRoute(
        AddRoute(NewRouter(regex), RouteRule("technical|bug|error", 1, Some("Technical support"))),
        RouteRule("sales|pricing|buy", 2, Some("Sales team"))),
      3)
  }

  /**
   * With a regex engine that matches the alternations as the `regex`
   * crate does, the three sample questions go to nodes 1, 2 and 3.
   */
  lemma SupportRouting(regex: RegexEngine)
    requires regex.compiles("technical|bug|error") && regex.compiles("sales|pricing|buy")
    requires regex.isMatch("technical|bug|error", "i found a bug")
    requires !regex.isMatch("technical|bug|error", "what's the pricing?")
    requires regex.isMatch("sales|pricing|buy", "what's the pricing?")
    requires !regex.isMatch("technical|bug|error", "general question")
    requires !regex.isMatch("sales|pricing|buy", "general question")
    ensures Run(SupportRouter(regex), "I found a bug").1 == Some(1)
    ensures Run(SupportRouter(regex), "What's the pricing?").1 == Some(2)
    ensures Run(SupportRouter(regex), "General question").1 == Some(3)
  {
    var r := SupportRouter(regex);
    LowerSamples();
    assert Fires(r, r.routes[0], "I found a bug");
    assert !Fires(r, r.routes[0], "What's the pricing?");
    assert Fires(r, r.routes[1], "What's the pricing?");
    assert !Fires(r, r.routes[0], "General question");
    assert !Fires(r, r.routes[1], "General question");
  }

  lemma LowerSamples()
    ensures Lower("technical|bug|error") == "technical|bug|error"
    ensures Lower("sales|pricing|buy") == "sales|pricing|buy"
    ensures Lower("I found a bug") == "i found a bug"
    ensures Lower("What's the pricing?") == "what's the pricing?"
    ensures Lower("General question") == "general question"
  {
    LowerIs("technical|bug|error", "technical|bug|error");
    LowerIs("sales|pricing|buy", "sales|pricing|buy");
    LowerIs("I found a bug", "i found a bug");
    LowerIs("What's the pricing?", "what's the pricing?");
    LowerIs("General question", "general question");
  }
}
