/**
 * The validator agent of src/agents/validator.rs: an ordered list of
 * rules, each a check that may fail with a message, sorted into errors
 * and warnings, with the run routed to one node on success and another
 * on failure.
 */
module Validator {
  import opened Prelude
  import opened Text

  /** A check on the input: `Ok` or the reason it fails. */
  type Check = string -> Result<Unit, string>

  datatype ValidationRule = ValidationRule(name: string, validator: Check, critical: bool)

  datatype ValidatorAgent = ValidatorAgent(
    rules: seq<ValidationRule>,
    name: string,
    nextOnSuccess: Option<int>,
    nextOnFailure: Option<int>,
    strictMode: bool)

  /** `ValidatorAgent::new`: no rules, no routes, not strict, named "Validator". */
  function NewValidator(): (v: ValidatorAgent)
    ensures v.rules == [] && v.name == "Validator"
    ensures v.nextOnSuccess.None? && v.nextOnFailure.None? && !v.strictMode
  {
    ValidatorAgent([], "Validator", None, None, false)
  }

  function AddRule(v: ValidatorAgent, rule: ValidationRule): ValidatorAgent
  {
    v.(rules := v.rules + [rule])
  }

  function WithSuccessRoute(v: ValidatorAgent, node: int): ValidatorAgent
  {
    v.(nextOnSuccess := Some(node))
  }

  function WithFailureRoute(v: ValidatorAgent, node: int): ValidatorAgent
  {
    v.(nextOnFailure := Some(node))
  }

  function WithStrictMode(v: ValidatorAgent, strict: bool): ValidatorAgent
  {
    v.(strictMode := strict)
  }

  function WithName(v: ValidatorAgent, name: string): ValidatorAgent
  {
    v.(name := name)
  }

  /**
   * The length check: too short below `min`, otherwise too long above
   * `max`; a missing bound is not checked. Length counts characters.
   */
  function LengthCheck(min: Option<nat>, max: Option<nat>, input: string): (r: Result<Unit, string>)
    ensures min.Some? && |input| < min.value ==> r == Err("Input too short (min: " + NatToString(min.value) + ")")
    ensures (min.None? || |input| >= min.value) && max.Some? && |input| > max.value
      ==> r == Err("Input too long (max: " + NatToString(max.value) + ")")
    ensures r.Ok? <==> (min.None? || |input| >= min.value) && (max.None? || |input| <= max.value)
  {
    if min.Some? && |input| < min.value then Err("Input too short (min: " + NatToString(min.value) + ")")
    else if max.Some? && |input| > max.value then Err("Input too long (max: " + NatToString(max.value) + ")")
    else Ok(Unit)
  }

  /**
   * The pattern check: it fails, with `message`, only when the pattern
   * compiles and does not match; a pattern that does not compile passes
   * everything.
   */
  function PatternCheck(regex: RegexEngine, pattern: string, message: string, input: string): (r: Result<Unit, string>)
    ensures r.Err? <==> regex.compiles(pattern) && !regex.isMatch(pattern, input)
    ensures r.Err? ==> r.error == message
  {
    if regex.compiles(pattern) && !regex.isMatch(pattern, input) then Err(message) else Ok(Unit)
  }

  function AddLengthRule(v: ValidatorAgent, min: Option<nat>, max: Option<nat>, critical: bool): (r: ValidatorAgent)
    ensures |r.rules| == |v.rules| + 1 && r.rules[..|v.rules|] == v.rules
    ensures var rule := r.rules[|v.rules|];
      rule.name == "length_check" && rule.critical == critical
      && forall input :: rule.validator(input) == LengthCheck(min, max, input)
  {
    AddRule(v, ValidationRule("length_check", input => LengthCheck(min, max, input), critical))
  }

  function AddPatternRule(v: ValidatorAgent, regex: RegexEngine, name: string, pattern: string,
                          message: string, critical: bool): (r: ValidatorAgent)
    ensures |r.rules| == |v.rules| + 1 && r.rules[..|v.rules|] == v.rules
    ensures var rule := r.rules[|v.rules|];
      rule.name == name && rule.critical == critical
      && forall input :: rule.validator(input) == PatternCheck(regex, pattern, message, input)
  {
    AddRule(v, ValidationRule(name, input => PatternCheck(regex, pattern, message, input), critical))
  }

  /** A failing rule reports its name and its reason. */
  function RuleMessage(name: string, reason: string): string
  {
    name + ": " + reason
  }

  /** Whether a failure of `rule` is an error rather than a warning. */
  predicate IsBlocking(rule: ValidationRule, strict: bool)
  {
    rule.critical || strict
  }

  /** The message `rule` reports on `input`, if it fails and lands on the chosen side. */
  function Outcome(rule: ValidationRule, input: string, strict: bool, blocking: bool): seq<string>
  {
    match rule.validator(input)
    case Ok(_) => []
    case Err(reason) => if IsBlocking(rule, strict) == blocking then [RuleMessage(rule.name, reason)] else []
  }

  /**
   * The messages of the failing rules that are errors (`blocking`) or
   * warnings (`!blocking`), in rule order.
   */
  function Sorted(rules: seq<ValidationRule>, input: string, strict: bool, blocking: bool): seq<string>
    decreases |rules|
  {
    if rules == [] then []
    else Outcome(rules[0], input, strict, blocking) + Sorted(rules[1..], input, strict, blocking)
  }

  /** The number of rules that fail on `input`. */
  function FailureCount(rules: seq<ValidationRule>, input: string): nat
    decreases |rules|
  {
    if rules == [] then 0
    else (if rules[0].validator(input).Err? then 1 else 0) + FailureCount(rules[1..], input)
  }

  /** `validate`: the warnings when there are no errors, else the errors. */
  function Validate(v: ValidatorAgent, input: string): Result<seq<string>, seq<string>>
  {
    var errors := Sorted(v.rules, input, v.strictMode, true);
    if errors == [] then Ok(Sorted(v.rules, input, v.strictMode, false)) else Err(errors)
  }

  lemma {:induction false} SortedAppend(rules: seq<ValidationRule>, rule: ValidationRule, input: string, strict: bool, blocking: bool)
    ensures Sorted(rules + [rule], input, strict, blocking)
      == Sorted(rules, input, strict, blocking) + Outcome(rule, input, strict, blocking)
    decreases |rules|
  {
    if rules == [] {
      assert [] + [rule] == [rule];
    } else {
      assert (rules + [rule])[1..] == rules[1..] + [rule];
      SortedAppend(rules[1..], rule, input, strict, blocking);
    }
  }

  /** The rule loop of `validate`, pushing each failure onto the errors or the warnings. */
  method ValidateRules(v: ValidatorAgent, input: string) returns (r: Result<seq<string>, seq<string>>)
    ensures r == Validate(v, input)
  {
    var warnings: seq<string> := [];
    var errors: seq<string> := [];
    var i := 0;
    while i < |v.rules|
      invariant 0 <= i <= |v.rules|
      invariant errors == Sorted(v.rules[..i], input, v.strictMode, true)
      invariant warnings == Sorted(v.rules[..i], input, v.strictMode, false)
    {
      var rule := v.rules[i];
      assert v.rules[..i + 1] == v.rules[..i] + [rule];
      SortedAppend(v.rules[..i], rule, input, v.strictMode, true);
      SortedAppend(v.rules[..i], rule, input, v.strictMode, false);
      match rule.validator(input) {
        case Ok(_) =>
        case Err(reason) =>
          var message := RuleMessage(rule.name, reason);
          if rule.critical || v.strictMode {
            errors := errors + [message];
          } else {
            warnings := warnings + [message];
          }
      }
      i := i + 1;
    }
    assert v.rules[..i] == v.rules;
    if errors == [] {
      r := Ok(warnings);
    } else {
      r := Err(errors);
    }
  }

  /** Every failing rule lands on exactly one side: errors and warnings together count the failures. */
  lemma {:induction false} SortedPartition(rules: seq<ValidationRule>, input: string, strict: bool)
    ensures |Sorted(rules, input, strict, true)| + |Sorted(rules, input, strict, false)| == FailureCount(rules, input)
    decreases |rules|
  {
    if rules != [] {
      SortedPartition(rules[1..], input, strict);
    }
  }

  /** In strict mode there are no warnings: every failure is an error. */
  lemma {:induction false} StrictHasNoWarnings(rules: seq<ValidationRule>, input: string)
    ensures Sorted(rules, input, true, false) == []
    ensures |Sorted(rules, input, true, true)| == FailureCount(rules, input)
    decreases |rules|
  {
    if rules != [] {
      StrictHasNoWarnings(rules[1..], input);
    }
  }

  /** There are no errors exactly when no failing rule is critical (or strict mode is on and nothing fails). */
  lemma {:induction false} NoErrorsIff(rules: seq<ValidationRule>, input: string, strict: bool)
    ensures Sorted(rules, input, strict, true) == []
      <==> forall i :: 0 <= i < |rules| && rules[i].validator(input).Err? ==> !IsBlocking(rules[i], strict)
    decreases |rules|
  {
    if rules != [] {
      NoErrorsIff(rules[1..], input, strict);
      assert forall i :: 1 <= i < |rules| ==> rules[i] == rules[1..][i - 1];
    }
  }

  /** Validation succeeds exactly when no failing rule blocks. */
  lemma ValidateOkIff(v: ValidatorAgent, input: string)
    ensures Validate(v, input).Ok?
      <==> forall i :: 0 <= i < |v.rules| && v.rules[i].validator(input).Err? ==> !IsBlocking(v.rules[i], v.strictMode)
  {
    NoErrorsIff(v.rules, input, v.strictMode);
  }

  /** The reply for a validation outcome. */
  function Reply(outcome: Result<seq<string>, seq<string>>, input: string): string
  {
    match outcome
    case Ok(warnings) =>
      "Validation passed for: " + input
      + (if warnings == [] then "" else "\nWarnings: " + Join(warnings, ", "))
    case Err(errors) =>
      "Validation failed for: " + input + "\nErrors: " + Join(errors, ", ")
  }

  /** One run: the reply, routed to the success node or the failure node. */
  function Run(v: ValidatorAgent, input: string): (reply: (string, Option<int>))
    ensures Validate(v, input).Ok? ==> reply.1 == v.nextOnSuccess
    ensures Validate(v, input).Err? ==> reply.1 == v.nextOnFailure
    ensures reply.0 == Reply(Validate(v, input), input)
  {
    var outcome := Validate(v, input);
    (Reply(outcome, input), if outcome.Ok? then v.nextOnSuccess else v.nextOnFailure)
  }

  /**
   * The sample validator: a critical length rule of 5 to 100 characters
   * and a non-critical rule against digits, routing success to node 1
   * and failure to node 2.
   */
  function SampleValidator(regex: RegexEngine): ValidatorAgent
  {
    WithFailureRoute(
      WithSuccessRoute(
        AddPatternRule(
          AddLengthRule(NewValidator(), Some(5), Some(100), true),
          regex, "no_numbers", "^[^0-9]+$", "Input should not contain numbers", false),
        1),
      2)
  }

  /** A short input fails the critical length rule and goes to the failure node. */
  lemma ShortInputFails(regex: RegexEngine)
    ensures Run(SampleValidator(regex), "Hi").1 == Some(2)
    ensures Contains(Run(SampleValidator(regex), "Hi").0, "too short")
  {
    var v := SampleValidator(regex);
    SampleRules(regex);
    var reason := "Input too short (min: " + NatToString(5) + ")";
    assert LengthCheck(Some(5), Some(100), "Hi") == Err(reason);
    assert v.rules[0].validator("Hi") == Err(reason);
    var first := RuleMessage("length_check", reason);
    assert Outcome(v.rules[0], "Hi", false, true) == [first];
    var errors := Sorted(v.rules, "Hi", false, true);
    assert errors == [first] + Sorted(v.rules[1..], "Hi", false, true);
    TooShortMessage(reason);
    FailureReplyMentions("Hi", errors, "too short");
  }

  lemma TooShortMessage(reason: string)
    requires reason == "Input too short (min: " + NatToString(5) + ")"
    ensures Contains(RuleMessage("length_check", reason), "too short")
  {
    assert NatToString(5) == "5";
    var first := RuleMessage("length_check", reason);
    assert first[20..29] == "too short";
    ContainsAt(first, "too short", 20);
  }

  /** Whatever the first error mentions, the failure reply mentions too. */
  lemma FailureReplyMentions(input: string, errors: seq<string>, w: string)
    requires |errors| >= 1 && Contains(errors[0], w)
    ensures Contains(Reply(Err(errors), input), w)
  {
    JoinStartsWithFirst(errors, ", ");
    var joined := Join(errors, ", ");
    var rest := joined[|errors[0]|..];
    assert joined == errors[0] + rest;
    var head := "Validation failed for: " + input + "\nErrors: ";
    assert Reply(Err(errors), input) == head + joined;
    assert head + joined == head + errors[0] + rest;
    ContainsInConcat(head, errors[0], rest, w);
  }

  /** A passing reply that carries warnings says so. */
  lemma WarningsAnnounced(warnings: seq<string>, input: string)
    requires warnings != []
    ensures Contains(Reply(Ok(warnings), input), "Warning")
  {
    var head := "Validation passed for: " + input + "\n";
    assert Reply(Ok(warnings), input) == head + "Warnings: " + Join(warnings, ", ");
    ContainsAt("Warnings: ", "Warning", 0);
    ContainsInConcat(head, "Warnings: ", Join(warnings, ", "), "Warning");
  }

  /**
   * An input with digits but of a good length fails only the warning rule
   * of the sample validator.
   */
  lemma DigitsOnlyOutcome(regex: RegexEngine, input: string)
    requires input == "Hello123"
    requires regex.compiles("^[^0-9]+$") && !regex.isMatch("^[^0-9]+$", input)
    ensures Validate(SampleValidator(regex), input) == Ok([RuleMessage("no_numbers", "Input should not contain numbers")])
  {
    var v := SampleValidator(regex);
    SampleRules(regex);
    var message := "Input should not contain numbers";
    assert |input| == 8;
    assert LengthCheck(Some(5), Some(100), input) == Ok(Unit);
    assert v.rules[0].validator(input) == Ok(Unit);
    assert PatternCheck(regex, "^[^0-9]+$", message, input) == Err(message);
    assert v.rules[1].validator(input) == Err(message);
    var tail := v.rules[1..];
    assert tail[0] == v.rules[1] && tail[1..] == [];
    assert Sorted(tail, input, false, true) == Outcome(v.rules[1], input, false, true) == [];
    assert Sorted(v.rules, input, false, true) == [];
    var warning := RuleMessage("no_numbers", message);
    assert Sorted(tail, input, false, false) == Outcome(v.rules[1], input, false, false) == [warning];
    assert Sorted(v.rules, input, false, false) == Outcome(v.rules[0], input, false, false) + [warning];
    assert Sorted(v.rules, input, v.strictMode, false) == [warning];
  }

  /**
   * Such an input goes to the success node, and the reply carries a
   * warning.
   */
  lemma DigitsOnlyWarn(regex: RegexEngine, input: string)
    requires input == "Hello123"
    requires regex.compiles("^[^0-9]+$") && !regex.isMatch("^[^0-9]+$", input)
    ensures Run(SampleValidator(regex), input).1 == Some(1)
    ensures Contains(Run(SampleValidator(regex), input).0, "Warning")
  {
    DigitsOnlyOutcome(regex, input);
    WarningsAnnounced([RuleMessage("no_numbers", "Input should not contain numbers")], input);
  }

  /** The two rules of the sample validator, in order. */
  lemma SampleRules(regex: RegexEngine)
    ensures var v := SampleValidator(regex);
      |v.rules| == 2 && !v.strictMode
      && v.rules[0].name == "length_check" && v.rules[0].critical
      && (forall input :: v.rules[0].validator(input) == LengthCheck(Some(5), Some(100), input))
      && v.rules[1].name == "no_numbers" && !v.rules[1].critical
      && (forall input :: v.rules[1].validator(input)
            == PatternCheck(regex, "^[^0-9]+$", "Input should not contain numbers", input))
      && v.nextOnSuccess == Some(1) && v.nextOnFailure == Some(2)
  {
    var v1 := AddLengthRule(NewValidator(), Some(5), Some(100), true);
    var v2 := AddPatternRule(v1, regex, "no_numbers", "^[^0-9]+$", "Input should not contain numbers", false);
    assert v2.rules[0] == v1.rules[0];
  }
}
