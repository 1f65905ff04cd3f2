/**
 * Tool definitions and the two registries of src/models/tools.rs: the
 * name-keyed `ToolRegistry`, and `CombinedToolRegistry`, the read-only
 * overlay of a primary registry over a secondary one that the graph hands
 * to every agent.
 *
 * serde_json's argument parsing and the tools' own code are left
 * abstract: a parser and the tool functions are function values.
 */
module Tools {
  import opened Prelude
  import opened Text
  import Json

  /** One parameter's schema; `items` describes the elements of an array. */
  datatype Property = Property(propType: string, description: Option<string>, items: Option<Property>)

  datatype Parameters = Parameters(paramType: string, properties: map<string, Property>, required: seq<string>)

  datatype FunctionSpec = FunctionSpec(name: string, description: string, parameters: Parameters)

  /** `Tool`: the declaration of a callable function (`tool_type` is usually "function"). */
  datatype Tool = Tool(toolType: string, func: FunctionSpec)
  {
    function Name(): string { func.name }
  }

  /** A tool's implementation: JSON arguments to a JSON result or an error text. */
  type ToolFunction = Json.Value -> Result<Json.Value, string>

  /** `serde_json::from_str` on the argument text, with its error text on failure. */
  type ArgumentParser = string -> Result<Json.Value, string>

  function ParseFailure(detail: string): string
  {
    "Failed to parse arguments: " + detail
  }

  function ToolNotFound(name: string): string
  {
    "Tool '" + name + "' not found"
  }

  function NameSet(ts: seq<Tool>): set<string>
  {
    set t | t in ts :: t.Name()
  }

  /** No name occurs twice in `ts`. */
  predicate DistinctNames(ts: seq<Tool>)
  {
    forall i, j :: 0 <= i < j < |ts| ==> ts[i].Name() != ts[j].Name()
  }

  /** `ts` lists the tools of `tools`, each exactly once, in some order. */
  predicate IsListingOf(ts: seq<Tool>, tools: map<string, Tool>)
  {
    && DistinctNames(ts)
    && NameSet(ts) == tools.Keys
    && forall t :: t in ts ==> t.Name() in tools && tools[t.Name()] == t
  }

  lemma {:induction false} DistinctNamesCount(ts: seq<Tool>)
    requires DistinctNames(ts)
    ensures |NameSet(ts)| == |ts|
    decreases |ts|
  {
    if ts != [] {
      var rest := ts[1..];
      DistinctNamesCount(rest);
      assert NameSet(ts) == {ts[0].Name()} + NameSet(rest) by {
        assert ts == [ts[0]] + rest;
      }
      assert ts[0].Name() !in NameSet(rest) by {
        forall k | 0 <= k < |rest| ensures rest[k].Name() != ts[0].Name() {
          assert rest[k] == ts[k + 1];
        }
      }
    }
  }

  lemma NameSetAppend(ts: seq<Tool>, t: Tool)
    ensures NameSet(ts + [t]) == NameSet(ts) + {t.Name()}
  {
    assert forall u :: u in ts + [t] <==> u in ts || u == t;
  }

  /** Partial listings: `ts` lists the tools of `tools` filed under `done`. */
  /** One step of the listing loop: the tool of a name still to list joins the listing. */
  lemma ListingStep(ts: seq<Tool>, tools: map<string, Tool>, rest: set<string>, name: string)
    requires rest <= tools.Keys && ListsPart(ts, tools, tools.Keys - rest)
    requires name in rest && tools[name].Name() == name
    ensures ListsPart(ts + [tools[name]], tools, tools.Keys - (rest - {name}))
  {
    ExtendListing(ts, tools, tools.Keys - rest, name);
    assert tools.Keys - (rest - {name}) == (tools.Keys - rest) + {name};
  }

  predicate ListsPart(ts: seq<Tool>, tools: map<string, Tool>, done: set<string>)
  {
    && DistinctNames(ts)
    && NameSet(ts) == done
    && forall t :: t in ts ==> t.Name() in tools && tools[t.Name()] == t
  }

  lemma ExtendListing(ts: seq<Tool>, tools: map<string, Tool>, done: set<string>, name: string)
    requires ListsPart(ts, tools, done)
    requires name in tools && name !in done && tools[name].Name() == name
    ensures ListsPart(ts + [tools[name]], tools, done + {name})
  {
    NameSetAppend(ts, tools[name]);
    var r := ts + [tools[name]];
    forall i, j | 0 <= i < j < |r| ensures r[i].Name() != r[j].Name() {
      if j == |ts| {
        assert r[i] in ts;
      } else {
        assert r[i] == ts[i] && r[j] == ts[j];
      }
    }
    assert forall t :: t in r <==> t in ts || t == tools[name];
  }

  /** A listing has exactly one entry per registered name. */
  lemma ListingLength(ts: seq<Tool>, tools: map<string, Tool>)
    requires IsListingOf(ts, tools)
    ensures |ts| == |tools|
  {
    DistinctNamesCount(ts);
    assert |tools| == |tools.Keys|;
  }

  /** `ToolRegistry`: the declarations and the implementations, both keyed by tool name. */
  class ToolRegistry {
    var tools: map<string, Tool>
    var functions: map<string, ToolFunction>

    /** Both maps have the same names, and each tool is filed under its own name. */
    ghost predicate Valid()
      reads this
    {
      && tools.Keys == functions.Keys
      && forall n :: n in tools ==> tools[n].Name() == n
    }

    constructor ()
      ensures Valid()
      ensures tools == map[] && functions == map[]
    {
      tools := map[];
      functions := map[];
    }

    /** Inserts or replaces the declaration and the implementation under the tool's name. */
    method RegisterTool(tool: Tool, implementation: ToolFunction)
      requires Valid()
      modifies this
      ensures Valid()
      ensures tools == old(tools)[tool.Name() := tool]
      ensures functions == old(functions)[tool.Name() := implementation]
    {
      var name := tool.Name();
      tools := tools[name := tool];
      functions := functions[name := implementation];
    }

    /** Every registered declaration once, in the hash map's (unspecified) order. */
    method GetTools() returns (r: seq<Tool>)
      requires Valid()
      ensures IsListingOf(r, tools)
    {
      r := [];
      var rest := tools.Keys;
      while rest != {}
        invariant rest <= tools.Keys
        invariant ListsPart(r, tools, tools.Keys - rest)
        decreases |rest|
      {
        var name :| name in rest;
        ListingStep(r, tools, rest, name);
        r := r + [tools[name]];
        rest := rest - {name};
      }
      assert tools.Keys - rest == tools.Keys;
    }

    /** Parses the arguments first and only then looks the name up. */
    function ExecuteTool(parse: ArgumentParser, name: string, arguments: string): (r: Result<Json.Value, string>)
      reads this
      ensures r.Ok? ==> parse(arguments).Ok? && name in functions
      ensures parse(arguments).Ok? && name in functions ==> r == functions[name](parse(arguments).value)
    {
      match parse(arguments)
      case Err(e) => Err(ParseFailure(e))
      case Ok(args) =>
        if name in functions then functions[name](args) else Err(ToolNotFound(name))
    }
  }

  /** Unparsable arguments fail the same way whatever the name and whatever is registered. */
  lemma ParseCheckedBeforeLookup(a: ToolRegistry, b: ToolRegistry, parse: ArgumentParser,
                                 name1: string, name2: string, arguments: string)
    requires parse(arguments).Err?
    ensures a.ExecuteTool(parse, name1, arguments) == b.ExecuteTool(parse, name2, arguments)
    ensures a.ExecuteTool(parse, name1, arguments) == Err(ParseFailure(parse(arguments).error))
  {
  }

  /** With arguments that parse, an unregistered name is reported as not found. */
  lemma UnknownToolNotFound(reg: ToolRegistry, parse: ArgumentParser, name: string, arguments: string)
    requires parse(arguments).Ok? && name !in reg.functions
    ensures reg.ExecuteTool(parse, name, arguments) == Err(ToolNotFound(name))
  {
  }

  /** `ts` with every tool named in `names` removed, order kept: `Vec::retain`. */
  function WithoutNames(ts: seq<Tool>, names: set<string>): (r: seq<Tool>)
    ensures forall t :: t in r <==> t in ts && t.Name() !in names
    ensures DistinctNames(ts) ==> DistinctNames(r)
    decreases |ts|
  {
    if ts == [] then []
    else
      var rest := WithoutNames(ts[1..], names);
      assert forall t :: t in ts <==> t == ts[0] || t in ts[1..];
      if ts[0].Name() in names then rest
      else
        assert DistinctNames(ts) ==> ts[0].Name() !in NameSet(ts[1..]) by {
          if DistinctNames(ts) {
            forall k | 0 <= k < |ts[1..]| ensures ts[1..][k].Name() != ts[0].Name() {
              assert ts[1..][k] == ts[k + 1];
            }
          }
        }
        [ts[0]] + rest
  }

  /**
   * The combined listing: the secondary tools whose name is not a primary
   * name, followed by all primary tools.
   */
  function CombineListings(primaryTools: seq<Tool>, secondaryTools: seq<Tool>): seq<Tool>
  {
    WithoutNames(secondaryTools, NameSet(primaryTools)) + primaryTools
  }

  /**
   * The primary definition wins: every listed tool is a primary tool or a
   * secondary tool that no primary tool shadows, all names of both are
   * listed, and no name repeats when neither input repeats one.
   */
  lemma CombineListingsMeaning(primaryTools: seq<Tool>, secondaryTools: seq<Tool>)
    ensures forall t :: t in CombineListings(primaryTools, secondaryTools) <==>
      t in primaryTools || (t in secondaryTools && t.Name() !in NameSet(primaryTools))
    ensures NameSet(CombineListings(primaryTools, secondaryTools)) == NameSet(primaryTools) + NameSet(secondaryTools)
    ensures DistinctNames(primaryTools) && DistinctNames(secondaryTools) ==>
      DistinctNames(CombineListings(primaryTools, secondaryTools))
  {
    var kept := WithoutNames(secondaryTools, NameSet(primaryTools));
    var r := kept + primaryTools;
    assert forall t :: t in r <==> t in kept || t in primaryTools;
    if DistinctNames(primaryTools) && DistinctNames(secondaryTools) {
      forall i, j | 0 <= i < j < |r| ensures r[i].Name() != r[j].Name() {
        if j < |kept| {
        } else if i >= |kept| {
          assert r[i] == primaryTools[i - |kept|] && r[j] == primaryTools[j - |kept|];
        } else {
          assert r[i] in kept && r[j] in primaryTools;
        }
      }
    }
  }

  /** The secondary listing without the primary names lists the unshadowed secondary tools. */
  lemma KeptIsListing(kept: seq<Tool>, tools: seq<Tool>, primaryTools: seq<Tool>,
                      secondary: map<string, Tool>, primary: map<string, Tool>)
    requires IsListingOf(tools, secondary) && IsListingOf(primaryTools, primary)
    requires kept == WithoutNames(tools, NameSet(primaryTools))
    ensures IsListingOf(kept, secondary - primary.Keys)
  {
    var m := secondary - primary.Keys;
    assert NameSet(kept) == m.Keys by {
      forall n | n in m.Keys ensures n in NameSet(kept) {
        var t :| t in tools && t.Name() == n;
        assert t in kept;
      }
    }
  }

  /** A listing of the unshadowed secondary tools followed by a primary listing lists the overlay. */
  lemma OverlayIsListing(kept: seq<Tool>, primaryTools: seq<Tool>,
                         secondary: map<string, Tool>, primary: map<string, Tool>)
    requires IsListingOf(kept, secondary - primary.Keys) && IsListingOf(primaryTools, primary)
    ensures IsListingOf(kept + primaryTools, secondary + primary)
  {
    var r := kept + primaryTools;
    assert forall t :: t in r <==> t in kept || t in primaryTools;
    assert NameSet(r) == NameSet(kept) + NameSet(primaryTools);
    forall i, j | 0 <= i < j < |r| ensures r[i].Name() != r[j].Name() {
      if j < |kept| {
        assert r[i] == kept[i] && r[j] == kept[j];
      } else if i >= |kept| {
        assert r[i] == primaryTools[i - |kept|] && r[j] == primaryTools[j - |kept|];
      } else {
        assert r[i] in kept && r[j] in primaryTools;
        assert r[i].Name() in NameSet(kept) && r[j].Name() in NameSet(primaryTools);
      }
    }
  }

  /**
   * `CombinedToolRegistry`: a read view over two registries in which the
   * primary one takes precedence.
   */
  datatype CombinedToolRegistry = CombinedToolRegistry(primary: ToolRegistry, secondary: ToolRegistry)
  {
    /**
     * The secondary tools not shadowed by a primary name, then every
     * primary tool; together one entry per name of either registry, with
     * the primary definition of a shared name.
     */
    method GetTools() returns (r: seq<Tool>)
      requires primary.Valid() && secondary.Valid()
      ensures |primary.tools| <= |r|
      ensures IsListingOf(r[..|r| - |primary.tools|], secondary.tools - primary.tools.Keys)
      ensures IsListingOf(r[|r| - |primary.tools|..], primary.tools)
      ensures IsListingOf(r, secondary.tools + primary.tools)
    {
      var tools := secondary.GetTools();
      var primaryTools := primary.GetTools();
      ListingLength(primaryTools, primary.tools);
      var kept := WithoutNames(tools, NameSet(primaryTools));
      CombineListingsMeaning(primaryTools, tools);
      r := kept + primaryTools;
      assert r[..|r| - |primary.tools|] == kept;
      assert r[|r| - |primary.tools|..] == primaryTools;
      KeptIsListing(kept, tools, primaryTools, secondary.tools, primary.tools);
      OverlayIsListing(kept, primaryTools, secondary.tools, primary.tools);
    }

    /**
     * The primary registry's result when that is a success; otherwise
     * exactly the secondary registry's result, whatever the primary
     * error was.
     */
    function ExecuteTool(parse: ArgumentParser, name: string, arguments: string): (r: Result<Json.Value, string>)
      reads primary, secondary
      ensures r.Ok? ==> name in primary.functions || name in secondary.functions
      ensures primary.ExecuteTool(parse, name, arguments).Ok? ==> r == primary.ExecuteTool(parse, name, arguments)
      ensures primary.ExecuteTool(parse, name, arguments).Err? ==> r == secondary.ExecuteTool(parse, name, arguments)
    {
      var first := primary.ExecuteTool(parse, name, arguments);
      if first.Ok? then first else secondary.ExecuteTool(parse, name, arguments)
    }
  }

  /**
   * A primary tool that succeeds shadows the secondary registry: its
   * result is returned unchanged even when both registries have the name.
   */
  lemma PrimaryWins(view: CombinedToolRegistry, parse: ArgumentParser, name: string, arguments: string)
    requires parse(arguments).Ok? && name in view.primary.functions
    requires view.primary.functions[name](parse(arguments).value).Ok?
    ensures view.ExecuteTool(parse, name, arguments) == view.primary.functions[name](parse(arguments).value)
  {
  }

  /** A tool only the secondary registry has runs as if called there directly. */
  lemma SecondaryOnlyTool(view: CombinedToolRegistry, parse: ArgumentParser, name: string, arguments: string)
    requires name !in view.primary.functions
    ensures view.ExecuteTool(parse, name, arguments) == view.secondary.ExecuteTool(parse, name, arguments)
  {
  }

  /**
   * The fallback is taken on any primary error, not only on a missing
   * name: a primary tool that fails, under a name the secondary registry
   * lacks, is reported as not found and its own error is lost.
   */
  lemma PrimaryFailureMasked(view: CombinedToolRegistry, parse: ArgumentParser, name: string, arguments: string)
    requires parse(arguments).Ok?
    requires name in view.primary.functions && view.primary.functions[name](parse(arguments).value).Err?
    requires name !in view.secondary.functions
    ensures view.ExecuteTool(parse, name, arguments) == Err(ToolNotFound(name))
    ensures view.ExecuteTool(parse, name, arguments) != view.primary.ExecuteTool(parse, name, arguments)
      <== view.primary.functions[name](parse(arguments).value) != Err(ToolNotFound(name))
  {
  }
}
