/**
 * The web-research stage (`web_research_node`): for each active component
 * it asks the research search for one reply, cuts the reply into approaches
 * and files them under the component; a component without results gets a
 * placeholder, and a failure of the kinds the stage catches ends the loop
 * with one general placeholder.
 *
 * The search reply for a component's query is an oracle (`Searcher`), and
 * so is the component mask read from the environment.
 */
module WebResearchStage {
  import opened Wrappers
  import opened JsonValues
  import opened Components
  import opened State
  import opened Mcp
  import opened ApproachParsing

  /** What a component's research query is built from (the prompt templates themselves are not modelled). */
  datatype Context = Context(idea: string, researchPlan: string, alphaOnly: bool, tools: seq<string>, instruments: seq<string>)

  datatype Query = Query(component: string, context: Context)

  /** `mcp_client.web_search(research_query)`: the result items, or what the search raised. */
  type Searcher = Query -> Result<seq<Json>, Exn>

  const AllComponents: seq<string> := ["UNIVERSE", "ALPHA", "PORTFOLIO", "EXECUTION", "RISK"]
  const AlphaComponents: seq<string> := ["ALPHA", "UNIVERSE"]

  /** The components whose research is cut down to one approach. */
  predicate SingleApproach(component: string)
  {
    component == "PORTFOLIO" || component == "EXECUTION"
  }

  /** The components researched: ALPHA and UNIVERSE in alpha-only mode, else the mask's, else all five. */
  function ActiveComponents(alphaOnly: bool, flag: nat): (r: seq<string>)
  {
    if alphaOnly then AlphaComponents
    else if flag != 0 then Decode(flag)
    else AllComponents
  }

  /** The `AttributeError` that `x.get(...)` raises when `x` is not a dict. */
  function NoGetError(x: Json): Exn
  {
    Exn(AttributeError, "'" + TypeName(x) + "' object has no attribute 'get'")
  }

  /** The `TypeError` `re.split` raises on a value that is not text (Python 3.12 wording). */
  function NotTextError(x: Json): Exn
  {
    Exn(TypeError, "expected string or bytes-like object, got '" + TypeName(x) + "'")
  }

  /** `search_results[0].get("content", "")`, which must be text for the split. */
  function ReplyContent(item: Json): (r: Result<string, Exn>)
  {
    if !item.JObj? then Err(NoGetError(item))
    else if "content" !in item.fields then Ok("")
    else match item.fields["content"]
      case JStr(text) => Ok(text)
      case other => Err(NotTextError(other))
  }

  /** The single approach used when the reply could not be cut. */
  function WholeReply(component: string, idea: string, content: string): ResearchResult
  {
    Approach(component + " Research: " + idea, content, component, 1)
  }

  /** PORTFOLIO and EXECUTION keep only their first approach, retitled and renumbered 1. */
  function Narrowed(component: string, idea: string, approaches: seq<ResearchResult>): (r: seq<ResearchResult>)
  {
    if SingleApproach(component) && |approaches| > 1
    then [approaches[0].(title := component + " Research: " + idea, approachNumber := 1)]
    else approaches
  }

  /** What `_conduct_component_research` returns for a search reply, or what it raises. */
  function ComponentResearch(component: string, idea: string, reply: Result<seq<Json>, Exn>, alt: AltMatcher)
    : (r: Result<seq<ResearchResult>, Exn>)
  {
    match reply
    case Err(e) => Err(e)
    case Ok(items) =>
      if items == [] then Ok([])
      else match ReplyContent(items[0])
        case Err(e) => Err(e)
        case Ok(content) =>
          var approaches := Narrowed(component, idea, ParsedApproaches(content, component, idea, alt));
          if approaches != [] then Ok(approaches) else Ok([WholeReply(component, idea, content)])
  }

  const ErrorContentPrefix := "Web search temporarily unavailable for query: "

  /** The result filed for a component whose research came back empty. */
  function ComponentPlaceholder(component: string, idea: string): ResearchResult
  {
    ResearchResult(component + " Research Error: " + idea, ErrorContentPrefix + component + " for " + idea,
                   "component_research_error", "error", "component_error", Some(component), 1)
  }

  /** The single result left when nothing was found or the research failed. */
  function GeneralPlaceholder(idea: string): ResearchResult
  {
    ResearchResult("Research Error: " + idea, ErrorContentPrefix + idea, "research_error", "error", "error", None, 1)
  }

  /** The exceptions the stage catches around its component loop. */
  predicate IsCaught(e: Exn)
  {
    e.kind == RuntimeError || e.kind == ValueError || e.kind == ConnectionError
  }

  /** The findings and results gathered so far, and whether a caught failure ended the loop. */
  datatype Progress = Progress(findings: seq<ComponentFindings>, results: seq<ResearchResult>, failed: bool)

  /** What one component contributes to the findings and to the flat results. */
  function Filed(component: string, idea: string, approaches: seq<ResearchResult>): (r: seq<ResearchResult>)
  {
    if approaches != [] then approaches else [ComponentPlaceholder(component, idea)]
  }

  /** One round of the component loop. */
  function Step(p: Progress, component: string, idea: string, outcome: Result<seq<ResearchResult>, Exn>)
    : Result<Progress, Exn>
  {
    if p.failed then Ok(p)
    else match outcome
      case Err(e) => if IsCaught(e) then Ok(p.(failed := true)) else Err(e)
      case Ok(approaches) =>
        var entry := Filed(component, idea, approaches);
        Ok(Progress(p.findings + [ComponentFindings(component, entry)], p.results + entry, false))
  }

  function Outcome(ctx: Context, component: string, search: Searcher, alt: AltMatcher): Result<seq<ResearchResult>, Exn>
  {
    ComponentResearch(component, ctx.idea, search(Query(component, ctx)), alt)
  }

  /** The research of one component, by name. */
  type Research = string -> Result<seq<ResearchResult>, Exn>

  function Researcher(ctx: Context, search: Searcher, alt: AltMatcher): Research
  {
    component => Outcome(ctx, component, search, alt)
  }

  /** The state of the component loop after the given components. */
  function Gather(idea: string, components: seq<string>, research: Research): Result<Progress, Exn>
  {
    if components == [] then Ok(Progress([], [], false))
    else
      var last := components[|components| - 1];
      var before := Gather(idea, components[..|components| - 1], research);
      if before.Err? then before else Step(before.value, last, idea, research(last))
  }

  /** `web_search_results`: the gathered results, or the general placeholder after a failure or when there are none. */
  function FinalResults(p: Progress, idea: string): seq<ResearchResult>
  {
    if p.failed || p.results == [] then [GeneralPlaceholder(idea)] else p.results
  }

  function ContextOf(s: ResearchState, tools: seq<string>): Context
  {
    Context(s.idea.GetOr(""), s.researchPlan.GetOr(""), TruthyFlag(s.alphaOnly), tools, s.instruments.GetOr([]))
  }

  /**
   * What `web_research_node` returns, or the exception it raises.
   * `fromEnv` is what `config.get_components_from_env()` yields when the
   * state carries no component mask (an exception is an `Err`).
   */
  function WebResearchSpec(s: ResearchState, client: Result<Client, Exn>, fromEnv: Result<nat, Exn>,
                           search: Searcher, alt: AltMatcher): Result<Update, Exn>
  {
    if client.Err? then Err(client.error)
    else
      var tools := GetAvailableToolNames(client.value);
      var ctx := ContextOf(s, tools);
      match ComponentsFlag(s.components, fromEnv)
      case Err(e) => Err(e)
      case Ok(flag) =>
        match Gather(ctx.idea, ActiveComponents(ctx.alphaOnly, flag), Researcher(ctx, search, alt))
        case Err(e) => Err(e)
        case Ok(p) =>
          Ok(NoChange.(webSearchResults := Put(FinalResults(p, ctx.idea)), componentResearchResults := Put(p.findings),
                       mcpToolsUsed := Put(tools), currentStep := Put("criticism")))
  }

  // ---------------------------------------------------------------------
  // The node
  // ---------------------------------------------------------------------

  /** `_conduct_component_research`: search, cut the reply into approaches, narrow, fall back. */
  method ConductComponentResearch(component: string, ctx: Context, search: Searcher, alt: AltMatcher)
    returns (r: Result<seq<ResearchResult>, Exn>)
    ensures r == Outcome(ctx, component, search, alt)
  {
    var reply := search(Query(component, ctx));
    if reply.Err? {
      return Err(reply.error);
    }
    var items := reply.value;
    if items == [] {
      return Ok([]);
    }
    var content := ReplyContent(items[0]);
    if content.Err? {
      return Err(content.error);
    }
    var parsed := ParseMultipleApproaches(content.value, component, ctx.idea, alt);
    var approaches := parsed;
    if SingleApproach(component) && |approaches| > 1 {
      approaches := [approaches[0]];
      approaches := approaches[0 := approaches[0].(title := component + " Research: " + ctx.idea)];
      approaches := approaches[0 := approaches[0].(approachNumber := 1)];
    }
    assert approaches == Narrowed(component, ctx.idea, parsed);
    assert Outcome(ctx, component, search, alt)
        == if approaches != [] then Ok(approaches) else Ok([WholeReply(component, ctx.idea, content.value)]);
    if approaches != [] {
      r := Ok(approaches);
    } else {
      r := Ok([WholeReply(component, ctx.idea, content.value)]);
    }
  }

  /** The component loop: a caught failure ends it, any other exception escapes. */
  method ResearchComponents(ctx: Context, active: seq<string>, search: Searcher, alt: AltMatcher)
    returns (r: Result<Progress, Exn>)
    ensures r == Gather(ctx.idea, active, Researcher(ctx, search, alt))
  {
    var findings: seq<ComponentFindings> := [];
    var all: seq<ResearchResult> := [];
    var failed := false;
    var i := 0;
    while i < |active| && !failed
      invariant 0 <= i <= |active|
      invariant Gather(ctx.idea, active[..i], Researcher(ctx, search, alt)) == Ok(Progress(findings, all, failed))
    {
      GatherNext(ctx.idea, active, i, Researcher(ctx, search, alt));
      var component := active[i];
      var approaches := ConductComponentResearch(component, ctx, search, alt);
      assert approaches == Researcher(ctx, search, alt)(component);
      if approaches.Err? {
        if !IsCaught(approaches.error) {
          GatherAfter(ctx.idea, active, i + 1, Researcher(ctx, search, alt));
          return Err(approaches.error);
        }
        failed := true;
      } else if approaches.value != [] {
        findings := findings + [ComponentFindings(component, approaches.value)];
        all := all + approaches.value;
      } else {
        var placeholder := ComponentPlaceholder(component, ctx.idea);
        findings := findings + [ComponentFindings(component, [placeholder])];
        all := all + [placeholder];
      }
      i := i + 1;
    }
    GatherAfter(ctx.idea, active, i, Researcher(ctx, search, alt));
    r := Ok(Progress(findings, all, failed));
  }

  /** `web_research_node(state, config)`. */
  method WebResearchNode(s: ResearchState, client: Result<Client, Exn>, fromEnv: Result<nat, Exn>,
                         search: Searcher, alt: AltMatcher) returns (r: Result<Update, Exn>)
    ensures r == WebResearchSpec(s, client, fromEnv, search, alt)
  {
    if client.Err? {
      return Err(client.error);
    }
    var tools := GetAvailableToolNames(client.value);
    var ctx := ContextOf(s, tools);
    var flag := ComponentsFlag(s.components, fromEnv);
    if flag.Err? {
      return Err(flag.error);
    }
    var active := ActiveComponents(ctx.alphaOnly, flag.value);
    var gathered := ResearchComponents(ctx, active, search, alt);
    if gathered.Err? {
      return Err(gathered.error);
    }
    var all := gathered.value.results;
    if gathered.value.failed || all == [] {
      all := [GeneralPlaceholder(ctx.idea)];
    }
    r := Ok(NoChange.(webSearchResults := Put(all), componentResearchResults := Put(gathered.value.findings),
                      mcpToolsUsed := Put(tools), currentStep := Put("criticism")));
  }

  /** One more round of the component loop. */
  lemma GatherNext(idea: string, components: seq<string>, i: nat, research: Research)
    requires i < |components|
    ensures var before := Gather(idea, components[..i], research);
      Gather(idea, components[..i + 1], research)
        == if before.Err? then before else Step(before.value, components[i], idea, research(components[i]))
  {
    assert components[..i + 1][..i] == components[..i];
  }

  /** Once a caught failure ends the loop, or an exception escapes it, the remaining components change nothing. */
  lemma {:induction false} GatherAfter(idea: string, components: seq<string>, i: nat, research: Research)
    requires i <= |components|
    requires i < |components| ==> Gather(idea, components[..i], research).Err?
                                  || Gather(idea, components[..i], research).value.failed
    ensures Gather(idea, components, research) == Gather(idea, components[..i], research)
    decreases |components| - i
  {
    if i == |components| {
      assert components[..i] == components;
    } else {
      GatherNext(idea, components, i, research);
      GatherAfter(idea, components, i + 1, research);
    }
  }

  // ---------------------------------------------------------------------
  // Properties
  // ---------------------------------------------------------------------

  /**
   * Alpha-only mode researches ALPHA then UNIVERSE; otherwise a non-zero
   * mask selects its flags in declaration order, and no mask selects all
   * five.  Every researched name is one of the five.
   */
  lemma ActiveComponentsSpec(alphaOnly: bool, flag: nat)
    ensures alphaOnly ==> ActiveComponents(alphaOnly, flag) == ["ALPHA", "UNIVERSE"]
    ensures !alphaOnly && flag != 0 ==> forall c :: Name(c) in ActiveComponents(alphaOnly, flag) <==> Has(flag, c)
    ensures !alphaOnly && flag == 0 ==> |ActiveComponents(alphaOnly, flag)| == 5
    ensures forall n :: n in ActiveComponents(alphaOnly, flag) ==> n in AllComponents
  {
  }

  /**
   * A component's research is empty exactly when the search returned no
   * items; PORTFOLIO and EXECUTION give at most one approach; every
   * approach belongs to the component.
   */
  lemma ComponentResearchSpec(component: string, idea: string, reply: Result<seq<Json>, Exn>, alt: AltMatcher)
    ensures var r := ComponentResearch(component, idea, reply, alt);
      && (r.Ok? ==> (r.value == [] <==> reply.Ok? && reply.value == []))
      && (r.Ok? && SingleApproach(component) ==> |r.value| <= 1)
      && (r.Ok? ==> forall k :: 0 <= k < |r.value| ==> r.value[k].component == Some(component))
      && (r.Err? <==> reply.Err? || (reply.value != [] && ReplyContent(reply.value[0]).Err?))
  {
    if reply.Ok? && reply.value != [] && ReplyContent(reply.value[0]).Ok? {
      var content := ReplyContent(reply.value[0]).value;
      ParsedComponent(content, component, idea, alt);
    }
  }

  /**
   * The loop files one entry per researched component, in order, and the
   * flat results are the entries' results concatenated; a component whose
   * research came back empty is filed with its placeholder.
   */
  lemma {:induction false} GatherSpec(idea: string, components: seq<string>, research: Research)
    requires Gather(idea, components, research).Ok?
    ensures var p := Gather(idea, components, research).value;
      && |p.findings| <= |components|
      && (!p.failed ==> |p.findings| == |components|)
      && (forall k :: 0 <= k < |p.findings| ==>
            && p.findings[k].component == components[k]
            && p.findings[k].results != []
            && research(components[k]).Ok?
            && p.findings[k].results == Filed(components[k], idea, research(components[k]).value))
      && p.results == FlatResults(p.findings)
    decreases |components|
  {
    if components != [] {
      var front := components[..|components| - 1];
      GatherSpec(idea, front, research);
      var q := Gather(idea, front, research).value;
      if !q.failed {
        var p := Gather(idea, components, research).value;
        if !p.failed {
          var last := components[|components| - 1];
          var entry := Filed(last, idea, research(last).value);
          assert p.findings == q.findings + [ComponentFindings(last, entry)];
          FlatResultsAppend(q.findings, ComponentFindings(last, entry));
        }
      }
    }
  }

  /** The results of all entries, in order. */
  function FlatResults(findings: seq<ComponentFindings>): seq<ResearchResult>
  {
    if findings == [] then [] else FlatResults(findings[..|findings| - 1]) + findings[|findings| - 1].results
  }

  lemma FlatResultsAppend(findings: seq<ComponentFindings>, f: ComponentFindings)
    ensures FlatResults(findings + [f]) == FlatResults(findings) + f.results
  {
    assert (findings + [f])[..|findings|] == findings;
  }

  /**
   * The stage always goes on to criticism with at least one result; the
   * general placeholder stands alone exactly when a caught failure ended
   * the loop or no component was researched, and otherwise the results are
   * the findings' results in order.
   */
  lemma WebResearchOutcome(s: ResearchState, client: Result<Client, Exn>, fromEnv: Result<nat, Exn>,
                           search: Searcher, alt: AltMatcher)
    requires WebResearchSpec(s, client, fromEnv, search, alt).Ok?
    ensures var u := WebResearchSpec(s, client, fromEnv, search, alt).value;
      var tools := GetAvailableToolNames(client.value);
      var ctx := ContextOf(s, tools);
      var flag := ComponentsFlag(s.components, fromEnv).value;
      var p := Gather(ctx.idea, ActiveComponents(ctx.alphaOnly, flag), Researcher(ctx, search, alt)).value;
      && u.currentStep == Put("criticism")
      && u.mcpToolsUsed == Put(tools)
      && u.webSearchResults.Put? && u.webSearchResults.value != []
      && u.componentResearchResults == Put(p.findings)
      && (p.failed || ActiveComponents(ctx.alphaOnly, flag) == [] ==> u.webSearchResults.value == [GeneralPlaceholder(ctx.idea)])
      && (!p.failed ==> u.webSearchResults.value == FinalResults(p, ctx.idea))
      && (!p.failed && ActiveComponents(ctx.alphaOnly, flag) != [] ==> u.webSearchResults.value == FlatResults(p.findings))
  {
    var tools := GetAvailableToolNames(client.value);
    var ctx := ContextOf(s, tools);
    var flag := ComponentsFlag(s.components, fromEnv).value;
    var active := ActiveComponents(ctx.alphaOnly, flag);
    GatherSpec(ctx.idea, active, Researcher(ctx, search, alt));
    var p := Gather(ctx.idea, active, Researcher(ctx, search, alt)).value;
    if !p.failed && active != [] {
      assert |p.findings| == |active|;
      FlatNonEmpty(p.findings);
    }
  }

  lemma {:induction false} FlatNonEmpty(findings: seq<ComponentFindings>)
    requires findings != [] && forall k :: 0 <= k < |findings| ==> findings[k].results != []
    ensures FlatResults(findings) != []
  {
    var last := findings[|findings| - 1];
    assert |FlatResults(findings)| >= |last.results|;
  }

  /**
   * The stage raises only when the client cannot be built, the configured
   * mask cannot be read, or a component's research raises something other
   * than a runtime, value or connection error before any caught failure.
   */
  lemma {:induction false} GatherFailure(idea: string, components: seq<string>, research: Research)
    requires Gather(idea, components, research).Err?
    ensures exists k :: (0 <= k < |components| && research(components[k]).Err?
      && !IsCaught(research(components[k]).error)
      && Gather(idea, components, research).error == research(components[k]).error)
    decreases |components|
  {
    var front := components[..|components| - 1];
    var last := components[|components| - 1];
    if Gather(idea, front, research).Err? {
      GatherFailure(idea, front, research);
      var k :| 0 <= k < |front| && research(front[k]).Err?
        && !IsCaught(research(front[k]).error)
        && Gather(idea, front, research).error == research(front[k]).error;
      assert front[k] == components[k];
    } else {
      assert components[|components| - 1] == last;
    }
  }
}
