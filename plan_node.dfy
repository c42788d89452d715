/**
 * The planning stage (`plan_node`): it numbers the planning round, turns a
 * restart reason into guidance, writes the research plan (alpha-only, scoped
 * to the selected components, or full) and the search queries, and clears
 * the restart request.
 *
 * `fromConfig` is what `config.get_components_from_config()` yields when the
 * state carries no component mask (an exception is an `Err`).
 */
module PlanStage {
  import opened Wrappers
  import opened Text
  import opened Components
  import opened State
  import opened Prompts
  import opened Mcp

  const PriorArtGuidance := "\nFocus on: Novel approaches, unique data sources, differentiation strategies"
  const ViabilityGuidance := "\nFocus on: Risk mitigation, implementation feasibility, alternative approaches"
  const NoToolsNote := "Basic tools only"

  /** The guidance a restart reason selects, matched without regard to case. */
  function Guidance(reason: string): string
  {
    var low := Lower(reason);
    if Contains(low, "prior art") || Contains(low, "similar implementations") then PriorArtGuidance
    else if Contains(low, "viability score") then ViabilityGuidance
    else ""
  }

  /** The headline of a restart note: the round number and the reason it addresses. */
  function IterationHeader(newIteration: int, reason: string): string
  {
    "ITERATION " + IntToString(newIteration) + " - ADDRESSING: " + reason
  }

  /** The note a restart adds to the plan; no reason, no note. */
  function IterationNote(newIteration: int, reason: Option<string>): string
  {
    if TruthyStr(reason) then "\n\n" + IterationHeader(newIteration, reason.value) + Guidance(reason.value)
    else ""
  }

  /** The tool list closing every plan. */
  function ToolsNote(tools: seq<string>): string
  {
    "\n\nAVAILABLE RESEARCH TOOLS: " + (if tools != [] then Join(", ", tools) else NoToolsNote)
  }

  /** The queries added from the second planning round on. */
  function ExtraQueries(idea: string): (r: seq<string>)
    ensures |r| == 3
  {
    [idea + " novel approach alternative",
     idea + " differentiation strategy unique",
     "alternative " + idea + " methodology"]
  }

  /** Writing an optional value back: `None` is written as `None`. */
  function Pass(o: Option<nat>): (a: Assign<nat>)
    ensures a.Apply(o) == o
  {
    if o.Some? then Put(o.value) else Clear
  }

  /** The update of a successful planning round. */
  function PlanResult(plan: string, queries: seq<string>, newIteration: int, tools: seq<string>, components: Assign<nat>): (u: Update)
    ensures u.planningIteration == Put(newIteration) && u.shouldRestartPlanning == Put(false)
    ensures u.restartReason == Clear && u.currentStep == Put("web_research")
    ensures u.rawProposal == Keep && u.repairAttempts == Keep
  {
    NoChange.(
      researchPlan := Put(plan),
      searchQueries := Put(queries),
      planningIteration := Put(newIteration),
      shouldRestartPlanning := Put(false),
      restartReason := Clear,
      mcpToolsAvailable := Put(tools),
      components := components,
      currentStep := Put("web_research"))
  }

  /** Which plan a round writes. */
  datatype Mode = AlphaOnlyMode | ScopedMode(names: seq<string>) | FullMode

  /** The round's mode and the mask it writes back, or the exception reading the mask raised. */
  function ModeOf(alphaOnly: bool, components: Option<nat>, fromConfig: Result<nat, Exn>): (r: Result<(Mode, Assign<nat>), Exn>)
  {
    if alphaOnly then Ok((AlphaOnlyMode, Pass(components)))
    else
      match ComponentsFlag(components, fromConfig)
      case Err(e) => Err(e)
      case Ok(flag) => if flag != 0 then Ok((ScopedMode(Decode(flag)), Put(flag))) else Ok((FullMode, Put(flag)))
  }

  function BasePlan(idea: string, mode: Mode): string
  {
    match mode
    case AlphaOnlyMode => AlphaOnlyPlan(idea)
    case ScopedMode(names) => ScopedPlan(idea, names)
    case FullMode => FullPlan(idea)
  }

  function BaseQueries(idea: string, mode: Mode): seq<string>
  {
    match mode
    case AlphaOnlyMode => GetSearchQueries(idea, true)
    case ScopedMode(names) => ComponentScopedQueries(idea, names, false)
    case FullMode => GetSearchQueries(idea, false)
  }

  /** The plan text: the base plan, the restart note and the tool list. */
  function PlanText(basePlan: string, newIteration: int, reason: Option<string>, tools: seq<string>): string
  {
    basePlan + IterationNote(newIteration, reason) + ToolsNote(tools)
  }

  /** The query list: the base queries, then the extra ones from the second round on. */
  function QueryList(idea: string, baseQueries: seq<string>, newIteration: int): seq<string>
  {
    baseQueries + (if newIteration > 1 then ExtraQueries(idea) else [])
  }

  /** The round's update, built from the mode's base plan and base queries. */
  function Assemble(idea: string, basePlan: string, baseQueries: seq<string>, newIteration: int,
                    reason: Option<string>, tools: seq<string>, components: Assign<nat>): Update
  {
    PlanResult(PlanText(basePlan, newIteration, reason, tools), QueryList(idea, baseQueries, newIteration),
               newIteration, tools, components)
  }

  /**
   * What `plan_node` returns, or the exception it raises.  A round numbers
   * itself one past the incoming round (0 when absent), clears the restart
   * request, moves on to web research and leaves the proposal and the
   * repair count alone.
   */
  function PlanSpec(s: ResearchState, client: Result<Client, Exn>, fromConfig: Result<nat, Exn>): (r: Result<Update, Exn>)
    ensures r.Ok? ==>
      && r.value.planningIteration == Put(PlanningIteration(s) + 1)
      && r.value.shouldRestartPlanning == Put(false)
      && r.value.restartReason == Clear
      && r.value.currentStep == Put("web_research")
      && r.value.rawProposal == Keep
      && r.value.repairAttempts == Keep
  {
    if client.Err? then Err(client.error)
    else if s.idea.None? then Err(Exn(KeyError, "'idea'"))
    else
      match ModeOf(TruthyFlag(s.alphaOnly), s.components, fromConfig)
      case Err(e) => Err(e)
      case Ok(m) =>
        var idea := s.idea.value;
        Ok(Assemble(idea, BasePlan(idea, m.0), BaseQueries(idea, m.0), PlanningIteration(s) + 1,
                    s.restartReason, GetAvailableToolNames(client.value), m.1))
  }

  /** The restart note, extended with the guidance the reason selects. */
  method RestartNote(newIteration: int, reason: Option<string>) returns (note: string)
    ensures note == IterationNote(newIteration, reason)
  {
    note := "";
    if TruthyStr(reason) {
      note := "\n\n" + IterationHeader(newIteration, reason.value);
      var low := Lower(reason.value);
      if Contains(low, "prior art") || Contains(low, "similar implementations") {
        note := note + PriorArtGuidance;
      } else if Contains(low, "viability score") {
        note := note + ViabilityGuidance;
      }
    }
  }

  /** The plan and queries of an alpha-only round. */
  method AlphaModePlan(idea: string) returns (plan: string, queries: seq<string>)
    ensures plan == BasePlan(idea, AlphaOnlyMode) && queries == BaseQueries(idea, AlphaOnlyMode)
  {
    plan := AlphaOnlyPlan(idea);
    queries := GetSearchQueries(idea, true);
  }

  /** The plan and queries of a round scoped by a non-zero mask. */
  method ScopedModePlan(idea: string, flag: nat) returns (plan: string, queries: seq<string>)
    ensures plan == BasePlan(idea, ScopedMode(Decode(flag))) && queries == BaseQueries(idea, ScopedMode(Decode(flag)))
  {
    var selected := DecodeFlag(flag);
    plan := FormatFullPlanForComponents(idea, selected);
    queries := GetComponentScopedQueries(idea, selected, false);
  }

  /** The plan and queries of a round with a zero mask. */
  method FullModePlan(idea: string) returns (plan: string, queries: seq<string>)
    ensures plan == BasePlan(idea, FullMode) && queries == BaseQueries(idea, FullMode)
  {
    plan := FullPlan(idea);
    queries := GetSearchQueries(idea, false);
  }

  /** The base plan, base queries and written-back mask of the round's mode. */
  method ModePlan(alphaOnly: bool, components: Option<nat>, idea: string, fromConfig: Result<nat, Exn>)
    returns (r: Result<(string, seq<string>, Assign<nat>), Exn>)
    ensures ModeOf(alphaOnly, components, fromConfig).Err? ==> r == Err(ModeOf(alphaOnly, components, fromConfig).error)
    ensures ModeOf(alphaOnly, components, fromConfig).Ok? ==>
      var m := ModeOf(alphaOnly, components, fromConfig).value;
      r == Ok((BasePlan(idea, m.0), BaseQueries(idea, m.0), m.1))
  {
    if alphaOnly {
      var plan, queries := AlphaModePlan(idea);
      return Ok((plan, queries, Pass(components)));
    }
    var flag: nat;
    if TruthyNat(components) {
      flag := components.value;
    } else if fromConfig.Err? {
      return Err(fromConfig.error);
    } else {
      flag := fromConfig.value;
    }
    if flag != 0 {
      var plan, queries := ScopedModePlan(idea, flag);
      r := Ok((plan, queries, Put(flag)));
    } else {
      var plan, queries := FullModePlan(idea);
      r := Ok((plan, queries, Put(flag)));
    }
  }

  /** The plan text and query list completed with the restart note, the tool list and the extra queries. */
  method AssemblePlan(idea: string, basePlan: string, baseQueries: seq<string>, newIteration: int,
                      reason: Option<string>, tools: seq<string>, components: Assign<nat>) returns (u: Update)
    ensures u == Assemble(idea, basePlan, baseQueries, newIteration, reason, tools, components)
  {
    var iterationNote := RestartNote(newIteration, reason);
    var plan := basePlan + iterationNote + ToolsNote(tools);
    var queries := baseQueries;
    if newIteration > 1 {
      queries := queries + ExtraQueries(idea);
    } else {
      assert queries == queries + [];
    }
    u := PlanResult(plan, queries, newIteration, tools, components);
  }

  /** `plan_node(state, config)`. */
  method PlanNode(s: ResearchState, client: Result<Client, Exn>, fromConfig: Result<nat, Exn>)
    returns (r: Result<Update, Exn>)
    ensures r == PlanSpec(s, client, fromConfig)
  {
    if client.Err? {
      return Err(client.error);
    }
    var tools := GetAvailableToolNames(client.value);
    if s.idea.None? {
      return Err(Exn(KeyError, "'idea'"));
    }
    var idea := s.idea.value;
    var base := ModePlan(TruthyFlag(s.alphaOnly), s.components, idea, fromConfig);
    if base.Err? {
      return Err(base.error);
    }
    var (plan, queries, components) := base.value;
    var u := AssemblePlan(idea, plan, queries, PlanningIteration(s) + 1, s.restartReason, tools, components);
    r := Ok(u);
  }

  // ---------------------------------------------------------------------
  // Properties
  // ---------------------------------------------------------------------

  /**
   * The stage fails exactly when the node's client cannot be built, the
   * idea is missing, or a non-alpha round without a mask in the state
   * cannot read the configured mask.
   */
  lemma PlanFailure(s: ResearchState, client: Result<Client, Exn>, fromConfig: Result<nat, Exn>)
    ensures PlanSpec(s, client, fromConfig).Err? <==>
      client.Err? || s.idea.None? || (!TruthyFlag(s.alphaOnly) && !TruthyNat(s.components) && fromConfig.Err?)
  {
  }

  /**
   * A plan text starts with its base plan and ends with the tool list; a
   * restart reason is quoted after the round number.
   */
  lemma PlanTextParts(basePlan: string, newIteration: int, reason: Option<string>, tools: seq<string>)
    ensures var plan := PlanText(basePlan, newIteration, reason, tools);
      && StartsWith(plan, basePlan)
      && EndsWith(plan, ToolsNote(tools))
      && (TruthyStr(reason) ==> OccursAt(plan, IterationHeader(newIteration, reason.value), |basePlan| + 2))
  {
    ConcatShape(basePlan, IterationNote(newIteration, reason), ToolsNote(tools));
    if TruthyStr(reason) {
      InfixAt(basePlan, "\n\n", IterationHeader(newIteration, reason.value), Guidance(reason.value), ToolsNote(tools));
    }
  }

  /**
   * A query list is the base list followed by exactly the three extra
   * queries from the second round on, and by nothing in the first.
   */
  lemma QueryListParts(idea: string, baseQueries: seq<string>, newIteration: int)
    ensures var queries := QueryList(idea, baseQueries, newIteration);
      && queries[..|baseQueries|] == baseQueries
      && queries[|baseQueries|..] == (if newIteration > 1 then ExtraQueries(idea) else [])
  {
    var queries := QueryList(idea, baseQueries, newIteration);
    assert queries[..|baseQueries|] == baseQueries;
    assert queries[|baseQueries|..] == (if newIteration > 1 then ExtraQueries(idea) else []);
  }

  /**
   * The query list of a round is the mode's base list (five alpha-only
   * queries, the scoped list for a mask, else six) followed by exactly three
   * extra queries from the second round on.
   */
  lemma PlanQueries(s: ResearchState, client: Result<Client, Exn>, fromConfig: Result<nat, Exn>)
    requires PlanSpec(s, client, fromConfig).Ok?
    ensures var queries := PlanSpec(s, client, fromConfig).value.searchQueries.value;
      var base := BaseQueries(s.idea.value, ModeOf(TruthyFlag(s.alphaOnly), s.components, fromConfig).value.0);
      && queries[..|base|] == base
      && queries[|base|..] == (if PlanningIteration(s) + 1 > 1 then ExtraQueries(s.idea.value) else [])
  {
    var m := ModeOf(TruthyFlag(s.alphaOnly), s.components, fromConfig).value;
    var idea := s.idea.value;
    QueryListParts(idea, BaseQueries(idea, m.0), PlanningIteration(s) + 1);
  }

  /**
   * An alpha-only round plans for alpha only and writes the state's mask
   * back unchanged; otherwise a non-zero mask scopes the plan and queries to
   * the components it decodes to, in UNIVERSE, ALPHA, PORTFOLIO, EXECUTION,
   * RISK order, a zero mask gives the full plan, and the mask is written back.
   */
  lemma PlanComponents(s: ResearchState, client: Result<Client, Exn>, fromConfig: Result<nat, Exn>)
    requires PlanSpec(s, client, fromConfig).Ok?
    ensures var u := PlanSpec(s, client, fromConfig).value;
      var mode := ModeOf(TruthyFlag(s.alphaOnly), s.components, fromConfig).value.0;
      && (TruthyFlag(s.alphaOnly) ==> mode == AlphaOnlyMode && Merge(s, u).components == s.components)
      && (!TruthyFlag(s.alphaOnly) ==>
            var flag := ComponentsFlag(s.components, fromConfig).value;
            && Merge(s, u).components == Some(flag)
            && mode == (if flag != 0 then ScopedMode(Decode(flag)) else FullMode))
  {
  }

  /** The base query lists: five alpha-only, six full, the de-duplicated scoped list otherwise. */
  lemma BaseQueryCounts(idea: string, mode: Mode)
    ensures mode.AlphaOnlyMode? ==> |BaseQueries(idea, mode)| == 5
    ensures mode.FullMode? ==> |BaseQueries(idea, mode)| == 6
    ensures mode.ScopedMode? ==> BaseQueries(idea, mode) == Dedup(ScopedQueries(idea, mode.names) + GetSearchQueries(idea, false))
  {
  }

  /** Guidance ignores case: a reason and its lower-case form select the same guidance. */
  lemma GuidanceIgnoresCase(reason: string)
    ensures Guidance(reason) == Guidance(Lower(reason))
  {
    assert Lower(Lower(reason)) == Lower(reason);
  }

  /** A reason naming prior art gets the prior-art guidance even when it also names the viability score. */
  lemma GuidancePrecedence(reason: string)
    requires Contains(Lower(reason), "prior art") && Contains(Lower(reason), "viability score")
    ensures Guidance(reason) == PriorArtGuidance
  {
  }
}
