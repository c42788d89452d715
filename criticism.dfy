/**
 * The criticism stage (`criticism_node`): it asks the model for a critical
 * analysis of the researched idea, reads the viability score (and, when
 * component research exists, the per-component scores) out of the reply,
 * and either sends the run back to planning or forward to synthesis.  When
 * the analysis fails it falls back to a fixed text and a neutral score.
 *
 * The model is an oracle: `Analyst` maps what the request carries to the
 * reply text or the exception the call raised.  `looser` is what the three
 * fallback score patterns find in a reply.
 */
module CriticismStage {
  import opened Wrappers
  import opened Text
  import opened Components
  import opened State
  import opened Prompts
  import opened Mcp

  /**
   * What the analysis request carries: the component or the general prompt,
   * and the pieces the prompts are formatted from (the template wording is
   * fixed text and not modelled).
   */
  datatype Request = Request(
    componentMode: bool,
    idea: string,
    instruments: seq<string>,
    researchPlan: string,
    webResults: seq<ResearchResult>,
    findings: seq<ComponentFindings>,
    tools: seq<string>)

  type Analyst = Request -> Result<string, Exn>

  const FallbackScore: nat := 50
  const ErrorScore: nat := 30

  /** The note naming the component scope, added to the plan the critic reads. */
  function ScopeNote(names: seq<string>): string
  {
    if names == [] then "" else "\n\nComponent Scope: " + Join(", ", names) + "\n"
  }

  /** The component names of the researched findings, in order. */
  function FindingNames(findings: seq<ComponentFindings>): (names: seq<string>)
    ensures |names| == |findings|
    ensures forall i :: 0 <= i < |findings| ==> names[i] == findings[i].component
  {
    seq(|findings|, i requires 0 <= i < |findings| => findings[i].component)
  }

  /** The request the node sends, built from the state, the node's tools and the component mask. */
  function RequestOf(s: ResearchState, idea: string, tools: seq<string>, flag: nat): Request
  {
    var findings := s.componentResearchResults.GetOr([]);
    Request(findings != [], idea, s.instruments.GetOr([]), s.researchPlan.GetOr("") + ScopeNote(Decode(flag)),
            s.webSearchResults.GetOr([]), findings, tools)
  }

  /** `_generate_criticism_analysis`: the reply, or whatever the call raised re-raised as an `MCPToolError`. */
  function GenerateAnalysis(reply: Result<string, Exn>): Result<string, Exn>
  {
    match reply
    case Ok(text) => Ok(text)
    case Err(e) => Err(Exn(McpToolError, "Criticism analysis failed: " + e.msg))
  }

  /** The results of a completed analysis. */
  function AnalysedResults(idea: string, text: string, looser: string -> Option<nat>,
                           findings: seq<ComponentFindings>, tools: seq<string>): CriticismResults
  {
    var componentMode := findings != [];
    CriticismResults(
      text, idea, ExtractViabilityScore(text, looser(text)),
      if componentMode then ComponentScores(text) else map[],
      "analyzed", true, true,
      if componentMode then "mcp_component_criticism" else "mcp_criticism",
      Some(tools),
      if componentMode then FindingNames(findings) else [],
      None)
  }

  /** The update after a completed analysis: back to planning when the restart rule says so, else on to synthesis. */
  function AnalysedUpdate(results: CriticismResults, iteration: int): Update
  {
    var score := results.viabilityScore;
    var (restart, reason) := ShouldRestartForCriticism(score, iteration);
    if restart then
      NoChange.(criticismResults := Put(results), criticismScore := Put(score),
                shouldRestartPlanning := Put(true), restartReason := Put(reason), currentStep := Put("plan"))
    else
      NoChange.(criticismResults := Put(results), criticismScore := Put(score),
                shouldRestartPlanning := Put(false), currentStep := Put("synthesize"))
  }

  const FallbackBody :=
    "\n\nDue to system limitations, a comprehensive criticism analysis could not be performed.\n\n"
    + "General Considerations:\n"
    + "- Ensure robust backtesting across multiple market regimes\n"
    + "- Consider transaction costs and market impact\n"
    + "- Validate data quality and availability\n"
    + "- Plan for risk management and position sizing\n"
    + "- Address potential overfitting concerns\n"
    + "- Consider regulatory and compliance requirements\n\n"
    + "Recommendation: Proceed with caution and conduct thorough testing.\n"

  function FallbackText(idea: string): string
  {
    "\nFallback Critical Analysis for: " + idea + FallbackBody
  }

  /** The exceptions the node's second handler catches. */
  predicate IsAnalysisError(e: Exn)
  {
    e.kind == RuntimeError || e.kind == ValueError || e.kind == TypeError
  }

  /** The results the node's handlers record for a failure, or `None` for one they let escape. */
  function FailureResults(e: Exn, idea: string): Option<CriticismResults>
  {
    if e.kind == McpToolError then
      Some(CriticismResults(FallbackText(idea), idea, FallbackScore, map[], "limited", false, true, "fallback",
                            None, [], Some("MCP criticism analysis failed: " + e.msg)))
    else if IsAnalysisError(e) then
      Some(CriticismResults("Critical analysis unavailable for: " + idea, idea, ErrorScore, map[], "unavailable",
                            false, false, "error", None, [], Some("Criticism analysis failed: " + e.msg)))
    else None
  }

  /** The update after a handled failure: never a restart, always on to synthesis. */
  function FailureUpdate(results: CriticismResults): Update
  {
    NoChange.(criticismResults := Put(results), criticismScore := Put(results.viabilityScore),
              shouldRestartPlanning := Put(false), currentStep := Put("synthesize"))
  }

  /** How the node ends once the analysis has run. */
  function Outcome(s: ResearchState, idea: string, tools: seq<string>, analysis: Result<string, Exn>,
                   looser: string -> Option<nat>): Result<Update, Exn>
  {
    match analysis
    case Ok(text) =>
      Ok(AnalysedUpdate(AnalysedResults(idea, text, looser, s.componentResearchResults.GetOr([]), tools),
                        PlanningIteration(s)))
    case Err(e) =>
      match FailureResults(e, idea)
      case Some(results) => Ok(FailureUpdate(results))
      case None => Err(e)
  }

  /**
   * What `criticism_node` returns, or the exception it raises.  `client` is
   * the node's LLM and MCP clients (or what building them raised);
   * `fromConfig` is the configured component mask.
   */
  function CriticismSpec(s: ResearchState, client: Result<Client, Exn>, fromConfig: Result<nat, Exn>,
                         analyst: Analyst, looser: string -> Option<nat>): Result<Update, Exn>
  {
    if client.Err? then Err(client.error)
    else if s.idea.None? then Err(Exn(KeyError, "'idea'"))
    else
      match ComponentsFlag(s.components, fromConfig)
      case Err(e) => Err(e)
      case Ok(flag) =>
        var tools := GetAvailableToolNames(client.value);
        var request := RequestOf(s, s.idea.value, tools, flag);
        Outcome(s, s.idea.value, tools, GenerateAnalysis(analyst(request)), looser)
  }

  // ---------------------------------------------------------------------
  // The node
  // ---------------------------------------------------------------------

  /** The plan text the critic reads: the plan followed by the component scope, if any. */
  method ScopedResearchPlan(plan: string, flag: nat) returns (researchPlan: string)
    ensures researchPlan == plan + ScopeNote(Decode(flag))
  {
    researchPlan := plan;
    var names := DecodeFlag(flag);
    if names != [] {
      researchPlan := researchPlan + "\n\nComponent Scope: " + Join(", ", names) + "\n";
    }
  }

  /** The results of a completed analysis, with the component scores extracted in component mode. */
  method AnalyseReply(idea: string, text: string, looser: string -> Option<nat>,
                      findings: seq<ComponentFindings>, tools: seq<string>) returns (results: CriticismResults)
    ensures results == AnalysedResults(idea, text, looser, findings, tools)
  {
    var componentMode := findings != [];
    var score := ExtractViabilityScore(text, looser(text));
    var scores: map<string, nat> := map[];
    if componentMode {
      scores := ExtractComponentScores(text);
    }
    var names := if componentMode then FindingNames(findings) else [];
    results := CriticismResults(text, idea, score, scores, "analyzed", true, true,
                                if componentMode then "mcp_component_criticism" else "mcp_criticism",
                                Some(tools), names, None);
  }

  /** `criticism_node(state, config)`. */
  method CriticismNode(s: ResearchState, client: Result<Client, Exn>, fromConfig: Result<nat, Exn>,
                       analyst: Analyst, looser: string -> Option<nat>) returns (r: Result<Update, Exn>)
    ensures r == CriticismSpec(s, client, fromConfig, analyst, looser)
  {
    if client.Err? {
      return Err(client.error);
    }
    var tools := GetAvailableToolNames(client.value);
    if s.idea.None? {
      return Err(Exn(KeyError, "'idea'"));
    }
    var idea := s.idea.value;
    var flag: nat;
    if TruthyNat(s.components) {
      flag := s.components.value;
    } else if fromConfig.Err? {
      return Err(fromConfig.error);
    } else {
      flag := fromConfig.value;
    }
    var researchPlan := ScopedResearchPlan(s.researchPlan.GetOr(""), flag);
    var findings := s.componentResearchResults.GetOr([]);
    var request := Request(findings != [], idea, s.instruments.GetOr([]), researchPlan,
                           s.webSearchResults.GetOr([]), findings, tools);
    assert request == RequestOf(s, idea, tools, flag);
    var analysis := GenerateAnalysis(analyst(request));
    if analysis.Ok? {
      var results := AnalyseReply(idea, analysis.value, looser, findings, tools);
      r := Ok(AnalysedUpdate(results, PlanningIteration(s)));
    } else {
      var failure := FailureResults(analysis.error, idea);
      if failure.Some? {
        r := Ok(FailureUpdate(failure.value));
      } else {
        r := Err(analysis.error);
      }
    }
  }

  // ---------------------------------------------------------------------
  // Properties
  // ---------------------------------------------------------------------

  /**
   * After a completed analysis the stage restarts planning exactly when the
   * restart rule does for the extracted score and the incoming round (0 when
   * absent); a restart records the rule's reason and returns to planning,
   * otherwise the run goes on to synthesis and the reason is left alone.
   */
  lemma AnalysedRestartRule(results: CriticismResults, iteration: int)
    ensures var u := AnalysedUpdate(results, iteration);
      var (restart, reason) := ShouldRestartForCriticism(results.viabilityScore, iteration);
      && u.criticismResults == Put(results)
      && u.criticismScore == Put(results.viabilityScore)
      && u.shouldRestartPlanning == Put(restart)
      && (restart ==> u.restartReason == Put(reason) && u.currentStep == Put("plan"))
      && (!restart ==> u.restartReason == Keep && u.currentStep == Put("synthesize"))
      && u.planningIteration == Keep
  {
  }

  /** A restart after criticism happens only below round 3 and below a score of 51. */
  lemma RestartNeedsRoundAndLowScore(results: CriticismResults, iteration: int)
    requires AnalysedUpdate(results, iteration).shouldRestartPlanning == Put(true)
    ensures iteration < 3 && results.viabilityScore < 51
  {
    if iteration >= 3 {
      RestartCapped(results.viabilityScore, iteration);
    } else {
      RestartBelowThreshold(results.viabilityScore, iteration);
    }
  }

  /**
   * A completed analysis is scored from the reply, and only in component
   * mode (some component research exists) does it carry component scores
   * and the researched components' names.
   */
  lemma AnalysedComponentMode(idea: string, text: string, looser: string -> Option<nat>,
                              findings: seq<ComponentFindings>, tools: seq<string>)
    ensures var res := AnalysedResults(idea, text, looser, findings, tools);
      && res.viabilityScore == ExtractViabilityScore(text, looser(text))
      && (findings != [] <==> res.analysisMethod == "mcp_component_criticism")
      && (findings == [] ==> res.componentScores == map[] && res.componentsAnalyzed == [])
      && (findings != [] ==> res.componentScores == ComponentScores(text)
                             && |res.componentsAnalyzed| == |findings|
                             && forall i :: 0 <= i < |findings| ==> res.componentsAnalyzed[i] == findings[i].component)
      && res.error.None?
  {
  }

  /**
   * The handled failures: an `MCPToolError` gives the fallback text and the
   * neutral score 50, a `RuntimeError`, `ValueError` or `TypeError` gives
   * the score 30; neither restarts planning, though 30 is below 51, and
   * both go on to synthesis with the error recorded.  Other exceptions escape.
   */
  lemma FailureHandling(e: Exn, idea: string)
    ensures FailureResults(e, idea).Some? <==> e.kind == McpToolError || IsAnalysisError(e)
    ensures e.kind == McpToolError ==>
      var res := FailureResults(e, idea).value;
      res.viabilityScore == 50 && res.analysisMethod == "fallback"
      && res.error == Some("MCP criticism analysis failed: " + e.msg)
    ensures IsAnalysisError(e) ==>
      var res := FailureResults(e, idea).value;
      res.viabilityScore == 30 && res.analysisMethod == "error"
      && res.error == Some("Criticism analysis failed: " + e.msg)
    ensures FailureResults(e, idea).Some? ==>
      var u := FailureUpdate(FailureResults(e, idea).value);
      && u.shouldRestartPlanning == Put(false) && u.currentStep == Put("synthesize")
      && u.criticismScore == Put(FailureResults(e, idea).value.viabilityScore)
      && u.restartReason == Keep && u.planningIteration == Keep
  {
  }

  /**
   * Every failure of the call reaches the `MCPToolError` handler, so the
   * outcome of a generated analysis is never an exception nor the score-30
   * branch, and a failed call scores 50 with a doubly prefixed error.
   */
  lemma GeneratedOutcome(s: ResearchState, idea: string, tools: seq<string>, reply: Result<string, Exn>,
                         looser: string -> Option<nat>)
    ensures var r := Outcome(s, idea, tools, GenerateAnalysis(reply), looser);
      && r.Ok?
      && r.value.criticismResults.Put?
      && r.value.criticismResults.value.analysisMethod != "error"
    ensures reply.Err? ==>
      var res := Outcome(s, idea, tools, GenerateAnalysis(reply), looser).value.criticismResults.value;
      res.viabilityScore == 50
      && res.error == Some("MCP criticism analysis failed: " + ("Criticism analysis failed: " + reply.error.msg))
  {
    if reply.Ok? {
      var res := AnalysedResults(idea, reply.value, looser, s.componentResearchResults.GetOr([]), tools);
      AnalysedRecords(res, PlanningIteration(s));
    } else {
      var e := Exn(McpToolError, "Criticism analysis failed: " + reply.error.msg);
      assert GenerateAnalysis(reply) == Err(e);
    }
  }

  /** A completed analysis always records its results. */
  lemma AnalysedRecords(results: CriticismResults, iteration: int)
    ensures AnalysedUpdate(results, iteration).criticismResults == Put(results)
  {
  }

  /**
   * Once the request is sent the stage cannot fail: it always records
   * criticism results, never those of the score-30 branch, and a failed
   * call scores 50.
   */
  lemma AnalysisNeverEscapes(s: ResearchState, client: Result<Client, Exn>, fromConfig: Result<nat, Exn>,
                             analyst: Analyst, looser: string -> Option<nat>)
    requires client.Ok? && s.idea.Some? && ComponentsFlag(s.components, fromConfig).Ok?
    ensures var r := CriticismSpec(s, client, fromConfig, analyst, looser);
      && r.Ok?
      && r.value.criticismResults.Put?
      && r.value.criticismResults.value.analysisMethod != "error"
    ensures var request := RequestOf(s, s.idea.value, GetAvailableToolNames(client.value),
                                     ComponentsFlag(s.components, fromConfig).value);
      analyst(request).Err? ==>
        var res := CriticismSpec(s, client, fromConfig, analyst, looser).value.criticismResults.value;
        res.viabilityScore == 50
        && res.error == Some("MCP criticism analysis failed: " + ("Criticism analysis failed: " + analyst(request).error.msg))
  {
    var tools := GetAvailableToolNames(client.value);
    var request := RequestOf(s, s.idea.value, tools, ComponentsFlag(s.components, fromConfig).value);
    assert CriticismSpec(s, client, fromConfig, analyst, looser)
        == Outcome(s, s.idea.value, tools, GenerateAnalysis(analyst(request)), looser);
    GeneratedOutcome(s, s.idea.value, tools, analyst(request), looser);
  }

  /** The stage raises exactly when its clients cannot be built, the idea is missing or the mask cannot be read. */
  lemma CriticismFailure(s: ResearchState, client: Result<Client, Exn>, fromConfig: Result<nat, Exn>,
                         analyst: Analyst, looser: string -> Option<nat>)
    ensures CriticismSpec(s, client, fromConfig, analyst, looser).Err? <==>
      client.Err? || s.idea.None? || (!TruthyNat(s.components) && fromConfig.Err?)
  {
    if client.Ok? && s.idea.Some? && ComponentsFlag(s.components, fromConfig).Ok? {
      AnalysisNeverEscapes(s, client, fromConfig, analyst, looser);
    }
  }

  /** Each name of the scope note occurs in the plan the critic reads. */
  lemma ScopeNoteNames(plan: string, names: seq<string>, i: nat)
    requires i < |names|
    ensures Contains(plan + ScopeNote(names), names[i])
  {
    JoinContains(", ", names, i);
    var note := ScopeNote(names);
    ContainsInside("\n\nComponent Scope: ", Join(", ", names), "\n", names[i]);
    ContainsInside(plan, note, "", names[i]);
    assert plan + note + "" == plan + note;
  }

  /**
   * The plan the critic reads starts with the incoming plan and names every
   * component the mask selects; a mask selecting none adds nothing.
   */
  lemma ScopedPlanNames(plan: string, flag: nat)
    ensures StartsWith(plan + ScopeNote(Decode(flag)), plan)
    ensures forall c :: Has(flag, c) ==> Contains(plan + ScopeNote(Decode(flag)), Name(c))
    ensures (forall c :: !Has(flag, c)) ==> plan + ScopeNote(Decode(flag)) == plan
  {
    var names := Decode(flag);
    var note := ScopeNote(names);
    ConcatShape(plan, note, []);
    assert plan + note + [] == plan + note;
    forall c | Has(flag, c) ensures Contains(plan + note, Name(c)) {
      var i :| 0 <= i < |names| && names[i] == Name(c);
      ScopeNoteNames(plan, names, i);
    }
  }

  /**
   * The critic reads the incoming plan followed by the component scope, and
   * component mode is chosen exactly when component research exists.
   */
  lemma RequestScope(s: ResearchState, idea: string, tools: seq<string>, flag: nat)
    ensures var request := RequestOf(s, idea, tools, flag);
      && request.researchPlan == s.researchPlan.GetOr("") + ScopeNote(Decode(flag))
      && StartsWith(request.researchPlan, s.researchPlan.GetOr(""))
      && (forall c :: Has(flag, c) ==> Contains(request.researchPlan, Name(c)))
      && ((forall c :: !Has(flag, c)) ==> request.researchPlan == s.researchPlan.GetOr(""))
      && (request.componentMode <==> TruthyList(s.componentResearchResults))
  {
    ScopedPlanNames(s.researchPlan.GetOr(""), flag);
  }
}
