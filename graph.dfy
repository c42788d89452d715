/**
 * The research workflow (`create_research_graph`): seven stages joined by
 * fixed edges and three routers.  A run starts at `plan`, executes the
 * current stage, merges the update it returns into the state, asks the
 * stage's router (or fixed edge) for the next stage, and repeats until
 * `persist` hands over to the end, a stage raises, or LangGraph's
 * recursion limit stops it.
 *
 * Everything outside the graph is an oracle bundled in `Env`: the clients
 * each stage builds from its node configuration, the component masks
 * `get_components_from_config` (planning, criticism) and
 * `get_components_from_env` (web research) yield, the search replies, the
 * prior-art advisor, the critic, the proposal generator, the schema and
 * jsonschema, and the file system.
 * The logging wrapper every stage runs in returns the stage's result
 * unchanged and re-raises its exceptions, so a stage is its spec function.
 */
module Workflow {
  import opened Wrappers
  import opened JsonValues
  import opened State
  import opened Mcp
  import Prompts
  import PlanStage
  import ApproachParsing
  import WebResearchStage
  import PriorArtStage
  import CriticismStage
  import SynthesizeStage
  import ValidationTool
  import ValidateStage
  import PersistStage

  datatype Stage = Plan | WebResearch | PriorArt | Criticism | Synthesize | Validate | Persist | End

  /** The name each stage is registered under, which is also the node configuration it reads. */
  function NodeName(stage: Stage): string
  {
    match stage
    case Plan => "plan"
    case WebResearch => "web_research"
    case PriorArt => "prior_art"
    case Criticism => "criticism"
    case Synthesize => "synthesize"
    case Validate => "validate"
    case Persist => "persist"
    case End => "__end__"
  }

  /** LangGraph's default recursion limit: the most stage runs a run is allowed. */
  const RecursionLimit: nat := 25

  /** What the stages consult outside the state. */
  datatype Env = Env(
    clients: string -> Result<Client, Exn>,
    fromConfig: Result<nat, Exn>,
    fromEnv: Result<nat, Exn>,
    search: WebResearchStage.Searcher,
    alt: ApproachParsing.AltMatcher,
    advisor: PriorArtStage.Advisor,
    backend: Backend,
    analyst: CriticismStage.Analyst,
    looser: string -> Option<nat>,
    schema: Result<Json, Exn>,
    generate: SynthesizeStage.Generator,
    check: ValidationTool.Checker,
    failure: string -> Option<Exn>)

  // Each stage's node function (`add_node`), run with the node configuration of its name.

  function RunPlan(env: Env, s: ResearchState): Result<Update, Exn>
  {
    PlanStage.PlanSpec(s, env.clients(NodeName(Plan)), env.fromConfig)
  }

  function RunWebResearch(env: Env, s: ResearchState): Result<Update, Exn>
  {
    WebResearchStage.WebResearchSpec(s, env.clients(NodeName(WebResearch)), env.fromEnv, env.search, env.alt)
  }

  function RunPriorArt(env: Env, s: ResearchState): Result<Update, Exn>
  {
    PriorArtStage.PriorArtSpec(s, env.clients(NodeName(PriorArt)), env.advisor, env.backend)
  }

  function RunCriticism(env: Env, s: ResearchState): Result<Update, Exn>
  {
    CriticismStage.CriticismSpec(s, env.clients(NodeName(Criticism)), env.fromConfig, env.analyst, env.looser)
  }

  function RunSynthesize(env: Env, s: ResearchState): Result<Update, Exn>
  {
    SynthesizeStage.SynthesizeSpec(s, env.clients(NodeName(Synthesize)), env.schema, env.generate)
  }

  function RunValidate(env: Env, s: ResearchState): Result<Update, Exn>
  {
    ValidateStage.ValidateSpec(s, env.clients(NodeName(Validate)), env.schema, env.check)
  }

  function RunPersist(env: Env, s: ResearchState): Result<Update, Exn>
  {
    PersistStage.PersistSpec(s, env.clients(NodeName(Persist)), env.failure)
  }

  /** The update a stage returns, or the exception it raises. */
  function RunNode(env: Env, stage: Stage, s: ResearchState): Result<Update, Exn>
  {
    match stage
    case Plan => RunPlan(env, s)
    case WebResearch => RunWebResearch(env, s)
    case PriorArt => RunPriorArt(env, s)
    case Criticism => RunCriticism(env, s)
    case Synthesize => RunSynthesize(env, s)
    case Validate => RunValidate(env, s)
    case Persist => RunPersist(env, s)
    case End => Ok(NoChange)
  }

  /** A stage as the graph runs it: the state with the stage's update merged in, or the exception. */
  type Node = (Stage, ResearchState) -> Result<ResearchState, Exn>

  function Step(env: Env, stage: Stage, s: ResearchState): Result<ResearchState, Exn>
  {
    match RunNode(env, stage, s)
    case Ok(u) => Ok(Merge(s, u))
    case Err(e) => Err(e)
  }

  function Nodes(env: Env): Node
  {
    (stage, s) => Step(env, stage, s)
  }

  // ---------------------------------------------------------------------
  // Edges and routers
  // ---------------------------------------------------------------------

  /** `route_after_prior_art`: back to planning when a restart is requested (absent means no). */
  function RouteAfterPriorArt(s: ResearchState): Stage
  {
    if TruthyFlag(s.shouldRestartPlanning) then Plan else Criticism
  }

  /** `route_after_criticism`: back to planning when a restart is requested, else on to synthesis. */
  function RouteAfterCriticism(s: ResearchState): Stage
  {
    if TruthyFlag(s.shouldRestartPlanning) then Plan else Synthesize
  }

  /** `should_retry_validation`: back to synthesis while there are errors and fewer than one repair attempt. */
  function ShouldRetryValidation(s: ResearchState): Stage
  {
    if TruthyList(s.validationErrors) && RepairAttempts(s) < 1 then Synthesize else Persist
  }

  /** The graph's edges: the fixed ones and every entry of the routers' path maps. */
  predicate Edge(from: Stage, to: Stage)
  {
    || (from == Plan && to == WebResearch)
    || (from == WebResearch && to == PriorArt)
    || (from == PriorArt && (to == Plan || to == Criticism))
    || (from == Criticism && (to == Plan || to == Synthesize))
    || (from == Synthesize && to == Validate)
    || (from == Validate && (to == Synthesize || to == Persist))
    || (from == Persist && to == End)
  }

  /** The stage after `stage`, read from the state its update was merged into. */
  function Successor(stage: Stage, s: ResearchState): (next: Stage)
    ensures stage != End ==> Edge(stage, next)
    ensures next == End <==> stage == Persist || stage == End
  {
    match stage
    case Plan => WebResearch
    case WebResearch => PriorArt
    case PriorArt => RouteAfterPriorArt(s)
    case Criticism => RouteAfterCriticism(s)
    case Synthesize => Validate
    case Validate => ShouldRetryValidation(s)
    case Persist => End
    case End => End
  }

  // ---------------------------------------------------------------------
  // Runs
  // ---------------------------------------------------------------------

  /** A completed stage and the stage routed to after it. */
  datatype Hop = Hop(from: Stage, to: Stage)

  /** How a run stops: at the end, with a stage's exception, or at the recursion limit. */
  datatype Ending = Finished | Raised(stage: Stage, error: Exn) | OutOfSteps

  /** The hops of a run, the state it leaves, and how it stopped. */
  datatype Run = Run(hops: seq<Hop>, state: ResearchState, ending: Ending)

  /** The run from `stage` and `s` with at most `fuel` more stage runs. */
  function Execute(node: Node, stage: Stage, s: ResearchState, fuel: nat): (r: Run)
    ensures |r.hops| <= fuel
    ensures r.ending.OutOfSteps? ==> |r.hops| == fuel
    decreases fuel
  {
    if stage == End then Run([], s, Finished)
    else if fuel == 0 then Run([], s, OutOfSteps)
    else
      var step := node(stage, s);
      if step.Err? then Run([], s, Raised(stage, step.error))
      else
        var t := step.value;
        var next := Successor(stage, t);
        var rest := Execute(node, next, t, fuel - 1);
        Run([Hop(stage, next)] + rest.hops, rest.state, rest.ending)
  }

  /** A run follows the graph's edges from `stage`, one hop leading into the next. */
  lemma {:induction false} RunFollowsEdges(node: Node, stage: Stage, s: ResearchState, fuel: nat)
    ensures var r := Execute(node, stage, s, fuel);
      && (r.hops != [] ==> r.hops[0].from == stage)
      && (forall i :: 0 <= i < |r.hops| ==> Edge(r.hops[i].from, r.hops[i].to))
      && (forall i, j :: 0 <= i && i + 1 == j < |r.hops| ==> r.hops[i].to == r.hops[j].from)
    decreases fuel
  {
    if stage != End && fuel > 0 && node(stage, s).Ok? {
      var t := node(stage, s).value;
      var next := Successor(stage, t);
      RunFollowsEdges(node, next, t, fuel - 1);
      var rest := Execute(node, next, t, fuel - 1);
      var hops := [Hop(stage, next)] + rest.hops;
      assert forall i :: 1 <= i < |hops| ==> hops[i] == rest.hops[i - 1];
    }
  }

  /**
   * A run finishes exactly when its last hop is persist→END (or it starts at
   * the end), and a stage that raises is the one the last hop led to.
   */
  lemma {:induction false} RunEnding(node: Node, stage: Stage, s: ResearchState, fuel: nat)
    ensures var r := Execute(node, stage, s, fuel);
      && (r.ending.Finished? <==>
            (r.hops == [] && stage == End) || (r.hops != [] && r.hops[|r.hops| - 1] == Hop(Persist, End)))
      && (r.ending.Raised? ==>
            r.ending.stage != End && r.ending.stage == (if r.hops == [] then stage else r.hops[|r.hops| - 1].to))
    decreases fuel
  {
    if stage != End && fuel > 0 && node(stage, s).Ok? {
      var t := node(stage, s).value;
      var next := Successor(stage, t);
      RunEnding(node, next, t, fuel - 1);
      var rest := Execute(node, next, t, fuel - 1);
      if rest.hops != [] {
        assert ([Hop(stage, next)] + rest.hops)[|rest.hops|] == rest.hops[|rest.hops| - 1];
      }
    }
  }

  function Prefixed(hops: seq<Hop>, r: Run): Run
  {
    Run(hops + r.hops, r.state, r.ending)
  }

  /** `graph.invoke(initial_state)`: run from `plan` with at most `limit` stage runs. */
  method RunGraph(env: Env, s0: ResearchState, limit: nat) returns (r: Run)
    ensures r == Execute(Nodes(env), Plan, s0, limit)
  {
    r := Drive(Nodes(env), s0, limit);
  }

  /** The loop of a compiled graph whose stages are `node`. */
  method Drive(node: Node, s0: ResearchState, limit: nat) returns (r: Run)
    ensures r == Execute(node, Plan, s0, limit)
  {
    var stage := Plan;
    var s := s0;
    var hops: seq<Hop> := [];
    var fuel := limit;
    while stage != End && fuel > 0
      invariant Execute(node, Plan, s0, limit) == Prefixed(hops, Execute(node, stage, s, fuel))
      decreases fuel
    {
      var step := node(stage, s);
      if step.Err? {
        return Run(hops, s, Raised(stage, step.error));
      }
      var t := step.value;
      var next := Successor(stage, t);
      ghost var rest := Execute(node, next, t, fuel - 1);
      assert hops + ([Hop(stage, next)] + rest.hops) == (hops + [Hop(stage, next)]) + rest.hops;
      hops := hops + [Hop(stage, next)];
      s := t;
      stage := next;
      fuel := fuel - 1;
    }
    r := Run(hops, s, if stage == End then Finished else OutOfSteps);
  }

  // ---------------------------------------------------------------------
  // Counting hops
  // ---------------------------------------------------------------------

  /** How many times the run went from `from` to `to`. */
  function Taken(hops: seq<Hop>, from: Stage, to: Stage): nat
  {
    if hops == [] then 0 else (if hops[0] == Hop(from, to) then 1 else 0) + Taken(hops[1..], from, to)
  }

  /** How many times `stage` completed. */
  function Rounds(hops: seq<Hop>, stage: Stage): nat
  {
    if hops == [] then 0 else (if hops[0].from == stage then 1 else 0) + Rounds(hops[1..], stage)
  }

  /** The criticism restarts a run from `stage` and `s` can still take. */
  function RestartAllowance(stage: Stage, s: ResearchState): nat
  {
    var left := Prompts.MaxPlanningIterations - PlanningIteration(s) - (if stage == Plan then 1 else 0);
    if left > 0 then left else 0
  }

  // ---------------------------------------------------------------------
  // Properties of single stages
  // ---------------------------------------------------------------------

  /** The stage leaves both counters where they were. */
  predicate KeepsCounters(s: ResearchState, t: ResearchState)
  {
    PlanningIteration(t) == PlanningIteration(s) && RepairAttempts(t) == RepairAttempts(s)
  }

  /** Planning starts the next round and leaves the repair count alone. */
  lemma PlanCounters(env: Env, s: ResearchState)
    requires RunPlan(env, s).Ok?
    ensures var t := Merge(s, RunPlan(env, s).value);
      PlanningIteration(t) == PlanningIteration(s) + 1 && RepairAttempts(t) == RepairAttempts(s)
  {
  }

  /** Web research leaves both counters alone. */
  lemma WebResearchCounters(env: Env, s: ResearchState)
    requires RunWebResearch(env, s).Ok?
    ensures KeepsCounters(s, Merge(s, RunWebResearch(env, s).value))
  {
  }

  /** Prior art leaves both counters alone. */
  lemma PriorArtCounters(env: Env, s: ResearchState)
    requires RunPriorArt(env, s).Ok?
    ensures KeepsCounters(s, Merge(s, RunPriorArt(env, s).value))
  {
    PriorArtStage.PriorArtOutcome(s, env.clients("prior_art"), env.advisor, env.backend);
  }

  /** What criticism's update does to the routing fields. */
  lemma CriticismUpdate(env: Env, s: ResearchState)
    requires RunCriticism(env, s).Ok?
    ensures var u := RunCriticism(env, s).value;
      && u.planningIteration == Keep && u.repairAttempts == Keep
      && u.criticismResults.Put?
      && (u.shouldRestartPlanning == Put(true) || u.shouldRestartPlanning == Put(false))
      && (u.shouldRestartPlanning == Put(true) ==>
            PlanningIteration(s) < Prompts.MaxPlanningIterations
            && u.criticismResults.value.viabilityScore < Prompts.MinViabilityScore)
  {
    var client := env.clients("criticism");
    var idea := s.idea.value;
    var tools := GetAvailableToolNames(client.value);
    var flag := ComponentsFlag(s.components, env.fromConfig).value;
    var request := CriticismStage.RequestOf(s, idea, tools, flag);
    var analysis := CriticismStage.GenerateAnalysis(env.analyst(request));
    assert RunCriticism(env, s) == CriticismStage.Outcome(s, idea, tools, analysis, env.looser);
    if analysis.Ok? {
      var results := CriticismStage.AnalysedResults(idea, analysis.value, env.looser,
                                                    s.componentResearchResults.GetOr([]), tools);
      CriticismStage.AnalysedRestartRule(results, PlanningIteration(s));
      if CriticismStage.AnalysedUpdate(results, PlanningIteration(s)).shouldRestartPlanning == Put(true) {
        CriticismStage.RestartNeedsRoundAndLowScore(results, PlanningIteration(s));
      }
    } else {
      CriticismStage.FailureHandling(analysis.error, idea);
    }
  }

  /** Synthesis leaves both counters and the validation errors alone and hands over to validation. */
  lemma SynthesisCounters(env: Env, s: ResearchState)
    requires RunSynthesize(env, s).Ok?
    ensures var u := RunSynthesize(env, s).value;
      && u.planningIteration == Keep && u.repairAttempts == Keep
      && u.validationErrors == Keep && u.currentStep == Put("validate")
  {
    var client := env.clients("synthesize");
    if client.Ok? && env.schema.Ok? && s.idea.Some? {
      var tools := GetAvailableToolNames(client.value);
      var request := SynthesizeStage.RequestOf(s, s.idea.value, tools, env.schema.value);
      var m := SynthesizeStage.Metadata(SynthesizeStage.PriorArtJson(s.priorArtResults), |s.webSearchResults.GetOr([])|, tools);
      SynthesizeStage.OutcomeCounters(SynthesizeStage.GenerateProposal(client.value, request, env.generate), m);
    }
  }

  /** Validation leaves the planning round alone and counts at most one repair, only from below one. */
  lemma ValidateCounters(env: Env, s: ResearchState)
    requires RunValidate(env, s).Ok?
    ensures var t := Merge(s, RunValidate(env, s).value);
      && PlanningIteration(t) == PlanningIteration(s)
      && (RepairAttempts(t) == RepairAttempts(s) || (RepairAttempts(s) < 1 && RepairAttempts(t) == RepairAttempts(s) + 1))
  {
  }

  /** Persisting leaves both counters alone. */
  lemma PersistCounters(env: Env, s: ResearchState)
    requires RunPersist(env, s).Ok?
    ensures KeepsCounters(s, Merge(s, RunPersist(env, s).value))
  {
  }

  /** After prior art the run returns to planning exactly when the advisor asks for a restart. */
  lemma PriorArtRoute(env: Env, s: ResearchState)
    requires RunPriorArt(env, s).Ok?
    ensures var u := RunPriorArt(env, s).value;
      && u.priorArtResults.Put?
      && (Successor(PriorArt, Merge(s, u)) == Plan <==> env.advisor.restart(u.priorArtResults.value).0)
  {
    PriorArtStage.PriorArtOutcome(s, env.clients("prior_art"), env.advisor, env.backend);
  }

  /**
   * After criticism the run returns to planning exactly when the stage set
   * the restart flag, which it does only below round 3 and below a score of 51.
   */
  lemma CriticismRoute(env: Env, s: ResearchState)
    requires RunCriticism(env, s).Ok?
    ensures var u := RunCriticism(env, s).value;
      && u.criticismResults.Put?
      && (Successor(Criticism, Merge(s, u)) == Plan <==> u.shouldRestartPlanning == Put(true))
      && (Successor(Criticism, Merge(s, u)) == Plan ==>
            PlanningIteration(s) < Prompts.MaxPlanningIterations
            && u.criticismResults.value.viabilityScore < Prompts.MinViabilityScore)
  {
    CriticismUpdate(env, s);
  }

  /**
   * From a repair count of 0 or more, validation sends the run back to
   * synthesis exactly when there was no proposal (or the schema could not
   * be loaded) and no repair had been counted; a rejected proposal never
   * goes back, because its update raises the count the router reads.
   */
  lemma ValidationRoute(env: Env, s: ResearchState)
    requires RunValidate(env, s).Ok? && RepairAttempts(s) >= 0
    ensures Successor(Validate, Merge(s, RunValidate(env, s).value)) == Synthesize <==>
      RepairAttempts(s) < 1 && (!TruthyJson(s.rawProposal) || env.schema.Err?)
  {
  }

  /**
   * A rejected proposal with no repair counted yet: validation asks for a
   * repair, yet the router sends the run to persist, which writes the
   * rejected raw proposal because no final proposal was set.
   */
  lemma RejectionSkipsRepair(env: Env, s: ResearchState)
    requires env.clients("validate").Ok? && TruthyJson(s.rawProposal) && env.schema.Ok?
    requires env.check(s.rawProposal.value, env.schema.value).Violations?
    requires RepairAttempts(s) == 0 && !TruthyJson(s.finalProposal)
    ensures RunValidate(env, s).Ok?
    ensures var t := Merge(s, RunValidate(env, s).value);
      && t.currentStep == Some("synthesize")
      && RepairAttempts(t) == 1
      && Successor(Validate, t) == Persist
      && PersistStage.ChosenProposal(t) == s.rawProposal
  {
  }

  // ---------------------------------------------------------------------
  // Properties of runs
  // ---------------------------------------------------------------------

  /** Only planning moves the planning round, one past the incoming round. */
  ghost predicate RoundsOnlyByPlan(node: Node)
  {
    forall stage: Stage, s: ResearchState :: node(stage, s).Ok? ==>
      PlanningIteration(node(stage, s).value) == PlanningIteration(s) + (if stage == Plan then 1 else 0)
  }

  /** A stage leaves the repair count alone or raises it by one from below one. */
  ghost predicate RepairsUpToOne(node: Node)
  {
    forall stage: Stage, s: ResearchState :: node(stage, s).Ok? ==>
      var n := RepairAttempts(node(stage, s).value);
      n == RepairAttempts(s) || (RepairAttempts(s) < 1 && n == RepairAttempts(s) + 1)
  }

  /** Criticism routes back to planning only below `MAX_PLANNING_ITERATIONS`. */
  ghost predicate CriticismRestartCapped(node: Node)
  {
    forall s: ResearchState :: node(Criticism, s).Ok? && Successor(Criticism, node(Criticism, s).value) == Plan ==>
      PlanningIteration(s) < Prompts.MaxPlanningIterations
  }

  /** Prior art never routes back to planning. */
  ghost predicate NoPriorArtRestart(node: Node)
  {
    forall s: ResearchState :: node(PriorArt, s).Ok? ==> Successor(PriorArt, node(PriorArt, s).value) != Plan
  }

  /** In the graph only planning moves the planning round, one past the incoming round. */
  lemma GraphRoundsOnlyByPlan(env: Env)
    ensures RoundsOnlyByPlan(Nodes(env))
  {
    forall stage: Stage, s: ResearchState | RunNode(env, stage, s).Ok?
      ensures PlanningIteration(Merge(s, RunNode(env, stage, s).value)) ==
        PlanningIteration(s) + (if stage == Plan then 1 else 0)
    {
      match stage
      case Plan => PlanCounters(env, s);
      case WebResearch => WebResearchCounters(env, s);
      case PriorArt => PriorArtCounters(env, s);
      case Criticism => CriticismUpdate(env, s);
      case Synthesize => SynthesisCounters(env, s);
      case Validate => ValidateCounters(env, s);
      case Persist => PersistCounters(env, s);
      case End =>
    }
  }

  /** In the graph only validation moves the repair count, by one and only from below one. */
  lemma GraphRepairsUpToOne(env: Env)
    ensures RepairsUpToOne(Nodes(env))
  {
    forall stage: Stage, s: ResearchState | RunNode(env, stage, s).Ok?
      ensures var n := RepairAttempts(Merge(s, RunNode(env, stage, s).value));
        n == RepairAttempts(s) || (RepairAttempts(s) < 1 && n == RepairAttempts(s) + 1)
    {
      match stage
      case Plan => PlanCounters(env, s);
      case WebResearch => WebResearchCounters(env, s);
      case PriorArt => PriorArtCounters(env, s);
      case Criticism => CriticismUpdate(env, s);
      case Synthesize => SynthesisCounters(env, s);
      case Validate => ValidateCounters(env, s);
      case Persist => PersistCounters(env, s);
      case End =>
    }
  }

  /** In the graph criticism routes back to planning only below round 3. */
  lemma GraphCriticismRestartCapped(env: Env)
    ensures CriticismRestartCapped(Nodes(env))
  {
    forall s: ResearchState | RunCriticism(env, s).Ok?
      ensures Successor(Criticism, Merge(s, RunCriticism(env, s).value)) == Plan ==>
        PlanningIteration(s) < Prompts.MaxPlanningIterations
    {
      CriticismRoute(env, s);
    }
  }

  /** An advisor that never asks for a restart keeps prior art from routing back to planning. */
  lemma GraphNoPriorArtRestart(env: Env)
    requires forall res :: !env.advisor.restart(res).0
    ensures NoPriorArtRestart(Nodes(env))
  {
    forall s: ResearchState | RunPriorArt(env, s).Ok?
      ensures Successor(PriorArt, Merge(s, RunPriorArt(env, s).value)) != Plan
    {
      PriorArtRoute(env, s);
    }
  }

  /** The planning round at the end of a run is the incoming round plus the planning rounds the run completed. */
  lemma {:induction false} PlanningRounds(node: Node, stage: Stage, s: ResearchState, fuel: nat)
    requires RoundsOnlyByPlan(node)
    ensures var r := Execute(node, stage, s, fuel);
      PlanningIteration(r.state) == PlanningIteration(s) + Rounds(r.hops, Plan)
    decreases fuel
  {
    if stage != End && fuel > 0 && node(stage, s).Ok? {
      var t := node(stage, s).value;
      var next := Successor(stage, t);
      PlanningRounds(node, next, t, fuel - 1);
      var rest := Execute(node, next, t, fuel - 1);
      assert ([Hop(stage, next)] + rest.hops)[1..] == rest.hops;
    }
  }

  /** The repair count never falls, and rises only up to 1. */
  lemma {:induction false} RepairCountBounded(node: Node, stage: Stage, s: ResearchState, fuel: nat)
    requires RepairsUpToOne(node)
    ensures var r := Execute(node, stage, s, fuel);
      RepairAttempts(s) <= RepairAttempts(r.state) <= (if RepairAttempts(s) > 1 then RepairAttempts(s) else 1)
    decreases fuel
  {
    if stage != End && fuel > 0 && node(stage, s).Ok? {
      var t := node(stage, s).value;
      RepairCountBounded(node, Successor(stage, t), t, fuel - 1);
    }
  }

  /** The criticism→plan edge is taken no more often than the rounds left below `MAX_PLANNING_ITERATIONS` allow. */
  lemma {:induction false} CriticismRestartsBounded(node: Node, stage: Stage, s: ResearchState, fuel: nat)
    requires RoundsOnlyByPlan(node) && CriticismRestartCapped(node)
    ensures Taken(Execute(node, stage, s, fuel).hops, Criticism, Plan) <= RestartAllowance(stage, s)
    decreases fuel
  {
    if stage != End && fuel > 0 && node(stage, s).Ok? {
      var t := node(stage, s).value;
      var next := Successor(stage, t);
      CriticismRestartsBounded(node, next, t, fuel - 1);
      var rest := Execute(node, next, t, fuel - 1);
      assert ([Hop(stage, next)] + rest.hops)[1..] == rest.hops;
    }
  }

  /** Every planning round but the first is entered by a restart from prior art or from criticism. */
  lemma {:induction false} PlanEntries(node: Node, stage: Stage, s: ResearchState, fuel: nat)
    ensures var hops := Execute(node, stage, s, fuel).hops;
      Rounds(hops, Plan) <= (if stage == Plan then 1 else 0) + Taken(hops, PriorArt, Plan) + Taken(hops, Criticism, Plan)
    decreases fuel
  {
    if stage != End && fuel > 0 && node(stage, s).Ok? {
      var t := node(stage, s).value;
      var next := Successor(stage, t);
      PlanEntries(node, next, t, fuel - 1);
      var rest := Execute(node, next, t, fuel - 1);
      var hops := [Hop(stage, next)] + rest.hops;
      assert hops[1..] == rest.hops;
      assert Rounds(hops, Plan) == (if stage == Plan then 1 else 0) + Rounds(rest.hops, Plan);
      assert Taken(hops, PriorArt, Plan) == (if stage == PriorArt && next == Plan then 1 else 0) + Taken(rest.hops, PriorArt, Plan);
      assert Taken(hops, Criticism, Plan) == (if stage == Criticism && next == Plan then 1 else 0) + Taken(rest.hops, Criticism, Plan);
    }
  }

  /** Without prior-art restarts the prior-art→plan edge is never taken. */
  lemma {:induction false} PriorArtEdgeUnused(node: Node, stage: Stage, s: ResearchState, fuel: nat)
    requires NoPriorArtRestart(node)
    ensures Taken(Execute(node, stage, s, fuel).hops, PriorArt, Plan) == 0
    decreases fuel
  {
    if stage != End && fuel > 0 && node(stage, s).Ok? {
      var t := node(stage, s).value;
      var next := Successor(stage, t);
      PriorArtEdgeUnused(node, next, t, fuel - 1);
      var rest := Execute(node, next, t, fuel - 1);
      assert ([Hop(stage, next)] + rest.hops)[1..] == rest.hops;
    }
  }

  /**
   * A run of the graph from round 0 and repair count 0 (what the command
   * line starts with): criticism sends it back to planning at most twice,
   * the final round counts the planning rounds, the repair count ends at 0
   * or 1, and with an advisor that never restarts there are at most three
   * planning rounds.
   */
  lemma FreshRun(env: Env, s0: ResearchState, fuel: nat)
    requires PlanningIteration(s0) == 0 && RepairAttempts(s0) == 0
    ensures var r := Execute(Nodes(env), Plan, s0, fuel);
      && Taken(r.hops, Criticism, Plan) <= 2
      && PlanningIteration(r.state) == Rounds(r.hops, Plan)
      && 0 <= RepairAttempts(r.state) <= 1
      && ((forall res :: !env.advisor.restart(res).0) ==> Rounds(r.hops, Plan) <= 3)
  {
    var node := Nodes(env);
    GraphRoundsOnlyByPlan(env);
    GraphRepairsUpToOne(env);
    GraphCriticismRestartCapped(env);
    CriticismRestartsBounded(node, Plan, s0, fuel);
    PlanningRounds(node, Plan, s0, fuel);
    RepairCountBounded(node, Plan, s0, fuel);
    PlanEntries(node, Plan, s0, fuel);
    if forall res :: !env.advisor.restart(res).0 {
      GraphNoPriorArtRestart(env);
      PriorArtEdgeUnused(node, Plan, s0, fuel);
    }
  }

  /** Synthesis without an LLM provider, over a state with no proposal and no repair counted. */
  predicate Stalled(env: Env, s: ResearchState)
  {
    && env.clients("synthesize").Ok? && !env.clients("synthesize").value.available.webSearch
    && env.clients("validate").Ok? && env.schema.Ok? && s.idea.Some?
    && !TruthyJson(s.rawProposal) && RepairAttempts(s) < 1
  }

  /** Stalled synthesis records the provider error and hands over to validation, still stalled. */
  lemma StalledSynthesis(env: Env, s: ResearchState)
    requires Stalled(env, s)
    ensures RunSynthesize(env, s).Ok?
    ensures var t := Merge(s, RunSynthesize(env, s).value);
      Stalled(env, t) && Successor(Synthesize, t) == Validate
  {
    var client := env.clients("synthesize");
    var tools := GetAvailableToolNames(client.value);
    var request := SynthesizeStage.RequestOf(s, s.idea.value, tools, env.schema.value);
    var m := SynthesizeStage.Metadata(SynthesizeStage.PriorArtJson(s.priorArtResults), |s.webSearchResults.GetOr([])|, tools);
    SynthesizeStage.NoProvider(client.value, request, env.generate, m);
  }

  /** Stalled validation reports the missing proposal, counts no repair and routes back to synthesis. */
  lemma StalledValidation(env: Env, s: ResearchState)
    requires Stalled(env, s)
    ensures RunValidate(env, s).Ok?
    ensures var t := Merge(s, RunValidate(env, s).value);
      Stalled(env, t) && Successor(Validate, t) == Synthesize
  {
    ValidateStage.NoProposal(s, env.clients("validate"), env.schema, env.check);
  }

  /** Synthesis and validation hand the run to each other. */
  function Partner(stage: Stage): Stage
  {
    if stage == Synthesize then Validate else Synthesize
  }

  /** While every state in `inv` makes synthesis and validation succeed, stay in `inv` and hand over to each other, the run cycles. */
  lemma {:induction false} Cycles(node: Node, inv: ResearchState -> bool, stage: Stage, s: ResearchState, fuel: nat)
    requires stage == Synthesize || stage == Validate
    requires inv(s)
    requires forall t: ResearchState {:trigger node(Synthesize, t)} | inv(t) ::
      node(Synthesize, t).Ok? && inv(node(Synthesize, t).value) && Successor(Synthesize, node(Synthesize, t).value) == Validate
    requires forall t: ResearchState {:trigger node(Validate, t)} | inv(t) ::
      node(Validate, t).Ok? && inv(node(Validate, t).value) && Successor(Validate, node(Validate, t).value) == Synthesize
    ensures var r := Execute(node, stage, s, fuel);
      && r.ending == OutOfSteps
      && forall i :: 0 <= i < |r.hops| ==> r.hops[i] == Hop(Synthesize, Validate) || r.hops[i] == Hop(Validate, Synthesize)
    decreases fuel
  {
    if fuel > 0 {
      assert node(stage, s).Ok? && inv(node(stage, s).value) && Successor(stage, node(stage, s).value) == Partner(stage) by {
        if stage == Synthesize {
          assert node(Synthesize, s).Ok?;
        } else {
          assert node(Validate, s).Ok?;
        }
      }
      var t := node(stage, s).value;
      Cycles(node, inv, Partner(stage), t, fuel - 1);
      var rest := Execute(node, Partner(stage), t, fuel - 1);
      assert Execute(node, stage, s, fuel) == Run([Hop(stage, Partner(stage))] + rest.hops, rest.state, rest.ending);
      var hops := [Hop(stage, Partner(stage))] + rest.hops;
      assert forall i :: 1 <= i < |hops| ==> hops[i] == rest.hops[i - 1];
    }
  }

  /** In the graph, stalled synthesis stays stalled and hands the run to validation. */
  lemma GraphStalledSynthesis(env: Env)
    ensures forall t: ResearchState {:trigger Nodes(env)(Synthesize, t)} | Stalled(env, t) ::
      Nodes(env)(Synthesize, t).Ok? && Stalled(env, Nodes(env)(Synthesize, t).value)
      && Successor(Synthesize, Nodes(env)(Synthesize, t).value) == Validate
  {
    forall t: ResearchState | Stalled(env, t)
      ensures Nodes(env)(Synthesize, t).Ok? && Stalled(env, Nodes(env)(Synthesize, t).value)
        && Successor(Synthesize, Nodes(env)(Synthesize, t).value) == Validate
    {
      StalledSynthesis(env, t);
    }
  }

  /** In the graph, stalled validation stays stalled and hands the run back to synthesis. */
  lemma GraphStalledValidation(env: Env)
    ensures forall t: ResearchState {:trigger Nodes(env)(Validate, t)} | Stalled(env, t) ::
      Nodes(env)(Validate, t).Ok? && Stalled(env, Nodes(env)(Validate, t).value)
      && Successor(Validate, Nodes(env)(Validate, t).value) == Synthesize
  {
    forall t: ResearchState | Stalled(env, t)
      ensures Nodes(env)(Validate, t).Ok? && Stalled(env, Nodes(env)(Validate, t).value)
        && Successor(Validate, Nodes(env)(Validate, t).value) == Synthesize
    {
      StalledValidation(env, t);
    }
  }

  /**
   * Without an LLM provider synthesis never yields a proposal, validation
   * reports the missing proposal without counting a repair, and the router
   * sends the run back to synthesis: the run alternates between the two
   * stages and never reaches persist, whatever the limit.
   */
  lemma NoProviderNeverPersists(env: Env, stage: Stage, s: ResearchState, fuel: nat)
    requires stage == Synthesize || stage == Validate
    requires Stalled(env, s)
    ensures var r := Execute(Nodes(env), stage, s, fuel);
      && r.ending == OutOfSteps
      && forall i :: 0 <= i < |r.hops| ==> r.hops[i] == Hop(Synthesize, Validate) || r.hops[i] == Hop(Validate, Synthesize)
  {
    GraphStalledSynthesis(env);
    GraphStalledValidation(env);
    Cycles(Nodes(env), t => Stalled(env, t), stage, s, fuel);
  }
}
