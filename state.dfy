/**
 * The workflow state record (`ResearchState`, a `TypedDict(total=False)`
 * without reducers) and the partial updates the stages return.  The record
 * has one field the source's `TypedDict` does not declare,
 * `priorArtResults`, which the prior-art stage returns and synthesis reads
 * (see `DeclaredMerge`).
 *
 * Every field is optional: `None` stands for a key that is absent or holds
 * Python `None`.  A stage returns an `Update` that names some keys; merging
 * it overwrites exactly those keys (`Put` writes a value, `Clear` writes
 * `None`) and leaves every other key as it was.
 */
module State {
  import opened Wrappers
  import opened JsonValues

  /** One entry of `web_search_results` / `component_research_results`. */
  datatype ResearchResult = ResearchResult(
    title: string,
    content: string,
    url: string,
    source: string,
    researchType: string,
    component: Option<string>,
    approachNumber: nat)

  /** The research results of one component, under its name. */
  datatype ComponentFindings = ComponentFindings(component: string, results: seq<ResearchResult>)

  /** One mapped GitHub search item; each field is `item.get(...)`. */
  datatype GithubHit = GithubHit(
    name: Option<Json>,
    path: Option<Json>,
    repository: Option<Json>,
    htmlUrl: Option<Json>,
    score: Option<Json>,
    language: Option<Json>)

  datatype PriorArtResults = PriorArtResults(
    queries: seq<string>,
    githubResults: seq<GithubHit>,
    verdict: string,
    reasoning: string,
    totalFound: nat,
    searchMethod: string,
    mcpToolsUsed: seq<string>)

  datatype CriticismResults = CriticismResults(
    criticismText: string,
    idea: string,
    viabilityScore: nat,
    componentScores: map<string, nat>,
    researchQuality: string,
    riskFactorsIdentified: bool,
    recommendationsProvided: bool,
    analysisMethod: string,
    mcpToolsAvailable: Option<seq<string>>,
    componentsAnalyzed: seq<string>,
    error: Option<string>)

  datatype ResearchState = ResearchState(
    // input
    idea: Option<string>,
    alphaOnly: Option<bool>,
    components: Option<nat>,
    instruments: Option<seq<string>>,
    slug: Option<string>,
    outputDir: Option<string>,
    uploadToGithub: Option<bool>,
    bootstrapConfigPath: Option<string>,
    currentStep: Option<string>,
    // planning
    researchPlan: Option<string>,
    searchQueries: Option<seq<string>>,
    mcpToolsAvailable: Option<seq<string>>,
    // research
    webSearchResults: Option<seq<ResearchResult>>,
    componentResearchResults: Option<seq<ComponentFindings>>,
    mcpToolsUsed: Option<seq<string>>,
    priorArtResults: Option<PriorArtResults>,
    // criticism
    criticismResults: Option<CriticismResults>,
    criticismScore: Option<nat>,
    // flow control
    shouldRestartPlanning: Option<bool>,
    restartReason: Option<string>,
    planningIteration: Option<int>,
    // synthesis and validation
    rawProposal: Option<Json>,
    validationErrors: Option<seq<string>>,
    validationReport: Option<string>,
    // output
    finalProposal: Option<Json>,
    proposalPath: Option<string>,
    statePath: Option<string>,
    issuePath: Option<string>,
    githubIssueUrl: Option<string>,
    // errors
    error: Option<string>,
    repairAttempts: Option<int>)

  /** What an update does to one key. */
  datatype Assign<T> = Keep | Clear | Put(value: T)
  {
    function Apply(prev: Option<T>): Option<T>
    {
      match this
      case Keep => prev
      case Clear => None
      case Put(v) => Some(v)
    }
  }

  datatype Update = Update(
    idea: Assign<string>,
    alphaOnly: Assign<bool>,
    components: Assign<nat>,
    instruments: Assign<seq<string>>,
    slug: Assign<string>,
    outputDir: Assign<string>,
    uploadToGithub: Assign<bool>,
    bootstrapConfigPath: Assign<string>,
    currentStep: Assign<string>,
    researchPlan: Assign<string>,
    searchQueries: Assign<seq<string>>,
    mcpToolsAvailable: Assign<seq<string>>,
    webSearchResults: Assign<seq<ResearchResult>>,
    componentResearchResults: Assign<seq<ComponentFindings>>,
    mcpToolsUsed: Assign<seq<string>>,
    priorArtResults: Assign<PriorArtResults>,
    criticismResults: Assign<CriticismResults>,
    criticismScore: Assign<nat>,
    shouldRestartPlanning: Assign<bool>,
    restartReason: Assign<string>,
    planningIteration: Assign<int>,
    rawProposal: Assign<Json>,
    validationErrors: Assign<seq<string>>,
    validationReport: Assign<string>,
    finalProposal: Assign<Json>,
    proposalPath: Assign<string>,
    statePath: Assign<string>,
    issuePath: Assign<string>,
    githubIssueUrl: Assign<string>,
    error: Assign<string>,
    repairAttempts: Assign<int>)

  /** The empty update `{}`. */
  const NoChange := Update(
    Keep, Keep, Keep, Keep, Keep, Keep, Keep, Keep, Keep, Keep,
    Keep, Keep, Keep, Keep, Keep, Keep, Keep, Keep, Keep, Keep,
    Keep, Keep, Keep, Keep, Keep, Keep, Keep, Keep, Keep, Keep, Keep)

  /** The empty state `{}`. */
  const Empty := ResearchState(
    None, None, None, None, None, None, None, None, None, None,
    None, None, None, None, None, None, None, None, None, None,
    None, None, None, None, None, None, None, None, None, None, None)

  /** `state.update(u)`: the keys `u` names are overwritten, the others stay. */
  function Merge(s: ResearchState, u: Update): (r: ResearchState)
  {
    ResearchState(
      u.idea.Apply(s.idea),
      u.alphaOnly.Apply(s.alphaOnly),
      u.components.Apply(s.components),
      u.instruments.Apply(s.instruments),
      u.slug.Apply(s.slug),
      u.outputDir.Apply(s.outputDir),
      u.uploadToGithub.Apply(s.uploadToGithub),
      u.bootstrapConfigPath.Apply(s.bootstrapConfigPath),
      u.currentStep.Apply(s.currentStep),
      u.researchPlan.Apply(s.researchPlan),
      u.searchQueries.Apply(s.searchQueries),
      u.mcpToolsAvailable.Apply(s.mcpToolsAvailable),
      u.webSearchResults.Apply(s.webSearchResults),
      u.componentResearchResults.Apply(s.componentResearchResults),
      u.mcpToolsUsed.Apply(s.mcpToolsUsed),
      u.priorArtResults.Apply(s.priorArtResults),
      u.criticismResults.Apply(s.criticismResults),
      u.criticismScore.Apply(s.criticismScore),
      u.shouldRestartPlanning.Apply(s.shouldRestartPlanning),
      u.restartReason.Apply(s.restartReason),
      u.planningIteration.Apply(s.planningIteration),
      u.rawProposal.Apply(s.rawProposal),
      u.validationErrors.Apply(s.validationErrors),
      u.validationReport.Apply(s.validationReport),
      u.finalProposal.Apply(s.finalProposal),
      u.proposalPath.Apply(s.proposalPath),
      u.statePath.Apply(s.statePath),
      u.issuePath.Apply(s.issuePath),
      u.githubIssueUrl.Apply(s.githubIssueUrl),
      u.error.Apply(s.error),
      u.repairAttempts.Apply(s.repairAttempts))
  }

  // Python truthiness of the optional fields the routers and nodes test.

  predicate TruthyStr(o: Option<string>) { o.Some? && o.value != "" }

  predicate TruthyList<T>(o: Option<seq<T>>) { o.Some? && o.value != [] }

  predicate TruthyFlag(o: Option<bool>) { o.Some? && o.value }

  predicate TruthyNat(o: Option<nat>) { o.Some? && o.value != 0 }

  predicate TruthyJson(o: Option<Json>) { o.Some? && Truthy(o.value) }

  /** `state.get("components") or <configured mask>`; `fromConfig` is that mask or what reading it raised. */
  function ComponentsFlag(components: Option<nat>, fromConfig: Result<nat, Exn>): Result<nat, Exn>
  {
    if TruthyNat(components) then Ok(components.value) else fromConfig
  }

  /** `state.get("planning_iteration", 0)`. */
  function PlanningIteration(s: ResearchState): int { s.planningIteration.GetOr(0) }

  /** `state.get("repair_attempts", 0)`. */
  function RepairAttempts(s: ResearchState): int { s.repairAttempts.GetOr(0) }

  /** The empty update leaves the state as it is. */
  lemma MergeNoChange(s: ResearchState)
    ensures Merge(s, NoChange) == s
  {
  }

  /**
   * Merging is per key: merging `u` and then `v` is merging the update that
   * takes `v`'s assignment where `v` names a key and `u`'s elsewhere.
   */
  function Then(u: Update, v: Update): (w: Update)
  {
    Update(
      Over(u.idea, v.idea), Over(u.alphaOnly, v.alphaOnly), Over(u.components, v.components),
      Over(u.instruments, v.instruments), Over(u.slug, v.slug), Over(u.outputDir, v.outputDir),
      Over(u.uploadToGithub, v.uploadToGithub), Over(u.bootstrapConfigPath, v.bootstrapConfigPath),
      Over(u.currentStep, v.currentStep), Over(u.researchPlan, v.researchPlan),
      Over(u.searchQueries, v.searchQueries), Over(u.mcpToolsAvailable, v.mcpToolsAvailable),
      Over(u.webSearchResults, v.webSearchResults),
      Over(u.componentResearchResults, v.componentResearchResults),
      Over(u.mcpToolsUsed, v.mcpToolsUsed), Over(u.priorArtResults, v.priorArtResults),
      Over(u.criticismResults, v.criticismResults), Over(u.criticismScore, v.criticismScore),
      Over(u.shouldRestartPlanning, v.shouldRestartPlanning), Over(u.restartReason, v.restartReason),
      Over(u.planningIteration, v.planningIteration), Over(u.rawProposal, v.rawProposal),
      Over(u.validationErrors, v.validationErrors), Over(u.validationReport, v.validationReport),
      Over(u.finalProposal, v.finalProposal), Over(u.proposalPath, v.proposalPath),
      Over(u.statePath, v.statePath), Over(u.issuePath, v.issuePath),
      Over(u.githubIssueUrl, v.githubIssueUrl), Over(u.error, v.error),
      Over(u.repairAttempts, v.repairAttempts))
  }

  function Over<T>(a: Assign<T>, b: Assign<T>): (r: Assign<T>)
    ensures b.Keep? ==> r == a
    ensures !b.Keep? ==> r == b
  {
    if b.Keep? then a else b
  }

  /** Two successive merges are one merge of the combined update. */
  lemma MergeThen(s: ResearchState, u: Update, v: Update)
    ensures Merge(Merge(s, u), v) == Merge(s, Then(u, v))
  {
  }

  /** Merging the same update twice is merging it once. */
  lemma MergeIdempotent(s: ResearchState, u: Update)
    ensures Merge(Merge(s, u), u) == Merge(s, u)
  {
  }

  // ---------------------------------------------------------------------
  // The undeclared `prior_art_results` key
  // ---------------------------------------------------------------------

  /**
   * The merge the compiled graph performs.  A `StateGraph` keeps only the
   * keys its state schema declares, and `ResearchState` declares no
   * `prior_art_results`, so that part of an update is dropped; every
   * declared key merges as `Merge` does.  The rest of the model merges
   * with `Merge`, which keeps the prior-art results for synthesis.
   */
  function DeclaredMerge(s: ResearchState, u: Update): (r: ResearchState)
    ensures r.priorArtResults == s.priorArtResults
    ensures r.(priorArtResults := None) == Merge(s, u).(priorArtResults := None)
  {
    Merge(s, u.(priorArtResults := Keep))
  }

  /** The state after the updates `us`, merged one after the other. */
  function MergeAll(s: ResearchState, us: seq<Update>): ResearchState
    decreases |us|
  {
    if us == [] then s else MergeAll(Merge(s, us[0]), us[1..])
  }

  /** The same, merging as the compiled graph does. */
  function DeclaredMergeAll(s: ResearchState, us: seq<Update>): ResearchState
    decreases |us|
  {
    if us == [] then s else DeclaredMergeAll(DeclaredMerge(s, us[0]), us[1..])
  }

  /** Merged as the compiled graph merges, no sequence of updates changes the prior-art results. */
  lemma {:induction false} PriorArtNeverRecorded(s: ResearchState, us: seq<Update>)
    ensures DeclaredMergeAll(s, us).priorArtResults == s.priorArtResults
    decreases |us|
  {
    if us != [] {
      PriorArtNeverRecorded(DeclaredMerge(s, us[0]), us[1..]);
    }
  }

  /** Updates that do not name the prior-art key leave the recorded results in place. */
  lemma {:induction false} PriorArtKept(s: ResearchState, us: seq<Update>)
    requires forall i :: 0 <= i < |us| ==> us[i].priorArtResults.Keep?
    ensures MergeAll(s, us).priorArtResults == s.priorArtResults
    decreases |us|
  {
    if us != [] {
      PriorArtKept(Merge(s, us[0]), us[1..]);
    }
  }
}
