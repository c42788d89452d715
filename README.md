# ai-research-agent, modelled in Dafny

The research agent turns a trading-strategy idea into a structured research
proposal through a workflow of seven stages: **plan**, **web research**,
**prior art**, **criticism**, **synthesize**, **validate** and **persist**.
Each stage reads the shared research state and returns a partial update. The
workflow merges the update into the state and picks the next stage, either by
a fixed edge or by one of three routers:

- after prior art, back to planning when a restart was requested;
- after criticism, back to planning when the viability score was low in an
  early round;
- after validation, back to synthesis for one repair.

This project models that workflow and the code it relies on:

- the component bit flags and the state record (`Components`, `State`);
- the seven stages (`PlanStage`, `WebResearchStage`, `PriorArtStage`,
  `CriticismStage`, `SynthesizeStage`, `ValidateStage`, `PersistStage`);
- the routers and the run loop (`Workflow`);
- the prompt helpers that decide restarts, parse scores and scope plans and
  queries (`Prompts`);
- the reply parser that splits research into approaches (`ApproachParsing`);
- the MCP tool client (`Mcp`) and the schema validation tool
  (`ValidationTool`);
- the configuration tables (`Configuration`) and the LLM client's cache,
  message handling and JSON reply parsing (`Llm`);
- the command line's instrument, component and slug parsing (`CommandLine`);
- the standalone proposal checker (`ProposalScript`).

`Text`, `JsonValues` and `Wrappers` supply ASCII string operations, JSON values
and `Option`/`Result`.

Code that changes things step by step is modelled as methods with loops. Each
method is proved equal to a specification function, and the properties the
code promises are proved about that function as lemmas. The configuration,
the LLM client's cache and the disk the persist stage writes to are classes
whose methods modify their fields. Everything outside the agent is a
parameter of the model: the language model, the search back ends, jsonschema,
`json.loads` and the file system.

Three behaviours of the code are modelled as written, and lemmas state their
consequences:

- A rejected proposal raises `repair_attempts` to 1 in the same update that
  asks for a repair. The validation router only repairs while
  `repair_attempts < 1`, so the run goes straight to persist, and an invalid
  proposal is never regenerated (`Workflow.RejectionSkipsRepair`,
  `Workflow.GraphRepairsUpToOne`).
- When validation finds no proposal, or hits a system error, it keeps
  `repair_attempts` as it is, and the router sends the run back to
  synthesis. Without an LLM provider, synthesis never produces a proposal.
  Once the synthesis prompts are formatted with the keys their templates
  use (see "Left out"), the run then never reaches persist, and only the
  recursion limit ends it (`Workflow.StalledSynthesis`,
  `Workflow.StalledValidation`, `Workflow.NoProviderNeverPersists`).
- The prior-art router sends the run back to planning whenever the stage
  asks for it, and no counter limits those restarts. Only the recursion
  limit bounds them (`Workflow.PriorArtRoute`).

One behaviour is modelled as intended rather than as written. The prior-art
stage returns its results under `prior_art_results`, a key the state schema
does not declare. The compiled graph drops that key, so synthesis as written
never sees the results. The model's merge keeps it, so synthesis sees what
the prior-art stage found. "Findings" states both versions, with a lemma
about each.

## Model

| member | source | states |
|---|---|---|
| Workflow.Successor | agent/graph.py:96-147 | the stage after any stage but END lies on one of the graph's edges, and END follows exactly persist (or END itself) |
| Workflow.Execute | agent/graph.py:44-153 | a run never takes more hops than its step budget, and stops for lack of steps only once the budget is spent |
| Workflow.RunFollowsEdges | agent/graph.py:96-147 | every hop of a run is an edge of the graph, the first leaves the starting stage and each hop starts where the previous one ended |
| Workflow.RunEnding | agent/graph.py:147 | a run finishes exactly when its last hop is persist→END, and a stage that raises is the one the last hop led to |
| Workflow.RunGraph | agent/graph.py:44-153 | invoking the compiled graph is the run that starts at plan over the seven node functions |
| Workflow.Drive | agent/graph.py:96-147 | the step-by-step loop of the compiled graph produces exactly the specified run from plan |
| Workflow.PlanCounters | agent/nodes/plan.py:130-140 | planning sets the round one past the incoming round and leaves the repair count alone |
| Workflow.WebResearchCounters | agent/nodes/web_research.py:144-149 | web research leaves the planning round and the repair count unchanged |
| Workflow.PriorArtCounters | agent/nodes/prior_art.py:84-98 | prior art leaves the planning round and the repair count unchanged |
| Workflow.CriticismUpdate | agent/nodes/criticism.py:68-267 | criticism always writes its results and an explicit restart flag, and sets the flag only below round 3 with a score under 51 |
| Workflow.SynthesisCounters | agent/nodes/synthesize.py:91-102 | synthesis leaves both counters and the validation errors alone and hands over to validation |
| Workflow.ValidateCounters | agent/nodes/validate.py:18-100 | validation keeps the planning round and either keeps the repair count or raises it by one from below one |
| Workflow.PersistCounters | agent/nodes/persist.py:19-106 | persisting leaves the planning round and the repair count unchanged |
| Workflow.PriorArtRoute | agent/graph.py:101-111 | after prior art the run returns to planning exactly when the advisor asks for a restart |
| Workflow.CriticismRoute | agent/graph.py:114-124 | after criticism the run returns to planning exactly when criticism set the restart flag, which requires round < 3 and score < 51 |
| Workflow.ValidationRoute | agent/graph.py:129-145 | after validation the run goes back to synthesis exactly when no repair was counted and there was no proposal or no schema |
| Workflow.RejectionSkipsRepair | agent/graph.py:129-139 | a proposal the schema rejects on the first attempt raises the repair count to 1, so the router sends the run to persist, which writes the rejected raw proposal |
| Workflow.GraphRoundsOnlyByPlan | agent/graph.py:53-92 | in the graph only the plan node moves the planning round, to one past the incoming round |
| Workflow.GraphRepairsUpToOne | agent/graph.py:53-92 | in the graph only validation moves the repair count, by one and only from below one |
| Workflow.GraphCriticismRestartCapped | agent/graph.py:114-124 | in the graph criticism routes back to planning only below round 3 |
| Workflow.GraphNoPriorArtRestart | agent/graph.py:101-111 | with an advisor that never asks for a restart, prior art never routes back to planning |
| Workflow.PlanningRounds | agent/graph.py:96-147 | the planning round at the end of a run is the incoming round plus the number of planning rounds the run completed |
| Workflow.RepairCountBounded | agent/graph.py:129-139 | over a whole run the repair count never falls and rises at most to 1 |
| Workflow.CriticismRestartsBounded | agent/graph.py:114-124 | the criticism→plan edge is taken no more often than the rounds left below the cap allow |
| Workflow.PlanEntries | agent/graph.py:96-124 | every planning round after the first is entered by a restart from prior art or from criticism |
| Workflow.PriorArtEdgeUnused | agent/graph.py:101-111 | when prior art never asks for a restart, the prior-art→plan edge is never taken |
| Workflow.FreshRun | agent/graph.py:96-147 | a run from round 0 and repair count 0 takes at most two criticism restarts, ends with the round equal to the planning rounds, ends with a repair count of 0 or 1, and has at most three planning rounds when prior art never restarts |
| Workflow.StalledSynthesis | agent/nodes/synthesize.py:93-102 | without an LLM provider, synthesis records the error and hands over to validation, leaving the state stalled |
| Workflow.StalledValidation | agent/nodes/validate.py:28-37 | with no proposal and no repair counted, validation counts no repair and routes back to synthesis, leaving the state stalled |
| Workflow.Cycles | agent/graph.py:126-145 | when synthesis and validation always succeed and hand over to each other, a run started at either only alternates between the two until the step budget runs out |
| Workflow.GraphStalledSynthesis | agent/graph.py:79-84 | in the graph, synthesis from a stalled state succeeds, stays stalled and goes on to validation |
| Workflow.GraphStalledValidation | agent/graph.py:85-88 | in the graph, validation from a stalled state succeeds, stays stalled and goes back to synthesis |
| Workflow.NoProviderNeverPersists | agent/graph.py:126-145 | without an LLM provider, a run from synthesis or validation never reaches persist: it alternates between the two until the recursion limit |
| PlanStage.ExtraQueries | agent/nodes/plan.py:119-125 | from the second round on exactly three extra queries are added |
| PlanStage.Pass | agent/nodes/plan.py:138 | writing the component mask back leaves the state's value (or its absence) as it was |
| PlanStage.PlanResult | agent/nodes/plan.py:130-140 | a planning update sets the new round, clears the restart flag and reason, moves on to web research and leaves the proposal and repair count alone |
| PlanStage.PlanSpec | agent/nodes/plan.py:17-140 | a successful round numbers itself one past the incoming round (0 when absent), resets the restart request, goes to web research and keeps the proposal and repair count |
| PlanStage.RestartNote | agent/nodes/plan.py:47-61 | the loop-free note builder returns the restart note with the guidance its reason selects |
| PlanStage.AlphaModePlan | agent/nodes/plan.py:69-71 | an alpha-only round uses the alpha-only plan and queries |
| PlanStage.ScopedModePlan | agent/nodes/plan.py:73-91 | a round with a non-zero mask uses the plan and queries scoped to the components the mask decodes to |
| PlanStage.FullModePlan | agent/nodes/plan.py:92-94 | a round with a zero mask uses the full plan and queries |
| PlanStage.ModePlan | agent/nodes/plan.py:69-115 | chooses the base plan, base queries and written-back mask of the round's mode, or propagates the error from reading the configured mask |
| PlanStage.AssemblePlan | agent/nodes/plan.py:96-140 | completes the plan with the restart note and tool list, and the queries with the extra ones |
| PlanStage.PlanNode | agent/nodes/plan.py:17-140 | the node's result is the specified planning update or exception |
| PlanStage.PlanFailure | agent/nodes/plan.py:22-74 | planning fails exactly when the client cannot be built, the idea is missing, or a non-alpha round without a mask cannot read the configured one |
| PlanStage.PlanTextParts | agent/nodes/plan.py:47-97 | a plan starts with its base plan and ends with the tool list, and a restart reason is quoted right after the base plan with the round number |
| PlanStage.QueryListParts | agent/nodes/plan.py:118-126 | the query list is the base list, followed by the three extra queries from the second round on and by nothing in the first |
| PlanStage.PlanQueries | agent/nodes/plan.py:99-126 | a round's queries are its mode's base queries followed by the extra ones exactly when the new round is above 1 |
| PlanStage.PlanComponents | agent/nodes/plan.py:69-138 | alpha-only rounds plan for alpha and keep the mask; otherwise a non-zero mask scopes the plan to its components in UNIVERSE, ALPHA, PORTFOLIO, EXECUTION, RISK order, zero gives the full plan, and the mask is written back |
| PlanStage.BaseQueryCounts | agent/nodes/plan.py:99-115 | five base queries in alpha-only mode, six in full mode, and the de-duplicated scoped list followed by the general list otherwise |
| PlanStage.GuidanceIgnoresCase | agent/nodes/plan.py:56-61 | the guidance a restart reason selects does not depend on letter case |
| PlanStage.GuidancePrecedence | agent/nodes/plan.py:56-61 | a reason that names both prior art and the viability score gets the prior-art guidance |
| PriorArtStage.FirstQueries | agent/nodes/prior_art.py:39 | at most the first three queries are searched, in order, and exactly three when there are that many |
| PriorArtStage.SearchPriorArt | agent/nodes/prior_art.py:34-57 | the search loop collects exactly the hits of the searched queries, skipping failed searches |
| PriorArtStage.PriorArtNode | agent/nodes/prior_art.py:16-98 | the node's result is the specified prior-art update or exception |
| PriorArtStage.SearchBound | agent/nodes/prior_art.py:37-57 | the searched queries are a prefix of the query list of at most three, none without the GitHub tool, and three when the tool is there and there are enough queries |
| PriorArtStage.GatheredAppend | agent/nodes/prior_art.py:39-49 | the hits of two query lists searched one after the other are the hits of the first followed by those of the second |
| PriorArtStage.AccumulatedLast | agent/nodes/prior_art.py:46-54 | one more query adds exactly its own hits at the end |
| PriorArtStage.AccumulatedAppend | agent/nodes/prior_art.py:39-54 | accumulating hits distributes over concatenating the query lists |
| PriorArtStage.OneSearch | agent/nodes/prior_art.py:46-54 | a single query contributes its five-result search when that succeeds and nothing when it fails |
| PriorArtStage.FailedSearchSkipped | agent/nodes/prior_art.py:52-54 | a failing search is skipped: the hits are those of the queries before it followed by those after it |
| PriorArtStage.PriorArtOutcome | agent/nodes/prior_art.py:16-98 | prior art fails only without a client or idea; otherwise it records the queries, the hits, their count, the search method and the tools, and restarts planning with the advisor's reason exactly when the advisor asks, going on to criticism otherwise |
| PriorArtStage.NoGithubNothingFound | agent/nodes/prior_art.py:37-57 | without the GitHub tool nothing is found |
| SynthesizeStage.GenerateProposal | agent/tools/mcp_client.py:195-212 | proposal generation fails only with an MCP tool error |
| SynthesizeStage.AddMetadata | agent/nodes/synthesize.py:78-86 | stamping the proposal's misc section gives the specified result |
| SynthesizeStage.SynthesizeNode | agent/nodes/synthesize.py:17-102 | the node's result is the specified synthesis update or exception |
| SynthesizeStage.MetadataSpec | agent/nodes/synthesize.py:78-86 | on an object proposal the stamp adds a misc object with prior art, source count, generator, protocol and tools, keeps every other top-level field and every other misc entry, and adds nothing else |
| SynthesizeStage.MetadataFails | agent/nodes/synthesize.py:78-86 | stamping fails, with a type error, exactly when the proposal is not an object or its misc entry is not one |
| SynthesizeStage.SynthesisOutcome | agent/nodes/synthesize.py:72-102 | synthesis always moves on to validation; it writes the stamped proposal exactly when generation and stamping succeed, and otherwise writes only an error and keeps the old proposal |
| SynthesizeStage.OutcomeCounters | agent/nodes/synthesize.py:91-102 | synthesis leaves the planning round, repair count and validation errors alone |
| SynthesizeStage.NoProvider | agent/tools/mcp_client.py:197-198 | without an LLM provider synthesis records "MCP synthesis failed: No LLM provider available for proposal generation" |
| SynthesizeStage.RequestContents | agent/nodes/synthesize.py:31-70 | the prompts carry the validation errors (empty exactly when there are none), at most five web results and the alpha note exactly in alpha-only mode |
| SynthesizeStage.SynthesizeFailure | agent/nodes/synthesize.py:20-31 | synthesis raises exactly when the client cannot be built, the schema cannot be loaded or the idea is missing |
| ValidateStage.NoProposal | agent/nodes/validate.py:31-37 | with no proposal, validation reports the missing proposal, goes to persist and counts no repair |
| ValidateStage.ValidProposal | agent/nodes/validate.py:39-53 | a conforming proposal becomes the final proposal, the errors are cleared and the run goes to persist with the success report |
| ValidateStage.RejectedProposal | agent/nodes/validate.py:55-92 | a rejected proposal yields one to five errors; below one repair it counts a repair and asks for synthesis, otherwise it keeps the count and makes the rejected proposal final |
| ValidateStage.SchemaSystemError | agent/nodes/validate.py:94-100 | a schema that cannot be loaded yields one system error and a move to persist, with no repair counted |
| ValidateStage.RepairAttemptsMonotone | agent/nodes/validate.py:78-92 | validation keeps the repair count or raises it by one |
| ValidateStage.AgreesWithTool | agent/tools/validation_mcp_tool.py:23-97 | the node and the validation tool agree on failure, on a valid verdict and on the error lines, and below one repair on the report |
| ValidateStage.ValidateFailure | agent/nodes/validate.py:18-100 | validation raises exactly when the client cannot be built or, with a proposal, the schema fails with an error other than a value or key error |
| PersistStage.Disk.MakeDir | agent/nodes/persist.py:60-61 | creating the directory fails exactly as the file system says |
| PersistStage.Disk.WriteProposal | agent/nodes/persist.py:74-75 | a successful write stores the proposal under its path and touches nothing else |
| PersistStage.Disk.WriteState | agent/nodes/persist.py:83-84 | a successful write stores the state under its path and touches nothing else |
| PersistStage.PersistNode | agent/nodes/persist.py:19-106 | the node returns the specified update, and the files written are exactly the proposal and then the filtered state that were reached before the first failure |
| PersistStage.ProposalChoice | agent/nodes/persist.py:33-56 | the final proposal is written when truthy, else the raw one, and nothing when neither is |
| PersistStage.PathsSpec | agent/nodes/persist.py:34-65 | the slug defaults to "research_proposal" and the two files are proposals/<slug>.json and proposals/<slug>_state.json, which differ |
| PersistStage.SavedStateSpec | agent/nodes/persist.py:77-81 | the saved state is the run's state with the final proposal removed and nothing else |
| PersistStage.PersistOutcome | agent/nodes/persist.py:41-106 | no proposal gives the no-proposal error, a clean save gives both paths, a save error gives the "Failed to save proposal" message, any other error escapes, and the validation report is always passed on |
| PersistStage.Disk.constructor | agent/nodes/persist.py:60-84 | a fresh disk holds no proposal and no saved state |
| ValidationTool.CollectedErrors | agent/tools/validation_mcp_tool.py:60-82 | a rejection yields one to five error lines: the single best error when the full list is unavailable, else the first five errors, each formatted with its path |
| ValidationTool.ValidateProposal | agent/tools/validation_mcp_tool.py:23-97 | a missing or empty proposal is reported as missing, a valid verdict has no errors and the success report, and only a schema failure other than a value or key error escapes |
| ValidationTool.InvalidProposalSpec | agent/tools/validation_mcp_tool.py:60-88 | a rejected proposal is invalid with one to five errors and the repair report that counts them |
| ValidationTool.ValidIffConforms | agent/tools/validation_mcp_tool.py:45-58 | a present proposal is valid exactly when it conforms to the schema |
| ValidationTool.SystemErrorSpec | agent/tools/validation_mcp_tool.py:90-97 | a value or key error while loading the schema gives one "Validation system error" line and the matching report |
| ValidationTool.PathTextSplits | agent/tools/validation_mcp_tool.py:76 | a dotted error path splits back into its elements when no key contains a dot |
| ValidationTool.Bullets | agent/tools/validation_mcp_tool.py:123 | one bullet line per error, in order |
| ValidationTool.RepairOutcome | agent/tools/validation_mcp_tool.py:158-177 | the repair gives a proposal exactly when the model replies with an object, gives none for other replies and caught errors, and lets any other error escape |
| ValidationTool.RepairProposal | agent/tools/validation_mcp_tool.py:99-177 | the repair fails with the schema's error when it cannot be loaded, and otherwise asks the model with the bulleted errors, the alpha note, the idea, the proposal and the schema |
| ValidationTool.ErrorBulletLines | agent/tools/validation_mcp_tool.py:123 | the error block splits back into exactly one bullet per error when no error spans lines |
| Mcp.GithubRequest | agent/tools/mcp_client.py:166 | a GitHub search asks for min(max_results, 100) results per page |
| Mcp.HitsOf | agent/tools/mcp_client.py:168-181 | the items convert one hit each, in order, and the conversion fails exactly when some item does |
| Mcp.GithubResults | agent/tools/mcp_client.py:161-182 | a search without GitHub availability or without the tool finds nothing |
| Mcp.GithubSearch | agent/tools/mcp_client.py:161-182 | the search returns exactly the specified hits or error |
| Mcp.CollectHits | agent/tools/mcp_client.py:169-181 | the loop over a list of items returns one hit per item in order, or the error of the first item that fails |
| Mcp.HitsErrSticky | agent/tools/mcp_client.py:170-180 | an item that fails to convert makes the whole conversion fail with its error |
| Mcp.AvailabilitySpec | agent/tools/mcp_client.py:32-43 | web search needs an LLM provider, GitHub a non-empty token, Tavily a non-empty key, the filesystem is always there and no other tool is |
| Mcp.AvailableNamesSpec | agent/tools/mcp_client.py:45-50 | a node's client lists its configured tools; a client without a node lists exactly the available tools, each once |
| Mcp.HasToolSpec | agent/tools/mcp_client.py:52-56 | a client has a tool only when it is available, and a node's client has it exactly when it is also configured for the node |
| Mcp.RunMcpToolSpec | agent/tools/mcp_client.py:58-83 | running a tool yields a reply exactly when the client has the tool and the backend answers, and then it is the backend's reply |
| Mcp.NewClientSpec | agent/tools/mcp_client.py:23-30 | a client needs a non-empty node name whose settings load, and then takes the node's tools and the configuration's availability |
| WebResearchStage.ConductComponentResearch | agent/nodes/web_research.py:152-227 | one component's research gives the specified approaches or error |
| WebResearchStage.ResearchComponents | agent/nodes/web_research.py:73-107 | the per-component loop gives exactly the specified progress |
| WebResearchStage.WebResearchNode | agent/nodes/web_research.py:17-149 | the node's result is the specified web-research update or exception |
| WebResearchStage.GatherNext | agent/nodes/web_research.py:74-107 | researching one more component extends the progress by that component's step, and an escaped error stays |
| WebResearchStage.GatherAfter | agent/nodes/web_research.py:73-136 | once a component has failed the remaining components are not researched |
| WebResearchStage.ActiveComponentsSpec | agent/nodes/web_research.py:53-64 | alpha-only research covers ALPHA then UNIVERSE; a non-zero mask covers exactly its components; a zero mask covers all five; only known names occur |
| WebResearchStage.ComponentResearchSpec | agent/nodes/web_research.py:188-223 | a component's research is empty exactly when the search returns nothing, PORTFOLIO and EXECUTION keep at most one approach, every approach names its component, and it fails exactly when the search fails or the first result has unusable content |
| WebResearchStage.GatherSpec | agent/nodes/web_research.py:73-107 | the findings follow the components in order, each non-empty and filed from that component's research, all of them unless one failed, and the flat results are their concatenation |
| WebResearchStage.FlatResultsAppend | agent/nodes/web_research.py:85-88 | the flat results grow by exactly the new component's results |
| WebResearchStage.WebResearchOutcome | agent/nodes/web_research.py:17-149 | web research always goes to criticism with the node's tools and non-empty results: the flat component results normally, the general placeholder after a failure or with no components |
| WebResearchStage.FlatNonEmpty | agent/nodes/web_research.py:109-121 | when every component produced results the flat list is not empty |
| WebResearchStage.GatherFailure | agent/nodes/web_research.py:123-136 | an error that escapes the node is the uncaught error of one of the components |
| ApproachParsing.MarkerAt | agent/nodes/web_research.py:240 | a recognised "Approach N:" marker ends inside the text and carries its non-empty digits and their value |
| ApproachParsing.Numbered | agent/nodes/web_research.py:281-303 | one approach per structured match |
| ApproachParsing.NonBlank | agent/nodes/web_research.py:308 | the kept paragraphs are stripped and non-empty, and no more than the pieces |
| ApproachParsing.ChunkSize | agent/nodes/web_research.py:312 | the paragraph group size is at least one |
| ApproachParsing.MatchAlternatives | agent/nodes/web_research.py:278-304 | the pattern loop yields exactly the approaches of the first alternative pattern with two or more matches |
| ApproachParsing.NumberedAt | agent/nodes/web_research.py:281-303 | the i-th structured match becomes approach number i + 1 |
| ApproachParsing.NumberMatches | agent/nodes/web_research.py:281-303 | the match loop numbers the matches from 1 in order |
| ApproachParsing.GroupParagraphs | agent/nodes/web_research.py:311-328 | the chunk loop yields one approach per group of paragraphs |
| ApproachParsing.OffsetDiv | agent/nodes/web_research.py:317 | the start of the k-th group divided by the group size is k, so approach numbers count the groups from 1 |
| ApproachParsing.ApproachesFromMarkers | agent/nodes/web_research.py:243-267 | the section loop yields exactly the marker approaches |
| ApproachParsing.ParseMultipleApproaches | agent/nodes/web_research.py:230-330 | the parser returns the specified approaches for every reply |
| ApproachParsing.ScanRebuilds | agent/nodes/web_research.py:240-241 | splitting on the markers loses nothing: the overview and the pieces put back together give the text scanned |
| ApproachParsing.SplitRebuilds | agent/nodes/web_research.py:240-241 | splitting the whole reply on the markers and joining the pieces back gives the reply |
| ApproachParsing.MarkerApproachesSpec | agent/nodes/web_research.py:243-267 | one approach per marker, numbered as written, the overview prefixed to approach 1 exactly when it is longer than 100 characters |
| ApproachParsing.ChunkApproachesAt | agent/nodes/web_research.py:314-328 | the k-th paragraph group becomes approach number k + 1 |
| ApproachParsing.WinnerSpec | agent/nodes/web_research.py:278-304 | the chosen pattern is the first from the given one with at least two matches, and there is none when no such pattern exists |
| ApproachParsing.AltApproachesEmpty | agent/nodes/web_research.py:278-304 | the alternative patterns give nothing exactly when none has two matches |
| ApproachParsing.AltApproachesFirst | agent/nodes/web_research.py:278-304 | the approaches come from the first pattern with two or more matches |
| ApproachParsing.FirstWinner | agent/nodes/web_research.py:278-280 | the first pattern with at least two matches is the one chosen |
| ApproachParsing.NumberedSpec | agent/nodes/web_research.py:281-303 | the structured approaches number the matches from 1 in order, one per match |
| ApproachParsing.ParsedComponent | agent/nodes/web_research.py:230-330 | every parsed approach is filed under its component |
| ApproachParsing.MarkerComponent | agent/nodes/web_research.py:257-267 | every marker approach is filed under its component |
| ApproachParsing.ParagraphComponent | agent/nodes/web_research.py:318-328 | every paragraph-group approach is filed under its component |
| ApproachParsing.AltComponent | agent/nodes/web_research.py:293-303 | every structured approach is filed under its component |
| ApproachParsing.ChunksFlatten | agent/nodes/web_research.py:314-316 | the paragraph groups put back together are the paragraphs |
| ApproachParsing.ParagraphGroupsSpec | agent/nodes/web_research.py:307-328 | the grouped approaches number the groups from 1, join each group with blank lines, lose no paragraph and hold between one and the group size paragraphs each |
| ApproachParsing.ChunkSizes | agent/nodes/web_research.py:314-316 | every paragraph group holds at least one and at most the group size of paragraphs |
| ApproachParsing.ParsedStrategies | agent/nodes/web_research.py:243-330 | marker sections win, then the first alternative pattern with two matches, then paragraph groups for replies over 500 characters, else nothing |
| CommandLine.Items | cli.py:34 | splitting on commas always gives at least one item |
| CommandLine.Invalid | cli.py:37 | the invalid items are exactly the items outside the valid set |
| CommandLine.CheckedItemsSpec | cli.py:27-41 | a list parses exactly when it is non-empty and every item is valid, and then to its cleaned items; an empty list raises the given message and every failure is a value error |
| CommandLine.FirstIndex | cli.py:44 | the first position of an item in a list |
| CommandLine.DedupOrder | cli.py:44 | removing duplicates keeps only items of the list, ordered by where each first appears |
| CommandLine.InstrumentsSpec | cli.py:27-44 | instruments parse exactly when the list is non-empty and all valid, into a duplicate-free list of the same items in order of first appearance; an empty list raises "Instruments cannot be empty" |
| CommandLine.ComponentNamed | cli.py:66-72 | a name maps to a component exactly when it is one of the five, and to the component it labels |
| CommandLine.Named | cli.py:66-76 | the names map to components one for one |
| CommandLine.OrFlags | cli.py:74-78 | the loop ORs together exactly the flags of the named components |
| CommandLine.ParseComponents | cli.py:47-78 | component parsing returns the specified mask or error |
| CommandLine.MaskSpec | cli.py:74-78 | the ORed mask has a component's bit exactly when the component is in the list, and stays below 32 |
| CommandLine.NamedMask | cli.py:65-78 | the mask of a non-empty list of names has exactly the named components' bits and lies between 1 and 31 |
| CommandLine.ComponentsSpec | cli.py:47-78 | components parse exactly when the list is non-empty and all valid, into a mask between 1 and 31 holding exactly the listed components; an empty list raises "Components cannot be empty" |
| CommandLine.SkipRun | cli.py:86 | skipping a run of non-alphanumerics leaves a suffix that starts with an alphanumeric or is empty |
| CommandLine.Squash | cli.py:86 | replacing runs never lengthens the text |
| CommandLine.SquashKeepsAlnum | cli.py:86 | replacing runs of non-alphanumerics keeps every alphanumeric character, in order |
| CommandLine.SquashChars | cli.py:86 | after the replacement only alphanumerics and underscores remain |
| CommandLine.SquashLeading | cli.py:86 | the replaced text starts with an underscore exactly when the original starts with a non-alphanumeric |
| CommandLine.SquashSingles | cli.py:86 | the replacement never leaves two underscores in a row |
| CommandLine.SlugChars | cli.py:81-88 | a slug holds only lower-case letters, digits and underscores |
| CommandLine.SlugSpec | cli.py:81-88 | a slug is non-empty, has no leading or trailing underscore and no doubled one, and is no longer than 50 characters unless it is the default |
| CommandLine.SquashFixed | cli.py:86 | text already made of alphanumerics and single underscores is unchanged by the replacement |
| CommandLine.SlugIdempotent | cli.py:81-88 | the slug of a slug is itself |
| CommandLine.InitialStateSpec | cli.py:104-147 | the initial state exists exactly when idea and instruments are given and parse, and the components parse when given; it holds the idea, the parsed instruments and mask, the configured or generated slug, sets the alpha-only switch, output directory and upload switch as configured, starts at plan and has both counters at 0 |
| CommandLine.ProposeRun | cli.py:121-180 | a run of the graph from the command's initial state, under LangGraph's default recursion limit of 25 stage runs, stays within that limit, takes at most two criticism restarts, ends with the round equal to its planning rounds and with at most one repair |
| Configuration.KnownTools | agent/config.py:369-372 | the tools kept are exactly the node's tools that name a global client, never more than listed |
| Configuration.ClientsOf | agent/config.py:369-372 | one client configuration per kept tool name |
| Configuration.SelectClients | agent/config.py:368-372 | the loop collects, in the node's order, the configurations of the node's tools that name a global client |
| Configuration.FilterTools | agent/config.py:341-348 | the loop keeps exactly the stripped, non-empty tool names that name a global client |
| Configuration.Config.constructor | agent/config.py:90-116 | a fresh configuration has no providers, clients or node tables and the documented defaults: provider "openai", model "gpt-4o", MCP on, temperature 0.7, 4000 tokens |
| Configuration.Config.GetNodeConfig | agent/config.py:357-391 | the effective node settings, or the error for an unconfigured provider |
| Configuration.Config.SetNodeConfig | agent/config.py:393-404 | the settings before the first unknown key are applied to the node's table, creating it if needed, and an unknown key raises a value error |
| Configuration.Config.SetNodeProvider | agent/config.py:443-452 | succeeds exactly when the provider is configured; on success it sets the node's provider, creating default node settings when the node has none, and the node then resolves to that provider; on failure nothing changes |
| Configuration.Config.Derived | agent/config.py:490-502 | the derived configuration keeps the keys, MCP clients and node table, takes model, MCP switch, temperature and token limit from the node's settings, and has no LLM providers and the default provider `openai` |
| Configuration.Config.ForNode | agent/config.py:484-504 | fails exactly when the node's settings fail, with the same error; otherwise returns a new configuration carrying the node's effective model, MCP switch, temperature and token limit, with no LLM providers, so that every node's settings in it fail with `ValueError` |
| Configuration.Config.AddMcpToolToNode | agent/config.py:406-417 | a tool is added exactly when it names a global client, at most once, and otherwise nothing changes |
| Configuration.Config.RemoveMcpToolFromNode | agent/config.py:419-428 | a tool is removed exactly when the node lists it, its first occurrence only, and otherwise nothing changes |
| Configuration.Config.AddGlobalMcpClient | agent/config.py:463-465 | the client is stored under its name, replacing any client of that name, and a new name is appended to the client order |
| Configuration.Config.RemoveGlobalMcpClient | agent/config.py:467-478 | removing a known client deletes it and removes it from every node's tool list; an unknown one changes nothing |
| Configuration.Config.LoadNodeMcpTools | agent/config.py:332-355 | the node's tool list is read from its environment variable as specified |
| Configuration.Config.GetSchema | agent/config.py:518-530 | the schema is the decoding of the text with its comment lines cut, and a decoding failure is a value error carrying the decoder's message |
| Configuration.StripSchemaComments | agent/config.py:522-529 | the line loop gives the text with every line cleaned, joined by newlines |
| Configuration.NodeSettingsSpec | agent/config.py:357-391 | the node's provider (or the default) must be configured, and then each setting is the node's own when set and the provider's or global one otherwise, with the clients of the node's known tools |
| Configuration.KnownToolsOrder | agent/config.py:369-372 | the kept tools appear in the node's order |
| Configuration.WithToolSpec | agent/config.py:414-415 | adding a tool makes it listed, adds nothing else, keeps the list duplicate-free and is idempotent |
| Configuration.RemoveFirstSpec | agent/config.py:425 | removing a tool removes exactly one occurrence when there is one and nothing otherwise |
| Configuration.RemoveFirstDistinct | agent/config.py:425 | in a duplicate-free list, removing a tool removes it entirely and keeps the list duplicate-free |
| Configuration.CascadingDelete | agent/config.py:473-475 | after removing a client no duplicate-free node list mentions it |
| Configuration.SettingsStopAtUnknown | agent/config.py:400-404 | settings after the first unknown key are never applied |
| Configuration.NodeToolsSpec | agent/config.py:332-355 | a node's tools all name global clients, and the list is empty only when MCP is off or there are no clients |
| Configuration.ValidToolNamesSpec | agent/config.py:341-348 | every kept tool is a non-empty global client name, and every listed name that is one is kept |
| Configuration.CleanSchemaLineSpec | agent/config.py:524-526 | a line is cut exactly when it has "//", does not start with a quote and has no "http", and then just before the first "//" |
| Configuration.SchemaLineCount | agent/config.py:523-527 | cleaning keeps one line per line |
| Llm.ConvertMessages | agent/llm_client.py:248-256 | one chat message per message, in order, with its content (empty when absent), a system message exactly for the "system" role and a human message otherwise |
| Llm.FirstOpening | agent/llm_client.py:268-272 | finds the first "{" or "[", or reports that there is none |
| Llm.FirstOpeningAt | agent/llm_client.py:268-272 | an opening bracket with none before it is the one found |
| Llm.StripFences | agent/llm_client.py:262-279 | the fence-stripping loop gives exactly the unfenced reply |
| Llm.UnfencedSpec | agent/llm_client.py:262-279 | an unfenced reply, or a fenced one without a bracket, is only stripped of surrounding blanks; a fenced one with a bracket is cut to start at its first bracket |
| Llm.ParseReply | agent/llm_client.py:281-283 | the reply parses exactly when its unfenced text decodes, to that value; otherwise it fails with a value error quoting the decoder's message and the reply as received |
| Llm.ApiKey | agent/llm_client.py:87-95 | the key lookup fails exactly when the provider names a key variable, is not ollama and the variable is unset or empty |
| Llm.MissingKey | agent/llm_client.py:89-92 | a missing key for a provider other than ollama is a value error |
| Llm.LlmClient.constructor | agent/llm_client.py:42-55 | a new client takes its node's provider settings and starts with an empty cache |
| Llm.LlmClient.GetClient | agent/llm_client.py:70-99 | a cached provider's client is returned unchanged; otherwise the client is built from the key and cached only on success, and a failure leaves the cache as it was |
| Llm.LlmClient.ChatCompletion | agent/llm_client.py:136-165 | a successful completion has a cached client and is the model's reply to one converted message per message |
| Llm.LlmClient.JsonCompletion | agent/llm_client.py:212-283 | a successful JSON completion has a cached client, had the format note appended to the last message, and is the decoding of an unfenced reply |
| Llm.AppendToLastSpec | agent/llm_client.py:242-245 | the format note is appended to the content of the last message only, keeping its role and every other message |
| Prompts.RestartCapped | agent/prompts.py:1209-1213 | from round 3 on there is never a restart, whatever the score, and the reason starts with "Maximum" |
| Prompts.RestartBelowThreshold | agent/prompts.py:1215-1219 | below round 3 the run restarts exactly when the score is under 51, with a reason naming the viability score, and the reason is empty otherwise |
| Prompts.RunEnd | agent/prompts.py:1160 | the end of a run of matching characters: everything before it matches and the character at it does not |
| Prompts.ViabilityDigits | agent/prompts.py:1160 | the score after a "VIABILITY SCORE:" label is a non-empty run of digits |
| Prompts.FirstViability | agent/prompts.py:1160-1161 | finds the first position of a score label, or reports that there is none |
| Prompts.ViabilityScoreSpec | agent/prompts.py:1155-1185 | the score is the value of the digits after the first case-insensitive "VIABILITY SCORE:" label; without one it is the fallback patterns' value, else 50 |
| Prompts.ViabilityExample | agent/prompts.py:1159-1165 | "VIABILITY SCORE: 65" scores 65 |
| Prompts.ScoreMatchAt | agent/prompts.py:1195 | a component-score match lies inside the text and has a non-empty name and digits |
| Prompts.ScoreMatches | agent/prompts.py:1195-1196 | every match found is well formed |
| Prompts.ExtractComponentScores | agent/prompts.py:1188-1204 | the match loop builds exactly the specified score table |
| Prompts.ScoresOfKeys | agent/prompts.py:1198-1200 | the table's keys are exactly the upper-cased names matched |
| Prompts.ScoresOfLast | agent/prompts.py:1198-1200 | each name's score is the one of its last match |
| Prompts.ComponentScoresSpec | agent/prompts.py:1188-1204 | a text's scores are keyed by exactly the upper-cased matched names, each holding its last match's value |
| Prompts.NoScoreMatches | agent/prompts.py:1196-1204 | a text without a match gives no scores |
| Prompts.PlanHints | agent/prompts.py:588-594 | every component has two plan search hints |
| Prompts.FocusLines | agent/prompts.py:601-602 | one focus line per selected component |
| Prompts.FocusLinesNumbered | agent/prompts.py:601-602 | the focus lines are numbered from 1 in order |
| Prompts.HintLines | agent/prompts.py:606-608 | two hint lines per selected component |
| Prompts.ScopedLines | agent/prompts.py:600-610 | a scoped plan has four fixed lines plus three per selected component |
| Prompts.FormatFullPlanForComponents | agent/prompts.py:563-610 | the plan formatter builds exactly the specified plan text |
| Prompts.SelectComponents | agent/prompts.py:597-598 | the selection loop keeps exactly the specified components |
| Prompts.NumberFocusLines | agent/prompts.py:600-602 | the header, "Focus Areas:" and the numbered focus lines |
| Prompts.CollectHintLines | agent/prompts.py:605-608 | the search header and the hint lines |
| Prompts.SelectInMembers | agent/prompts.py:598 | a component is selected exactly when it is in the fixed order and named in the list |
| Prompts.SelectInOrdered | agent/prompts.py:597-598 | the selection keeps the fixed order |
| Prompts.SelectInByMembership | agent/prompts.py:598 | lists naming the same components select the same components |
| Prompts.ScopedPlanFocus | agent/prompts.py:596-602 | the focus lines cover exactly the recognised components, in the order ALPHA, RISK, PORTFOLIO, EXECUTION, UNIVERSE, numbered from 1 |
| Prompts.ScopedPlanByMembership | agent/prompts.py:563-610 | input order, duplicates and unknown names do not change a scoped plan |
| Prompts.GetSearchQueries | agent/prompts.py:955-958 | five queries in alpha-only mode, six otherwise |
| Prompts.HintQueries | agent/prompts.py:972-974 | one query per hint, the idea followed by the hint |
| Prompts.GetComponentScopedQueries | agent/prompts.py:961-982 | the query builder returns exactly the specified de-duplicated list |
| Prompts.CollectScopedQueries | agent/prompts.py:971-974 | the component loop collects exactly the scoped queries |
| Prompts.AppendHintQueries | agent/prompts.py:973-974 | the hint loop appends one query per hint |
| Prompts.KeepFirstOccurrences | agent/prompts.py:976-982 | the de-duplication loop keeps each query's first occurrence |
| Prompts.DedupSpec | agent/prompts.py:976-982 | the de-duplicated list has no duplicates and the same members |
| Prompts.DedupAppend | agent/prompts.py:976-982 | de-duplicating a + b starts with de-duplicated a and adds only items not in a |
| Prompts.ScopedQueriesOrder | agent/prompts.py:961-982 | the scoped query list has no duplicates, covers exactly the scoped and base queries, and puts every scoped query before every base one |
| Prompts.ToolLines | agent/prompts.py:857-860 | one line per tool, in order |
| Prompts.FormatAvailableTools | agent/prompts.py:845-862 | no tools gives "None (operating without MCP tools)", otherwise one line per tool joined by newlines |
| Prompts.UnknownToolLine | agent/prompts.py:859-860 | an unknown tool is described as "<tool> tool" |
| Prompts.WebEntries | agent/prompts.py:868-872 | at most `limit` entries, one per leading result, in order |
| Prompts.FormatWebResults | agent/prompts.py:865-873 | the result loop concatenates exactly those entries |
| Prompts.WebEntryContentBound | agent/prompts.py:871-872 | each entry quotes at most 500 characters of the content |
| Prompts.FormatValidationErrors | agent/prompts.py:876-880 | no errors give "", and any errors give the repair header |
| Prompts.TruncatedCriticism | agent/prompts.py:1145-1146 | text of at most 800 characters is kept, longer text is cut to 800 plus "... [truncated]" |
| Prompts.FormatCriticismSummary | agent/prompts.py:1135-1152 | no criticism gives "No critical analysis performed." and only then |
| CriticismStage.FindingNames | agent/nodes/criticism.py:173 | the analysed component list has one entry per component research finding, in order, naming that finding's component |
| CriticismStage.ScopedResearchPlan | agent/nodes/criticism.py:88-107 | the plan sent for criticism is the research plan followed by the scope note naming the components set in the flag |
| CriticismStage.AnalyseReply | agent/nodes/criticism.py:153-174 | the loop-built results record equals the analysed-results specification for the reply |
| CriticismStage.CriticismNode | agent/nodes/criticism.py:68-267 | the node's outcome equals the criticism specification over the state, the client, the configured components and the analyst |
| CriticismStage.AnalysedRestartRule | agent/nodes/criticism.py:176-199 | after a successful analysis the update records the results and score and the restart flag from the restart rule; a restart sets its reason and sends the run to plan, otherwise the run goes on to synthesize; the planning round is untouched |
| CriticismStage.RestartNeedsRoundAndLowScore | agent/nodes/criticism.py:177-191 | a restart is only requested while fewer than three planning rounds have run and the score is below the minimum viability score 51 |
| CriticismStage.AnalysedComponentMode | agent/nodes/criticism.py:120-174 | the score is the viability score of the reply; component mode (and the component analysis method) holds exactly when component research exists, and then the component scores come from the reply and the analysed components name the findings; otherwise both are empty; no error is recorded |
| CriticismStage.FailureHandling | agent/nodes/criticism.py:201-267 | exactly tool errors and runtime, value and type errors are absorbed: a tool error gives the neutral score 50 and the fallback method, an analysis error gives 30 and the error method, each with its prefixed message; either way the run goes on to synthesize with no restart |
| CriticismStage.GeneratedOutcome | agent/nodes/criticism.py:52-65 | every reply leads to a recorded result that is never the error method, because a failed model call is re-raised as a tool error; a failed call gives score 50 with the doubly prefixed message |
| CriticismStage.AnalysisNeverEscapes | agent/nodes/criticism.py:137-241 | with a client, an idea and a components flag the node always succeeds without the error method, and a failing analyst yields the score 50 fallback |
| CriticismStage.CriticismFailure | agent/nodes/criticism.py:68-88 | the node fails exactly when the client cannot be built, the idea is missing, or the state has no components and reading them from the configuration fails |
| CriticismStage.ScopeNoteNames | agent/nodes/criticism.py:106-107 | every component name in the scope note occurs in the scoped plan |
| CriticismStage.ScopedPlanNames | agent/nodes/criticism.py:88-107 | the scoped plan starts with the plan, contains the name of every component set in the flag, and is the plan unchanged when no component is set |
| CriticismStage.RequestScope | agent/nodes/criticism.py:84-147 | the analysis request carries the state's plan (empty when absent) with the scope note, and asks for component mode exactly when component research results are present |
| State.MergeNoChange | agent/state.py:18-69 | merging an update that sets no key leaves the state unchanged |
| State.Over | agent/state.py:18-69 | a later assignment to a key wins over an earlier one, and keeping a key leaves the earlier assignment |
| State.MergeThen | agent/state.py:18-69 | merging two updates one after the other is the same as merging their combination once |
| State.MergeIdempotent | agent/state.py:18-69 | merging the same update twice changes nothing more than merging it once |
| State.DeclaredMerge | agent/state.py:18-69 | the compiled graph's merge never changes the prior-art results, and it agrees with the model's merge on every declared key |
| State.PriorArtNeverRecorded | agent/state.py:18-69 | under the compiled graph's merge, no sequence of updates changes the prior-art results |
| State.PriorArtKept | agent/nodes/prior_art.py:84-98 | under the model's merge, recorded prior-art results stay in place while later updates do not name the key |
| SynthesizeStage.PriorArtDroppedAsWritten | agent/nodes/synthesize.py:35 | as written, a run that starts without prior-art results formats the synthesis request with verdict "unknown", reasoning "No analysis available", 0 found and method "unknown", and stamps `{}` as `misc.prior_art`, even after the prior-art stage returned results |
| SynthesizeStage.PriorArtReachesSynthesis | agent/nodes/synthesize.py:35 | under the model's merge, the verdict, reasoning, count and search method the prior-art stage recorded reach the synthesis request and `misc.prior_art` |
| Components.Pow2 | agent/state.py:10-15 | every flag value is a positive power of two |
| Components.Flag | agent/state.py:10-15 | each component's flag is two to the power of its bit index |
| Components.SmallPowers | agent/state.py:10-15 | the flags are 1, 2, 4, 8 and 16 |
| Components.FromName | cli.py:66-72 | a name maps to the component with exactly that name, and to nothing when no component has it |
| Components.Decode | agent/nodes/plan.py:78-88 | the decoded names hold at most five entries, contain a component's name exactly when its bit is set, and are empty exactly when no bit is set |
| Components.DecodeFlag | agent/nodes/criticism.py:93-103 | the loop that lists the set components gives the decoded names |
| Components.FlagsAreDistinctBits | agent/state.py:10-15 | a component's flag has the bit of another component set exactly when they are the same component |
| Components.PowerBit | agent/state.py:10-15 | a power of two has exactly one bit set |
| Components.AddClearBit | cli.py:74-76 | adding a power of two to a mask where that bit is clear sets that bit and keeps every other bit |
| Components.WithSpec | cli.py:74-76 | or-ing a component into a mask sets that component's bit and changes no other component's bit |
| Components.WithBound | cli.py:74-76 | or-ing components into a mask below 32 keeps it below 32 |
| Components.AllFlags | agent/state.py:10-15 | all five components together make the mask 31 |
| JsonValues.StrList | agent/nodes/synthesize.py:86 | a list of strings becomes a JSON array of the same length holding each string in order |
| Text.Lower | cli.py:34 | lower-casing keeps the length and lower-cases each character |
| Text.Strip | cli.py:34 | stripping never lengthens a string and leaves no whitespace at either end |
| Text.StripContains | cli.py:34 | the stripped string occurs inside the original |
| Text.StripChar | cli.py:87 | stripping a character leaves no copy of it at either end |
| Text.StripCharSlice | cli.py:87 | stripping a character gives a contiguous slice of the original |
| Text.Split | cli.py:34 | splitting on a separator gives at least one piece, and joining the pieces with it gives back the string |
| Text.SplitJoin | scripts/validate_proposal.py:30 | splitting a join of pieces that do not contain the separator character gives back the pieces |
| Text.Find | agent/config.py:526 | the search finds the first occurrence, and finds nothing exactly when the text does not occur |
| Text.Take | cli.py:87 | taking the first n characters gives a prefix of length n, or the whole string when it is shorter |
| ProposalScript.CleanLines | scripts/validate_proposal.py:28-44 | cleaning keeps one output line per input line |
| ProposalScript.CleanLine | scripts/validate_proposal.py:31-43 | the character loop over one line gives the kept text and the in-string flag of the scan specification |
| ProposalScript.StripComments | scripts/validate_proposal.py:27-46 | the line-by-line loop, carrying the in-string flag across lines, gives the stripped text of the specification |
| ProposalScript.LoadSchema | scripts/validate_proposal.py:16-59 | the schema loads exactly when the stripped text decodes, to that value; otherwise a value error with the decoder's message prefixed |
| ProposalScript.FlagStep | scripts/validate_proposal.py:35-36 | the in-string flag toggles exactly at an unescaped double quote |
| ProposalScript.ScanCut | scripts/validate_proposal.py:33-43 | a scan keeps a prefix of the line and stops only at a comment start outside a string; no earlier comment start lies outside a string |
| ProposalScript.CleanedPrefix | scripts/validate_proposal.py:28-44 | every cleaned line is a prefix of its input line with no trailing whitespace |
| ProposalScript.LinePrefix | scripts/validate_proposal.py:44 | one cleaned line is a prefix of the input line with no trailing whitespace |
| ProposalScript.FlagCarriesAcrossLines | scripts/validate_proposal.py:29-30 | the in-string flag carries over a line break, so a comment marker after an unclosed quote is kept |
| ProposalScript.ValidateProposal | scripts/validate_proposal.py:73-106 | the collecting loop returns the error lines of the validation specification |
| ProposalScript.ErrorLinesSpec | scripts/validate_proposal.py:95-101 | there is one error line per schema error, in order, reading At, the dotted path (root when empty), and the message |
| ProposalScript.ValidateOutcome | scripts/validate_proposal.py:77-106 | a bad schema gives only the invalid-schema line; a validator failure gives only the validation-error line; otherwise there is one line per error and none exactly when the proposal has no errors |
| ProposalScript.AnalyzeAlphaOnlyMode | scripts/validate_proposal.py:109-151 | the analysis returns the issues of the alpha-only specification, or the type error it raises |
| ProposalScript.NoIssuesIffWellFormed | scripts/validate_proposal.py:109-151 | there are no issues exactly when the proposal is a well-formed alpha-only proposal |
| ProposalScript.IssueRules | scripts/validate_proposal.py:113-149 | a proposal not in alpha-only mode gets only that issue; failures are type errors; otherwise each issue is reported exactly when its rule is broken (extra fields, alphas not an object, existing alphas, universe not an object), and a count issue reports a count other than one |

## Left out

- LangGraph internals are not modelled: graph compilation, `MemorySaver` checkpointing and async dispatch. A run is an explicit merge-then-route loop, and a step budget stands in for LangGraph's recursion limit.
- `create_logged_node_wrapper` is modelled as pass-through and re-raise. Its log lines, and all logging and console output elsewhere, are left out.
- Known plumbing breaks are not modelled. The model runs each stage and the command as if these calls worked. All but the `structured_completion` break end every run before the logic they guard runs. That one is caught and turns every repair into "no repair" (see `ValidationTool.RepairProposal` below). The breaks are:
  - cli.py:97 and cli.py:101 call `Config.from_file` and `Config.from_dotenv`, which `Config` does not define, and cli.py:104-146 reads settings `Config` does not have (`idea`, `instruments`, `slug`, `components`, `alpha_only`, `unified_synthesis`, `output_dir` and others);
  - the wrapper calls one-argument node lambdas with two arguments and does not await coroutines;
  - the nodes build `MCPClient` with one argument more than its constructor takes;
  - `web_search` is called with a `use_tavily` keyword;
  - `structured_completion` is called without its `response_model` argument (agent/tools/validation_mcp_tool.py:162 against agent/llm_client.py:167-173);
  - the graph hands each node `config.for_node(name)` (agent/graph.py:55-91), which has no LLM providers (`Configuration.Config.ForNode`), so the `LLMClient` or `MCPClient` every node builds with its name raises the provider `ValueError` from `get_node_config` (agent/llm_client.py:55, agent/tools/mcp_client.py:26);
  - agent/nodes/prior_art.py:31 calls `ResearchPrompts.get_prior_art_queries`, which the prompt code does not define, outside any `try`, so the prior-art stage raises `AttributeError` on every call;
  - the synthesis prompts are formatted without keys their templates use (agent/nodes/synthesize.py:61-70 against agent/prompts.py:706-760), outside the `try`, so the stage as written raises `KeyError` on every call.
- SynthesizeStage.SynthesizeNode: the stage is modelled as if the synthesis prompts were formatted with the keys their templates use; the unconditional `KeyError('instruments')` that agent/nodes/synthesize.py:61-70 raises against agent/prompts.py:706-760 is not modelled.
- SynthesizeStage.SynthesizeFailure: the stage raises exactly when the client, the schema or the idea fails, which leaves out the `KeyError` above.
- CommandLine.InitialStateSpec: the settings are the values the command writes into the state's declared keys. The `branch_name`, `image_name`, `github_owner` and `github_repository` it also passes are not declared state keys, so the graph drops them; the logging setup and the `unified_synthesis` environment switch are side effects left out. As written, `propose_command` fails with `AttributeError` before these checks, because the configuration loaders and settings it uses do not exist (cli.py:97-146).
- CommandLine.ProposeRun: for the same reason, the command as written never starts the run this lemma describes.
- ValidationTool.RepairProposal: as written, the `structured_completion` call raises `TypeError` because `response_model` is missing. The handler at agent/tools/validation_mcp_tool.py:175 catches it, so every repair whose schema loads returns `None`. The model passes the request to the repair oracle as if the call worked.
- ValidationTool.RepairOutcome: for the same reason, the object reply and the escaping error it describes never occur as written. The only outcome as written is the caught `TypeError`, which gives `None`.
- State.Merge: the model's merge keeps `prior_art_results`, a key agent/state.py:18-69 does not declare and the compiled graph drops. As written, synthesis reads `{}` for it (agent/nodes/synthesize.py:35), and the saved `_state.json` lacks it. `State.DeclaredMerge` models the graph's merge (see "Findings").
- Workflow.Execute: the run's states keep the prior-art results after the prior-art stage, as `State.Merge` does, where the compiled graph drops them.
- Workflow.RunGraph: the run it equals carries the prior-art results into synthesis and persist, which the compiled graph does not.
- Workflow.Drive: the loop's merged states keep the prior-art results, which the compiled graph discards.
- Language model calls are oracle parameters of the model: `_create_provider_client`, the provider SDKs and `ainvoke`. The criticism text, the generated proposal and the repair output come from these oracles.
- The simulated MCP tool back ends are an oracle from request to reply or exception.
- The following are not part of this model: `agent/tools/github_api.py`, `agent/tools/tavily_tool.py`, the GitHub issue stage, `setup.py`, `main.py` and `agent/cli.py`.
- File access is not modelled as such:
  - the proposal and state writes go to a `Disk` object whose failures are a parameter;
  - schema file reads, `load_proposal` and a missing file (`FileNotFoundError`) are left out.
- Loading the configuration from the environment and from files is left out: `from_env`, `_load_llm_providers`, `_load_global_mcp_clients`, `_override_mcp_clients_from_env`, `_load_node_configs`, `setup_logging` and `get_logger`. `_load_node_mcp_tools` is modelled, with the environment as a map.
- The simple configuration accessors are left out, because they only read a table the model already exposes: `get_node_mcp_tools`, `get_provider_config`, `get_available_providers`, `get_node_mcp_clients`, `get_global_mcp_clients` and `get_all_node_names`.
- Provider introspection is left out: the LLM and MCP clients' `get_provider_info`, `LLMClient.get_available_providers` and `create_openai_client`.
- `config.get_components_from_config` (called by planning and criticism) and `config.get_components_from_env` (called by web research) are not defined in the configuration code. What each yields (a mask or an exception) is a separate parameter of the run.
- The prior-art helpers `should_restart_for_prior_art`, `get_prior_art_queries` and `get_prior_art_reasoning` are not defined in the prompt code. They are uninterpreted functions bundled as an advisor. As written, the first of them the stage calls, `get_prior_art_queries` (agent/nodes/prior_art.py:31), is outside any `try`, so the stage raises `AttributeError` on every call (see the plumbing breaks).
- Prompt template texts are opaque strings. `format_criticism_context`, `format_component_research_context`, `get_task_context` and `get_validation_context` only fill templates, so the requests carry their inputs instead of the formatted text.
- Two groups of regular expressions are oracles: the four alternative structure patterns in `_parse_multiple_approaches` and the three fallback score patterns in `extract_viability_score`. The "Approach N:" marker, the first score pattern and the component score pattern are modelled character by character.
- jsonschema is an oracle returning an ordered error list, and `json.loads` is an oracle from text to a document or the decoder's error message.
- Floats are modelled as naturals. Scores are parsed from digits, and the fallback scores 50 and 30 are integral. A score appears in messages as its float text `<n>.0`, which is Python's text for scores below 10^16 (larger ones print in exponent form, which is not modelled). Temperatures and token limits are only passed through.
- String handling is ASCII only: `str.lower`, `str.strip`, `isalnum` and digits. Whitespace is the ASCII part of `str.isspace` (space, \t, \n, \x0b, \x0c, \r and \x1c to \x1f). Unicode case folding and non-ASCII whitespace are left out.
- Configuration.Config.ForNode: the Python result shares the `node_configs` dict with the original, so later changes through either are seen by both; the model copies the map value, so this aliasing is not captured.
- Prompts.ExtractComponentScores: the score table is a map, which has no order; the insertion order of the `component_scores` dict that the criticism stage stores (agent/nodes/criticism.py:167) and persist writes is not modelled.
- Mcp.WebSearch: a `results` value that is not a list is returned unchanged by `web_search` (agent/tools/mcp_client.py:157-158), where the model gives the empty list; the simulated back ends always reply with a list.
- A state key that holds `None` is modelled as absent. The `None`s the stages write (`restart_reason`, `validation_errors`, the two persist paths, `error`) are only read by truthiness tests or formatting that treat them like the default. An explicit `None` supplied by a caller would differ wherever `.get(key, default)` returns it instead of the default. With `slug=None`, persist writes `proposals/None.json` (agent/nodes/persist.py:34), where the model uses `research_proposal`. With `planning_iteration=None`, planning raises `TypeError` (agent/nodes/plan.py:45), where the model numbers the round 1. With `repair_attempts=None`, the validation stage and its router raise `TypeError` (agent/nodes/validate.py:78, agent/graph.py:132). List- and number-valued keys behave the same way. The command line's initial state sets none of these keys to `None`. It does set `components` to `None` when no components are configured (cli.py:126-134); every reader of that key falls back with `state.get("components") or …` (agent/nodes/plan.py:74, agent/nodes/criticism.py:88, agent/nodes/web_research.py:34), which treats `None` like an absent key.
- In `scripts/validate_proposal.py`, `main()` is left out: argument handling, printing and exit codes. So is the schema preview printed on a JSON error.
- CommandLine.Repr: Python's `repr` of the invalid items is exact only for items holding no quote and no backslash; `repr`'s escaping and its switch to double quotes are not modelled.
- Python's built-in `TypeError` and `AttributeError` messages follow the wording of Python 3.12, which names the offending type.
- The extra-fields issue of `analyze_alpha_only_mode` lists the fields in the order a Python set yields them. That order is a parameter.
- `propose_command` is modelled only as far as its required-setting checks, the initial state and the graph run. Its printing and exit codes are left out.
- Llm.LlmClient.ChatCompletion: the contract says a successful reply answers some message list of the right length, not that this list is exactly the converted messages. It says nothing about the error path.
- Llm.LlmClient.JsonCompletion: the contract says a successful result decodes some unfenced reply, not which reply. It says nothing about the error path.

## Findings

| source | as written | input that shows it | evidently intended | confidence | as-written member | corrected member |
|---|---|---|---|---|---|---|
| agent/state.py:18-69 | `ResearchState` does not declare `prior_art_results`. The compiled `StateGraph` drops the key from the prior-art stage's update (agent/nodes/prior_art.py:87-98), so synthesis reads `{}` (agent/nodes/synthesize.py:35). | any run whose prior-art stage returns results, e.g. verdict "novel" with 3 found: synthesis gets verdict "unknown", reasoning "No analysis available", 0 found | synthesis and `misc.prior_art` carry the results the prior-art stage recorded | medium, not executed; it depends on LangGraph dropping undeclared keys | SynthesizeStage.PriorArtDroppedAsWritten | SynthesizeStage.PriorArtReachesSynthesis |
