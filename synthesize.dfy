/**
 * The synthesis stage (`synthesize_node`): it asks the model for a
 * structured proposal built from the research so far, stamps the
 * proposal's `misc` block with research metadata and hands it to
 * validation.  Any failure inside the generation step is recorded as an
 * error and validation still follows.
 *
 * The model is an oracle from the request to the decoded JSON reply or the
 * exception its call raised.
 */
module SynthesizeStage {
  import opened Wrappers
  import opened JsonValues
  import opened State
  import opened Prompts
  import opened Mcp
  import Text

  /**
   * What the generation request carries: the pieces the system and user
   * prompts are formatted from (the surrounding template wording is fixed
   * text) and the schema.
   */
  datatype Request = Request(
    alphaNote: string,
    repairContext: string,
    toolsText: string,
    idea: string,
    researchPlan: string,
    webResultsText: string,
    verdict: string,
    reasoning: string,
    totalFound: nat,
    searchMethod: string,
    // Passed to `RESEARCH_CONTEXT_TEMPLATE.format`, which has no
    // `{criticism_summary}` placeholder, so the summary never reaches the model.
    criticismSummary: string,
    alphaOnly: bool,
    schema: Json)

  type Generator = Request -> Result<Json, Exn>

  /** The most web results the request quotes. */
  const WebResultLimit := 5

  const NoProviderMessage := "No LLM provider available for proposal generation"

  /** The `TypeError` that `x[key] = v` with a string key raises when `x` is not a dict. */
  function SetItemError(x: Json): Exn
  {
    if x.JArr? then Exn(TypeError, "list indices must be integers or slices, not str")
    else Exn(TypeError, "'" + TypeName(x) + "' object does not support item assignment")
  }

  /**
   * The `TypeError` a reply that is not a dict raises: `"misc" in x` fails
   * on values that are not containers; otherwise `x["misc"]` is assigned
   * when "misc" is not in `x`, and read when it is (a string then complains
   * about its indices, in the wording of Python 3.11 and later).
   */
  function ReplyError(x: Json): Exn
  {
    match x
    case JArr(_) => SetItemError(x)
    case JStr(t) =>
      if Text.Contains(t, "misc") then Exn(TypeError, "string indices must be integers, not 'str'")
      else SetItemError(x)
    case _ => Exn(TypeError, "argument of type '" + TypeName(x) + "' is not iterable")
  }

  /** The request, built from the state, the node's tool list and the schema. */
  function RequestOf(s: ResearchState, idea: string, tools: seq<string>, schema: Json): Request
  {
    var alphaOnly := TruthyFlag(s.alphaOnly);
    var p := s.priorArtResults;
    Request(
      AlphaNote(alphaOnly),
      FormatValidationErrors(s.validationErrors.GetOr([])),
      AvailableToolsText(tools),
      idea,
      s.researchPlan.GetOr(""),
      Concat(WebEntries(s.webSearchResults.GetOr([]), WebResultLimit)),
      if p.Some? then p.value.verdict else "unknown",
      if p.Some? then p.value.reasoning else "No analysis available",
      if p.Some? then p.value.totalFound else 0,
      if p.Some? then p.value.searchMethod else "unknown",
      FormatCriticismSummary(s.criticismResults),
      alphaOnly,
      schema)
  }

  /** `generate_proposal`: no LLM provider, or any failure of the call, becomes an `MCPToolError`. */
  function GenerateProposal(c: Client, request: Request, generate: Generator): (r: Result<Json, Exn>)
    ensures r.Err? ==> r.error.kind == McpToolError
  {
    if !c.available.webSearch then Err(Exn(McpToolError, NoProviderMessage))
    else
      match generate(request)
      case Ok(j) => Ok(j)
      case Err(e) => Err(Exn(McpToolError, "Proposal generation failed: " + e.msg))
  }

  // ---------------------------------------------------------------------
  // The research metadata
  // ---------------------------------------------------------------------

  function OptJson(o: Option<Json>): Json
  {
    if o.Some? then o.value else JNull
  }

  /** One GitHub hit as the dict `github_search` builds. */
  function HitJson(h: GithubHit): Json
  {
    JObj(map[
      "name" := OptJson(h.name), "path" := OptJson(h.path), "repository" := OptJson(h.repository),
      "html_url" := OptJson(h.htmlUrl), "score" := OptJson(h.score), "language" := OptJson(h.language)])
  }

  /** `state.get("prior_art_results", {})` as the dict the stage stores. */
  function PriorArtJson(p: Option<PriorArtResults>): Json
  {
    match p
    case None => JObj(map[])
    case Some(r) =>
      JObj(map[
        "queries" := StrList(r.queries),
        "github_results" := JArr(seq(|r.githubResults|, i requires 0 <= i < |r.githubResults| => HitJson(r.githubResults[i]))),
        "verdict" := JStr(r.verdict),
        "reasoning" := JStr(r.reasoning),
        "total_found" := JNum(r.totalFound),
        "search_method" := JStr(r.searchMethod),
        "mcp_tools_used" := StrList(r.mcpToolsUsed)])
  }

  /**
   * As written, synthesis never sees prior-art results: the graph drops the
   * key the prior-art stage returns, so a state that starts without it (as
   * the command's initial state does) formats the request with the
   * placeholders, and `misc.prior_art` is `{}`, whatever the stage found.
   */
  lemma PriorArtDroppedAsWritten(s: ResearchState, u: Update, us: seq<Update>, idea: string, tools: seq<string>,
                                 schema: Json)
    requires s.priorArtResults.None? && u.priorArtResults.Put?
    ensures var r := RequestOf(DeclaredMergeAll(s, [u] + us), idea, tools, schema);
      && r.verdict == "unknown" && r.reasoning == "No analysis available"
      && r.totalFound == 0 && r.searchMethod == "unknown"
    ensures PriorArtJson(DeclaredMergeAll(s, [u] + us).priorArtResults) == JObj(map[])
  {
    PriorArtNeverRecorded(s, [u] + us);
  }

  /**
   * With the key kept, the results the prior-art stage records reach the
   * synthesis request and `misc.prior_art`, as long as no later update
   * names the key (no other stage does).
   */
  lemma PriorArtReachesSynthesis(s: ResearchState, u: Update, us: seq<Update>, idea: string, tools: seq<string>,
                                 schema: Json)
    requires u.priorArtResults.Put?
    requires forall i :: 0 <= i < |us| ==> us[i].priorArtResults.Keep?
    ensures var p := u.priorArtResults.value;
      var r := RequestOf(MergeAll(s, [u] + us), idea, tools, schema);
      && r.verdict == p.verdict && r.reasoning == p.reasoning
      && r.totalFound == p.totalFound && r.searchMethod == p.searchMethod
    ensures PriorArtJson(MergeAll(s, [u] + us).priorArtResults) == PriorArtJson(Some(u.priorArtResults.value))
  {
    assert ([u] + us)[1..] == us;
    PriorArtKept(Merge(s, u), us);
  }

  /** The five metadata entries the stage writes into `misc`. */
  datatype Metadata = Metadata(priorArt: Json, researchSources: nat, tools: seq<string>)

  const MetadataKeys: set<string> := {"prior_art", "research_sources", "generated_by", "tool_protocol", "mcp_tools_available"}

  /** `misc` after the five assignments. */
  function Stamped(misc: map<string, Json>, m: Metadata): map<string, Json>
  {
    misc["prior_art" := m.priorArt]["research_sources" := JNum(m.researchSources)]
        ["generated_by" := JStr("lean-research-agent-mcp")]["tool_protocol" := JStr("mcp")]
        ["mcp_tools_available" := StrList(m.tools)]
  }

  /** The proposal with its metadata, or the `TypeError` a non-dict reply or `misc` value raises. */
  function WithMetadata(proposal: Json, m: Metadata): Result<Json, Exn>
  {
    if !proposal.JObj? then Err(ReplyError(proposal))
    else
      var misc := if "misc" in proposal.fields then proposal.fields["misc"] else JObj(map[]);
      if !misc.JObj? then Err(SetItemError(misc))
      else Ok(JObj(proposal.fields["misc" := JObj(Stamped(misc.fields, m))]))
  }

  /** The stamping step: `misc` is created when absent, then its five entries are assigned one by one. */
  method AddMetadata(proposal: Json, m: Metadata) returns (r: Result<Json, Exn>)
    ensures r == WithMetadata(proposal, m)
  {
    if !proposal.JObj? {
      return Err(ReplyError(proposal));
    }
    var fields := proposal.fields;
    if "misc" !in fields {
      fields := fields["misc" := JObj(map[])];
    }
    var misc := fields["misc"];
    assert misc == if "misc" in proposal.fields then proposal.fields["misc"] else JObj(map[]);
    if !misc.JObj? {
      return Err(SetItemError(misc));
    }
    var entries := misc.fields;
    entries := entries["prior_art" := m.priorArt];
    entries := entries["research_sources" := JNum(m.researchSources)];
    entries := entries["generated_by" := JStr("lean-research-agent-mcp")];
    entries := entries["tool_protocol" := JStr("mcp")];
    entries := entries["mcp_tools_available" := StrList(m.tools)];
    assert entries == Stamped(misc.fields, m);
    fields := fields["misc" := JObj(entries)];
    assert fields == proposal.fields["misc" := JObj(Stamped(misc.fields, m))];
    r := Ok(JObj(fields));
  }

  /** The update after the generation step: the stamped proposal, or the recorded error; validation follows either way. */
  function Outcome(generated: Result<Json, Exn>, m: Metadata): (u: Update)
  {
    match generated
    case Err(e) =>
      NoChange.(error := Put("MCP synthesis failed: " + e.msg), currentStep := Put("validate"))
    case Ok(j) =>
      match WithMetadata(j, m)
      case Ok(p) => NoChange.(rawProposal := Put(p), currentStep := Put("validate"))
      case Err(e) => NoChange.(error := Put("Synthesis failed: " + e.msg), currentStep := Put("validate"))
  }

  /**
   * What `synthesize_node` returns, or the exception it raises.  `schema`
   * is the outcome of `config.get_schema()`, which is loaded before the
   * guarded block.
   */
  function SynthesizeSpec(s: ResearchState, client: Result<Client, Exn>, schema: Result<Json, Exn>,
                          generate: Generator): Result<Update, Exn>
  {
    if client.Err? then Err(client.error)
    else if schema.Err? then Err(schema.error)
    else if s.idea.None? then Err(Exn(KeyError, "'idea'"))
    else
      var tools := GetAvailableToolNames(client.value);
      var request := RequestOf(s, s.idea.value, tools, schema.value);
      var m := Metadata(PriorArtJson(s.priorArtResults), |s.webSearchResults.GetOr([])|, tools);
      Ok(Outcome(GenerateProposal(client.value, request, generate), m))
  }

  /** `synthesize_node(state, config)`. */
  method SynthesizeNode(s: ResearchState, client: Result<Client, Exn>, schema: Result<Json, Exn>, generate: Generator)
    returns (r: Result<Update, Exn>)
    ensures r == SynthesizeSpec(s, client, schema, generate)
  {
    if client.Err? {
      return Err(client.error);
    }
    var tools := GetAvailableToolNames(client.value);
    if schema.Err? {
      return Err(schema.error);
    }
    if s.idea.None? {
      return Err(Exn(KeyError, "'idea'"));
    }
    var webResults := s.webSearchResults.GetOr([]);
    var webText := FormatWebResults(webResults, WebResultLimit);
    var toolsText := FormatAvailableTools(tools);
    var request := RequestOf(s, s.idea.value, tools, schema.value).(webResultsText := webText, toolsText := toolsText);
    assert request == RequestOf(s, s.idea.value, tools, schema.value);
    var generated := GenerateProposal(client.value, request, generate);
    var m := Metadata(PriorArtJson(s.priorArtResults), |webResults|, tools);
    if generated.Err? {
      return Ok(NoChange.(error := Put("MCP synthesis failed: " + generated.error.msg), currentStep := Put("validate")));
    }
    var stamped := AddMetadata(generated.value, m);
    if stamped.Ok? {
      r := Ok(NoChange.(rawProposal := Put(stamped.value), currentStep := Put("validate")));
    } else {
      r := Ok(NoChange.(error := Put("Synthesis failed: " + stamped.error.msg), currentStep := Put("validate")));
    }
  }

  // ---------------------------------------------------------------------
  // Properties
  // ---------------------------------------------------------------------

  /**
   * Stamping a dict whose `misc` is absent or a dict succeeds: `misc` then
   * holds the five metadata entries and every entry it held before under
   * other keys, and every other top-level key keeps its value.
   */
  lemma MetadataSpec(proposal: Json, m: Metadata)
    requires proposal.JObj?
    requires "misc" in proposal.fields ==> proposal.fields["misc"].JObj?
    ensures var r := WithMetadata(proposal, m);
      && r.Ok? && r.value.JObj?
      && r.value.fields.Keys == proposal.fields.Keys + {"misc"}
      && (forall k :: k in proposal.fields && k != "misc" ==> r.value.fields[k] == proposal.fields[k])
      && r.value.fields["misc"].JObj?
      && var misc := r.value.fields["misc"].fields;
      && misc["prior_art"] == m.priorArt
      && misc["research_sources"] == JNum(m.researchSources)
      && misc["generated_by"] == JStr("lean-research-agent-mcp")
      && misc["tool_protocol"] == JStr("mcp")
      && misc["mcp_tools_available"] == StrList(m.tools)
      && (forall k :: k in misc && k !in MetadataKeys ==> "misc" in proposal.fields && k in proposal.fields["misc"].fields)
      && ("misc" in proposal.fields ==>
            forall k :: k in proposal.fields["misc"].fields && k !in MetadataKeys ==> misc[k] == proposal.fields["misc"].fields[k])
  {
  }

  /** A reply that is not a dict, or whose `misc` is not a dict, cannot be stamped. */
  lemma MetadataFails(proposal: Json, m: Metadata)
    ensures WithMetadata(proposal, m).Err? <==>
      !proposal.JObj? || ("misc" in proposal.fields && !proposal.fields["misc"].JObj?)
    ensures WithMetadata(proposal, m).Err? ==> WithMetadata(proposal, m).error.kind == TypeError
  {
  }

  /**
   * Once the request is sent the stage always goes on to validation.  A
   * success sets exactly the raw proposal and the step; a failure sets
   * exactly the error and the step, so an earlier raw proposal survives the
   * merge.  A missing LLM provider is reported with its own message.
   */
  lemma SynthesisOutcome(generated: Result<Json, Exn>, m: Metadata, s: ResearchState)
    ensures var u := Outcome(generated, m);
      && u.currentStep == Put("validate")
      && (u.rawProposal.Put? ==> u == NoChange.(rawProposal := u.rawProposal, currentStep := Put("validate")))
      && (u.rawProposal.Keep? ==> u == NoChange.(error := u.error, currentStep := Put("validate")) && u.error.Put?)
      && (u.rawProposal.Keep? ==> Merge(s, u).rawProposal == s.rawProposal)
      && (generated.Ok? && WithMetadata(generated.value, m).Ok? <==> u.rawProposal.Put?)
  {
  }

  /** Whatever the model returns, the stage leaves the counters and the validation errors alone. */
  lemma OutcomeCounters(generated: Result<Json, Exn>, m: Metadata)
    ensures var u := Outcome(generated, m);
      u.planningIteration == Keep && u.repairAttempts == Keep && u.validationErrors == Keep && u.currentStep == Put("validate")
  {
  }

  /** Without an LLM provider the stage records the provider error and never calls the model. */
  lemma NoProvider(c: Client, request: Request, generate: Generator, m: Metadata)
    requires !c.available.webSearch
    ensures Outcome(GenerateProposal(c, request, generate), m)
      == NoChange.(error := Put("MCP synthesis failed: " + NoProviderMessage), currentStep := Put("validate"))
  {
  }

  /**
   * Earlier validation errors reach the prompt only through the repair
   * context, which is empty exactly when there are none; the model is
   * asked for at most five web results, and the research counts all of them.
   */
  lemma RequestContents(s: ResearchState, idea: string, tools: seq<string>, schema: Json)
    ensures var request := RequestOf(s, idea, tools, schema);
      && request.repairContext == FormatValidationErrors(s.validationErrors.GetOr([]))
      && (request.repairContext == "" <==> !TruthyList(s.validationErrors))
      && request.webResultsText == Concat(WebEntries(s.webSearchResults.GetOr([]), WebResultLimit))
      && |WebEntries(s.webSearchResults.GetOr([]), WebResultLimit)| <= WebResultLimit
      && (request.alphaNote == "" <==> !TruthyFlag(s.alphaOnly))
  {
  }

  /** The stage raises exactly when its client cannot be built, the schema cannot be loaded or the idea is missing. */
  lemma SynthesizeFailure(s: ResearchState, client: Result<Client, Exn>, schema: Result<Json, Exn>, generate: Generator)
    ensures SynthesizeSpec(s, client, schema, generate).Err? <==> client.Err? || schema.Err? || s.idea.None?
  {
  }
}
