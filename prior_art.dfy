/**
 * The prior-art stage (`prior_art_node`): it searches GitHub for the first
 * few prior-art queries, counts what was found and lets the prior-art rule
 * decide whether planning starts over.
 *
 * The three prompt helpers the stage calls are uninterpreted: `Advisor`
 * carries them as functions.
 */
module PriorArtStage {
  import opened Wrappers
  import opened State
  import opened Mcp

  /**
   * `get_prior_art_queries(idea)`, `get_prior_art_reasoning(count)` (the
   * verdict and its reasoning) and `should_restart_for_prior_art(results)`.
   */
  datatype Advisor = Advisor(
    queries: string -> seq<string>,
    reasoning: nat -> (string, string),
    restart: PriorArtResults -> (bool, string))

  /** The most queries searched, and the hits asked for per search. */
  const MaxSearches: nat := 3
  const HitsPerSearch := 5

  /** `queries[:3]`. */
  function FirstQueries(queries: seq<string>): (r: seq<string>)
    ensures |r| <= MaxSearches && |r| <= |queries| && r == queries[..|r|]
    ensures |queries| >= MaxSearches ==> |r| == MaxSearches
  {
    if |queries| <= MaxSearches then queries else queries[..MaxSearches]
  }

  /** The queries actually searched: none without the `github` tool. */
  function SearchedQueries(c: Client, queries: seq<string>): seq<string>
  {
    if HasTool(c, "github") then FirstQueries(queries) else []
  }

  /** The hits one search contributes: a failed search contributes none. */
  function SearchHits(c: Client, query: string, backend: Backend): seq<GithubHit>
  {
    match GithubResults(c, query, HitsPerSearch, backend)
    case Ok(hits) => hits
    case Err(_) => []
  }

  /** Each query's hits. */
  function SearchesBy(c: Client, backend: Backend): string -> seq<GithubHit>
  {
    q => SearchHits(c, q, backend)
  }

  /** The hits of a sequence of searches, accumulated in order. */
  function Gathered(hits: string -> seq<GithubHit>, queries: seq<string>): seq<GithubHit>
  {
    if queries == [] then [] else Gathered(hits, queries[..|queries| - 1]) + hits(queries[|queries| - 1])
  }

  function Accumulated(c: Client, queries: seq<string>, backend: Backend): seq<GithubHit>
  {
    Gathered(SearchesBy(c, backend), queries)
  }

  /** `all_github_results` after the search loop. */
  function Found(c: Client, queries: seq<string>, backend: Backend): seq<GithubHit>
  {
    Accumulated(c, SearchedQueries(c, queries), backend)
  }

  /** The update after the prior-art rule: back to planning, or on to criticism. */
  function Decide(results: PriorArtResults, restart: bool, reason: string): (u: Update)
  {
    if restart then
      NoChange.(priorArtResults := Put(results), shouldRestartPlanning := Put(true),
                restartReason := Put(reason), currentStep := Put("plan"))
    else
      NoChange.(priorArtResults := Put(results), shouldRestartPlanning := Put(false),
                currentStep := Put("criticism"))
  }

  /** The results record for the searched hits. */
  function ResultsOf(queries: seq<string>, hits: seq<GithubHit>, advisor: Advisor, tools: seq<string>): PriorArtResults
  {
    var (verdict, reasoning) := advisor.reasoning(|hits|);
    PriorArtResults(queries, hits, verdict, reasoning, |hits|, "mcp_github", tools)
  }

  /** What `prior_art_node` returns, or the exception it raises. */
  function PriorArtSpec(s: ResearchState, client: Result<Client, Exn>, advisor: Advisor, backend: Backend): Result<Update, Exn>
  {
    if client.Err? then Err(client.error)
    else if s.idea.None? then Err(Exn(KeyError, "'idea'"))
    else
      var queries := advisor.queries(s.idea.value);
      var results := ResultsOf(queries, Found(client.value, queries, backend), advisor,
                               GetAvailableToolNames(client.value));
      var (restart, reason) := advisor.restart(results);
      Ok(Decide(results, restart, reason))
  }

  // ---------------------------------------------------------------------
  // The node
  // ---------------------------------------------------------------------

  /** The search loop: each of the first three queries is searched, a failure is skipped. */
  method SearchPriorArt(c: Client, queries: seq<string>, backend: Backend) returns (hits: seq<GithubHit>)
    ensures hits == Found(c, queries, backend)
  {
    hits := [];
    if !HasTool(c, "github") {
      return;
    }
    var searched := FirstQueries(queries);
    for i := 0 to |searched|
      invariant hits == Accumulated(c, searched[..i], backend)
    {
      assert searched[..i + 1] == searched[..i] + [searched[i]];
      AccumulatedLast(c, searched[..i], searched[i], backend);
      var found := GithubSearch(c, searched[i], HitsPerSearch, backend);
      if found.Ok? {
        hits := hits + found.value;
      }
    }
    assert searched[..|searched|] == searched;
  }

  /** `prior_art_node(state, config)`. */
  method PriorArtNode(s: ResearchState, client: Result<Client, Exn>, advisor: Advisor, backend: Backend)
    returns (r: Result<Update, Exn>)
    ensures r == PriorArtSpec(s, client, advisor, backend)
  {
    if client.Err? {
      return Err(client.error);
    }
    var tools := GetAvailableToolNames(client.value);
    if s.idea.None? {
      return Err(Exn(KeyError, "'idea'"));
    }
    var queries := advisor.queries(s.idea.value);
    var hits := SearchPriorArt(client.value, queries, backend);
    var results := ResultsOf(queries, hits, advisor, tools);
    var (restart, reason) := advisor.restart(results);
    r := Ok(Decide(results, restart, reason));
  }

  // ---------------------------------------------------------------------
  // Properties
  // ---------------------------------------------------------------------

  /** At most three searches run, over the first queries in order, and only with the `github` tool. */
  lemma SearchBound(c: Client, queries: seq<string>)
    ensures |SearchedQueries(c, queries)| <= MaxSearches
    ensures SearchedQueries(c, queries) == queries[..|SearchedQueries(c, queries)|]
    ensures !HasTool(c, "github") ==> SearchedQueries(c, queries) == []
    ensures HasTool(c, "github") && |queries| >= MaxSearches ==> |SearchedQueries(c, queries)| == MaxSearches
  {
  }

  /** Gathering hits over two runs of searches gathers the first run's hits, then the second's. */
  lemma {:induction false} GatheredAppend(hits: string -> seq<GithubHit>, xs: seq<string>, ys: seq<string>)
    ensures Gathered(hits, xs + ys) == Gathered(hits, xs) + Gathered(hits, ys)
    decreases |ys|
  {
    if ys == [] {
      assert xs + ys == xs;
    } else {
      var front := ys[..|ys| - 1];
      var zs := xs + ys;
      assert zs[..|zs| - 1] == xs + front && zs[|zs| - 1] == ys[|ys| - 1];
      GatheredAppend(hits, xs, front);
    }
  }

  /** One more search adds its hits at the end. */
  lemma AccumulatedLast(c: Client, queries: seq<string>, query: string, backend: Backend)
    ensures Accumulated(c, queries + [query], backend) == Accumulated(c, queries, backend) + SearchHits(c, query, backend)
  {
    var qs := queries + [query];
    assert qs[..|qs| - 1] == queries && qs[|qs| - 1] == query;
    assert SearchesBy(c, backend)(query) == SearchHits(c, query, backend);
  }

  /**
   * Searches accumulate in order: the hits of two runs of searches are the
   * hits of the first followed by those of the second.
   */
  lemma AccumulatedAppend(c: Client, xs: seq<string>, ys: seq<string>, backend: Backend)
    ensures Accumulated(c, xs + ys, backend) == Accumulated(c, xs, backend) + Accumulated(c, ys, backend)
  {
    GatheredAppend(SearchesBy(c, backend), xs, ys);
  }

  /** A failed search adds nothing; a successful one adds exactly its hits. */
  lemma OneSearch(c: Client, query: string, backend: Backend)
    ensures GithubResults(c, query, HitsPerSearch, backend).Err? ==> Accumulated(c, [query], backend) == []
    ensures GithubResults(c, query, HitsPerSearch, backend).Ok? ==>
      Accumulated(c, [query], backend) == GithubResults(c, query, HitsPerSearch, backend).value
  {
    assert [query][..0] == [];
    assert Accumulated(c, [query], backend) == Gathered(SearchesBy(c, backend), []) + SearchesBy(c, backend)(query);
  }

  /**
   * A failed search is skipped and the others still count: the hits are
   * those of the searches before it followed by those after it.
   */
  lemma FailedSearchSkipped(c: Client, queries: seq<string>, i: nat, backend: Backend)
    requires i < |queries| && GithubResults(c, queries[i], HitsPerSearch, backend).Err?
    ensures Accumulated(c, queries, backend) == Accumulated(c, queries[..i], backend) + Accumulated(c, queries[i + 1..], backend)
  {
    var before, after := queries[..i], queries[i + 1..];
    assert queries == before + ([queries[i]] + after);
    AccumulatedAppend(c, before, [queries[i]] + after, backend);
    AccumulatedAppend(c, [queries[i]], after, backend);
    OneSearch(c, queries[i], backend);
    assert [] + Accumulated(c, after, backend) == Accumulated(c, after, backend);
  }

  /**
   * The stage's results: the queries are the advisor's, `total_found` is the
   * number of accumulated hits, the method is "mcp_github"; a restart
   * verdict returns to planning with its reason, otherwise the run goes on
   * to criticism.  It never touches the planning round.
   */
  lemma PriorArtOutcome(s: ResearchState, client: Result<Client, Exn>, advisor: Advisor, backend: Backend)
    ensures PriorArtSpec(s, client, advisor, backend).Err? <==> client.Err? || s.idea.None?
    ensures PriorArtSpec(s, client, advisor, backend).Ok? ==>
      var u := PriorArtSpec(s, client, advisor, backend).value;
      var queries := advisor.queries(s.idea.value);
      && u.priorArtResults.Put?
      && var res := u.priorArtResults.value;
      && res.queries == queries
      && res.githubResults == Found(client.value, queries, backend)
      && res.totalFound == |res.githubResults|
      && res.searchMethod == "mcp_github"
      && res.mcpToolsUsed == GetAvailableToolNames(client.value)
      && (advisor.restart(res).0 ==>
            u.shouldRestartPlanning == Put(true) && u.restartReason == Put(advisor.restart(res).1)
            && u.currentStep == Put("plan"))
      && (!advisor.restart(res).0 ==>
            u.shouldRestartPlanning == Put(false) && u.restartReason == Keep && u.currentStep == Put("criticism"))
      && u.planningIteration == Keep
  {
  }

  /** Without the `github` tool nothing is found. */
  lemma NoGithubNothingFound(c: Client, queries: seq<string>, backend: Backend)
    requires !HasTool(c, "github")
    ensures Found(c, queries, backend) == []
  {
  }
}
