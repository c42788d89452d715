/**
 * `MCPClient`: which tools a client may use and how tool calls fail.  The
 * simulated tool back ends are an oracle from the request parameters to a
 * reply or an exception.
 */
module Mcp {
  import opened Wrappers
  import opened Text
  import opened JsonValues
  import opened State
  import opened Configuration

  /** `_check_available_tools()`. */
  datatype Availability = Availability(webSearch: bool, github: bool, tavily: bool, filesystem: bool)

  /** The fields `__init__` sets; `nodeName` is `None` when the name is falsy. */
  datatype Client = Client(nodeName: Option<string>, available: Availability, mcpTools: seq<string>)

  /** The four tools in the order `_check_available_tools` lists them. */
  const ToolOrder: seq<string> := ["web_search", "github", "tavily", "filesystem"]

  /** `available_tools.get(tool, False)`. */
  predicate IsAvailable(a: Availability, tool: string)
  {
    if tool == "web_search" then a.webSearch
    else if tool == "github" then a.github
    else if tool == "tavily" then a.tavily
    else if tool == "filesystem" then a.filesystem
    else false
  }

  /** `_check_available_tools()` on a configuration. */
  function CheckAvailableTools(c: Config): (a: Availability)
    reads c
  {
    Availability(
      |c.llmProviders| > 0,
      c.githubToken.Some? && c.githubToken.value != "",
      c.tavilyApiKey.Some? && c.tavilyApiKey.value != "",
      true)
  }

  /**
   * `MCPClient(config, node_name)`.  A node name makes it look up the node's
   * configuration (which fails for an unconfigured provider); without one the
   * `LLMClient` it builds reads `config.default_config`, which `Config` does
   * not have.
   */
  function NewClient(c: Config, nodeName: Option<string>): (r: Result<Client, Exn>)
    reads c
  {
    if nodeName.None? || nodeName.value == "" then
      Err(Exn(AttributeError, "'Config' object has no attribute 'default_config'"))
    else
      match c.NodeSettingsOf(nodeName.value)
      case Err(e) => Err(e)
      case Ok(settings) => Ok(Client(nodeName, CheckAvailableTools(c), settings.mcpTools))
  }

  /** The tools that are available, in the fixed order. */
  function AvailableNames(a: Availability): (r: seq<string>)
  {
    (if a.webSearch then ["web_search"] else [])
    + (if a.github then ["github"] else [])
    + (if a.tavily then ["tavily"] else [])
    + (if a.filesystem then ["filesystem"] else [])
  }

  /** `get_available_tool_names()`. */
  function GetAvailableToolNames(c: Client): (r: seq<string>)
  {
    if c.nodeName.Some? then c.mcpTools else AvailableNames(c.available)
  }

  /** `has_tool(tool_name)`. */
  predicate HasTool(c: Client, tool: string)
  {
    if c.nodeName.Some? then tool in c.mcpTools && IsAvailable(c.available, tool)
    else IsAvailable(c.available, tool)
  }

  /** A tool back end: the reply to a request, or the exception it raises. */
  type Backend = (string, Json) -> Result<Json, Exn>

  /** `_run_mcp_tool(tool_name, method, params)`: never raises. */
  function RunMcpTool(c: Client, tool: string, params: Json, backend: Backend): (r: Option<Json>)
  {
    if !HasTool(c, tool) then None
    else if (tool == "web_search" && c.available.webSearch)
      || (tool == "github" && c.available.github)
      || (tool == "tavily" && c.available.tavily)
      || tool == "filesystem" then
      match backend(tool, params)
      case Ok(reply) => Some(reply)
      case Err(_) => None
    else None
  }

  /** The value under `key` when `reply` is a truthy object holding it. */
  function Field(reply: Option<Json>, key: string): Option<Json>
  {
    if reply.Some? && reply.value.JObj? && key in reply.value.fields then Some(reply.value.fields[key])
    else None
  }

  /** `web_search(query)`: the reply's `results` list, else nothing. */
  function WebSearch(c: Client, query: string, backend: Backend): (r: seq<Json>)
  {
    if !c.available.webSearch then []
    else
      var reply := RunMcpTool(c, "web_search", JObj(map["query" := JStr(query)]), backend);
      match Field(reply, "results")
      case Some(JArr(items)) => items
      case _ => []
  }

  /** The parameters `github_search` sends: the page size is capped at 100. */
  function GithubRequest(query: string, maxResults: int): (params: Json)
    ensures params.JObj? && "per_page" in params.fields && params.fields["per_page"].JNum?
    ensures params.fields["per_page"].n <= 100
    ensures params.fields["per_page"].n == if maxResults < 100 then maxResults else 100
  {
    JObj(map["query" := JStr(query), "per_page" := JNum(if maxResults < 100 then maxResults else 100)])
  }

  /** `d.get(key)`. */
  function Get(fields: map<string, Json>, key: string): Option<Json>
  {
    if key in fields then Some(fields[key]) else None
  }

  /** One item of the reply mapped to a hit; `.get` on a non-object raises AttributeError. */
  function HitOf(item: Json): (r: Result<GithubHit, Exn>)
  {
    if !item.JObj? then Err(Exn(AttributeError, "'" + TypeName(item) + "' object has no attribute 'get'"))
    else
      var f := item.fields;
      var repo := if "repository" in f then f["repository"] else JObj(map[]);
      if !repo.JObj? then Err(Exn(AttributeError, "'" + TypeName(repo) + "' object has no attribute 'get'"))
      else Ok(GithubHit(
        Get(f, "name"), Get(f, "path"), Get(repo.fields, "full_name"),
        Get(f, "html_url"), Get(f, "score"), Get(repo.fields, "language")))
  }

  /** The items mapped in order; the first failing item aborts the search. */
  function HitsOf(items: seq<Json>): (r: Result<seq<GithubHit>, Exn>)
    ensures r.Ok? ==> |r.value| == |items| && forall i :: 0 <= i < |items| ==> HitOf(items[i]) == Ok(r.value[i])
    ensures r.Err? <==> exists i :: 0 <= i < |items| && HitOf(items[i]).Err?
  {
    if items == [] then Ok([])
    else
      match HitsOf(items[..|items| - 1])
      case Err(e) => Err(e)
      case Ok(hs) =>
        match HitOf(items[|items| - 1])
        case Err(e) => Err(e)
        case Ok(h) => Ok(hs + [h])
  }

  /**
   * What `github_search(query, max_results)` returns or raises: the hits of
   * the reply's `items`, and none without a token or a reply.
   */
  function GithubResults(c: Client, query: string, maxResults: int, backend: Backend): (r: Result<seq<GithubHit>, Exn>)
    ensures !c.available.github ==> r == Ok([])
    ensures !HasTool(c, "github") ==> r == Ok([])
  {
    if !c.available.github then Ok([])
    else
      match Field(RunMcpTool(c, "github", GithubRequest(query, maxResults), backend), "items")
      case None => Ok([])
      case Some(items) => ItemsOf(items)
  }

  /** `github_search(query, max_results)`: the hits are collected item by item. */
  method GithubSearch(c: Client, query: string, maxResults: int, backend: Backend)
    returns (r: Result<seq<GithubHit>, Exn>)
    ensures r == GithubResults(c, query, maxResults, backend)
  {
    if !c.available.github {
      return Ok([]);
    }
    var reply := RunMcpTool(c, "github", GithubRequest(query, maxResults), backend);
    var items := Field(reply, "items");
    if items.None? {
      return Ok([]);
    }
    match items.value {
      case JArr(xs) =>
        r := CollectHits(xs);
      case _ =>
        r := ItemsOf(items.value);
    }
  }

  /** The loop over a reply's item list: each item becomes a hit, and the first failing item aborts. */
  method CollectHits(xs: seq<Json>) returns (r: Result<seq<GithubHit>, Exn>)
    ensures r == HitsOf(xs)
  {
    var hits: seq<GithubHit> := [];
    for i := 0 to |xs|
      invariant HitsOf(xs[..i]) == Ok(hits)
    {
      assert xs[..i + 1][..i] == xs[..i];
      var h := HitOf(xs[i]);
      if h.Err? {
        assert HitsOf(xs[..i + 1]) == Err(h.error);
        HitsErrSticky(xs, i + 1);
        return Err(h.error);
      }
      hits := hits + [h.value];
    }
    assert xs[..|xs|] == xs;
    r := Ok(hits);
  }

  /** Iterating a reply's `items` value: a list maps item by item; other values are iterated as Python would. */
  function ItemsOf(items: Json): Result<seq<GithubHit>, Exn>
  {
    match items
    case JArr(xs) => HitsOf(xs)
    case JStr(s) => if s == "" then Ok([]) else Err(Exn(AttributeError, "'str' object has no attribute 'get'"))
    case JObj(f) => if f == map[] then Ok([]) else Err(Exn(AttributeError, "'str' object has no attribute 'get'"))
    case _ => Err(Exn(TypeError, "'" + TypeName(items) + "' object is not iterable"))
  }

  /** Once an item fails, every longer prefix fails with the same error. */
  lemma {:induction false} HitsErrSticky(xs: seq<Json>, n: nat)
    requires 0 < n <= |xs| && HitsOf(xs[..n]).Err?
    ensures HitsOf(xs).Err? && HitsOf(xs).error == HitsOf(xs[..n]).error
    decreases |xs| - n
  {
    if n < |xs| {
      assert xs[..n + 1][..n] == xs[..n];
      HitsErrSticky(xs, n + 1);
    } else {
      assert xs[..n] == xs;
    }
  }

  // ---------------------------------------------------------------------
  // Properties
  // ---------------------------------------------------------------------

  /**
   * `web_search` needs an LLM provider, `github` a token, `tavily` a key;
   * `filesystem` is always available; nothing else is.
   */
  lemma AvailabilitySpec(c: Config, tool: string)
    ensures IsAvailable(CheckAvailableTools(c), "web_search") <==> |c.llmProviders| > 0
    ensures IsAvailable(CheckAvailableTools(c), "github") <==> c.githubToken.Some? && c.githubToken.value != ""
    ensures IsAvailable(CheckAvailableTools(c), "tavily") <==> c.tavilyApiKey.Some? && c.tavilyApiKey.value != ""
    ensures IsAvailable(CheckAvailableTools(c), "filesystem")
    ensures tool !in ToolOrder ==> !IsAvailable(CheckAvailableTools(c), tool)
  {
  }

  /**
   * Without a node name the tool names are the available tools in the fixed
   * order; with one they are the node's configured list.
   */
  lemma AvailableNamesSpec(c: Client)
    ensures c.nodeName.Some? ==> GetAvailableToolNames(c) == c.mcpTools
    ensures c.nodeName.None? ==> forall t :: t in GetAvailableToolNames(c) <==> t in ToolOrder && IsAvailable(c.available, t)
    ensures c.nodeName.None? ==> NoDuplicates(GetAvailableToolNames(c))
  {
  }

  /** A node client has a tool only when the node lists it and it is available. */
  lemma HasToolSpec(c: Client, tool: string)
    ensures HasTool(c, tool) ==> IsAvailable(c.available, tool)
    ensures c.nodeName.Some? ==> (HasTool(c, tool) <==> tool in c.mcpTools && IsAvailable(c.available, tool))
  {
  }

  /** A tool call yields a reply only for a tool the client has and a back end that answered. */
  lemma RunMcpToolSpec(c: Client, tool: string, params: Json, backend: Backend)
    ensures RunMcpTool(c, tool, params, backend).Some? <==> HasTool(c, tool) && backend(tool, params).Ok?
    ensures RunMcpTool(c, tool, params, backend).Some? ==> RunMcpTool(c, tool, params, backend).value == backend(tool, params).value
  {
  }

  /** A client built for a node carries the node's configured tool list. */
  lemma NewClientSpec(c: Config, nodeName: Option<string>)
    ensures nodeName.None? || nodeName == Some("") ==> NewClient(c, nodeName).Err?
    ensures NewClient(c, nodeName).Ok? ==>
      && c.NodeSettingsOf(nodeName.value).Ok?
      && NewClient(c, nodeName).value.mcpTools == NodeOf(c.nodeConfigs, nodeName.value).mcpTools
      && NewClient(c, nodeName).value.available == CheckAvailableTools(c)
  {
  }
}
