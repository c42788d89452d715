/**
 * The agent configuration (`Config`): LLM providers, the global MCP client
 * table and the per-node tables, with the operations that read and edit
 * them.  Loading from the environment is not modelled; the one environment
 * read `_load_node_mcp_tools` makes takes the environment as a map.
 */
module Configuration {
  import opened Wrappers
  import opened Text
  import opened JsonValues

  /** `LLMProviderConfig`; provider-specific extra arguments are not modelled. */
  datatype ProviderConfig = ProviderConfig(
    provider: string,
    apiKeyEnv: string,
    model: string,
    baseUrl: Option<string>,
    temperature: real,
    maxTokens: int)

  /** `MCPClientConfig`, reduced to what the agent reads. */
  datatype McpClientConfig = McpClientConfig(name: string, serverType: string, enabled: bool)

  /** `NodeConfig`: every setting optional, and the names of the MCP tools the node may use. */
  datatype NodeConfig = NodeConfig(
    provider: Option<string>,
    model: Option<string>,
    useMcp: Option<bool>,
    temperature: Option<real>,
    maxTokens: Option<int>,
    mcpTools: seq<string>)

  const DefaultNode := NodeConfig(None, None, None, None, None, [])

  /** The dictionary `get_node_config` returns. */
  datatype NodeSettings = NodeSettings(
    provider: string,
    providerConfig: ProviderConfig,
    model: string,
    useMcp: bool,
    temperature: real,
    maxTokens: int,
    mcpTools: seq<string>,
    mcpClients: seq<McpClientConfig>,
    openaiApiKey: Option<string>,
    githubToken: Option<string>,
    tavilyApiKey: Option<string>)

  /** One keyword argument of `set_node_config`. */
  datatype Setting =
    | SetProvider(provider: Option<string>)
    | SetModel(model: Option<string>)
    | SetUseMcp(useMcp: Option<bool>)
    | SetTemperature(temperature: Option<real>)
    | SetMaxTokens(maxTokens: Option<int>)
    | SetMcpTools(tools: seq<string>)
    | SetUnknown(key: string)

  /** `a or b` for an optional string. */
  function OrElse(a: Option<string>, b: string): string
  {
    if a.Some? && a.value != "" then a.value else b
  }

  /** The node's tool names that name a global MCP client, in the node's order. */
  function KnownTools(tools: seq<string>, clients: map<string, McpClientConfig>): (r: seq<string>)
    ensures |r| <= |tools|
    ensures forall t :: t in r <==> t in tools && t in clients
  {
    if tools == [] then []
    else
      var last := tools[|tools| - 1];
      KnownTools(tools[..|tools| - 1], clients) + (if last in clients then [last] else [])
  }

  function ClientsOf(names: seq<string>, clients: map<string, McpClientConfig>): (r: seq<McpClientConfig>)
    requires forall t :: t in names ==> t in clients
    ensures |r| == |names|
  {
    seq(|names|, i requires 0 <= i < |names| => clients[names[i]])
  }

  /** The node's table entry, or the empty one. */
  function NodeOf(nodes: map<string, NodeConfig>, nodeName: string): NodeConfig
  {
    if nodeName in nodes then nodes[nodeName] else DefaultNode
  }

  /** `tool_name not in tools` guards the append: no tool is listed twice. */
  function WithTool(nc: NodeConfig, tool: string): (r: NodeConfig)
  {
    if tool in nc.mcpTools then nc else nc.(mcpTools := nc.mcpTools + [tool])
  }

  /** `list.remove(x)`: drops the first occurrence, if any. */
  function RemoveFirst(xs: seq<string>, x: string): (r: seq<string>)
  {
    if xs == [] then []
    else if xs[0] == x then xs[1..]
    else [xs[0]] + RemoveFirst(xs[1..], x)
  }

  function WithoutTool(nc: NodeConfig, tool: string): NodeConfig
  {
    nc.(mcpTools := RemoveFirst(nc.mcpTools, tool))
  }

  /** `setattr(node_config, key, value)` for a known key. */
  function ApplySetting(nc: NodeConfig, s: Setting): NodeConfig
    requires !s.SetUnknown?
  {
    match s
    case SetProvider(p) => nc.(provider := p)
    case SetModel(m) => nc.(model := m)
    case SetUseMcp(u) => nc.(useMcp := u)
    case SetTemperature(t) => nc.(temperature := t)
    case SetMaxTokens(n) => nc.(maxTokens := n)
    case SetMcpTools(tools) => nc.(mcpTools := tools)
  }

  /** The settings up to the first unknown key, applied in order. */
  function ApplySettings(nc: NodeConfig, settings: seq<Setting>): NodeConfig
    decreases |settings|
  {
    if settings == [] then nc
    else if settings[0].SetUnknown? then nc
    else ApplySettings(ApplySetting(nc, settings[0]), settings[1..])
  }

  function HasUnknown(settings: seq<Setting>): bool
  {
    exists i :: 0 <= i < |settings| && settings[i].SetUnknown?
  }

  /** The line `get_schema` keeps: cut at the first "//" unless it is quoted text or holds a URL. */
  function CleanSchemaLine(line: string): (r: string)
  {
    match Find(line, "//")
    case Some(i) =>
      if !StartsWith(Strip(line), "\"") && !Contains(line, "http") then line[..i] else line
    case None => line
  }

  function CleanSchemaLines(lines: seq<string>): (r: seq<string>)
    ensures |r| == |lines|
  {
    seq(|lines|, i requires 0 <= i < |lines| => CleanSchemaLine(lines[i]))
  }

  /** The names `_load_node_mcp_tools` keeps from the comma-separated value. */
  function ValidToolNames(parts: seq<string>, clients: map<string, McpClientConfig>): (r: seq<string>)
  {
    if parts == [] then []
    else
      var t := Strip(parts[|parts| - 1]);
      ValidToolNames(parts[..|parts| - 1], clients) + (if t != "" && t in clients then [t] else [])
  }

  /** The loop of `get_node_config` that collects the client of each configured tool. */
  method SelectClients(tools: seq<string>, known: map<string, McpClientConfig>) returns (clients: seq<McpClientConfig>)
    ensures clients == ClientsOf(KnownTools(tools, known), known)
  {
    var names: seq<string> := [];
    clients := [];
    for i := 0 to |tools|
      invariant names == KnownTools(tools[..i], known)
      invariant clients == ClientsOf(names, known)
    {
      assert tools[..i + 1][..i] == tools[..i];
      var t := tools[i];
      if t in known {
        names := names + [t];
        clients := clients + [known[t]];
      }
    }
    assert tools[..|tools|] == tools;
  }

  /** The loop keeping each stripped, non-empty tool name that names a configured client. */
  method FilterTools(parts: seq<string>, clients: map<string, McpClientConfig>) returns (valid: seq<string>)
    ensures valid == ValidToolNames(parts, clients)
  {
    valid := [];
    for i := 0 to |parts|
      invariant valid == ValidToolNames(parts[..i], clients)
    {
      assert parts[..i + 1][..i] == parts[..i];
      var t := Strip(parts[i]);
      if t != "" && t in clients {
        valid := valid + [t];
      }
    }
    assert parts[..|parts|] == parts;
  }

  /** `{NODE}_MCP_TOOLS`. */
  function ToolsVariable(nodeName: string): string
  {
    Upper(nodeName) + "_MCP_TOOLS"
  }

  function NodeToolsFrom(env: map<string, string>, nodeName: string,
                         clients: map<string, McpClientConfig>, order: seq<string>, useMcp: bool): seq<string>
  {
    var v := ToolsVariable(nodeName);
    var parts := if v in env && env[v] != "" then Split(env[v], ",") else [];
    var valid := ValidToolNames(parts, clients);
    if valid == [] && useMcp then order else valid
  }

  class Config {
    var llmProviders: map<string, ProviderConfig>
    var defaultProvider: string
    var openaiApiKey: Option<string>
    var githubToken: Option<string>
    var tavilyApiKey: Option<string>
    var model: string
    var useMcp: bool
    var temperature: real
    var maxTokens: int
    var mcpClients: map<string, McpClientConfig>
    /** The insertion order of `mcpClients`' keys. */
    var clientOrder: seq<string>
    var nodeConfigs: map<string, NodeConfig>

    /** The client order lists each global client once. */
    ghost predicate Valid()
      reads this
    {
      NoDuplicates(clientOrder) && forall n :: n in clientOrder <==> n in mcpClients
    }

    /** `Config()` with its dataclass defaults. */
    constructor()
      ensures Valid()
      ensures llmProviders == map[] && mcpClients == map[] && nodeConfigs == map[]
      ensures defaultProvider == "openai" && model == "gpt-4o" && useMcp
      ensures temperature == 0.7 && maxTokens == 4000
      ensures openaiApiKey == None && githubToken == None && tavilyApiKey == None
    {
      llmProviders := map[];
      defaultProvider := "openai";
      openaiApiKey := None;
      githubToken := None;
      tavilyApiKey := None;
      model := "gpt-4o";
      useMcp := true;
      temperature := 0.7;
      maxTokens := 4000;
      mcpClients := map[];
      clientOrder := [];
      nodeConfigs := map[];
    }

    /**
     * The `Config(...)` call of `for_node`: the keys, the MCP clients and the
     * node table of `base`, the node's model settings, and the dataclass
     * defaults for everything else.
     */
    constructor Derived(base: Config, ns: NodeSettings)
      ensures llmProviders == map[] && defaultProvider == "openai"
      ensures openaiApiKey == base.openaiApiKey && githubToken == base.githubToken && tavilyApiKey == base.tavilyApiKey
      ensures model == ns.model && useMcp == ns.useMcp && temperature == ns.temperature && maxTokens == ns.maxTokens
      ensures mcpClients == base.mcpClients && clientOrder == base.clientOrder && nodeConfigs == base.nodeConfigs
    {
      llmProviders := map[];
      defaultProvider := "openai";
      openaiApiKey := base.openaiApiKey;
      githubToken := base.githubToken;
      tavilyApiKey := base.tavilyApiKey;
      model := ns.model;
      useMcp := ns.useMcp;
      temperature := ns.temperature;
      maxTokens := ns.maxTokens;
      mcpClients := base.mcpClients;
      clientOrder := base.clientOrder;
      nodeConfigs := base.nodeConfigs;
    }

    /** The provider a node uses: its own, else the default. */
    function EffectiveProvider(nodeName: string): string
      reads this
    {
      OrElse(NodeOf(nodeConfigs, nodeName).provider, defaultProvider)
    }

    /** The effective configuration of a node, or the ValueError for an unconfigured provider. */
    function NodeSettingsOf(nodeName: string): (r: Result<NodeSettings, Exn>)
      reads this
    {
      var nc := NodeOf(nodeConfigs, nodeName);
      var p := EffectiveProvider(nodeName);
      if p !in llmProviders then
        Err(Exn(ValueError, "Provider '" + p + "' not configured for node '" + nodeName + "'"))
      else
        var pc := llmProviders[p];
        Ok(NodeSettings(
          p, pc, OrElse(nc.model, pc.model),
          nc.useMcp.GetOr(useMcp),
          nc.temperature.GetOr(pc.temperature),
          nc.maxTokens.GetOr(pc.maxTokens),
          nc.mcpTools,
          ClientsOf(KnownTools(nc.mcpTools, mcpClients), mcpClients),
          openaiApiKey, githubToken, tavilyApiKey))
    }

    /** `get_node_config(node_name)`. */
    method GetNodeConfig(nodeName: string) returns (r: Result<NodeSettings, Exn>)
      ensures r == NodeSettingsOf(nodeName)
    {
      var nc := NodeOf(nodeConfigs, nodeName);
      var p := OrElse(nc.provider, defaultProvider);
      if p !in llmProviders {
        return Err(Exn(ValueError, "Provider '" + p + "' not configured for node '" + nodeName + "'"));
      }
      var pc := llmProviders[p];
      var clients := SelectClients(nc.mcpTools, mcpClients);
      r := Ok(NodeSettings(
        p, pc, OrElse(nc.model, pc.model),
        nc.useMcp.GetOr(useMcp),
        nc.temperature.GetOr(pc.temperature),
        nc.maxTokens.GetOr(pc.maxTokens),
        nc.mcpTools, clients,
        openaiApiKey, githubToken, tavilyApiKey));
    }

    /** `set_node_config(node_name, **kwargs)`: keys before an unknown one stay set. */
    method SetNodeConfig(nodeName: string, settings: seq<Setting>) returns (r: Result<(), Exn>)
      modifies this`nodeConfigs
      ensures r.Ok? <==> !HasUnknown(settings)
      ensures r.Err? ==> r.error.kind == ValueError
      ensures nodeConfigs == old(nodeConfigs)[nodeName := ApplySettings(NodeOf(old(nodeConfigs), nodeName), settings)]
    {
      if nodeName !in nodeConfigs {
        nodeConfigs := nodeConfigs[nodeName := DefaultNode];
      }
      var i := 0;
      while i < |settings|
        invariant 0 <= i <= |settings|
        invariant forall k :: 0 <= k < i ==> !settings[k].SetUnknown?
        invariant nodeName in nodeConfigs
        invariant ApplySettings(nodeConfigs[nodeName], settings[i..])
          == ApplySettings(NodeOf(old(nodeConfigs), nodeName), settings)
        invariant nodeConfigs == old(nodeConfigs)[nodeName := nodeConfigs[nodeName]]
      {
        if settings[i].SetUnknown? {
          return Err(Exn(ValueError, "Invalid node configuration key: " + settings[i].key));
        }
        assert settings[i..][1..] == settings[i + 1..];
        nodeConfigs := nodeConfigs[nodeName := ApplySetting(nodeConfigs[nodeName], settings[i])];
        i := i + 1;
      }
      r := Ok(());
    }

    /**
     * `set_node_provider(node_name, provider)`: a provider that is not
     * configured is refused; otherwise the node's entry is created if need
     * be and its provider set, after which the node's settings resolve to
     * that provider.
     */
    method SetNodeProvider(nodeName: string, provider: string) returns (ok: bool)
      modifies this`nodeConfigs
      ensures ok <==> provider in llmProviders
      ensures !ok ==> nodeConfigs == old(nodeConfigs)
      ensures ok ==> nodeConfigs == old(nodeConfigs)[nodeName := NodeOf(old(nodeConfigs), nodeName).(provider := Some(provider))]
      ensures ok && provider != "" ==>
        NodeSettingsOf(nodeName).Ok? && NodeSettingsOf(nodeName).value.provider == provider
    {
      if provider !in llmProviders {
        return false;
      }
      if nodeName !in nodeConfigs {
        nodeConfigs := nodeConfigs[nodeName := DefaultNode];
      }
      nodeConfigs := nodeConfigs[nodeName := nodeConfigs[nodeName].(provider := Some(provider))];
      ok := true;
    }

    /**
     * `for_node(node_name)`: a new configuration whose global model settings
     * are the node's effective ones, with the keys, the MCP clients and the
     * node table carried over.  Every other field keeps its dataclass
     * default, so the new configuration has no LLM providers and reading any
     * node's settings from it fails.
     */
    method ForNode(nodeName: string) returns (r: Result<Config, Exn>)
      ensures r.Err? <==> NodeSettingsOf(nodeName).Err?
      ensures r.Err? ==> r.error == NodeSettingsOf(nodeName).error
      ensures r.Ok? ==> fresh(r.value)
      ensures r.Ok? ==>
        var ns := NodeSettingsOf(nodeName).value;
        && r.value.model == ns.model && r.value.useMcp == ns.useMcp
        && r.value.temperature == ns.temperature && r.value.maxTokens == ns.maxTokens
        && r.value.openaiApiKey == openaiApiKey && r.value.githubToken == githubToken
        && r.value.tavilyApiKey == tavilyApiKey
        && r.value.mcpClients == mcpClients && r.value.clientOrder == clientOrder
        && r.value.nodeConfigs == nodeConfigs
        && r.value.llmProviders == map[] && r.value.defaultProvider == "openai"
    ensures r.Ok? ==> forall n :: r.value.NodeSettingsOf(n).Err? && r.value.NodeSettingsOf(n).error.kind == ValueError
    {
      var settings := GetNodeConfig(nodeName);
      if settings.Err? {
        return Err(settings.error);
      }
      var c := new Config.Derived(this, settings.value);
      r := Ok(c);
    }

    /** `add_mcp_tool_to_node(node_name, tool_name)`. */
    method AddMcpToolToNode(nodeName: string, toolName: string) returns (added: bool)
      modifies this`nodeConfigs
      ensures added <==> toolName in mcpClients
      ensures !added ==> nodeConfigs == old(nodeConfigs)
      ensures added ==> nodeConfigs == old(nodeConfigs)[nodeName := WithTool(NodeOf(old(nodeConfigs), nodeName), toolName)]
    {
      if toolName !in mcpClients {
        return false;
      }
      if nodeName !in nodeConfigs {
        nodeConfigs := nodeConfigs[nodeName := DefaultNode];
      }
      var nc := nodeConfigs[nodeName];
      if toolName !in nc.mcpTools {
        nodeConfigs := nodeConfigs[nodeName := nc.(mcpTools := nc.mcpTools + [toolName])];
      }
      added := true;
    }

    /** `remove_mcp_tool_from_node(node_name, tool_name)`. */
    method RemoveMcpToolFromNode(nodeName: string, toolName: string) returns (removed: bool)
      modifies this`nodeConfigs
      ensures removed <==> nodeName in old(nodeConfigs) && toolName in old(nodeConfigs)[nodeName].mcpTools
      ensures !removed ==> nodeConfigs == old(nodeConfigs)
      ensures removed ==> nodeConfigs == old(nodeConfigs)[nodeName := WithoutTool(old(nodeConfigs)[nodeName], toolName)]
    {
      if nodeName !in nodeConfigs {
        return false;
      }
      var nc := nodeConfigs[nodeName];
      if toolName in nc.mcpTools {
        nodeConfigs := nodeConfigs[nodeName := WithoutTool(nc, toolName)];
        return true;
      }
      removed := false;
    }

    /** `add_global_mcp_client(client)`: a new name goes to the end, a known name keeps its place. */
    method AddGlobalMcpClient(client: McpClientConfig)
      requires Valid()
      modifies this`mcpClients, this`clientOrder
      ensures Valid()
      ensures mcpClients == old(mcpClients)[client.name := client]
      ensures clientOrder == if client.name in old(mcpClients) then old(clientOrder) else old(clientOrder) + [client.name]
    {
      if client.name !in mcpClients {
        clientOrder := clientOrder + [client.name];
      }
      mcpClients := mcpClients[client.name := client];
    }

    /** `remove_global_mcp_client(client_name)`: the client goes, and so does every node's reference to it. */
    method RemoveGlobalMcpClient(clientName: string) returns (removed: bool)
      requires Valid()
      modifies this`mcpClients, this`clientOrder, this`nodeConfigs
      ensures Valid()
      ensures removed <==> clientName in old(mcpClients)
      ensures !removed ==> mcpClients == old(mcpClients) && nodeConfigs == old(nodeConfigs)
      ensures removed ==> mcpClients == old(mcpClients) - {clientName}
      ensures removed ==> nodeConfigs == map n | n in old(nodeConfigs) :: WithoutTool(old(nodeConfigs)[n], clientName)
    {
      if clientName !in mcpClients {
        return false;
      }
      RemoveFirstDistinct(clientOrder, clientName);
      mcpClients := mcpClients - {clientName};
      clientOrder := RemoveFirst(clientOrder, clientName);
      assert Valid();
      var pending := nodeConfigs.Keys;
      while pending != {}
        invariant Valid()
        invariant mcpClients == old(mcpClients) - {clientName}
        invariant pending <= nodeConfigs.Keys
        invariant nodeConfigs.Keys == old(nodeConfigs).Keys
        invariant forall n :: n in nodeConfigs ==>
          nodeConfigs[n] == if n in pending then old(nodeConfigs)[n] else WithoutTool(old(nodeConfigs)[n], clientName)
        decreases pending
      {
        var n :| n in pending;
        nodeConfigs := nodeConfigs[n := WithoutTool(nodeConfigs[n], clientName)];
        pending := pending - {n};
      }
      assert nodeConfigs == map n | n in old(nodeConfigs) :: WithoutTool(old(nodeConfigs)[n], clientName);
      removed := true;
    }

    /** The tool list `_load_node_mcp_tools` returns for a node, given the environment. */
    function NodeTools(env: map<string, string>, nodeName: string): seq<string>
      reads this
    {
      NodeToolsFrom(env, nodeName, mcpClients, clientOrder, useMcp)
    }

    /** `_load_node_mcp_tools(node_name)`. */
    method LoadNodeMcpTools(env: map<string, string>, nodeName: string) returns (validTools: seq<string>)
      ensures validTools == NodeTools(env, nodeName)
    {
      var v := ToolsVariable(nodeName);
      var toolNames := if v in env && env[v] != "" then Split(env[v], ",") else [];
      validTools := FilterTools(toolNames, mcpClients);
      if validTools == [] && useMcp {
        validTools := clientOrder;
      }
    }

    /**
     * `get_schema()` on the schema file's text; `decode` stands for
     * `json.loads`, giving the document or the decoder's message.  Its
     * `JSONDecodeError` is a `ValueError`.
     */
    method GetSchema(schemaText: string, decode: string -> Result<Json, string>) returns (r: Result<Json, Exn>)
      ensures var clean := Join("\n", CleanSchemaLines(Split(schemaText, "\n")));
        r == match decode(clean) case Ok(j) => Ok(j) case Err(e) => Err(Exn(ValueError, e))
    {
      var clean := StripSchemaComments(schemaText);
      match decode(clean)
      case Ok(j) => r := Ok(j);
      case Err(e) => r := Err(Exn(ValueError, e));
    }
  }

  /** The comment-stripping loop of `get_schema`. */
  method StripSchemaComments(schemaText: string) returns (clean: string)
    ensures clean == Join("\n", CleanSchemaLines(Split(schemaText, "\n")))
  {
    var source := Split(schemaText, "\n");
    var lines: seq<string> := [];
    for i := 0 to |source|
      invariant lines == CleanSchemaLines(source[..i])
    {
      var line := source[i];
      if Contains(line, "//") && !StartsWith(Strip(line), "\"") && !Contains(line, "http") {
        var k := Find(line, "//").value;
        line := line[..k];
      }
      assert line == CleanSchemaLine(source[i]);
      assert CleanSchemaLines(source[..i + 1]) == CleanSchemaLines(source[..i]) + [line];
      lines := lines + [line];
    }
    assert source[..|source|] == source;
    clean := Join("\n", lines);
  }

  // ---------------------------------------------------------------------
  // Properties
  // ---------------------------------------------------------------------

  /**
   * The effective provider is the node's own when set, else the default, and
   * the lookup fails exactly when that provider is not configured.  Model,
   * temperature and token limit fall back to the provider's values, `use_mcp`
   * to the global flag, and the MCP clients are the node's tools that name a
   * global client, in the node's order.
   */
  lemma NodeSettingsSpec(c: Config, nodeName: string)
    ensures var nc := NodeOf(c.nodeConfigs, nodeName);
      var p := if nc.provider.Some? && nc.provider.value != "" then nc.provider.value else c.defaultProvider;
      var r := c.NodeSettingsOf(nodeName);
      && (r.Ok? <==> p in c.llmProviders)
      && (r.Err? ==> r.error.kind == ValueError)
      && (r.Ok? ==>
        && r.value.provider == p
        && r.value.providerConfig == c.llmProviders[p]
        && (nc.model.Some? && nc.model.value != "" ==> r.value.model == nc.model.value)
        && (nc.model.None? ==> r.value.model == c.llmProviders[p].model)
        && r.value.useMcp == (if nc.useMcp.Some? then nc.useMcp.value else c.useMcp)
        && r.value.temperature == (if nc.temperature.Some? then nc.temperature.value else c.llmProviders[p].temperature)
        && r.value.maxTokens == (if nc.maxTokens.Some? then nc.maxTokens.value else c.llmProviders[p].maxTokens)
        && r.value.mcpTools == nc.mcpTools
        && |r.value.mcpClients| <= |nc.mcpTools|
        && forall t :: (exists i :: 0 <= i < |r.value.mcpClients| && r.value.mcpClients[i] == c.mcpClients[t] && t in c.mcpClients)
             <== t in nc.mcpTools && t in c.mcpClients)
  {
    var nc := NodeOf(c.nodeConfigs, nodeName);
    var r := c.NodeSettingsOf(nodeName);
    if r.Ok? {
      var names := KnownTools(nc.mcpTools, c.mcpClients);
      forall t | t in nc.mcpTools && t in c.mcpClients
        ensures exists i :: 0 <= i < |r.value.mcpClients| && r.value.mcpClients[i] == c.mcpClients[t] && t in c.mcpClients
      {
        var i :| 0 <= i < |names| && names[i] == t;
        assert r.value.mcpClients[i] == c.mcpClients[t];
      }
    }
  }

  /** The MCP clients of a node are exactly its tools that name a global client, in its order. */
  lemma {:induction false} KnownToolsOrder(tools: seq<string>, clients: map<string, McpClientConfig>, i: nat, j: nat)
    requires i < j < |KnownTools(tools, clients)|
    ensures exists a, b :: (0 <= a < b < |tools|
      && tools[a] == KnownTools(tools, clients)[i] && tools[b] == KnownTools(tools, clients)[j])
    decreases |tools|
  {
    var front := tools[..|tools| - 1];
    var k := KnownTools(front, clients);
    var last := tools[|tools| - 1];
    var r := KnownTools(tools, clients);
    if j < |k| {
      KnownToolsOrder(front, clients, i, j);
      var a, b :| 0 <= a < b < |front| && front[a] == k[i] && front[b] == k[j];
      assert tools[a] == r[i] && tools[b] == r[j];
    } else {
      assert r[j] == last;
      assert r[i] == k[i] && k[i] in k;
      var a :| 0 <= a < |front| && front[a] == k[i];
      assert tools[a] == r[i] && tools[|tools| - 1] == r[j];
    }
  }

  /** Adding a tool lists it once, keeps every other tool and never creates a duplicate. */
  lemma WithToolSpec(nc: NodeConfig, tool: string)
    ensures tool in WithTool(nc, tool).mcpTools
    ensures forall t :: t in WithTool(nc, tool).mcpTools <==> t in nc.mcpTools || t == tool
    ensures NoDuplicates(nc.mcpTools) ==> NoDuplicates(WithTool(nc, tool).mcpTools)
    ensures WithTool(WithTool(nc, tool), tool) == WithTool(nc, tool)
  {
  }

  /** `list.remove` takes away exactly one occurrence of a present element. */
  lemma {:induction false} RemoveFirstSpec(xs: seq<string>, x: string)
    ensures x in xs ==> multiset(RemoveFirst(xs, x)) == multiset(xs) - multiset{x}
    ensures x !in xs ==> RemoveFirst(xs, x) == xs
    decreases |xs|
  {
    if xs != [] && xs[0] != x {
      RemoveFirstSpec(xs[1..], x);
      assert xs == [xs[0]] + xs[1..];
    } else if xs != [] {
      assert xs == [xs[0]] + xs[1..];
    }
  }

  /** On a list without duplicates the removed element is gone and no duplicate appears. */
  lemma RemoveFirstDistinct(xs: seq<string>, x: string)
    requires NoDuplicates(xs)
    ensures x !in RemoveFirst(xs, x)
    ensures NoDuplicates(RemoveFirst(xs, x))
    ensures forall y :: y in RemoveFirst(xs, x) <==> y in xs && y != x
  {
    RemoveFirstSpec(xs, x);
    var r := RemoveFirst(xs, x);
    if x in xs {
      assert multiset(xs)[x] == 1 by {
        var i :| 0 <= i < |xs| && xs[i] == x;
        DistinctCount(xs, i);
      }
      assert multiset(r)[x] == 0;
      forall y ensures y in r <==> y in xs && y != x {
        assert y in r <==> multiset(r)[y] > 0;
        assert y in xs <==> multiset(xs)[y] > 0;
      }
    }
    forall i, j | 0 <= i < j < |r| ensures r[i] != r[j] {
      if r[i] == r[j] {
        MultisetTwice(r, i, j);
        var y := r[i];
        assert multiset(r)[y] >= 2;
        assert multiset(xs)[y] >= 2;
        assert y in xs;
        var k :| 0 <= k < |xs| && xs[k] == y;
        DistinctCount(xs, k);
      }
    }
  }

  /** An element of a list without duplicates occurs once. */
  lemma {:induction false} DistinctCount(xs: seq<string>, i: nat)
    requires NoDuplicates(xs) && i < |xs|
    ensures multiset(xs)[xs[i]] == 1
    decreases |xs|
  {
    var front, last := xs[..|xs| - 1], xs[|xs| - 1];
    assert xs == front + [last];
    if i == |xs| - 1 {
      assert last !in front;
    } else {
      DistinctCount(front, i);
      assert front[i] == xs[i];
    }
  }

  /** Two positions holding the same element count it twice. */
  lemma {:induction false} MultisetTwice(xs: seq<string>, i: nat, j: nat)
    requires i < j < |xs| && xs[i] == xs[j]
    ensures multiset(xs)[xs[i]] >= 2
  {
    assert xs == xs[..i] + [xs[i]] + xs[i + 1..j] + [xs[j]] + xs[j + 1..];
  }

  /** After removing a global client, no node whose tool list had no duplicates still names it. */
  lemma CascadingDelete(nodes: map<string, NodeConfig>, clientName: string)
    requires forall n :: n in nodes ==> NoDuplicates(nodes[n].mcpTools)
    ensures forall n :: n in nodes ==> clientName !in WithoutTool(nodes[n], clientName).mcpTools
  {
    forall n | n in nodes ensures clientName !in WithoutTool(nodes[n], clientName).mcpTools {
      RemoveFirstDistinct(nodes[n].mcpTools, clientName);
    }
  }

  /** Settings after an unknown key are never applied; those before it are. */
  lemma {:induction false} SettingsStopAtUnknown(nc: NodeConfig, settings: seq<Setting>, i: nat)
    requires i < |settings| && settings[i].SetUnknown?
    requires forall k :: 0 <= k < i ==> !settings[k].SetUnknown?
    ensures ApplySettings(nc, settings) == ApplySettings(nc, settings[..i])
    decreases i
  {
    if i > 0 {
      assert settings[1..][..i - 1] == settings[..i][1..];
      SettingsStopAtUnknown(ApplySetting(nc, settings[0]), settings[1..], i - 1);
    }
  }

  /**
   * Every loaded tool names a global client; the list is the valid named
   * tools, or, when none is valid and MCP is on, all global clients.
   */
  lemma NodeToolsSpec(env: map<string, string>, nodeName: string,
                      clients: map<string, McpClientConfig>, order: seq<string>, useMcp: bool)
    requires forall n :: n in order <==> n in clients
    ensures var r := NodeToolsFrom(env, nodeName, clients, order, useMcp);
      && (forall t :: t in r ==> t in clients)
      && (r == [] ==> !useMcp || clients == map[])
  {
    var v := ToolsVariable(nodeName);
    var parts := if v in env && env[v] != "" then Split(env[v], ",") else [];
    ValidToolNamesSpec(parts, clients);
  }

  /** The valid names are trimmed, non-empty and known. */
  lemma {:induction false} ValidToolNamesSpec(parts: seq<string>, clients: map<string, McpClientConfig>)
    ensures forall t :: t in ValidToolNames(parts, clients) ==> t in clients && t != ""
    ensures forall i :: (0 <= i < |parts| && Strip(parts[i]) != "" && Strip(parts[i]) in clients
      ==> Strip(parts[i]) in ValidToolNames(parts, clients))
    decreases |parts|
  {
    if parts != [] {
      ValidToolNamesSpec(parts[..|parts| - 1], clients);
      forall i | 0 <= i < |parts| - 1 ensures parts[..|parts| - 1][i] == parts[i] { }
    }
  }

  /**
   * A schema line is cut only at its first "//", and only when it does not
   * start with a quote and holds no "http"; every output line is a prefix of
   * its input line.
   */
  lemma CleanSchemaLineSpec(line: string)
    ensures StartsWith(line, CleanSchemaLine(line))
    ensures CleanSchemaLine(line) != line <==>
      Contains(line, "//") && !StartsWith(Strip(line), "\"") && !Contains(line, "http")
    ensures CleanSchemaLine(line) != line ==> CleanSchemaLine(line) == line[..Find(line, "//").value]
  {
    match Find(line, "//")
    case Some(i) =>
      assert OccursAt(line, "//", i);
      assert line[..i] != line;
    case None =>
  }

  /** Stripping keeps the line count. */
  lemma SchemaLineCount(schemaText: string)
    ensures |CleanSchemaLines(Split(schemaText, "\n"))| == |Split(schemaText, "\n")|
  {
  }
}
