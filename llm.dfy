/**
 * `LLMClient`: the per-provider client cache, the conversion of message
 * dictionaries to chat messages, the format note added to the last message,
 * and the reading of a JSON reply.  The provider SDKs are not modelled: a
 * reply is an oracle from the chat messages sent to the text returned or the
 * exception raised, and `json.loads` is an oracle from text to a document.
 */
module Llm {
  import opened Wrappers
  import opened Text
  import opened JsonValues
  import opened Configuration

  /** A message dictionary; a missing key is `None`. */
  datatype Message = Message(role: Option<string>, content: Option<string>)

  /** The LangChain message classes the client builds. */
  datatype ChatMessage = SystemMessage(text: string) | HumanMessage(text: string)

  /** A provider client; `serial` tells apart clients built at different times. */
  datatype ChatModel = ChatModel(kind: string, model: string, apiKey: Option<string>, baseUrl: Option<string>, serial: nat)

  /** The model behind a provider: the chat messages sent, the text or exception returned. */
  type Reply = seq<ChatMessage> -> Result<string, Exn>

  /** Role "system" gives a system message; any other role, or none, a human one. */
  function ToChatMessage(m: Message): (r: ChatMessage)
  {
    var role := m.role.GetOr("user");
    var content := m.content.GetOr("");
    if role == "system" then SystemMessage(content)
    else if role == "user" || role == "human" then HumanMessage(content)
    else HumanMessage(content)
  }

  /** The conversion loops of `chat_completion`, `structured_completion` and `json_completion`. */
  method ConvertMessages(messages: seq<Message>) returns (out: seq<ChatMessage>)
    ensures |out| == |messages|
    ensures forall i :: 0 <= i < |messages| ==>
      && out[i].text == messages[i].content.GetOr("")
      && (out[i].SystemMessage? <==> messages[i].role == Some("system"))
  {
    out := [];
    for i := 0 to |messages|
      invariant |out| == i
      invariant forall k :: 0 <= k < i ==> out[k] == ToChatMessage(messages[k])
    {
      out := out + [ToChatMessage(messages[i])];
    }
  }

  /**
   * `messages[:-1] + [last]` where `last` is a copy of the last message with
   * `suffix` appended to its content; a last message without content raises
   * KeyError.
   */
  function AppendToLast(messages: seq<Message>, suffix: string): (r: Result<seq<Message>, Exn>)
  {
    if messages == [] then Ok(messages)
    else
      var last := messages[|messages| - 1];
      if last.content.None? then Err(Exn(KeyError, "'content'"))
      else Ok(messages[..|messages| - 1] + [last.(content := Some(last.content.value + suffix))])
  }

  /** The note `json_completion` appends, around the schema's JSON text. */
  function JsonFormatNote(schemaText: string): string
  {
    "\nPlease respond with valid JSON that conforms to this schema:\n\n" + schemaText
    + "\n\nYour response should be JSON only, no additional text or explanations.\n"
  }

  predicate IsOpening(c: char) { c == '{' || c == '[' }

  /** The first `{` or `[` of `s`. */
  function FirstOpening(s: string): (r: Option<nat>)
    ensures r.Some? ==> r.value < |s| && IsOpening(s[r.value])
    ensures r.Some? ==> forall k :: 0 <= k < r.value ==> !IsOpening(s[k])
    ensures r.None? ==> forall k :: 0 <= k < |s| ==> !IsOpening(s[k])
  {
    if s == [] then None
    else if IsOpening(s[0]) then Some(0)
    else match FirstOpening(s[1..])
      case None => None
      case Some(k) => Some(k + 1)
  }

  /** The text `json_completion` hands to `json.loads`. */
  function Unfenced(raw: string): string
  {
    var content := Strip(raw);
    if !StartsWith(content, "```") then content
    else match FirstOpening(content)
      case None => content
      case Some(j) =>
        var c := content[j..];
        if EndsWith(c, "```") then Strip(c[..|c| - 3]) else Strip(c)
  }

  /** The fence-stripping scan of `json_completion`. */
  method StripFences(raw: string) returns (content: string)
    ensures content == Unfenced(raw)
  {
    content := Strip(raw);
    if StartsWith(content, "```") {
      var jsonStart := -1;
      var i := 0;
      while i < |content|
        invariant 0 <= i <= |content|
        invariant jsonStart == -1 ==> forall k :: 0 <= k < i ==> !IsOpening(content[k])
        invariant jsonStart != -1 ==> FirstOpening(content) == Some(jsonStart)
      {
        if IsOpening(content[i]) {
          jsonStart := i;
          assert FirstOpening(content) == Some(i) by { FirstOpeningAt(content, i); }
          break;
        }
        i := i + 1;
      }
      if jsonStart != -1 {
        content := content[jsonStart..];
        if EndsWith(content, "```") {
          content := Strip(content[..|content| - 3]);
        } else {
          content := Strip(content);
        }
      }
    }
  }

  /** The first opening bracket is the one with none before it. */
  lemma {:induction false} FirstOpeningAt(s: string, i: nat)
    requires i < |s| && IsOpening(s[i])
    requires forall k :: 0 <= k < i ==> !IsOpening(s[k])
    ensures FirstOpening(s) == Some(i)
    decreases i
  {
    if i > 0 {
      FirstOpeningAt(s[1..], i - 1);
    }
  }

  /**
   * Fence stripping leaves trimmed text alone unless it starts with "```"
   * and holds a `{` or `[`; then the result starts at the first of them and
   * lies inside the reply.
   */
  lemma UnfencedSpec(raw: string)
    ensures var content := Strip(raw);
      (!StartsWith(content, "```") || FirstOpening(content).None?) ==> Unfenced(raw) == content
    ensures var content := Strip(raw);
      StartsWith(content, "```") && FirstOpening(content).Some? ==>
        && Unfenced(raw) != []
        && Unfenced(raw)[0] == content[FirstOpening(content).value]
        && StartsWith(content[FirstOpening(content).value..], Unfenced(raw))
  {
    var content := Strip(raw);
    if StartsWith(content, "```") && FirstOpening(content).Some? {
      var j := FirstOpening(content).value;
      var c := content[j..];
      assert c[0] == content[j];
      if EndsWith(c, "```") {
        var d := c[..|c| - 3];
        assert d[0] == c[0];
        LStripKeeps(d);
        StripPrefix(d);
      } else {
        LStripKeeps(c);
        StripPrefix(c);
      }
    }
  }

  /** Text that starts with a non-space keeps its first character after `strip()`. */
  lemma LStripKeeps(s: string)
    requires s != [] && !IsSpace(s[0])
    ensures Strip(s) != [] && Strip(s)[0] == s[0]
  {
    assert LStrip(s) == s;
  }

  /** When `s` starts with a non-space, `s.strip()` is a prefix of `s`. */
  lemma StripPrefix(s: string)
    requires s != [] && !IsSpace(s[0])
    ensures StartsWith(s, Strip(s))
  {
    assert LStrip(s) == s;
  }

  /**
   * The text a `ChatModel` call returns, read as JSON; unparsable text is a
   * ValueError quoting the decoder's message and the reply as received.
   */
  function ParseReply(content: string, decode: string -> Result<Json, string>): (r: Result<Json, Exn>)
    ensures r.Err? <==> decode(Unfenced(content)).Err?
    ensures r.Err? ==>
      r.error == Exn(ValueError, "Failed to parse JSON response: " + decode(Unfenced(content)).error + "\nResponse: " + content)
    ensures r.Ok? ==> r.value == decode(Unfenced(content)).value
  {
    match decode(Unfenced(content))
    case Ok(j) => Ok(j)
    case Err(e) => Err(Exn(ValueError, "Failed to parse JSON response: " + e + "\nResponse: " + content))
  }

  /** The package `_create_provider_client` asks to install for a provider. */
  function Package(provider: string): string
  {
    if provider == "gemini" then "langchain-google-genai" else "langchain-" + provider
  }

  /** The provider client `_create_provider_client` builds for a configuration. */
  function BuildClient(pc: ProviderConfig, apiKey: Option<string>, installed: set<string>, serial: nat): (r: Result<ChatModel, Exn>)
  {
    if pc.provider !in ["openai", "anthropic", "gemini", "ollama"] then
      Err(Exn(ValueError, "Unsupported provider: " + pc.provider))
    else if pc.provider !in installed then
      Err(Exn(ImportError, Package(pc.provider) + " not installed. Run: pip install " + Package(pc.provider)))
    else if pc.provider == "ollama" then
      Ok(ChatModel(pc.provider, pc.model, None,
        Some(if pc.baseUrl.Some? && pc.baseUrl.value != "" then pc.baseUrl.value else "http://localhost:11434"), serial))
    else
      Ok(ChatModel(pc.provider, pc.model, apiKey, None, serial))
  }

  /** The API key `_get_client` reads, or the ValueError for a missing one. */
  function ApiKey(provider: string, pc: ProviderConfig, env: map<string, string>): (r: Result<Option<string>, Exn>)
    ensures r.Err? <==> pc.apiKeyEnv != "" && provider != "ollama" && (pc.apiKeyEnv !in env || env[pc.apiKeyEnv] == "")
  {
    if pc.apiKeyEnv != "" && provider != "ollama" then
      if pc.apiKeyEnv !in env || env[pc.apiKeyEnv] == "" then
        Err(Exn(ValueError, "API key not found in environment variable '" + pc.apiKeyEnv + "'"))
      else Ok(Some(env[pc.apiKeyEnv]))
    else if pc.apiKeyEnv != "" then
      Ok(if pc.apiKeyEnv in env then Some(env[pc.apiKeyEnv]) else None)
    else Ok(None)
  }

  class LlmClient {
    const nodeName: string
    /** `node_config["provider"]` and `node_config["provider_config"]`. */
    const provider: string
    const providerConfig: ProviderConfig
    var cache: map<string, ChatModel>
    /** How many provider clients this client has built. */
    var built: nat

    /** `LLMClient(config, node_name)` for a node whose configuration resolved. */
    constructor(nodeName: string, settings: NodeSettings)
      ensures this.nodeName == nodeName
      ensures provider == settings.provider && providerConfig == settings.providerConfig
      ensures cache == map[] && built == 0
    {
      this.nodeName := nodeName;
      provider := settings.provider;
      providerConfig := settings.providerConfig;
      cache := map[];
      built := 0;
    }

    /** The provider a call uses: the override when given, else the node's. */
    function Chosen(p: Option<string>): string
      reads this
    {
      if p.Some? && p.value != "" then p.value else provider
    }

    /**
     * `_get_client(provider)`.  A cached client is returned as it is;
     * otherwise one is built from the node's provider configuration, cached
     * under the chosen name and returned.
     */
    method GetClient(p: Option<string>, env: map<string, string>, installed: set<string>)
      returns (r: Result<ChatModel, Exn>)
      modifies this`cache, this`built
      ensures Chosen(p) in old(cache) ==> r == Ok(old(cache)[Chosen(p)]) && cache == old(cache) && built == old(built)
      ensures Chosen(p) !in old(cache) && r.Ok? ==>
        && cache == old(cache)[Chosen(p) := r.value]
        && built == old(built) + 1
        && r.value.serial == old(built)
      ensures r.Err? ==> cache == old(cache) && built == old(built)
      ensures r.Err? ==> Chosen(p) !in cache
      ensures r.Ok? ==> Chosen(p) in cache && cache[Chosen(p)] == r.value
      ensures Chosen(p) !in old(cache) ==>
        r == (match ApiKey(Chosen(p), providerConfig, env)
              case Err(e) => Err(e)
              case Ok(key) => BuildClient(providerConfig, key, installed, old(built)))
    {
      var name := Chosen(p);
      if name in cache {
        return Ok(cache[name]);
      }
      var key := ApiKey(name, providerConfig, env);
      if key.Err? {
        return Err(key.error);
      }
      var client := BuildClient(providerConfig, key.value, installed, built);
      if client.Err? {
        return client;
      }
      cache := cache[name := client.value];
      built := built + 1;
      r := client;
    }

    /** `chat_completion(messages, provider)`: the reply's text. */
    method ChatCompletion(messages: seq<Message>, p: Option<string>, env: map<string, string>,
                          installed: set<string>, reply: Reply)
      returns (r: Result<string, Exn>)
      modifies this`cache, this`built
      ensures r.Ok? ==> Chosen(p) in cache
      ensures r.Ok? ==> exists sent :: |sent| == |messages| && reply(sent) == r
    {
      var client := GetClient(p, env, installed);
      if client.Err? {
        return Err(client.error);
      }
      var sent := ConvertMessages(messages);
      r := reply(sent);
    }

    /**
     * `json_completion(messages, json_schema, provider)`: the format note is
     * added to the last message, the reply is stripped of code fences and
     * parsed.
     */
    method JsonCompletion(messages: seq<Message>, schemaText: string, p: Option<string>,
                          env: map<string, string>, installed: set<string>, reply: Reply,
                          decode: string -> Result<Json, string>)
      returns (r: Result<Json, Exn>)
      modifies this`cache, this`built
      ensures r.Ok? ==> Chosen(p) in cache
      ensures r.Ok? ==> AppendToLast(messages, JsonFormatNote(schemaText)).Ok?
      ensures r.Ok? ==> exists text :: decode(Unfenced(text)) == Ok(r.value)
    {
      var client := GetClient(p, env, installed);
      if client.Err? {
        return Err(client.error);
      }
      var augmented := AppendToLast(messages, JsonFormatNote(schemaText));
      if augmented.Err? {
        return Err(augmented.error);
      }
      var sent := ConvertMessages(augmented.value);
      var answer := reply(sent);
      if answer.Err? {
        return Err(answer.error);
      }
      var content := StripFences(answer.value);
      r := match decode(content)
        case Ok(j) => Ok(j)
        case Err(e) => Err(Exn(ValueError, "Failed to parse JSON response: " + e + "\nResponse: " + answer.value));
    }
  }

  /**
   * Only the last message changes, and only by the appended note; an empty
   * list stays empty.
   */
  lemma AppendToLastSpec(messages: seq<Message>, suffix: string)
    ensures messages == [] ==> AppendToLast(messages, suffix) == Ok([])
    ensures messages != [] && messages[|messages| - 1].content.Some? ==>
      var r := AppendToLast(messages, suffix).value;
      && |r| == |messages|
      && r[..|r| - 1] == messages[..|messages| - 1]
      && r[|r| - 1].role == messages[|messages| - 1].role
      && r[|r| - 1].content == Some(messages[|messages| - 1].content.value + suffix)
  {
  }

  /** A non-ollama provider whose key variable is unset or empty cannot be built. */
  lemma MissingKey(provider: string, pc: ProviderConfig, env: map<string, string>)
    requires pc.apiKeyEnv != "" && provider != "ollama" && (pc.apiKeyEnv !in env || env[pc.apiKeyEnv] == "")
    ensures ApiKey(provider, pc, env).Err? && ApiKey(provider, pc, env).error.kind == ValueError
  {
  }
}
