/**
 * The MCP client: devtunnel detection, request headers with the optional
 * tunnel authorization, the JSON-RPC request, the cached `tools/list`
 * listing, `tools/call`, and the arguments its Elasticsearch convenience
 * calls send.
 */
module Mcp {
  import opened Text
  import opened Py
  import opened Rpc
  import Sse

  const DevtunnelDomain := "devtunnels.ms"
  const TunnelHeader := "X-Tunnel-Authorization"
  /** The index given when neither the caller nor the configuration names one. */
  const AllIndices := "_all"
  /** The pattern `list_elasticsearch_indices` uses when none is given. */
  const DefaultIndexPattern := "*"
  /** The hit count `search_elasticsearch` asks for when none is given. */
  const DefaultSearchSize := 10

  /** `_is_azure_devtunnel`: the lower-cased URL mentions the devtunnel domain. */
  predicate IsAzureDevtunnel(url: string)
  {
    Contains(AsciiLower(url), DevtunnelDomain)
  }

  /** Lower-casing the URL first changes nothing. */
  lemma DevtunnelIgnoresCase(url: string)
    ensures IsAzureDevtunnel(AsciiLower(url)) == IsAzureDevtunnel(url)
  {
    AsciiLowerIdempotent(url);
  }

  /** The domain in any letter case, anywhere in the URL, makes it a devtunnel URL. */
  lemma DevtunnelAnywhere(p: string, d: string, q: string)
    requires AsciiLower(d) == DevtunnelDomain
    ensures IsAzureDevtunnel(p + d + q)
  {
    assert AsciiLower(p + d + q) == AsciiLower(p) + DevtunnelDomain + AsciiLower(q);
    assert StartsWith(DevtunnelDomain, DevtunnelDomain);
    ContainsWithin(AsciiLower(p), DevtunnelDomain, AsciiLower(q), DevtunnelDomain);
  }

  /** The environment token counts when it is set and not empty (`if tunnel_token:`). */
  predicate HasAccessToken(env: TunnelEnv)
  {
    env.accessToken.Some? && env.accessToken.value != ""
  }

  /**
   * The value of the tunnel authorization header, if one is added: only for a
   * devtunnel URL; the environment token first; otherwise the credential's
   * token, when the client holds a credential and `get_token` does not raise.
   */
  function TunnelAuthorization(devtunnel: bool, hasCredential: bool, env: TunnelEnv): (a: Option<string>)
    ensures a.Some? ==> devtunnel
    ensures devtunnel && HasAccessToken(env) ==> a == Some("tunnel " + env.accessToken.value)
    ensures !HasAccessToken(env) && a.Some? ==>
      hasCredential && env.credentialToken.Some? && a.value == "tunnel " + env.credentialToken.value
    ensures devtunnel && !HasAccessToken(env) && hasCredential && env.credentialToken.Some? ==> a.Some?
    ensures env.credentialToken.None? && !HasAccessToken(env) ==> a.None?
  {
    if !devtunnel then None
    else if HasAccessToken(env) then Some("tunnel " + env.accessToken.value)
    else if hasCredential && env.credentialToken.Some? then Some("tunnel " + env.credentialToken.value)
    else None
  }

  /** `index or config.elasticsearch_index or "_all"`. */
  function ResolveIndex(index: Option<string>, configuredIndex: string): (r: string)
    ensures r != ""
    ensures index.Some? && index.value != "" ==> r == index.value
    ensures (index.None? || index.value == "") && configuredIndex != "" ==> r == configuredIndex
    ensures (index.Some? && r == index.value) || r == configuredIndex || r == AllIndices
  {
    if index.Some? && index.value != "" then index.value
    else if configuredIndex != "" then configuredIndex
    else AllIndices
  }

  /** The arguments of `search_elasticsearch`: a query-string query and a size. */
  function SearchArguments(query: string, index: Option<string>, configuredIndex: string, size: int): (a: Json)
    ensures a.Obj? && a.fields.Keys == {"index", "query_body"}
    ensures a.fields["index"] == Str(ResolveIndex(index, configuredIndex))
    ensures a.fields["query_body"].Obj? && a.fields["query_body"].fields.Keys == {"query", "size"}
    ensures a.fields["query_body"].fields["size"] == Num(size)
    ensures a.fields["query_body"].fields["query"] == Obj(map["query_string" := Obj(map["query" := Str(query)])])
  {
    Obj(map[
      "index" := Str(ResolveIndex(index, configuredIndex)),
      "query_body" := Obj(map[
        "query" := Obj(map["query_string" := Obj(map["query" := Str(query)])]),
        "size" := Num(size)])])
  }

  /** The arguments of `get_elasticsearch_mapping`. */
  function MappingArguments(index: Option<string>, configuredIndex: string): (a: Json)
    ensures a.Obj? && a.fields.Keys == {"index"} && a.fields["index"] == Str(ResolveIndex(index, configuredIndex))
  {
    Obj(map["index" := Str(ResolveIndex(index, configuredIndex))])
  }

  /** The `params` of a `tools/call` request; never empty, so it is sent as built. */
  function ToolsCallParams(toolName: string, arguments: Json): (p: Json)
    ensures p.Obj? && p.fields.Keys == {"name", "arguments"} && Truthy(p)
    ensures p.fields["name"] == Str(toolName) && p.fields["arguments"] == arguments
  {
    Obj(map["name" := Str(toolName), "arguments" := arguments])
  }

  /** A `tools/call` envelope carries the tool name and the arguments unchanged. */
  lemma CallEnvelope(requestId: string, toolName: string, arguments: Json)
    ensures Envelope(requestId, "tools/call", ToolsCallParams(toolName, arguments)).fields["params"] ==
      Obj(map["name" := Str(toolName), "arguments" := arguments])
  {
  }

  class McpClient {
    const baseUrl: string
    /** The session id fixed at construction and sent with every request. */
    const sessionId: string
    /** A credential was created: the URL is a devtunnel URL and the Azure SDK could build one. */
    const hasCredential: bool
    /** `_tools_cache`: None until a listing is stored. */
    var toolsCache: Option<Json>

    /**
     * `MCPClient(base_url)`: an empty base URL falls back to the configured one;
     * `credentialBuilt` says whether the Azure SDK is installed and its
     * DefaultAzureCredential constructor did not raise.
     */
    constructor (baseUrl: Option<string>, configuredUrl: string, sessionId: string, credentialBuilt: bool)
      ensures this.baseUrl == (if baseUrl.Some? && baseUrl.value != "" then baseUrl.value else configuredUrl)
      ensures this.sessionId == sessionId
      ensures hasCredential == (IsAzureDevtunnel(this.baseUrl) && credentialBuilt)
      ensures toolsCache.None?
    {
      this.baseUrl := if baseUrl.Some? && baseUrl.value != "" then baseUrl.value else configuredUrl;
      this.sessionId := sessionId;
      var url := if baseUrl.Some? && baseUrl.value != "" then baseUrl.value else configuredUrl;
      hasCredential := IsAzureDevtunnel(url) && credentialBuilt;
      toolsCache := None;
    }

    /** The headers of every request, for the tunnel credentials of that moment. */
    function Headers(env: TunnelEnv): (h: map<string, string>)
      ensures forall k :: k in FixedHeaders(sessionId) ==> k in h && h[k] == FixedHeaders(sessionId)[k]
      ensures h[SessionHeader] == sessionId && h["Cache-Control"] == "no-cache"
      ensures h.Keys <= FixedHeaders(sessionId).Keys + {TunnelHeader}
      ensures TunnelHeader in h ==> IsAzureDevtunnel(baseUrl)
      ensures !IsAzureDevtunnel(baseUrl) ==> h == FixedHeaders(sessionId)
      ensures IsAzureDevtunnel(baseUrl) && HasAccessToken(env) ==> TunnelHeader in h && h[TunnelHeader] == "tunnel " + env.accessToken.value
      ensures TunnelHeader in h <==> TunnelAuthorization(IsAzureDevtunnel(baseUrl), hasCredential, env).Some?
      ensures TunnelHeader in h ==> h[TunnelHeader] == TunnelAuthorization(IsAzureDevtunnel(baseUrl), hasCredential, env).value
    {
      var a := TunnelAuthorization(IsAzureDevtunnel(baseUrl), hasCredential, env);
      if a.Some? then FixedHeaders(sessionId)[TunnelHeader := a.value] else FixedHeaders(sessionId)
    }

    /** `_get_headers`: the fixed headers, then the tunnel header inserted when it applies. */
    method GetHeaders(env: TunnelEnv) returns (h: map<string, string>)
      ensures h == Headers(env)
    {
      h := FixedHeaders(sessionId);
      if IsAzureDevtunnel(baseUrl) {
        if HasAccessToken(env) {
          h := h[TunnelHeader := "tunnel " + env.accessToken.value];
        } else if hasCredential {
          match env.credentialToken {
            case Some(token) => h := h[TunnelHeader := "tunnel " + token];
            case None =>
          }
        }
      }
    }

    /** The POST `_send_mcp_request(rpcMethod, params)` makes. */
    function RequestFor(rpcMethod: string, params: Json, x: Exchange): (q: Request)
      ensures q.url == baseUrl && q.headers == Headers(x.tunnel)
      ensures q.payload == Envelope(x.requestId, rpcMethod, params)
    {
      Request(baseUrl, Headers(x.tunnel), Envelope(x.requestId, rpcMethod, params))
    }

    /** `_send_mcp_request`: post the envelope, check the status, parse the frame, unwrap. */
    method SendRequest(rpcMethod: string, params: Json, x: Exchange, rt: Runtime) returns (sent: Request, r: Result<Json>)
      ensures sent == RequestFor(rpcMethod, params, x)
      ensures r == Interpret(x.server(sent), rt.loads)
    {
      var headers := GetHeaders(x.tunnel);
      sent := Request(baseUrl, headers, Envelope(x.requestId, rpcMethod, params));
      var reply := x.server(sent);
      match reply {
        case Unreachable(reason) =>
          r := Err(Transport(reason));
        case Reply(status, body) =>
          if !(200 <= status < 300) {
            r := Err(HttpStatus(status));
          } else {
            var parsed := Sse.ParseSseResponse(body, rt);
            match parsed {
              case Err(e) => r := Err(e);
              case Ok(p) => r := Unwrap(p);
            }
          }
      }
    }

    /** `self._tools_cache = v; return self._tools_cache` (the `len` of the log line may raise). */
    method Store(v: Json) returns (tools: Json)
      modifies this`toolsCache
      ensures toolsCache == Stored(v).cache && tools == Stored(v).tools
    {
      toolsCache := if v.Null? then None else Some(v);
      tools := if HasLen(v) then v else Arr([]);
    }

    /**
     * `get_available_tools`: a stored listing is returned without a request;
     * otherwise one `tools/list` request, whose outcome decides what is
     * stored and returned. A failure returns `[]` and stores nothing.
     */
    method GetAvailableTools(x: Exchange, rt: Runtime) returns (sent: Option<Request>, tools: Json)
      modifies this`toolsCache
      ensures old(toolsCache).Some? ==> sent.None? && tools == old(toolsCache).value && toolsCache == old(toolsCache)
      ensures old(toolsCache).None? ==> sent == Some(RequestFor("tools/list", Null, x))
      ensures old(toolsCache).None? ==>
        var l := CacheStep(Interpret(x.server(RequestFor("tools/list", Null, x)), rt.loads));
        toolsCache == l.cache && tools == l.tools
    {
      if toolsCache.Some? {
        return None, toolsCache.value;
      }
      var request, outcome := SendRequest("tools/list", Null, x, rt);
      sent := Some(request);
      tools := ListFrom(outcome);
    }

    /** The part of `get_available_tools` after the request: normalise, store, return. */
    method ListFrom(outcome: Result<Json>) returns (tools: Json)
      requires toolsCache.None?
      modifies this`toolsCache
      ensures toolsCache == CacheStep(outcome).cache && tools == CacheStep(outcome).tools
    {
      match outcome {
        case Err(_) =>
          tools := Arr([]);
        case Ok(result) =>
          match In("tools", result) {
            case Err(_) =>
              tools := Arr([]);
            case Ok(true) =>
              match Subscript(result, "tools") {
                case Err(_) => tools := Arr([]);
                case Ok(v) => tools := Store(v);
              }
            case Ok(false) =>
              if result.Arr? {
                tools := Store(result);
              } else {
                tools := Store(Arr([]));
              }
          }
      }
    }

    /** What `call_tool(toolName, arguments)` returns or raises over the exchange `x`. */
    function CallOutcome(toolName: string, arguments: Json, x: Exchange, rt: Runtime): Result<Json>
    {
      Interpret(x.server(RequestFor("tools/call", ToolsCallParams(toolName, arguments), x)), rt.loads)
    }

    /** `call_tool`: a `tools/call` request; any failure is raised to the caller. */
    method CallTool(toolName: string, arguments: Json, x: Exchange, rt: Runtime) returns (sent: Request, r: Result<Json>)
      ensures sent == RequestFor("tools/call", ToolsCallParams(toolName, arguments), x)
      ensures sent.payload.fields["params"] == ToolsCallParams(toolName, arguments)
      ensures r == Interpret(x.server(sent), rt.loads) == CallOutcome(toolName, arguments, x, rt)
    {
      sent, r := SendRequest("tools/call", ToolsCallParams(toolName, arguments), x, rt);
    }

    /** `search_elasticsearch(query, index, size=10)`: the `search` tool; an omitted size is `DefaultSearchSize`. */
    method SearchElasticsearch(query: string, index: Option<string>, size: Option<int>, configuredIndex: string,
                               x: Exchange, rt: Runtime)
      returns (sent: Request, r: Result<Json>)
      ensures sent == RequestFor("tools/call",
        ToolsCallParams("search", SearchArguments(query, index, configuredIndex, Defaulted(size, DefaultSearchSize))), x)
      ensures r == Interpret(x.server(sent), rt.loads)
    {
      var n := if size.Some? then size.value else DefaultSearchSize;
      sent, r := CallTool("search", SearchArguments(query, index, configuredIndex, n), x, rt);
    }

    /** `get_elasticsearch_mapping(index)`: the `get_mappings` tool. */
    method GetElasticsearchMapping(index: Option<string>, configuredIndex: string, x: Exchange, rt: Runtime)
      returns (sent: Request, r: Result<Json>)
      ensures sent == RequestFor("tools/call", ToolsCallParams("get_mappings", MappingArguments(index, configuredIndex)), x)
      ensures r == Interpret(x.server(sent), rt.loads)
    {
      sent, r := CallTool("get_mappings", MappingArguments(index, configuredIndex), x, rt);
    }

    /** `list_elasticsearch_indices(pattern="*")`: the `list_indices` tool; an omitted pattern is `DefaultIndexPattern`. */
    method ListElasticsearchIndices(pattern: Option<string>, x: Exchange, rt: Runtime) returns (sent: Request, r: Result<Json>)
      ensures sent == RequestFor("tools/call",
        ToolsCallParams("list_indices", Obj(map["index_pattern" := Str(Defaulted(pattern, DefaultIndexPattern))])), x)
      ensures r == Interpret(x.server(sent), rt.loads)
    {
      var p := if pattern.Some? then pattern.value else DefaultIndexPattern;
      sent, r := CallTool("list_indices", Obj(map["index_pattern" := Str(p)]), x, rt);
    }

    /** `get_elasticsearch_shards()`: the `get_shards` tool with no arguments. */
    method GetElasticsearchShards(x: Exchange, rt: Runtime) returns (sent: Request, r: Result<Json>)
      ensures sent == RequestFor("tools/call", ToolsCallParams("get_shards", Obj(map[])), x)
      ensures r == Interpret(x.server(sent), rt.loads)
    {
      sent, r := CallTool("get_shards", Obj(map[]), x, rt);
    }

    /** `esql_query(query)`: the `esql` tool. */
    method EsqlQuery(query: string, x: Exchange, rt: Runtime) returns (sent: Request, r: Result<Json>)
      ensures sent == RequestFor("tools/call", ToolsCallParams("esql", Obj(map["query" := Str(query)])), x)
      ensures r == Interpret(x.server(sent), rt.loads)
    {
      sent, r := CallTool("esql", Obj(map["query" := Str(query)]), x, rt);
    }
  }
}
