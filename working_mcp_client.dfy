/**
 * The second MCP client: the same JSON-RPC-over-SSE exchange and listing
 * cache as `Mcp.McpClient`, but with the four fixed headers only (no tunnel
 * authorization) and convenience calls whose arguments carry an index only
 * when one is given.
 */
module WorkingMcp {
  import opened Py
  import opened Rpc
  import Sse
  import Mcp

  /** `if index:` for an optional string. */
  predicate Given(index: Option<string>)
  {
    index.Some? && index.value != ""
  }

  /** The arguments of `search_elasticsearch`: query and size, and the index when one is given. */
  function SearchParams(query: string, index: Option<string>, size: int): (p: Json)
    ensures p.Obj? && p.fields.Keys == {"query", "size"} + (if Given(index) then {"index"} else {})
    ensures p.fields["query"] == Str(query) && p.fields["size"] == Num(size)
    ensures Given(index) ==> p.fields["index"] == Str(index.value)
  {
    var base := map["query" := Str(query), "size" := Num(size)];
    Obj(if Given(index) then base["index" := Str(index.value)] else base)
  }

  /** The arguments of `get_elasticsearch_mapping`: the index when one is given, else nothing. */
  function MappingParams(index: Option<string>): (p: Json)
    ensures p.Obj? && p.fields.Keys == (if Given(index) then {"index"} else {})
    ensures Given(index) ==> p.fields["index"] == Str(index.value)
    ensures !Given(index) ==> !Truthy(p)
  {
    Obj(if Given(index) then map["index" := Str(index.value)] else map[])
  }

  /** When the caller names an index, both clients ask for the mapping of that same index. */
  lemma MappingAgreesWhenGiven(index: Option<string>, configuredIndex: string)
    requires Given(index)
    ensures Mcp.MappingArguments(index, configuredIndex) == MappingParams(index)
  {
  }

  class WorkingMcpClient {
    const baseUrl: string
    const sessionId: string
    var toolsCache: Option<Json>

    /** `WorkingMCPClient(base_url)`: an empty base URL falls back to the configured one. */
    constructor (baseUrl: Option<string>, configuredUrl: string, sessionId: string)
      ensures this.baseUrl == (if baseUrl.Some? && baseUrl.value != "" then baseUrl.value else configuredUrl)
      ensures this.sessionId == sessionId
      ensures toolsCache.None?
    {
      this.baseUrl := if baseUrl.Some? && baseUrl.value != "" then baseUrl.value else configuredUrl;
      this.sessionId := sessionId;
      toolsCache := None;
    }

    /** The POST `_send_mcp_request(rpcMethod, params)` makes; the headers never depend on tunnel credentials. */
    function RequestFor(rpcMethod: string, params: Json, requestId: string): (q: Request)
      ensures q.url == baseUrl && q.headers == FixedHeaders(sessionId)
      ensures q.headers.Keys == {"Accept", "Content-Type", SessionHeader, "Cache-Control"}
      ensures q.headers[SessionHeader] == sessionId
      ensures q.payload == Envelope(requestId, rpcMethod, params)
    {
      Request(baseUrl, FixedHeaders(sessionId), Envelope(requestId, rpcMethod, params))
    }

    /** `_send_mcp_request`; the tunnel credentials of the exchange are not consulted. */
    method SendRequest(rpcMethod: string, params: Json, x: Exchange, rt: Runtime) returns (sent: Request, r: Result<Json>)
      ensures sent == RequestFor(rpcMethod, params, x.requestId)
      ensures r == Interpret(x.server(sent), rt.loads)
    {
      sent := Request(baseUrl, FixedHeaders(sessionId), Envelope(x.requestId, rpcMethod, params));
      var reply := x.server(sent);
      match reply {
        case Unreachable(reason) =>
          r := Err(Transport(reason));
        case Reply(status, body) =>
          if !(200 <= status < 300) {
            r := Err(HttpStatus(status));
          } else {
            var parsed := Sse.ParseSseResponse(body, rt);
            match parsed {
              case Err(e) => r := Err(e);
              case Ok(p) => r := Unwrap(p);
            }
          }
      }
    }

    /** `self._tools_cache = v; return self._tools_cache`. */
    method Store(v: Json) returns (tools: Json)
      modifies this`toolsCache
      ensures toolsCache == Stored(v).cache && tools == Stored(v).tools
    {
      toolsCache := if v.Null? then None else Some(v);
      tools := if HasLen(v) then v else Arr([]);
    }

    /** `get_available_tools`, the same cache discipline as the first client. */
    method GetAvailableTools(x: Exchange, rt: Runtime) returns (sent: Option<Request>, tools: Json)
      modifies this`toolsCache
      ensures old(toolsCache).Some? ==> sent.None? && tools == old(toolsCache).value && toolsCache == old(toolsCache)
      ensures old(toolsCache).None? ==> sent == Some(RequestFor("tools/list", Null, x.requestId))
      ensures old(toolsCache).None? ==>
        var l := CacheStep(Interpret(x.server(RequestFor("tools/list", Null, x.requestId)), rt.loads));
        toolsCache == l.cache && tools == l.tools
    {
      if toolsCache.Some? {
        return None, toolsCache.value;
      }
      var request, outcome := SendRequest("tools/list", Null, x, rt);
      sent := Some(request);
      tools := ListFrom(outcome);
    }

    /** The part of `get_available_tools` after the request. */
    method ListFrom(outcome: Result<Json>) returns (tools: Json)
      requires toolsCache.None?
      modifies this`toolsCache
      ensures toolsCache == CacheStep(outcome).cache && tools == CacheStep(outcome).tools
    {
      match outcome {
        case Err(_) =>
          tools := Arr([]);
        case Ok(result) =>
          match In("tools", result) {
            case Err(_) =>
              tools := Arr([]);
            case Ok(true) =>
              match Subscript(result, "tools") {
                case Err(_) => tools := Arr([]);
                case Ok(v) => tools := Store(v);
              }
            case Ok(false) =>
              if result.Arr? {
                tools := Store(result);
              } else {
                tools := Store(Arr([]));
              }
          }
      }
    }

    /** `call_tool`: a `tools/call` request; any failure is raised to the caller. */
    method CallTool(toolName: string, arguments: Json, x: Exchange, rt: Runtime) returns (sent: Request, r: Result<Json>)
      ensures sent == RequestFor("tools/call", Mcp.ToolsCallParams(toolName, arguments), x.requestId)
      ensures r == Interpret(x.server(sent), rt.loads)
    {
      sent, r := SendRequest("tools/call", Mcp.ToolsCallParams(toolName, arguments), x, rt);
    }

    /** `search_elasticsearch(query, index, size=10)`: the `elasticsearch_search` tool; an omitted size is 10. */
    method SearchElasticsearch(query: string, index: Option<string>, size: Option<int>, x: Exchange, rt: Runtime)
      returns (sent: Request, r: Result<Json>)
      ensures sent == RequestFor("tools/call",
        Mcp.ToolsCallParams("elasticsearch_search", SearchParams(query, index, Defaulted(size, Mcp.DefaultSearchSize))), x.requestId)
      ensures r == Interpret(x.server(sent), rt.loads)
    {
      var n := if size.Some? then size.value else Mcp.DefaultSearchSize;
      var params := map["query" := Str(query), "size" := Num(n)];
      if index.Some? && index.value != "" {
        params := params["index" := Str(index.value)];
      }
      sent, r := CallTool("elasticsearch_search", Obj(params), x, rt);
    }

    /** `get_elasticsearch_mapping(index)`: the `get_mappings` tool. */
    method GetElasticsearchMapping(index: Option<string>, x: Exchange, rt: Runtime) returns (sent: Request, r: Result<Json>)
      ensures sent == RequestFor("tools/call", Mcp.ToolsCallParams("get_mappings", MappingParams(index)), x.requestId)
      ensures r == Interpret(x.server(sent), rt.loads)
    {
      var params: map<string, Json> := map[];
      if index.Some? && index.value != "" {
        params := params["index" := Str(index.value)];
      }
      sent, r := CallTool("get_mappings", Obj(params), x, rt);
    }
  }

  /**
   * Off a devtunnel, the two clients send the same POST for the same
   * session, URL and request.
   */
  lemma SameRequestOffTunnel(a: Mcp.McpClient, b: WorkingMcpClient, rpcMethod: string, params: Json, x: Exchange)
    requires a.baseUrl == b.baseUrl && a.sessionId == b.sessionId && !Mcp.IsAzureDevtunnel(a.baseUrl)
    ensures a.RequestFor(rpcMethod, params, x) == b.RequestFor(rpcMethod, params, x.requestId)
  {
  }
}
