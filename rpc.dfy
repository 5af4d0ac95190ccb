/**
 * The JSON-RPC-over-SSE exchange both clients perform: the request envelope,
 * the fixed headers, what a reply means (HTTP status, SSE frame, JSON-RPC
 * `error` or `result`), and what `get_available_tools` caches and returns
 * after a `tools/list` reply.
 */
module Rpc {
  import opened Text
  import opened Py
  import Sse

  /** An HTTP POST as the client sends it. */
  datatype Request = Request(url: string, headers: map<string, string>, payload: Json)

  /** What the POST gives back: a status and a body, or a failure to get a reply at all. */
  datatype Reply = Reply(status: int, body: string) | Unreachable(reason: string)

  /**
   * The tunnel credentials at the moment headers are built: the
   * DEVTUNNEL_ACCESS_TOKEN environment variable, and the token the Azure
   * credential hands out (None when `get_token` raises).
   */
  datatype TunnelEnv = TunnelEnv(accessToken: Option<string>, credentialToken: Option<string>)

  /** Everything one request depends on from outside: a fresh request id, the tunnel credentials, the server. */
  datatype Exchange = Exchange(requestId: string, tunnel: TunnelEnv, server: Request -> Reply)

  /** The parsed `{tools: ...}` handling: what is cached (None: nothing) and what is returned. */
  datatype Listing = Listing(cache: Option<Json>, tools: Json)

  const JsonRpcVersion := "2.0"
  const SessionHeader := "X-Session-ID"

  /** The four headers every request carries. */
  function FixedHeaders(sessionId: string): (h: map<string, string>)
    ensures h.Keys == {"Accept", "Content-Type", SessionHeader, "Cache-Control"}
    ensures h[SessionHeader] == sessionId && h["Cache-Control"] == "no-cache"
    ensures h["Accept"] == "application/json, text/event-stream" && h["Content-Type"] == "application/json"
  {
    map[
      "Accept" := "application/json, text/event-stream",
      "Content-Type" := "application/json",
      SessionHeader := sessionId,
      "Cache-Control" := "no-cache"]
  }

  /** The JSON-RPC request object; a missing (or empty) params mapping is sent as `{}`. */
  function Envelope(requestId: string, rpcMethod: string, params: Json): (e: Json)
    ensures e.Obj? && e.fields.Keys == {"jsonrpc", "id", "method", "params"}
    ensures e.fields["jsonrpc"] == Str(JsonRpcVersion)
    ensures e.fields["id"] == Str(requestId) && e.fields["method"] == Str(rpcMethod)
    ensures Truthy(params) ==> e.fields["params"] == params
    ensures !Truthy(params) ==> e.fields["params"] == Obj(map[])
  {
    Obj(map[
      "jsonrpc" := Str(JsonRpcVersion),
      "id" := Str(requestId),
      "method" := Str(rpcMethod),
      "params" := if Truthy(params) then params else Obj(map[])])
  }

  /**
   * The checks after parsing: `"error" in parsed` raises a ServerError with
   * that payload; otherwise `parsed.get("result", parsed)`. A reply that is
   * not a JSON object fails one of these Python operations.
   */
  function Unwrap(parsed: Json): (r: Result<Json>)
    ensures parsed.Obj? && "error" in parsed.fields ==> r == Err(ServerError(parsed.fields["error"]))
    ensures parsed.Obj? && "error" !in parsed.fields && "result" in parsed.fields ==> r == Ok(parsed.fields["result"])
    ensures parsed.Obj? && "error" !in parsed.fields && "result" !in parsed.fields ==> r == Ok(parsed)
    ensures !parsed.Obj? ==> r.Err? && (r.error.TypeError? || r.error.AttributeError?)
  {
    match In("error", parsed)
    case Err(e) => Err(e)
    case Ok(true) =>
      (match Subscript(parsed, "error")
       case Err(e) => Err(e)
       case Ok(payload) => Err(ServerError(payload)))
    case Ok(false) => Get(parsed, "result", parsed)
  }

  /** What `_send_mcp_request` returns or raises, given the reply to its POST. */
  function Interpret(reply: Reply, loads: string -> Decoded): (r: Result<Json>)
    ensures reply.Unreachable? ==> r == Err(Transport(reply.reason))
    ensures reply.Reply? && !(200 <= reply.status < 300) ==> r == Err(HttpStatus(reply.status))
    ensures reply.Reply? && 200 <= reply.status < 300 && Sse.ParseSse(reply.body, loads).Err? ==>
      r == Err(Sse.ParseSse(reply.body, loads).error)
    ensures reply.Reply? && 200 <= reply.status < 300 && Sse.ParseSse(reply.body, loads).Ok? ==>
      r == Unwrap(Sse.ParseSse(reply.body, loads).value)
    ensures r.Ok? ==> reply.Reply? && 200 <= reply.status < 300 && Sse.ParseSse(reply.body, loads).Ok?
  {
    match reply
    case Unreachable(reason) => Err(Transport(reason))
    case Reply(status, body) =>
      if !(200 <= status < 300) then Err(HttpStatus(status))
      else
        match Sse.ParseSse(body, loads)
        case Err(e) => Err(e)
        case Ok(parsed) => Unwrap(parsed)
  }

  /** `len(v)` succeeds: strings, lists and dicts. */
  predicate HasLen(v: Json)
  {
    v.Str? || v.Arr? || v.Obj?
  }

  /**
   * `self._tools_cache = v`, then `len(self._tools_cache)`: storing Python's
   * None leaves the cache empty; a value without a length stays cached
   * although `[]` is returned for this call.
   */
  function Stored(v: Json): (l: Listing)
    ensures l.cache == (if v.Null? then None else Some(v))
    ensures l.tools == (if HasLen(v) then v else Arr([]))
  {
    if v.Null? then Listing(None, Arr([]))
    else if HasLen(v) then Listing(Some(v), v)
    else Listing(Some(v), Arr([]))
  }

  /** What `get_available_tools` caches and returns after a tools/list request with this outcome. */
  function CacheStep(outcome: Result<Json>): (l: Listing)
    ensures outcome.Err? ==> l == Listing(None, Arr([]))
    ensures outcome.Ok? && outcome.value.Obj? && "tools" in outcome.value.fields ==>
      l == Stored(outcome.value.fields["tools"])
    ensures outcome.Ok? && outcome.value.Obj? && "tools" !in outcome.value.fields ==>
      l == Listing(Some(Arr([])), Arr([]))
    ensures outcome.Ok? && outcome.value.Arr? && Str("tools") !in outcome.value.items ==>
      l == Listing(Some(outcome.value), outcome.value)
    ensures outcome.Ok? && !HasLen(outcome.value) ==> l == Listing(None, Arr([]))
    ensures l.cache.None? ==> l.tools == Arr([])
    ensures l.cache.Some? ==> l.cache.value != Null && (l.tools == l.cache.value || l.tools == Arr([]))
  {
    match outcome
    case Err(_) => Listing(None, Arr([]))
    case Ok(result) =>
      match In("tools", result)
      case Err(_) => Listing(None, Arr([]))
      case Ok(true) =>
        (match Subscript(result, "tools")
         case Err(_) => Listing(None, Arr([]))
         case Ok(v) => Stored(v))
      case Ok(false) => Stored(if result.Arr? then result else Arr([]))
  }

  /**
   * A `tools` value without a length poisons the cache: this call returns
   * `[]`, but the value stays cached and is what later calls return.
   */
  lemma CacheKeepsValueWithoutLength()
    ensures CacheStep(Ok(Obj(map["tools" := Num(5)]))) == Listing(Some(Num(5)), Arr([]))
  {
  }

  /** A bare list that happens to contain the string "tools" raises on `result["tools"]`: nothing is cached. */
  lemma ListMentioningToolsIsNotCached()
    ensures CacheStep(Ok(Arr([Str("tools")]))) == Listing(None, Arr([]))
  {
  }

  /** A reply whose first data line holds an object with a `result` and no `error` yields that result. */
  lemma ResultIsUnwrapped(status: int, body: string, loads: string -> Decoded, k: nat, parsed: Json)
    requires 200 <= status < 300
    requires Sse.FirstDataAt(Sse.Lines(body), k)
    requires loads(Sse.Payload(Sse.Lines(body)[k])) == Parsed(parsed)
    requires parsed.Obj? && "error" !in parsed.fields && "result" in parsed.fields
    ensures Interpret(Reply(status, body), loads) == Ok(parsed.fields["result"])
  {
    Sse.DecodeAtFirstDataLine(Sse.Lines(body), k, loads);
  }

  /** An object with neither `result` nor `error` is returned whole. */
  lemma BareObjectIsReturned(status: int, body: string, loads: string -> Decoded, k: nat, parsed: Json)
    requires 200 <= status < 300
    requires Sse.FirstDataAt(Sse.Lines(body), k)
    requires loads(Sse.Payload(Sse.Lines(body)[k])) == Parsed(parsed)
    requires parsed.Obj? && "error" !in parsed.fields && "result" !in parsed.fields
    ensures Interpret(Reply(status, body), loads) == Ok(parsed)
  {
    Sse.DecodeAtFirstDataLine(Sse.Lines(body), k, loads);
  }

  /** A JSON-RPC error reply is raised as a ServerError carrying the payload as it came, whatever else it holds. */
  lemma ErrorIsSurfaced(status: int, body: string, loads: string -> Decoded, k: nat, parsed: Json)
    requires 200 <= status < 300
    requires Sse.FirstDataAt(Sse.Lines(body), k)
    requires loads(Sse.Payload(Sse.Lines(body)[k])) == Parsed(parsed)
    requires parsed.Obj? && "error" in parsed.fields
    ensures Interpret(Reply(status, body), loads) == Err(ServerError(parsed.fields["error"]))
  {
    Sse.DecodeAtFirstDataLine(Sse.Lines(body), k, loads);
  }

  /** A successful reply without any `data: ` line is a NoData failure. */
  lemma NoDataLineFails(body: string, loads: string -> Decoded, status: int)
    requires 200 <= status < 300
    requires forall k :: 0 <= k < |Sse.Lines(body)| ==> !Sse.IsDataLine(Sse.Lines(body)[k])
    ensures Interpret(Reply(status, body), loads) == Err(NoData)
  {
  }
}
