# Azure AI agent ⇄ Elasticsearch MCP server bridge, modelled in Dafny

This project models the part of the bridge between an Azure AI Foundry agent
and an Elasticsearch MCP (Model Context Protocol) server that has logic. It
covers:

- **The MCP clients.** `MCPClient` and its near-copy `WorkingMCPClient` send
  JSON-RPC 2.0 requests over HTTP POST and read the reply as a single
  Server-Sent Events frame. The first stripped line starting with `data: `
  holds the JSON. A JSON-RPC `error` is raised. Otherwise the client returns
  `result`, or the whole object when there is no `result`.
- **Tunnel headers.** `MCPClient` adds an `X-Tunnel-Authorization` header for
  `devtunnels.ms` URLs. It prefers `DEVTUNNEL_ACCESS_TOKEN`, falls back to an
  Azure credential token, and omits the header when the credential fails.
- **The tool-list cache.** Both clients cache `tools/list` on the instance.
- **The agent (`AzureAIMCPAgent`).**
  - It drops the `esql` tool from the fetched list and converts the rest to
    Azure function-tool definitions.
  - It answers `requires_action` runs by calling every pending tool through
    the MCP client. Each failure is turned into an error output, and the whole
    batch is submitted once.
  - It drives the `run_agent` polling loop up to `completed`, `failed`,
    `cancelled` or `expired`.
- **The Elasticsearch tool adapter (`ElasticsearchMCPTool`).** It has three
  static tool definitions. Its `execute_*` helpers build argument maps with
  optional keys and turn the outcome into a JSON success or error record.
- **The settings validators** for the project endpoint and the model
  deployment name, and the settings defaults.

### How the model is built

- JSON values are the datatype `Py.Json`. Python's `in`, `[]` and `.get` are
  modelled for every kind of value, including the `TypeError` and
  `AttributeError` that Python raises on non-dicts. Such an error records the
  operation that failed and the offending type.
- `json.loads`, `json.dumps`, `str()` of containers and the interpreter's
  wording of its built-in exceptions come in as the `Py.Runtime` oracle.
- The HTTP POST is the `server` oracle of an `Rpc.Exchange`. The exchange also
  carries the fresh request id (`uuid4`) and the tunnel environment: the
  environment token, and the credential's token or its failure.
- Stateful code is written as classes:
  - `Mcp.McpClient` and `WorkingMcp.WorkingMcpClient` own the tool cache.
  - `Agent.AzureAIMcpAgent` owns `mcp_tools`, `last_tool_outputs` and its ids.
- Loops are methods with loop invariants. Each is proved equal to a
  specification function, and the source's promises are lemmas about those
  functions.
- The `while True` run loop is modelled over a finite sequence of polled run
  snapshots. Running out of snapshots gives the outcome `StillPolling`.

Two behaviours of the code worth noting:

- A parsed JSON-RPC reply with neither `result` nor `error` is returned whole,
  not refused as a protocol violation (see `Rpc.BareObjectIsReturned`).
- The deny-list `{"esql"}` is a fixed constant, not configurable.

## Model

Three definitions have no row of their own. Each is stated by the rows that cite the same lines:
`Mcp.IsAzureDevtunnel` (`_is_azure_devtunnel`) by `Mcp.DevtunnelIgnoresCase` and `Mcp.DevtunnelAnywhere`;
`Sse.ParseSse` (`_parse_sse_response`) by `Sse.DecodeMeaning`, `Sse.DecodeAtFirstDataLine` and
`Sse.LaterLinesIgnored`; and `Mcp.McpClient.CallOutcome` (the outcome of `call_tool`) by
`Mcp.McpClient.CallTool`, which is proved to return it.

| member | source | states |
|---|---|---|
| Mcp.DevtunnelIgnoresCase | mcp_client.py:48-50 | devtunnel detection gives the same answer for a URL and its lower-cased form |
| Mcp.DevtunnelAnywhere | mcp_client.py:48-50 | any URL that contains `devtunnels.ms`, in any letter case and at any position, is a devtunnel URL |
| Mcp.TunnelAuthorization | mcp_client.py:74-89 | a tunnel header only on devtunnel URLs; the environment token wins; the credential token is used only when there is no environment token; a failing or absent credential yields no header rather than an error |
| Mcp.McpClient.constructor | mcp_client.py:27-46 | an empty or missing base URL falls back to the configured URL; the session id is fixed; a credential exists only for devtunnel URLs; the cache starts empty |
| Mcp.McpClient.Headers | mcp_client.py:64-91 | the four fixed headers always, with `X-Session-ID` the client's session id and `Cache-Control: no-cache`; at most one extra header, only on devtunnel URLs, present exactly when the tunnel authorisation exists; off a tunnel, exactly the four fixed headers |
| Mcp.McpClient.GetHeaders | mcp_client.py:64-91 | the dictionary built step by step equals the header specification |
| Mcp.McpClient.RequestFor | mcp_client.py:111-130 | the POST goes to the base URL with the client's headers and the JSON-RPC envelope for the exchange's request id |
| Mcp.McpClient.SendRequest | mcp_client.py:111-151 | sends that request and returns the interpretation of the reply: transport failure, HTTP status error, SSE/JSON failure, raised server error or the unwrapped result |
| Mcp.McpClient.Store | mcp_client.py:162-170 | stores the value as the cache (Python `None` counts as not cached) and returns it when it has a length, else an empty list |
| Mcp.McpClient.GetAvailableTools | mcp_client.py:153-174 | a populated cache is returned with no request; otherwise one `tools/list` request is sent, and the returned list and the new cache are those of the normalisation step |
| Mcp.McpClient.ListFrom | mcp_client.py:158-174 | from an empty cache, the reply outcome leaves the cache and returned list that the normalisation step prescribes |
| Mcp.McpClient.CallTool | mcp_client.py:176-189 | a `tools/call` request with params `{name, arguments}`; the outcome, failure included, is passed on unchanged |
| Mcp.ToolsCallParams | mcp_client.py:179-182 | params with exactly the keys `name` and `arguments`, holding the tool name and the arguments, and never empty |
| Mcp.CallEnvelope | mcp_client.py:179-182 | the envelope of a tool call carries its `{name, arguments}` params unchanged, since they are never falsy |
| Mcp.ResolveIndex | mcp_client.py:195 | the index used is the given one if non-empty, else the configured one if non-empty, else `_all`; never empty |
| Mcp.SearchArguments | mcp_client.py:194-204 | exactly `index` and `query_body`; the query body holds a `query_string` query for the text and the size |
| Mcp.MappingArguments | mcp_client.py:210-212 | exactly `{index}`, with the resolved index |
| Mcp.McpClient.SearchElasticsearch | mcp_client.py:192-206 | calls tool `search` with the search arguments; an omitted size is 10 |
| Mcp.McpClient.GetElasticsearchMapping | mcp_client.py:208-214 | calls tool `get_mappings` with the mapping arguments |
| Mcp.McpClient.ListElasticsearchIndices | mcp_client.py:216-218 | calls tool `list_indices` with `{index_pattern}`; an omitted pattern is `*` |
| Mcp.McpClient.GetElasticsearchShards | mcp_client.py:220-222 | calls tool `get_shards` with empty arguments |
| Mcp.McpClient.EsqlQuery | mcp_client.py:224-226 | calls tool `esql` with `{query}` |
| Sse.FirstDataLine | mcp_client.py:97-99 | the index found is a data line, and no earlier line after the start is one |
| Sse.DecodePayload | mcp_client.py:101-107 | a payload `json.loads` accepts yields exactly its value; a payload it rejects raises the invalid-JSON error with the decoder's message; nothing else can happen |
| Sse.DecodeMeaning | mcp_client.py:95-109 | "no data" exactly when no stripped line starts with `data: `; otherwise the result is the decoding of the first data line with its 6-character prefix removed |
| Sse.ParseSseResponse | mcp_client.py:93-109 | the line loop with its early return computes exactly the SSE specification |
| Sse.DecodeAtFirstDataLine | mcp_client.py:97-107 | the outcome is decided by the first data line alone, valid JSON or not |
| Sse.LaterLinesIgnored | mcp_client.py:97-103 | once a data line is present, appending any lines changes nothing |
| Rpc.FixedHeaders | mcp_client.py:66-71 | exactly the `Accept`, `Content-Type`, `X-Session-ID` and `Cache-Control` headers with their fixed values |
| Rpc.Envelope | mcp_client.py:115-120 | exactly `jsonrpc` = "2.0", `id`, `method` and `params`; falsy params become `{}` |
| Rpc.Unwrap | mcp_client.py:139-144 | an `error` key raises with its value; otherwise `result` when present, else the whole object; a non-object raises a Python type or attribute error |
| Rpc.Interpret | mcp_client.py:124-151 | an unreachable server is a transport error; a non-2xx status is an HTTP status error; a 2xx reply whose SSE parse fails raises that parse error; a 2xx reply that parses gives the unwrapping of the parsed value (for any JSON value, not only objects); success only for a 2xx reply that parses |
| Rpc.Stored | mcp_client.py:162-170 | the cache value and the returned list for one assignment of the cache |
| Rpc.CacheStep | mcp_client.py:158-174 | a failure gives `[]` and no cache; a `tools` key stores its value, whatever it is, as one cache assignment (`Rpc.Stored`); a bare list gives itself; any other object gives `[]` cached; the list returned is the cached value or `[]` |
| Rpc.CacheKeepsValueWithoutLength | mcp_client.py:162-174 | a `tools` value without a length is cached even though the call returns `[]` |
| Rpc.ListMentioningToolsIsNotCached | mcp_client.py:162-174 | a bare list containing the string "tools" fails at subscript and leaves the cache empty |
| Rpc.ResultIsUnwrapped | mcp_client.py:139-144 | a 2xx reply whose first data line holds an object with `result` and no `error` yields that `result` |
| Rpc.BareObjectIsReturned | mcp_client.py:144 | in a 2xx reply, an object with neither `result` nor `error` is returned whole |
| Rpc.ErrorIsSurfaced | mcp_client.py:139-141 | in a 2xx reply, an object with `error` raises a server error carrying that value |
| Rpc.NoDataLineFails | mcp_client.py:109 | a 2xx reply without a data line fails with "no data" |
| WorkingMcp.WorkingMcpClient.constructor | working_mcp_client.py:20-25 | the base URL falls back to the configured one; the session id is fixed; the cache starts empty |
| WorkingMcp.WorkingMcpClient.RequestFor | working_mcp_client.py:33-40 | the headers are exactly the four fixed headers (`Accept`, `Content-Type`, `Cache-Control` with their fixed values, `X-Session-ID` the session id), and the JSON-RPC envelope |
| WorkingMcp.WorkingMcpClient.SendRequest | working_mcp_client.py:60-99 | sends that request and returns the interpretation of the reply |
| WorkingMcp.WorkingMcpClient.Store | working_mcp_client.py:110-118 | stores the value as the cache and returns it when it has a length |
| WorkingMcp.WorkingMcpClient.GetAvailableTools | working_mcp_client.py:101-122 | a populated cache short-circuits the request; otherwise the normalisation step decides the returned list and the new cache |
| WorkingMcp.WorkingMcpClient.ListFrom | working_mcp_client.py:106-122 | from an empty cache, the reply outcome leaves the cache and returned list of the normalisation step |
| WorkingMcp.WorkingMcpClient.CallTool | working_mcp_client.py:124-136 | a `tools/call` request with params `{name, arguments}`; the outcome is passed on unchanged |
| WorkingMcp.SearchParams | working_mcp_client.py:141-146 | `query` and `size` always, and `index` exactly when a non-empty index is given |
| WorkingMcp.MappingParams | working_mcp_client.py:152-154 | `{index}` when a non-empty index is given, else `{}` |
| WorkingMcp.WorkingMcpClient.SearchElasticsearch | working_mcp_client.py:139-148 | the mutated params dictionary is the search params, with an omitted size of 10, sent to tool `elasticsearch_search` |
| WorkingMcp.WorkingMcpClient.GetElasticsearchMapping | working_mcp_client.py:150-156 | the mutated params dictionary is the mapping params, sent to tool `get_mappings` |
| WorkingMcp.MappingAgreesWhenGiven | working_mcp_client.py:150-156 | when an index is named, both clients ask for the mapping of that same index |
| WorkingMcp.SameRequestOffTunnel | working_mcp_client.py:33-40 | off a devtunnel, both clients send the identical POST for the same session and request |
| Agent.Entries | azure_ai_agent.py:86 | iterating the fetched value: a list yields its items; anything else yields no tools or the Python error |
| Agent.KeepTools | azure_ai_agent.py:86 | succeeds exactly when every entry supports `.get` with a hashable name; never adds entries |
| Agent.KeepToolsConcat | azure_ai_agent.py:86 | the filter of a concatenation is the concatenation of the filters, so order is kept |
| Agent.KeepToolsMembers | azure_ai_agent.py:85-86 | a tool is kept exactly when it was fetched and its name is not `esql` |
| Agent.Filter | azure_ai_agent.py:82-86 | a fetched list is filtered entry by entry; a non-list yields no tools or an error |
| Agent.FilterDropsEsql | azure_ai_agent.py:85-86 | fetching search, esql and get_mappings keeps search then get_mappings |
| Agent.Convert | azure_ai_agent.py:104-117 | always `type` = "function"; name, description and parameters are copied when present, else "unknown_tool", "" and the empty object schema |
| Agent.ConvertAll | azure_ai_agent.py:89-92 | one converted entry per kept tool, in order |
| Agent.AzureAIMcpAgent.constructor | azure_ai_agent.py:30-38 | no agent, no thread, no tools and no recorded outputs |
| Agent.AzureAIMcpAgent.SetupMcpTools | azure_ai_agent.py:78-102 | the tools are fetched through the cache, and the client's cache ends as the normalisation step leaves it (unchanged when it was populated); on a filtering error it raises and leaves `mcp_tools` as it was, otherwise `mcp_tools` is the conversion of the kept tools |
| Agent.AzureAIMcpAgent.AppendConverted | azure_ai_agent.py:89-92 | the append loop rebuilds `mcp_tools` as exactly the converted kept tools, in order |
| Agent.DecodeArguments | azure_ai_agent.py:295-298 | malformed argument JSON becomes `{}`; otherwise the decoded value |
| Agent.OutputText | azure_ai_agent.py:303-312 | a dict result is JSON-dumped; any other result is `str`-ed; a failure becomes the dumped `{error: "Tool execution failed: …", success: false}` |
| Agent.BatchOutputs | azure_ai_agent.py:292-317 | exactly one output per pending call |
| Agent.BatchOutputsAt | azure_ai_agent.py:293-317 | output `i` carries call `i`'s id and the output text of what the client's `call_tool` gave for call `i` over its own exchange, so the server's order is kept |
| Agent.Traces | azure_ai_agent.py:320-326 | one trace per call: the call's name, its raw argument text and its output |
| Agent.FailureIsContained | azure_ai_agent.py:303-317 | a failing call yields the dumped error record as its output, and every later call still gets its own output |
| Agent.AzureAIMcpAgent.ExecuteCall | azure_ai_agent.py:294-317 | the output for one call is its id with the output text of the client's outcome for it |
| Agent.AzureAIMcpAgent.CollectOutputs | azure_ai_agent.py:292-317 | the loop over the pending calls builds exactly the batch outputs |
| Agent.AzureAIMcpAgent.RecordTraces | azure_ai_agent.py:320-326 | `last_tool_outputs` is rebuilt as exactly the traces of the calls and their outputs |
| Agent.AzureAIMcpAgent.HandleToolCalls | azure_ai_agent.py:283-339 | submits once, for this thread and run, exactly the batch outputs; `last_tool_outputs` becomes the traces of that batch |
| Agent.Formatted | azure_ai_agent.py:367-372 | exactly `id`, `role`, `content` and `created_at`, copied from the message |
| Agent.Messages | azure_ai_agent.py:351-378 | no thread or a failed listing gives `[]`; otherwise one formatted entry per message in order |
| Agent.AzureAIMcpAgent.GetMessages | azure_ai_agent.py:351-378 | the loop computes exactly the message listing |
| Agent.AzureAIMcpAgent.SendMessage | azure_ai_agent.py:183-213 | without a thread it raises `ValueError("No thread created. Call create_thread() first.")`; otherwise it returns whatever posting the message gives, with an omitted role of "user" |
| Agent.AzureAIMcpAgent.SearchElasticsearch | azure_ai_agent.py:380-396 | the client's search result when it succeeds; a failure is returned as exactly `{error: str(e), success: false}`, never raised; an omitted size is 10 |
| Agent.AzureAIMcpAgent.ListAvailableTools | azure_ai_agent.py:398-408 | the client's cached tool list: a populated cache is returned as is, otherwise the normalisation step decides the list and the new cache |
| Agent.Record | azure_ai_agent.py:250-274 | `completed` gives `{status, messages, run_id}` and `cancelled`/`expired` give `{status, messages}`, each with the thread's formatted messages; `failed` gives `{status: "failed", error, messages: []}`; anything else gives no record |
| Agent.FinalOutcome | azure_ai_agent.py:243-260 | the outcome decided by each final status |
| Agent.Drive | azure_ai_agent.py:234-274 | a decided outcome implies some later poll has a final status; once the run is created the loop itself never raises |
| Agent.FirstFinalDecides | azure_ai_agent.py:234-263 | the first poll with a final status decides the outcome; earlier `requires_action` and other polls do not |
| Agent.NoFinalKeepsPolling | azure_ai_agent.py:234-263 | without a final status the loop is still polling |
| Agent.OneSubmissionPerAction | azure_ai_agent.py:245-247 | one submission per `requires_action` poll before the final status, and none after it |
| Agent.FailureAtFirstPoll | azure_ai_agent.py:248-254 | a run failed at its first poll submits nothing, keeps the recorded outputs and reports no messages |
| Agent.AzureAIMcpAgent.RunAgent | azure_ai_agent.py:215-281 | without an agent and a thread it raises `ValueError("Agent and thread must be created first.")` before any poll; otherwise the loop's outcome, submissions and final `last_tool_outputs` are those of the run specification |
| Agent.AzureAIMcpAgent.PollRun | azure_ai_agent.py:234-274 | the polling loop, with its `break` and early returns, yields exactly the outcome, the submissions and the final `last_tool_outputs` of the run specification |
| ElasticsearchTools.SearchToolDefinition | elasticsearch_tools.py:25-64 | a well-formed function tool named `elasticsearch_search`, declaring the search parameters |
| ElasticsearchTools.MappingToolDefinition | elasticsearch_tools.py:66-88 | a well-formed function tool named `elasticsearch_mapping`, declaring the mapping parameters |
| ElasticsearchTools.AnalyzeToolDefinition | elasticsearch_tools.py:90-119 | a well-formed function tool named `elasticsearch_analyze`, declaring the analyze parameters |
| ElasticsearchTools.DeclaredParameters | elasticsearch_tools.py:25-119 | the search tool declares exactly `query`, `index`, `size` and `filters`; the mapping tool exactly `index`; the analyze tool exactly `text`, `analyzer` and `index` |
| ElasticsearchTools.GetElasticsearchTools | elasticsearch_tools.py:261-275 | exactly three well-formed definitions: search, mapping, analyze, in that order |
| ElasticsearchTools.AdvertisedDefaults | elasticsearch_tools.py:25-119 | the advertised defaults are size 10 and analyzer "standard", the same values the executors fall back to |
| ElasticsearchTools.ErrorRecord | elasticsearch_tools.py:154-158 | exactly `success` = false, `error` and `message` |
| ElasticsearchTools.ReportedError | elasticsearch_tools.py:153-156 | the `error` value of a dict result, if any; a list is searched for the string "error" and never reports one |
| ElasticsearchTools.TotalHits | elasticsearch_tools.py:164 | 0 without `hits`; otherwise `hits.total.value` with `.get` defaults; a non-dict `hits`, or a non-dict `total` under a dict `hits`, raises |
| ElasticsearchTools.Screen | elasticsearch_tools.py:150-173 | a failed call or raised error becomes the "unexpected" error record with `str(e)`; a result with `error` becomes the "failed" record carrying it; otherwise the result goes on |
| ElasticsearchTools.SearchRecord | elasticsearch_tools.py:150-173 | success exactly when the call succeeded without `error` and the hit count could be read; a success carries the results, the query and the hit count; a hit count that cannot be read gives the "Unexpected error during search execution" record with `str(e)` |
| ElasticsearchTools.SearchWithoutHits | elasticsearch_tools.py:160-165 | a result without `hits` reports `total_hits` = 0 |
| ElasticsearchTools.SearchCountsHits | elasticsearch_tools.py:164 | a result with `hits.total.value` reports that value |
| ElasticsearchTools.MappingRecord | elasticsearch_tools.py:191-212 | the screened error record, or success with the mapping and `index or "default"` |
| ElasticsearchTools.AnalyzeRecord | elasticsearch_tools.py:236-258 | the screened error record, or success with the analysis, the text and the analyzer |
| ElasticsearchTools.WithIfTruthy | elasticsearch_tools.py:143-147 | the key is added exactly when the value is truthy; other keys are unchanged |
| ElasticsearchTools.SearchArguments | elasticsearch_tools.py:132-147 | `query` (default "") and `size` (default 10) always; `index` and `filters` exactly when truthy |
| ElasticsearchTools.MappingArguments | elasticsearch_tools.py:185-189 | `index` exactly when truthy, else nothing |
| ElasticsearchTools.AnalyzeArguments | elasticsearch_tools.py:224-234 | `text` (default "") and `analyzer` (default "standard") always; `index` exactly when truthy, with the given value |
| ElasticsearchTools.AnalyzerDefaults | elasticsearch_tools.py:225 | with no analyzer given, "standard" is sent |
| ElasticsearchTools.ElasticsearchMcpTool.constructor | elasticsearch_tools.py:17-23 | the tool keeps the MCP client it is given |
| ElasticsearchTools.ElasticsearchMcpTool.ExecuteSearch | elasticsearch_tools.py:121-173 | sends the search arguments to `elasticsearch_search` and returns the dumped search record of the outcome |
| ElasticsearchTools.ElasticsearchMcpTool.ExecuteMapping | elasticsearch_tools.py:175-212 | sends the mapping arguments to `elasticsearch_mapping` and returns the dumped mapping record |
| ElasticsearchTools.ElasticsearchMcpTool.ExecuteAnalyze | elasticsearch_tools.py:214-258 | sends the analyze arguments to `elasticsearch_analyze` and returns the dumped analyze record |
| Config.ValidateProjectEndpoint | config.py:51-60 | accepted exactly when non-empty, starting with `https://` and containing `services.ai.azure.com`, and then returned unchanged; each rejection has its own message, checked in order |
| Config.ValidateModelDeploymentName | config.py:62-67 | accepted exactly when non-empty, and then returned unchanged |
| Config.EndpointAccepted | config.py:56-60 | every `https://…services.ai.azure.com…` endpoint is accepted as given |
| Config.PlainHttpRefused | config.py:56-57 | every `http://` endpoint is refused with the `https://` message |
| Config.WithDefaults | config.py:16-67 | settings exist exactly when both validators accept, with both required values unchanged; every other field takes its declared default (MCP URL, no tunnel token, host "localhost", port 9200, no username or password, index "default", no Azure client id, secret or tenant, agent name "elasticsearch-mcp-agent", the default instructions); an invalid endpoint gives its own error, and a valid endpoint with an empty deployment name gives the deployment-name error |
| Config.DefaultUrlIsLocal | config.py:24 | the default MCP URL is not a devtunnel URL, so no tunnel header is sent by default |
| Config.DefaultIndexResolves | config.py:34 | with the default index setting, a client call without an index searches "default" |

## Left out

- Asynchrony, `asyncio.sleep`, logging and the httpx client's timeout: they do not change what is computed.
- HTTP transport: the POST is the `server` oracle. `raise_for_status` is modelled as "any status outside 200–299 is an HTTP status error". Redirects are not modelled.
- `uuid4`: the request id and the session id are parameters.
- `json.loads`, `json.dumps` and `str()` of dicts and lists are oracles. JSON floats and the key order of objects are not modelled, because objects are maps.
- The wording of Python's built-in `TypeError`, `AttributeError` and `KeyError` messages is the runtime's (`builtinText`). The model records what each complains of, such as `'int' object is not subscriptable` as `NotSubscriptable("int")`. The messages the source writes itself are spelled out: the tool failure record, the error records, the `ValueError` texts and the client's own exceptions.
- `lower()` is ASCII-only. This does not change devtunnel detection: no non-ASCII character lowers to any letter of `devtunnels.ms`.
- Azure SDK calls (`runs.create`, `runs.get`, `submit_tool_outputs`, `messages.create`, `messages.list`) are oracles or inputs. A failure of `runs.create`, `runs.get` or `submit_tool_outputs` propagates in the source and is not modelled. Neither is a `requires_action` run without `required_action`.
- `Agent.AzureAIMcpAgent.RunAgent`: the unbounded `while True` loop is modelled over a finite sequence of polls. A run that never reaches a final status within them ends as `StillPolling`.
- `initialize`, `cleanup`, `create_agent`, `create_thread` and `_test_mcp_connection` are remote lifecycle plumbing, so they are not modelled.
- The deprecated `handle_tool_calls` is not modelled: it fetches the run once and, when the run requires action, calls `_handle_mcp_tool_calls`, which is modelled as `Agent.AzureAIMcpAgent.HandleToolCalls`.
- The agent's MCP client is fixed at construction rather than created in `initialize`.
- Environment and `.env` loading of the settings is left out. `Config.WithDefaults` returns only the first validation error, where pydantic would collect all of them.
- `tests/` and `examples.py` are live-server scripts and demos. They are not part of this model.
