/**
 * The agent that lets a hosted model use the MCP server's tools: the deny-list
 * filter and conversion of the fetched tool list, the batch handler that
 * answers a `requires_action` run, and the polling loop of `run_agent`.
 * The hosted agent service is seen only through what it returns: the
 * sequence of run snapshots a poll observes, the thread's message listing,
 * and the id a posted message receives.
 */
module Agent {
  import opened Py
  import opened Rpc
  import Mcp

  // ---------------------------------------------------------------- tool list

  /** Tools never offered to the hosted agent. */
  const ExcludedTools: set<string> := {"esql"}
  /** The role `send_message` posts with when none is given. */
  const DefaultRole := "user"

  /** `tool.get("name") in excluded_tools`, for a name value that can be hashed. */
  predicate ExcludedName(name: Json)
  {
    name.Str? && name.s in ExcludedTools
  }

  /** `tool.get("name")` on a tool that is a dict. */
  function NameOf(tool: map<string, Json>): Json
  {
    Lookup(tool, "name", Null)
  }

  /** A list entry the filter can look at without raising: a dict whose name can be hashed. */
  predicate Admissible(entry: Json)
  {
    entry.Obj? && !NameOf(entry.fields).Arr? && !NameOf(entry.fields).Obj?
  }

  /** Iterating over the value `get_available_tools` returned, as far as the filter gets. */
  function Entries(fetched: Json): (r: Result<seq<Json>>)
    ensures fetched.Arr? ==> r == Ok(fetched.items)
    ensures r.Ok? && !fetched.Arr? ==> r.value == []
  {
    match fetched
    case Arr(items) => Ok(items)
    case Obj(fields) =>
      // the first key is a `str`, which has no `get`
      if fields == map[] then Ok([]) else Err(AttributeError("str", "get"))
    case Str(s) =>
      if s == [] then Ok([]) else Err(AttributeError("str", "get"))
    case _ => Err(TypeError(NotIterable(TypeName(fetched))))
  }

  /** `[tool for tool in entries if tool.get("name") not in excluded_tools]`, raising at the first entry that cannot be examined. */
  function KeepTools(entries: seq<Json>): (r: Result<seq<map<string, Json>>>)
    ensures r.Ok? <==> forall i :: 0 <= i < |entries| ==> Admissible(entries[i])
    ensures r.Ok? ==> |r.value| <= |entries|
  {
    if entries == [] then Ok([])
    else
      match Get(entries[0], "name", Null)
      case Err(e) => Err(e)
      case Ok(name) =>
        if name.Arr? || name.Obj? then Err(TypeError(Unhashable(TypeName(name))))
        else
          match KeepTools(entries[1..])
          case Err(e) => Err(e)
          case Ok(rest) => if ExcludedName(name) then Ok(rest) else Ok([entries[0].fields] + rest)
  }

  /** The filter applied to a concatenation is the two filtered parts, concatenated: it keeps order. */
  lemma {:induction false} KeepToolsConcat(a: seq<Json>, b: seq<Json>)
    ensures KeepTools(a + b) ==
      match KeepTools(a)
      case Err(e) => Err(e)
      case Ok(x) =>
        match KeepTools(b)
        case Err(e) => Err(e)
        case Ok(y) => Ok(x + y)
    decreases |a|
  {
    if a == [] {
      assert a + b == b;
      if KeepTools(b).Ok? {
        assert [] + KeepTools(b).value == KeepTools(b).value;
      }
    } else {
      assert (a + b)[0] == a[0];
      assert (a + b)[1..] == a[1..] + b;
      KeepToolsConcat(a[1..], b);
      if Admissible(a[0]) && KeepTools(a[1..]).Ok? && KeepTools(b).Ok? {
        var x, y := KeepTools(a[1..]).value, KeepTools(b).value;
        assert [a[0].fields] + (x + y) == ([a[0].fields] + x) + y;
      }
    }
  }

  /** The kept tools are exactly the listed tools whose name is not excluded. */
  lemma {:induction false} KeepToolsMembers(entries: seq<Json>, tool: map<string, Json>)
    requires KeepTools(entries).Ok?
    ensures tool in KeepTools(entries).value <==> Obj(tool) in entries && !ExcludedName(NameOf(tool))
    decreases |entries|
  {
    if entries != [] {
      KeepToolsMembers(entries[1..], tool);
      assert entries == [entries[0]] + entries[1..];
      assert Obj(tool) in entries <==> Obj(tool) == entries[0] || Obj(tool) in entries[1..];
    }
  }

  /** What the filter makes of the fetched value: the dicts to convert, or the exception raised. */
  function Filter(fetched: Json): (r: Result<seq<map<string, Json>>>)
    ensures fetched.Arr? ==> r == KeepTools(fetched.items)
    ensures !fetched.Arr? && r.Ok? ==> r.value == []
  {
    match Entries(fetched)
    case Err(e) => Err(e)
    case Ok(entries) => KeepTools(entries)
  }

  /** The catalogue with esql between two other tools loses just the esql entry. */
  lemma FilterDropsEsql(search: map<string, Json>, mappings: map<string, Json>, esql: map<string, Json>)
    requires NameOf(search) == Str("search") && NameOf(mappings) == Str("get_mappings") && NameOf(esql) == Str("esql")
    ensures Filter(Arr([Obj(search), Obj(esql), Obj(mappings)])) == Ok([search, mappings])
  {
    var entries := [Obj(search), Obj(esql), Obj(mappings)];
    assert !ExcludedName(Str("search")) && !ExcludedName(Str("get_mappings")) && ExcludedName(Str("esql"));
    var last := entries[2..];
    assert last[1..] == [];
    assert Get(last[0], "name", Null) == Ok(Str("get_mappings"));
    assert KeepTools(last[1..]) == Ok([]);
    assert [last[0].fields] + [] == [mappings];
    assert KeepTools(last) == Ok([mappings]);
    assert entries[1..][1..] == last;
    assert Get(entries[1..][0], "name", Null) == Ok(Str("esql"));
    assert KeepTools(entries[1..]) == Ok([mappings]);
    assert Get(entries[0], "name", Null) == Ok(Str("search"));
    assert [entries[0].fields] + [mappings] == [search, mappings];
    assert KeepTools(entries) == Ok([search, mappings]);
  }

  /** The parameters schema a tool without `inputSchema` is given. */
  const EmptySchema := Obj(map["type" := Str("object"), "properties" := Obj(map[]), "required" := Arr([])])

  /** `_convert_mcp_tool_to_azure_format`: a function tool with the MCP tool's name, description and schema. */
  function Convert(tool: map<string, Json>): (t: Json)
    ensures t.Obj? && t.fields.Keys == {"type", "function"} && t.fields["type"] == Str("function")
    ensures t.fields["function"].Obj? && t.fields["function"].fields.Keys == {"name", "description", "parameters"}
    ensures "name" in tool ==> t.fields["function"].fields["name"] == tool["name"]
    ensures "name" !in tool ==> t.fields["function"].fields["name"] == Str("unknown_tool")
    ensures "description" in tool ==> t.fields["function"].fields["description"] == tool["description"]
    ensures "description" !in tool ==> t.fields["function"].fields["description"] == Str("")
    ensures "inputSchema" in tool ==> t.fields["function"].fields["parameters"] == tool["inputSchema"]
    ensures "inputSchema" !in tool ==> t.fields["function"].fields["parameters"] == EmptySchema
  {
    Obj(map[
      "type" := Str("function"),
      "function" := Obj(map[
        "name" := Lookup(tool, "name", Str("unknown_tool")),
        "description" := Lookup(tool, "description", Str("")),
        "parameters" := Lookup(tool, "inputSchema", EmptySchema)])])
  }

  /** One converted entry per kept tool, in the same order. */
  function ConvertAll(kept: seq<map<string, Json>>): (tools: seq<Json>)
    ensures |tools| == |kept|
    ensures forall i :: 0 <= i < |kept| ==> tools[i] == Convert(kept[i])
  {
    seq(|kept|, i requires 0 <= i < |kept| => Convert(kept[i]))
  }

  // ------------------------------------------------------------- tool calls

  /** A pending call of a `requires_action` run: its id, the tool's name, the arguments as JSON text. */
  datatype ToolCall = ToolCall(id: string, name: string, arguments: string)

  /** An entry of the list submitted back to the run. */
  datatype ToolOutput = ToolOutput(toolCallId: string, output: string)

  /** An entry of `last_tool_outputs`. */
  datatype ToolTrace = ToolTrace(toolName: string, arguments: string, output: string)

  /** One `submit_tool_outputs` call. */
  datatype Submission = Submission(threadId: string, runId: string, toolOutputs: seq<ToolOutput>)

  /** The arguments a tool is called with: the decoded text, or `{}` when it is not JSON. */
  function DecodeArguments(text: string, loads: string -> Decoded): (a: Json)
    ensures loads(text).Malformed? ==> a == Obj(map[])
    ensures loads(text).Parsed? ==> a == loads(text).value
  {
    match loads(text)
    case Parsed(j) => j
    case Malformed(_) => Obj(map[])
  }

  /** The text recorded for a failed call, as `json.dumps` encodes it. */
  function FailureText(rt: Runtime, e: Error): string
  {
    rt.dumps(Obj(map["error" := Str("Tool execution failed: " + Message(rt, e)), "success" := Bool(false)]))
  }

  /** The output of one call: a dict result JSON-encoded, any other result `str`-ed, a failure an error record. */
  function OutputText(result: Result<Json>, rt: Runtime): (text: string)
    ensures result.Ok? && result.value.Obj? ==> text == rt.dumps(result.value)
    ensures result.Ok? && result.value.Str? ==> text == result.value.s
    ensures result.Ok? && !result.value.Obj? && !result.value.Str? ==> text == Show(rt, result.value)
    ensures result.Err? ==> text == FailureText(rt, result.error)
  {
    match result
    case Ok(value) => if value.Obj? then rt.dumps(value) else Show(rt, value)
    case Err(e) => FailureText(rt, e)
  }

  /** What `mcp_client.call_tool` gives for one pending call, over the exchange it makes. */
  function CallResult(client: Mcp.McpClient, call: ToolCall, x: Exchange, rt: Runtime): Result<Json>
  {
    client.CallOutcome(call.name, DecodeArguments(call.arguments, rt.loads), x, rt)
  }

  /** The entry submitted for one call: its id and the output text of its result. */
  function CallOutput(client: Mcp.McpClient, call: ToolCall, x: Exchange, rt: Runtime): ToolOutput
  {
    ToolOutput(call.id, OutputText(CallResult(client, call, x, rt), rt))
  }

  /** The outputs of a batch: one per call, in the server's order, each call made over its own exchange. */
  function BatchOutputs(client: Mcp.McpClient, calls: seq<ToolCall>, exchange: nat -> Exchange, rt: Runtime): (outs: seq<ToolOutput>)
    ensures |outs| == |calls|
  {
    seq(|calls|, i requires 0 <= i < |calls| => CallOutput(client, calls[i], exchange(i), rt))
  }

  /** Output `i` of a batch carries call `i`'s id and the text of what calling that tool gave. */
  lemma BatchOutputsAt(client: Mcp.McpClient, calls: seq<ToolCall>, exchange: nat -> Exchange, rt: Runtime, i: nat)
    requires i < |calls|
    ensures BatchOutputs(client, calls, exchange, rt)[i] ==
      ToolOutput(calls[i].id, OutputText(CallResult(client, calls[i], exchange(i), rt), rt))
  {
  }

  /** `last_tool_outputs` after a batch: per call, its name, its raw argument text and its output. */
  function Traces(calls: seq<ToolCall>, outs: seq<ToolOutput>): (traces: seq<ToolTrace>)
    requires |outs| == |calls|
    ensures |traces| == |calls|
    ensures forall i :: 0 <= i < |calls| ==>
      traces[i] == ToolTrace(calls[i].name, calls[i].arguments, outs[i].output)
  {
    seq(|calls|, i requires 0 <= i < |calls| => ToolTrace(calls[i].name, calls[i].arguments, outs[i].output))
  }

  /** A failing call does not stop the batch: the calls after it are still made and answered. */
  lemma FailureIsContained(client: Mcp.McpClient, calls: seq<ToolCall>, exchange: nat -> Exchange, rt: Runtime, k: nat)
    requires k < |calls| && CallResult(client, calls[k], exchange(k), rt).Err?
    ensures BatchOutputs(client, calls, exchange, rt)[k] ==
      ToolOutput(calls[k].id, FailureText(rt, CallResult(client, calls[k], exchange(k), rt).error))
    ensures forall j :: k < j < |calls| ==>
      BatchOutputs(client, calls, exchange, rt)[j].output == OutputText(CallResult(client, calls[j], exchange(j), rt), rt)
  {
  }

  // --------------------------------------------------------------- messages

  /** A message as the thread listing returns it; `createdAt` is None when the SDK object lacks it. */
  datatype RemoteMessage = RemoteMessage(id: string, role: string, content: Json, createdAt: Json)

  /** The record `get_messages` makes of one message. */
  function Formatted(m: RemoteMessage): (j: Json)
    ensures j.Obj? && j.fields.Keys == {"id", "role", "content", "created_at"}
    ensures j.fields["id"] == Str(m.id) && j.fields["role"] == Str(m.role)
    ensures j.fields["content"] == m.content && j.fields["created_at"] == m.createdAt
  {
    Obj(map["id" := Str(m.id), "role" := Str(m.role), "content" := m.content, "created_at" := m.createdAt])
  }

  /** `not self.thread_id` fails. */
  predicate HasId(id: Option<string>)
  {
    id.Some? && id.value != ""
  }

  /** What `get_messages` returns: nothing without a thread or when listing fails, else one record per message. */
  function Messages(threadId: Option<string>, listing: Result<seq<RemoteMessage>>): (msgs: seq<Json>)
    ensures !HasId(threadId) || listing.Err? ==> msgs == []
    ensures HasId(threadId) && listing.Ok? ==>
      |msgs| == |listing.value| && forall i :: 0 <= i < |msgs| ==> msgs[i] == Formatted(listing.value[i])
  {
    if !HasId(threadId) || listing.Err? then []
    else seq(|listing.value|, i requires 0 <= i < |listing.value| => Formatted(listing.value[i]))
  }

  // ------------------------------------------------------------ the run loop

  /** A run as one `runs.get` observes it. */
  datatype Snapshot = Snapshot(status: string, toolCalls: seq<ToolCall>, lastError: Json)

  /** What `run_agent` returns or raises; StillPolling: the observed snapshots ran out before a final status. */
  datatype RunOutcome =
    | Completed(messages: seq<Json>, runId: string)
    | Failed(lastError: Json)
    | Ended(status: string, messages: seq<Json>)
    | Raised(error: Error)
    | StillPolling

  /** The returned dict of a run that returned. */
  function Record(o: RunOutcome): (r: Option<Json>)
    ensures r.Some? <==> o.Completed? || o.Failed? || o.Ended?
    ensures o.Completed? ==>
      && r.value.Obj? && r.value.fields.Keys == {"status", "messages", "run_id"}
      && r.value.fields["status"] == Str("completed") && r.value.fields["run_id"] == Str(o.runId)
      && r.value.fields["messages"] == Arr(o.messages)
    ensures o.Failed? ==>
      && r.value.Obj? && r.value.fields.Keys == {"status", "error", "messages"}
      && r.value.fields["status"] == Str("failed") && r.value.fields["error"] == o.lastError
      && r.value.fields["messages"] == Arr([])
    ensures o.Ended? ==>
      && r.value.Obj? && r.value.fields.Keys == {"status", "messages"}
      && r.value.fields["status"] == Str(o.status)
      && r.value.fields["messages"] == Arr(o.messages)
  {
    match o
    case Completed(messages, runId) =>
      Some(Obj(map["status" := Str("completed"), "messages" := Arr(messages), "run_id" := Str(runId)]))
    case Failed(lastError) =>
      Some(Obj(map["status" := Str("failed"), "error" := lastError, "messages" := Arr([])]))
    case Ended(status, messages) =>
      Some(Obj(map["status" := Str(status), "messages" := Arr(messages)]))
    case _ => None
  }

  /** The statuses that end the loop. */
  predicate Final(status: string)
  {
    status == "completed" || status == "failed" || status == "cancelled" || status == "expired"
  }

  /** The fixed parts of one run: where it runs, what the thread lists at the end, and the exchanges of its tool calls. */
  datatype RunContext = RunContext(
    threadId: string,
    runId: string,
    messages: seq<Json>,
    exchange: nat -> nat -> Exchange)

  /** What a run comes to: its outcome, the submissions made on the way, and `last_tool_outputs` at the end. */
  datatype Run = Run(outcome: RunOutcome, submitted: seq<Submission>, traces: seq<ToolTrace>)

  /** The outcome a final status gives. */
  function FinalOutcome(s: Snapshot, ctx: RunContext): (o: RunOutcome)
    requires Final(s.status)
    ensures s.status == "completed" ==> o == Completed(ctx.messages, ctx.runId)
    ensures s.status == "failed" ==> o == Failed(s.lastError)
    ensures s.status == "cancelled" || s.status == "expired" ==> o == Ended(s.status, ctx.messages)
  {
    if s.status == "completed" then Completed(ctx.messages, ctx.runId)
    else if s.status == "failed" then Failed(s.lastError)
    else Ended(s.status, ctx.messages)
  }

  /** The loop from poll `i` on, with `traces` the current `last_tool_outputs`. */
  function Drive(client: Mcp.McpClient, polls: seq<Snapshot>, i: nat, ctx: RunContext, traces: seq<ToolTrace>, rt: Runtime): (r: Run)
    requires i <= |polls|
    ensures r.outcome != StillPolling ==> exists k :: i <= k < |polls| && Final(polls[k].status)
    ensures !r.outcome.Raised?
    decreases |polls| - i
  {
    if i == |polls| then Run(StillPolling, [], traces)
    else
      var s := polls[i];
      if Final(s.status) then Run(FinalOutcome(s, ctx), [], traces)
      else if s.status == "requires_action" then
        var outs := BatchOutputs(client, s.toolCalls, ctx.exchange(i), rt);
        var rest := Drive(client, polls, i + 1, ctx, Traces(s.toolCalls, outs), rt);
        Run(rest.outcome, [Submission(ctx.threadId, ctx.runId, outs)] + rest.submitted, rest.traces)
      else Drive(client, polls, i + 1, ctx, traces, rt)
  }

  /** The first final status observed decides the outcome. */
  lemma {:induction false} FirstFinalDecides(client: Mcp.McpClient, polls: seq<Snapshot>, i: nat, k: nat, ctx: RunContext, traces: seq<ToolTrace>, rt: Runtime)
    requires i <= k < |polls| && Final(polls[k].status)
    requires forall j :: i <= j < k ==> !Final(polls[j].status)
    ensures Drive(client, polls, i, ctx, traces, rt).outcome == FinalOutcome(polls[k], ctx)
    decreases k - i
  {
    if i < k {
      var s := polls[i];
      if s.status == "requires_action" {
        var outs := BatchOutputs(client, s.toolCalls, ctx.exchange(i), rt);
        FirstFinalDecides(client, polls, i + 1, k, ctx, Traces(s.toolCalls, outs), rt);
      } else {
        FirstFinalDecides(client, polls, i + 1, k, ctx, traces, rt);
      }
    }
  }

  /** Without a final status the loop never returns: there is nothing to report yet. */
  lemma {:induction false} NoFinalKeepsPolling(client: Mcp.McpClient, polls: seq<Snapshot>, i: nat, ctx: RunContext, traces: seq<ToolTrace>, rt: Runtime)
    requires i <= |polls|
    requires forall j :: i <= j < |polls| ==> !Final(polls[j].status)
    ensures Drive(client, polls, i, ctx, traces, rt).outcome == StillPolling
    decreases |polls| - i
  {
    if i < |polls| {
      var s := polls[i];
      if s.status == "requires_action" {
        var outs := BatchOutputs(client, s.toolCalls, ctx.exchange(i), rt);
        NoFinalKeepsPolling(client, polls, i + 1, ctx, Traces(s.toolCalls, outs), rt);
      } else {
        NoFinalKeepsPolling(client, polls, i + 1, ctx, traces, rt);
      }
    }
  }

  /** The number of `requires_action` polls from `i` up to (not including) `k`. */
  function ActionPolls(polls: seq<Snapshot>, i: nat, k: nat): nat
    requires i <= k <= |polls|
    decreases k - i
  {
    if i == k then 0
    else (if polls[i].status == "requires_action" then 1 else 0) + ActionPolls(polls, i + 1, k)
  }

  /** One submission per `requires_action` poll before the final status, and none after it. */
  lemma {:induction false} OneSubmissionPerAction(client: Mcp.McpClient, polls: seq<Snapshot>, i: nat, k: nat, ctx: RunContext, traces: seq<ToolTrace>, rt: Runtime)
    requires i <= k < |polls| && Final(polls[k].status)
    requires forall j :: i <= j < k ==> !Final(polls[j].status)
    ensures |Drive(client, polls, i, ctx, traces, rt).submitted| == ActionPolls(polls, i, k)
    decreases k - i
  {
    if i < k {
      var s := polls[i];
      if s.status == "requires_action" {
        var outs := BatchOutputs(client, s.toolCalls, ctx.exchange(i), rt);
        OneSubmissionPerAction(client, polls, i + 1, k, ctx, Traces(s.toolCalls, outs), rt);
      } else {
        OneSubmissionPerAction(client, polls, i + 1, k, ctx, traces, rt);
      }
    }
  }

  /** A run that fails at once reports the error, no messages, and makes no tool call. */
  lemma FailureAtFirstPoll(client: Mcp.McpClient, polls: seq<Snapshot>, ctx: RunContext, traces: seq<ToolTrace>, rt: Runtime)
    requires |polls| > 0 && polls[0].status == "failed"
    ensures Drive(client, polls, 0, ctx, traces, rt) == Run(Failed(polls[0].lastError), [], traces)
    ensures Record(Failed(polls[0].lastError)).value.fields["messages"] == Arr([])
  {
  }

  /** A run outcome with submissions made before it. */
  function After(earlier: seq<Submission>, r: Run): Run
  {
    Run(r.outcome, earlier + r.submitted, r.traces)
  }

  class AzureAIMcpAgent {
    const client: Mcp.McpClient
    var agentId: Option<string>
    var threadId: Option<string>
    /** The converted tools offered to the hosted agent. */
    var mcpTools: seq<Json>
    /** The calls of the last batch, with their outputs. */
    var lastToolOutputs: seq<ToolTrace>

    /** A fresh agent over an MCP client; the hosted agent and its thread are created later. */
    constructor (client: Mcp.McpClient)
      ensures this.client == client && agentId.None? && threadId.None?
      ensures mcpTools == [] && lastToolOutputs == []
    {
      this.client := client;
      agentId, threadId := None, None;
      mcpTools, lastToolOutputs := [], [];
    }

    /**
     * `_setup_mcp_tools`: fetch the tool list, drop the excluded tools and
     * convert the rest. An exception of the filter is raised with the tool
     * list left as it was.
     */
    method SetupMcpTools(x: Exchange, rt: Runtime) returns (fetched: Json, outcome: Outcome)
      modifies this`mcpTools, client`toolsCache
      ensures old(client.toolsCache).Some? ==> fetched == old(client.toolsCache).value
      ensures old(client.toolsCache).None? ==>
        fetched == CacheStep(Interpret(x.server(client.RequestFor("tools/list", Null, x)), rt.loads)).tools
      ensures old(client.toolsCache).Some? ==> client.toolsCache == old(client.toolsCache)
      ensures old(client.toolsCache).None? ==>
        client.toolsCache == CacheStep(Interpret(x.server(client.RequestFor("tools/list", Null, x)), rt.loads)).cache
      ensures Filter(fetched).Err? ==> outcome == Fail(Filter(fetched).error) && mcpTools == old(mcpTools)
      ensures Filter(fetched).Ok? ==> outcome == Pass && mcpTools == ConvertAll(Filter(fetched).value)
    {
      var sent;
      sent, fetched := client.GetAvailableTools(x, rt);
      match Filter(fetched) {
        case Err(e) =>
          outcome := Fail(e);
        case Ok(kept) =>
          AppendConverted(kept);
          outcome := Pass;
      }
    }

    /** The loop of `_setup_mcp_tools`: `mcp_tools` is rebuilt by appending each kept tool, converted. */
    method AppendConverted(kept: seq<map<string, Json>>)
      modifies this`mcpTools
      ensures mcpTools == ConvertAll(kept)
    {
      mcpTools := [];
      var i := 0;
      while i < |kept|
        invariant 0 <= i <= |kept|
        invariant mcpTools == ConvertAll(kept[..i])
      {
        PrefixGrows(kept, i);
        mcpTools := mcpTools + [Convert(kept[i])];
        i := i + 1;
      }
      WholePrefix(kept);
    }

    /**
     * `_handle_mcp_tool_calls`: call each pending tool in order, record one
     * output per call (a failure as an error record), rebuild
     * `last_tool_outputs`, and submit all outputs at once.
     */
    method HandleToolCalls(threadId: string, runId: string, calls: seq<ToolCall>, exchange: nat -> Exchange, rt: Runtime)
      returns (submission: Submission)
      modifies this`lastToolOutputs
      ensures submission == Submission(threadId, runId, BatchOutputs(client, calls, exchange, rt))
      ensures lastToolOutputs == Traces(calls, submission.toolOutputs)
    {
      var toolOutputs := CollectOutputs(calls, exchange, rt);
      RecordTraces(calls, toolOutputs);
      submission := Submission(threadId, runId, toolOutputs);
    }

    /** The first loop of the batch: one output per call, in order. */
    method CollectOutputs(calls: seq<ToolCall>, exchange: nat -> Exchange, rt: Runtime) returns (toolOutputs: seq<ToolOutput>)
      ensures toolOutputs == BatchOutputs(client, calls, exchange, rt)
    {
      ghost var expected := BatchOutputs(client, calls, exchange, rt);
      toolOutputs := [];
      var i := 0;
      while i < |calls|
        invariant 0 <= i <= |calls| == |expected|
        invariant toolOutputs == expected[..i]
      {
        var output := ExecuteCall(calls[i], exchange(i), rt);
        PrefixGrows(expected, i);
        toolOutputs := toolOutputs + [output];
        i := i + 1;
      }
      WholePrefix(expected);
    }

    /** The second loop of the batch: `last_tool_outputs` rebuilt from the calls and their outputs. */
    method RecordTraces(calls: seq<ToolCall>, toolOutputs: seq<ToolOutput>)
      requires |toolOutputs| == |calls|
      modifies this`lastToolOutputs
      ensures lastToolOutputs == Traces(calls, toolOutputs)
    {
      ghost var expected := Traces(calls, toolOutputs);
      lastToolOutputs := [];
      var k := 0;
      while k < |calls|
        invariant 0 <= k <= |calls| == |expected|
        invariant lastToolOutputs == expected[..k]
      {
        PrefixGrows(expected, k);
        lastToolOutputs := lastToolOutputs + [ToolTrace(calls[k].name, calls[k].arguments, toolOutputs[k].output)];
        k := k + 1;
      }
      WholePrefix(expected);
    }

    /** One iteration of the batch: decode the arguments, call the tool, render the result or the failure. */
    method ExecuteCall(call: ToolCall, x: Exchange, rt: Runtime) returns (out: ToolOutput)
      ensures out == CallOutput(client, call, x, rt)
    {
      var arguments := match rt.loads(call.arguments) case Parsed(j) => j case Malformed(_) => Obj(map[]);
      var sent, result := client.CallTool(call.name, arguments, x, rt);
      var output;
      match result {
        case Ok(value) => output := if value.Obj? then rt.dumps(value) else Show(rt, value);
        case Err(e) => output := FailureText(rt, e);
      }
      out := ToolOutput(call.id, output);
    }

    /**
     * The agent's `search_elasticsearch(query, index, size=10)`: the client's
     * search, with any failure returned as `{error: str(e), success: false}`
     * instead of raised.
     */
    method SearchElasticsearch(query: string, index: Option<string>, size: Option<int>, configuredIndex: string,
                               x: Exchange, rt: Runtime)
      returns (result: Json)
      ensures
        var o := Interpret(x.server(client.RequestFor("tools/call",
          Mcp.ToolsCallParams("search", Mcp.SearchArguments(query, index, configuredIndex, Defaulted(size, Mcp.DefaultSearchSize))),
          x)), rt.loads);
        && (o.Ok? ==> result == o.value)
        && (o.Err? ==> result.Obj? && result.fields.Keys == {"error", "success"}
                       && result.fields["error"] == Str(Message(rt, o.error)) && result.fields["success"] == Bool(false))
    {
      var n := if size.Some? then size.value else Mcp.DefaultSearchSize;
      var sent, r := client.SearchElasticsearch(query, index, Some(n), configuredIndex, x, rt);
      match r {
        case Ok(value) => result := value;
        case Err(e) => result := Obj(map["error" := Str(Message(rt, e)), "success" := Bool(false)]);
      }
    }

    /**
     * `list_available_tools`: the client's cached tool list. Its `except`
     * branch is never taken, because `get_available_tools` raises nothing.
     */
    method ListAvailableTools(x: Exchange, rt: Runtime) returns (tools: Json)
      modifies client`toolsCache
      ensures old(client.toolsCache).Some? ==> tools == old(client.toolsCache).value && client.toolsCache == old(client.toolsCache)
      ensures old(client.toolsCache).None? ==>
        var l := CacheStep(Interpret(x.server(client.RequestFor("tools/list", Null, x)), rt.loads));
        tools == l.tools && client.toolsCache == l.cache
    {
      var sent;
      sent, tools := client.GetAvailableTools(x, rt);
    }

    /** `get_messages`: the thread's messages as records; nothing without a thread or when listing fails. */
    method GetMessages(listing: Result<seq<RemoteMessage>>) returns (msgs: seq<Json>)
      ensures msgs == Messages(threadId, listing)
    {
      if !(threadId.Some? && threadId.value != "") {
        return [];
      }
      match listing {
        case Err(_) =>
          msgs := [];
        case Ok(messages) =>
          msgs := [];
          var i := 0;
          while i < |messages|
            invariant 0 <= i <= |messages| && |msgs| == i
            invariant forall j :: 0 <= j < i ==> msgs[j] == Formatted(messages[j])
          {
            msgs := msgs + [Formatted(messages[i])];
            i := i + 1;
          }
      }
    }

    /**
     * `send_message(content, role="user")`: refused without a thread; otherwise
     * the id the service gives the posted message. An omitted role is `DefaultRole`.
     */
    method SendMessage(content: string, role: Option<string>, post: (string, string, string) -> Result<string>)
      returns (r: Result<string>)
      ensures !HasId(threadId) ==> r == Err(ValueError("No thread created. Call create_thread() first."))
      ensures HasId(threadId) ==> r == post(threadId.value, Defaulted(role, DefaultRole), content)
    {
      if !(threadId.Some? && threadId.value != "") {
        return Err(ValueError("No thread created. Call create_thread() first."));
      }
      var sender := if role.Some? then role.value else DefaultRole;
      r := post(threadId.value, sender, content);
    }

    /**
     * `run_agent`: refused before a run is created unless the agent and the
     * thread exist; then the run is polled to its end.
     */
    method RunAgent(polls: seq<Snapshot>, runId: string, listing: Result<seq<RemoteMessage>>,
                    exchange: nat -> nat -> Exchange, rt: Runtime)
      returns (outcome: RunOutcome, submitted: seq<Submission>)
      modifies this`lastToolOutputs
      ensures !HasId(agentId) || !HasId(threadId) ==>
        outcome == Raised(ValueError("Agent and thread must be created first."))
        && submitted == [] && lastToolOutputs == old(lastToolOutputs)
      ensures HasId(agentId) && HasId(threadId) ==>
        var r := Drive(client, polls, 0, RunContext(threadId.value, runId, Messages(threadId, listing), exchange),
                       old(lastToolOutputs), rt);
        outcome == r.outcome && submitted == r.submitted && lastToolOutputs == r.traces
    {
      if !(agentId.Some? && agentId.value != "") || !(threadId.Some? && threadId.value != "") {
        return Raised(ValueError("Agent and thread must be created first.")), [];
      }
      outcome, submitted := PollRun(polls, RunContext(threadId.value, runId, Messages(threadId, listing), exchange), listing, rt);
    }

    /**
     * The polling loop of `run_agent`: answer each `requires_action`, and
     * return at the first final status, with the thread's messages unless the
     * run failed.
     */
    method PollRun(polls: seq<Snapshot>, ctx: RunContext, listing: Result<seq<RemoteMessage>>, rt: Runtime)
      returns (outcome: RunOutcome, submitted: seq<Submission>)
      requires ctx.messages == Messages(threadId, listing)
      modifies this`lastToolOutputs
      ensures var r := Drive(client, polls, 0, ctx, old(lastToolOutputs), rt);
        outcome == r.outcome && submitted == r.submitted && lastToolOutputs == r.traces
    {
      submitted := [];
      var i := 0;
      while i < |polls|
        invariant 0 <= i <= |polls|
        invariant Drive(client, polls, 0, ctx, old(lastToolOutputs), rt) ==
          After(submitted, Drive(client, polls, i, ctx, lastToolOutputs, rt))
      {
        var run := polls[i];
        if run.status == "completed" {
          break;
        } else if run.status == "requires_action" {
          var s := HandleToolCalls(ctx.threadId, ctx.runId, run.toolCalls, ctx.exchange(i), rt);
          submitted := submitted + [s];
        } else if run.status == "failed" {
          return Failed(run.lastError), submitted;
        } else if run.status == "cancelled" || run.status == "expired" {
          var messages := GetMessages(listing);
          return Ended(run.status, messages), submitted;
        }
        i := i + 1;
      }
      if i == |polls| {
        return StillPolling, submitted;
      }
      var messages := GetMessages(listing);
      outcome := Completed(messages, ctx.runId);
    }
  }
}
