/**
 * The Elasticsearch tool adapters: the three function-tool definitions
 * offered to a hosted agent, and the `execute_*` operations that turn an
 * agent's arguments into a `tools/call` over the MCP client and its result
 * into a JSON report. A report never raises: every failure becomes a record
 * with `success` false.
 */
module ElasticsearchTools {
  import opened Py
  import opened Rpc
  import Mcp

  const SearchToolName := "elasticsearch_search"
  const MappingToolName := "elasticsearch_mapping"
  const AnalyzeToolName := "elasticsearch_analyze"
  /** The result count a search asks for when the agent gives none. */
  const DefaultSize := 10
  /** The analyzer used when the agent names none. */
  const DefaultAnalyzer := "standard"

  // ------------------------------------------------------------ definitions

  /** A string parameter with a description. */
  function StringParam(description: string): Json
  {
    Obj(map["type" := Str("string"), "description" := Str(description)])
  }

  /** A function tool in the format the agent service takes. */
  function FunctionTool(name: string, description: string, properties: map<string, Json>, required: seq<string>): Json
  {
    Obj(map[
      "type" := Str("function"),
      "function" := Obj(map[
        "name" := Str(name),
        "description" := Str(description),
        "parameters" := Obj(map[
          "type" := Str("object"),
          "properties" := Obj(properties),
          "required" := Arr(seq(|required|, i requires 0 <= i < |required| => Str(required[i])))])])])
  }

  /** The tool name a definition declares, if it is shaped like one. */
  function DefinedName(d: Json): Option<string>
  {
    if d.Obj? && "function" in d.fields && d.fields["function"].Obj?
       && "name" in d.fields["function"].fields && d.fields["function"].fields["name"].Str?
    then Some(d.fields["function"].fields["name"].s)
    else None
  }

  /** The property schemas a definition declares (empty when it is not shaped like one). */
  function Properties(d: Json): map<string, Json>
  {
    if d.Obj? && "function" in d.fields && d.fields["function"].Obj?
       && "parameters" in d.fields["function"].fields && d.fields["function"].fields["parameters"].Obj?
       && "properties" in d.fields["function"].fields["parameters"].fields
       && d.fields["function"].fields["parameters"].fields["properties"].Obj?
    then d.fields["function"].fields["parameters"].fields["properties"].fields
    else map[]
  }

  /**
   * A well-formed function tool: typed "function", named, and every required
   * parameter is one of its declared properties.
   */
  predicate WellFormed(d: Json)
  {
    && d.Obj? && "type" in d.fields && d.fields["type"] == Str("function")
    && DefinedName(d).Some?
    && "parameters" in d.fields["function"].fields
    && var p := d.fields["function"].fields["parameters"];
    && p.Obj? && "required" in p.fields && p.fields["required"].Arr?
    && forall i :: 0 <= i < |p.fields["required"].items| ==>
         p.fields["required"].items[i].Str? && p.fields["required"].items[i].s in Properties(d)
  }

  /** The shape of `FunctionTool`: its name, its properties, and well-formed when every required name is a property. */
  lemma FunctionToolShape(name: string, description: string, properties: map<string, Json>, required: seq<string>)
    ensures DefinedName(FunctionTool(name, description, properties, required)) == Some(name)
    ensures Properties(FunctionTool(name, description, properties, required)) == properties
    ensures (forall i :: 0 <= i < |required| ==> required[i] in properties) ==>
      WellFormed(FunctionTool(name, description, properties, required))
  {
  }

  const SearchDescription :=
    "Search for documents in Elasticsearch using the MCP server. "
    + "This tool can find relevant documents based on text queries, "
    + "filters, and other search criteria."

  const SearchProperties: map<string, Json> := map[
    "query" := StringParam("The search query to execute against Elasticsearch. "
      + "Can be a simple text search or a more complex query."),
    "index" := StringParam("The Elasticsearch index to search in. "
      + "If not provided, uses the default configured index."),
    "size" := Obj(map[
      "type" := Str("integer"),
      "description" := Str("Number of search results to return. Default is 10."),
      "default" := Num(DefaultSize),
      "minimum" := Num(1),
      "maximum" := Num(100)]),
    "filters" := Obj(map[
      "type" := Str("object"),
      "description" := Str("Optional filters to apply to the search query. "
        + "Should be a valid Elasticsearch filter object.")])]

  /** `search_tool_definition`. */
  function SearchToolDefinition(): (d: Json)
    ensures WellFormed(d) && DefinedName(d) == Some(SearchToolName)
    ensures Properties(d) == SearchProperties
  {
    FunctionToolShape(SearchToolName, SearchDescription, SearchProperties, ["query"]);
    FunctionTool(SearchToolName, SearchDescription, SearchProperties, ["query"])
  }

  const MappingDescription :=
    "Get the field mapping information for an Elasticsearch index. "
    + "This helps understand the structure and data types of documents "
    + "in the index."

  const MappingProperties: map<string, Json> :=
    map["index" := StringParam("The Elasticsearch index to get mapping information for. "
      + "If not provided, uses the default configured index.")]

  /** `mapping_tool_definition`. */
  function MappingToolDefinition(): (d: Json)
    ensures WellFormed(d) && DefinedName(d) == Some(MappingToolName)
    ensures Properties(d) == MappingProperties
  {
    FunctionToolShape(MappingToolName, MappingDescription, MappingProperties, []);
    FunctionTool(MappingToolName, MappingDescription, MappingProperties, [])
  }

  const AnalyzeDescription :=
    "Analyze text using Elasticsearch analyzers to understand "
    + "how text will be processed for search."

  const AnalyzeProperties: map<string, Json> := map[
    "text" := StringParam("The text to analyze."),
    "analyzer" := Obj(map[
      "type" := Str("string"),
      "description" := Str("The analyzer to use. If not provided, uses the default analyzer."),
      "default" := Str(DefaultAnalyzer)]),
    "index" := StringParam("The index to use for analysis context.")]

  /** `analyze_tool_definition`. */
  function AnalyzeToolDefinition(): (d: Json)
    ensures WellFormed(d) && DefinedName(d) == Some(AnalyzeToolName)
    ensures Properties(d) == AnalyzeProperties
  {
    FunctionToolShape(AnalyzeToolName, AnalyzeDescription, AnalyzeProperties, ["text"]);
    FunctionTool(AnalyzeToolName, AnalyzeDescription, AnalyzeProperties, ["text"])
  }

  /** The parameters each definition declares. */
  lemma DeclaredParameters()
    ensures Properties(SearchToolDefinition()).Keys == {"query", "index", "size", "filters"}
    ensures Properties(MappingToolDefinition()).Keys == {"index"}
    ensures Properties(AnalyzeToolDefinition()).Keys == {"text", "analyzer", "index"}
  {
  }

  /** `get_elasticsearch_tools`: the three definitions, search, mapping and analyze, in that order. */
  function GetElasticsearchTools(): (tools: seq<Json>)
    ensures |tools| == 3
    ensures WellFormed(tools[0]) && WellFormed(tools[1]) && WellFormed(tools[2])
    ensures DefinedName(tools[0]) == Some(SearchToolName)
    ensures DefinedName(tools[1]) == Some(MappingToolName)
    ensures DefinedName(tools[2]) == Some(AnalyzeToolName)
  {
    [SearchToolDefinition(), MappingToolDefinition(), AnalyzeToolDefinition()]
  }

  /** The defaults the definitions advertise are the ones the operations apply. */
  lemma AdvertisedDefaults()
    ensures Properties(SearchToolDefinition())["size"].fields["default"] == Num(DefaultSize)
    ensures Properties(AnalyzeToolDefinition())["analyzer"].fields["default"] == Str(DefaultAnalyzer)
  {
  }

  // ------------------------------------------------------------- reports

  /** The record of a failure: `success` false, the error, and a message saying what failed. */
  function ErrorRecord(error: Json, message: string): (j: Json)
    ensures j.Obj? && j.fields.Keys == {"success", "error", "message"} && j.fields["success"] == Bool(false)
    ensures j.fields["error"] == error && j.fields["message"] == Str(message)
  {
    Obj(map["success" := Bool(false), "error" := error, "message" := Str(message)])
  }

  /** `"error" in result` followed by `result["error"]`: the reported error, if any, or the exception raised. */
  function ReportedError(result: Json): (r: Result<Option<Json>>)
    ensures result.Obj? ==> r == Ok(if "error" in result.fields then Some(result.fields["error"]) else None)
    ensures result.Arr? && Str("error") !in result.items ==> r == Ok(None)
    ensures r.Ok? && r.value.Some? ==> result.Obj?
  {
    match In("error", result)
    case Err(e) => Err(e)
    case Ok(false) => Ok(None)
    case Ok(true) =>
      match Subscript(result, "error")
      case Err(e) => Err(e)
      case Ok(v) => Ok(Some(v))
  }

  /** `result.get("hits", {}).get("total", {}).get("value", 0) if "hits" in result else 0`. */
  function TotalHits(result: Json): (r: Result<Json>)
    ensures result.Obj? && "hits" !in result.fields ==> r == Ok(Num(0))
    ensures result.Obj? && "hits" in result.fields && result.fields["hits"].Obj? ==>
      var hits := result.fields["hits"].fields;
      && ("total" !in hits ==> r == Ok(Num(0)))
      && ("total" in hits && hits["total"].Obj? ==> r == Ok(Lookup(hits["total"].fields, "value", Num(0))))
    ensures result.Obj? && "hits" in result.fields && !result.fields["hits"].Obj? ==> r.Err?
    ensures result.Obj? && "hits" in result.fields && result.fields["hits"].Obj? ==>
      var hits := result.fields["hits"].fields;
      "total" in hits && !hits["total"].Obj? ==> r.Err?
  {
    match In("hits", result)
    case Err(e) => Err(e)
    case Ok(false) => Ok(Num(0))
    case Ok(true) =>
      match Get(result, "hits", Obj(map[]))
      case Err(e) => Err(e)
      case Ok(hits) =>
        match Get(hits, "total", Obj(map[]))
        case Err(e) => Err(e)
        case Ok(total) => Get(total, "value", Num(0))
  }

  const SearchFailed := "Failed to execute Elasticsearch search"
  const SearchUnexpected := "Unexpected error during search execution"
  const MappingFailed := "Failed to get Elasticsearch mapping"
  const MappingUnexpected := "Unexpected error getting mapping"
  const AnalyzeFailed := "Failed to analyze text"
  const AnalyzeUnexpected := "Unexpected error during text analysis"

  /** What the check for a reported error leaves: a finished failure record, or the result to report on. */
  datatype Screened = Done(record: Json) | Proceed(result: Json)

  /**
   * The common start of every report: an exception becomes an error record
   * with its text; a result carrying `error` becomes an error record with
   * that value; any other result goes on to be reported.
   */
  function Screen(outcome: Result<Json>, rt: Runtime, failed: string, unexpected: string): (s: Screened)
    ensures outcome.Err? ==> s == Done(ErrorRecord(Str(Message(rt, outcome.error)), unexpected))
    ensures outcome.Ok? && outcome.value.Obj? && "error" in outcome.value.fields ==>
      s == Done(ErrorRecord(outcome.value.fields["error"], failed))
    ensures outcome.Ok? && outcome.value.Obj? && "error" !in outcome.value.fields ==> s == Proceed(outcome.value)
    ensures s.Proceed? ==> outcome == Ok(s.result)
    ensures s.Done? ==>
      && s.record.Obj? && s.record.fields.Keys == {"success", "error", "message"}
      && s.record.fields["success"] == Bool(false)
  {
    match outcome
    case Err(e) => Done(ErrorRecord(Str(Message(rt, e)), unexpected))
    case Ok(result) =>
      match ReportedError(result)
      case Err(e) => Done(ErrorRecord(Str(Message(rt, e)), unexpected))
      case Ok(Some(v)) => Done(ErrorRecord(v, failed))
      case Ok(None) => Proceed(result)
  }

  /** The search report: the error record, or the results with the query and the total hit count. */
  function SearchRecord(outcome: Result<Json>, query: Json, rt: Runtime): (j: Json)
    ensures j.Obj? && "success" in j.fields
    ensures j.fields["success"] == Bool(true) <==>
      Screen(outcome, rt, SearchFailed, SearchUnexpected).Proceed? && TotalHits(outcome.value).Ok?
    ensures Screen(outcome, rt, SearchFailed, SearchUnexpected).Done? ==>
      j == Screen(outcome, rt, SearchFailed, SearchUnexpected).record
    ensures Screen(outcome, rt, SearchFailed, SearchUnexpected).Proceed? && TotalHits(outcome.value).Err? ==>
      j == ErrorRecord(Str(Message(rt, TotalHits(outcome.value).error)), SearchUnexpected)
    ensures j.fields["success"] == Bool(true) ==>
      j == Obj(map["success" := Bool(true), "results" := outcome.value, "query" := query,
                   "total_hits" := TotalHits(outcome.value).value])
  {
    match Screen(outcome, rt, SearchFailed, SearchUnexpected)
    case Done(record) => record
    case Proceed(result) =>
      match TotalHits(result)
      case Err(e) => ErrorRecord(Str(Message(rt, e)), SearchUnexpected)
      case Ok(hits) => Obj(map["success" := Bool(true), "results" := result, "query" := query, "total_hits" := hits])
  }

  /** A plain object result without `error` or `hits` is reported with zero hits. */
  lemma SearchWithoutHits(result: map<string, Json>, query: Json, rt: Runtime)
    requires "error" !in result && "hits" !in result
    ensures SearchRecord(Ok(Obj(result)), query, rt) ==
      Obj(map["success" := Bool(true), "results" := Obj(result), "query" := query, "total_hits" := Num(0)])
  {
  }

  /** `hits.total.value` is the reported total. */
  lemma SearchCountsHits(result: map<string, Json>, query: Json, rt: Runtime, value: Json)
    requires "error" !in result && "hits" in result && result["hits"].Obj?
    requires "total" in result["hits"].fields && result["hits"].fields["total"] == Obj(map["value" := value])
    ensures SearchRecord(Ok(Obj(result)), query, rt).fields["total_hits"] == value
  {
  }

  /** The mapping report: the error record, or the mapping with `index or "default"`. */
  function MappingRecord(outcome: Result<Json>, index: Json, rt: Runtime): (j: Json)
    ensures Screen(outcome, rt, MappingFailed, MappingUnexpected).Done? ==>
      j == Screen(outcome, rt, MappingFailed, MappingUnexpected).record
    ensures Screen(outcome, rt, MappingFailed, MappingUnexpected).Proceed? ==>
      j == Obj(map["success" := Bool(true), "mapping" := outcome.value,
                   "index" := if Truthy(index) then index else Str("default")])
  {
    match Screen(outcome, rt, MappingFailed, MappingUnexpected)
    case Done(record) => record
    case Proceed(result) =>
      Obj(map["success" := Bool(true), "mapping" := result, "index" := if Truthy(index) then index else Str("default")])
  }

  /** The analysis report: the error record, or the analysis with the text and the analyzer used. */
  function AnalyzeRecord(outcome: Result<Json>, text: Json, analyzer: Json, rt: Runtime): (j: Json)
    ensures Screen(outcome, rt, AnalyzeFailed, AnalyzeUnexpected).Done? ==>
      j == Screen(outcome, rt, AnalyzeFailed, AnalyzeUnexpected).record
    ensures Screen(outcome, rt, AnalyzeFailed, AnalyzeUnexpected).Proceed? ==>
      j == Obj(map["success" := Bool(true), "analysis" := outcome.value, "text" := text, "analyzer" := analyzer])
  {
    match Screen(outcome, rt, AnalyzeFailed, AnalyzeUnexpected)
    case Done(record) => record
    case Proceed(result) =>
      Obj(map["success" := Bool(true), "analysis" := result, "text" := text, "analyzer" := analyzer])
  }

  /** `dict.get(key)`-then-`if value:` insertion: the key is added exactly when the value is truthy. */
  function WithIfTruthy(fields: map<string, Json>, key: string, value: Json): (r: map<string, Json>)
    ensures r.Keys == fields.Keys + (if Truthy(value) then {key} else {})
    ensures Truthy(value) ==> r[key] == value
    ensures forall k :: k in fields && k != key ==> r[k] == fields[k]
  {
    if Truthy(value) then fields[key := value] else fields
  }

  /** The arguments `execute_search` sends: query and size always, index and filters only when truthy. */
  function SearchArguments(arguments: map<string, Json>): (a: map<string, Json>)
    ensures {"query", "size"} <= a.Keys <= {"query", "size", "index", "filters"}
    ensures a["query"] == Lookup(arguments, "query", Str("")) && a["size"] == Lookup(arguments, "size", Num(DefaultSize))
    ensures "index" in a <==> Truthy(Lookup(arguments, "index", Null))
    ensures "filters" in a <==> Truthy(Lookup(arguments, "filters", Null))
    ensures "index" in a ==> a["index"] == arguments["index"]
    ensures "filters" in a ==> a["filters"] == arguments["filters"]
  {
    var base := map["query" := Lookup(arguments, "query", Str("")), "size" := Lookup(arguments, "size", Num(DefaultSize))];
    WithIfTruthy(WithIfTruthy(base, "index", Lookup(arguments, "index", Null)), "filters", Lookup(arguments, "filters", Null))
  }

  /** The arguments `execute_mapping` sends: the index only when truthy. */
  function MappingArguments(arguments: map<string, Json>): (a: map<string, Json>)
    ensures a.Keys <= {"index"}
    ensures "index" in a <==> Truthy(Lookup(arguments, "index", Null))
    ensures "index" in a ==> a["index"] == arguments["index"]
  {
    WithIfTruthy(map[], "index", Lookup(arguments, "index", Null))
  }

  /** The arguments `execute_analyze` sends: text and analyzer always, the index only when truthy. */
  function AnalyzeArguments(arguments: map<string, Json>): (a: map<string, Json>)
    ensures {"text", "analyzer"} <= a.Keys <= {"text", "analyzer", "index"}
    ensures a["text"] == Lookup(arguments, "text", Str(""))
    ensures a["analyzer"] == Lookup(arguments, "analyzer", Str(DefaultAnalyzer))
    ensures "index" in a <==> Truthy(Lookup(arguments, "index", Null))
    ensures "index" in a ==> a["index"] == arguments["index"]
  {
    var base := map["text" := Lookup(arguments, "text", Str("")), "analyzer" := Lookup(arguments, "analyzer", Str(DefaultAnalyzer))];
    WithIfTruthy(base, "index", Lookup(arguments, "index", Null))
  }

  /** An agent that names no analyzer gets the standard one. */
  lemma AnalyzerDefaults(arguments: map<string, Json>)
    requires "analyzer" !in arguments
    ensures AnalyzeArguments(arguments)["analyzer"] == Str("standard")
  {
  }

  class ElasticsearchMcpTool {
    const client: Mcp.McpClient

    constructor (client: Mcp.McpClient)
      ensures this.client == client
    {
      this.client := client;
    }

    /** `execute_search`: build the arguments, call `elasticsearch_search`, report. */
    method ExecuteSearch(arguments: map<string, Json>, x: Exchange, rt: Runtime) returns (sent: Request, report: string)
      ensures sent == client.RequestFor("tools/call", Mcp.ToolsCallParams(SearchToolName, Obj(SearchArguments(arguments))), x)
      ensures report == rt.dumps(SearchRecord(client.CallOutcome(SearchToolName, Obj(SearchArguments(arguments)), x, rt),
                                              Lookup(arguments, "query", Str("")), rt))
    {
      var query := Lookup(arguments, "query", Str(""));
      var index := Lookup(arguments, "index", Null);
      var size := Lookup(arguments, "size", Num(DefaultSize));
      var filters := Lookup(arguments, "filters", Null);
      var searchArgs := map["query" := query, "size" := size];
      if Truthy(index) {
        searchArgs := searchArgs["index" := index];
      }
      if Truthy(filters) {
        searchArgs := searchArgs["filters" := filters];
      }
      assert searchArgs == SearchArguments(arguments);
      var result;
      sent, result := client.CallTool(SearchToolName, Obj(searchArgs), x, rt);
      report := rt.dumps(SearchRecord(result, query, rt));
    }

    /** `execute_mapping`: build the arguments, call `elasticsearch_mapping`, report. */
    method ExecuteMapping(arguments: map<string, Json>, x: Exchange, rt: Runtime) returns (sent: Request, report: string)
      ensures sent == client.RequestFor("tools/call", Mcp.ToolsCallParams(MappingToolName, Obj(MappingArguments(arguments))), x)
      ensures report == rt.dumps(MappingRecord(client.CallOutcome(MappingToolName, Obj(MappingArguments(arguments)), x, rt),
                                               Lookup(arguments, "index", Null), rt))
    {
      var index := Lookup(arguments, "index", Null);
      var mappingArgs: map<string, Json> := map[];
      if Truthy(index) {
        mappingArgs := mappingArgs["index" := index];
      }
      var result;
      sent, result := client.CallTool(MappingToolName, Obj(mappingArgs), x, rt);
      report := rt.dumps(MappingRecord(result, index, rt));
    }

    /** `execute_analyze`: build the arguments, call `elasticsearch_analyze`, report. */
    method ExecuteAnalyze(arguments: map<string, Json>, x: Exchange, rt: Runtime) returns (sent: Request, report: string)
      ensures sent == client.RequestFor("tools/call", Mcp.ToolsCallParams(AnalyzeToolName, Obj(AnalyzeArguments(arguments))), x)
      ensures report == rt.dumps(AnalyzeRecord(client.CallOutcome(AnalyzeToolName, Obj(AnalyzeArguments(arguments)), x, rt),
                                               Lookup(arguments, "text", Str("")),
                                               Lookup(arguments, "analyzer", Str(DefaultAnalyzer)), rt))
    {
      var text := Lookup(arguments, "text", Str(""));
      var analyzer := Lookup(arguments, "analyzer", Str(DefaultAnalyzer));
      var index := Lookup(arguments, "index", Null);
      var analyzeArgs := map["text" := text, "analyzer" := analyzer];
      if Truthy(index) {
        analyzeArgs := analyzeArgs["index" := index];
      }
      var result;
      sent, result := client.CallTool(AnalyzeToolName, Obj(analyzeArgs), x, rt);
      report := rt.dumps(AnalyzeRecord(result, text, analyzer, rt));
    }
  }
}
