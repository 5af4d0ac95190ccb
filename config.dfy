/**
 * The settings the agent runs with: their defaults, and the two validators
 * that reject a missing or malformed project endpoint and a missing model
 * deployment name.
 */
module Config {
  import opened Text
  import opened Py
  import Mcp

  const DefaultMcpServerUrl := "http://localhost:8080/mcp"
  const DefaultElasticsearchHost := "localhost"
  const DefaultElasticsearchPort := 9200
  const DefaultElasticsearchIndex := "default"
  const DefaultAgentName := "elasticsearch-mcp-agent"
  const DefaultAgentInstructions :=
    "You are a helpful agent that can search and analyze data using Elasticsearch. "
    + "You have access to an MCP (Model Context Protocol) server that provides "
    + "Elasticsearch search capabilities. Use the search tools to help users find "
    + "and analyze data effectively."

  const EndpointScheme := "https://"
  const EndpointDomain := "services.ai.azure.com"

  /** The settings, one field per setting. */
  datatype Settings = Settings(
    projectEndpoint: string,
    modelDeploymentName: string,
    mcpServerUrl: string,
    devtunnelAccessToken: Option<string>,
    elasticsearchHost: string,
    elasticsearchPort: int,
    elasticsearchUsername: Option<string>,
    elasticsearchPassword: Option<string>,
    elasticsearchIndex: string,
    azureClientId: Option<string>,
    azureClientSecret: Option<string>,
    azureTenantId: Option<string>,
    agentName: string,
    agentInstructions: string)

  /** `validate_project_endpoint`: set, an https URL, and on the Azure AI services domain; returned unchanged. */
  function ValidateProjectEndpoint(v: string): (r: Result<string>)
    ensures r.Ok? <==> v != "" && StartsWith(v, EndpointScheme) && Contains(v, EndpointDomain)
    ensures r.Ok? ==> r.value == v
    ensures v == "" ==> r == Err(ValueError("PROJECT_ENDPOINT must be set"))
    ensures v != "" && !StartsWith(v, EndpointScheme) ==>
      r == Err(ValueError("PROJECT_ENDPOINT must start with 'https://'"))
    ensures v != "" && StartsWith(v, EndpointScheme) && !Contains(v, EndpointDomain) ==>
      r == Err(ValueError("PROJECT_ENDPOINT must contain 'services.ai.azure.com'"))
  {
    if v == "" then Err(ValueError("PROJECT_ENDPOINT must be set"))
    else if !StartsWith(v, EndpointScheme) then Err(ValueError("PROJECT_ENDPOINT must start with 'https://'"))
    else if !Contains(v, EndpointDomain) then Err(ValueError("PROJECT_ENDPOINT must contain 'services.ai.azure.com'"))
    else Ok(v)
  }

  /** `validate_model_deployment_name`: set; returned unchanged. */
  function ValidateModelDeploymentName(v: string): (r: Result<string>)
    ensures r.Ok? <==> v != ""
    ensures r.Ok? ==> r.value == v
    ensures r.Err? ==> r == Err(ValueError("MODEL_DEPLOYMENT_NAME must be set"))
  {
    if v == "" then Err(ValueError("MODEL_DEPLOYMENT_NAME must be set")) else Ok(v)
  }

  /** An https endpoint on the services domain is accepted, whatever surrounds the domain. */
  lemma EndpointAccepted(host: string, rest: string)
    ensures ValidateProjectEndpoint(EndpointScheme + host + EndpointDomain + rest) ==
      Ok(EndpointScheme + host + EndpointDomain + rest)
  {
    var v := EndpointScheme + host + EndpointDomain + rest;
    assert v[..|EndpointScheme|] == EndpointScheme;
    assert StartsWith(EndpointDomain, EndpointDomain);
    ContainsWithin(EndpointScheme + host, EndpointDomain, rest, EndpointDomain);
  }

  /** A plain-http endpoint is refused, even on the right domain. */
  lemma PlainHttpRefused(rest: string)
    ensures ValidateProjectEndpoint("http://" + rest) == Err(ValueError("PROJECT_ENDPOINT must start with 'https://'"))
  {
    assert ("http://" + rest)[4] == ':';
  }

  /** The settings with both required values given and every other setting left at its default. */
  function WithDefaults(projectEndpoint: string, modelDeploymentName: string): (r: Result<Settings>)
    ensures r.Ok? <==> ValidateProjectEndpoint(projectEndpoint).Ok? && ValidateModelDeploymentName(modelDeploymentName).Ok?
    ensures r.Ok? ==> r.value.projectEndpoint == projectEndpoint && r.value.modelDeploymentName == modelDeploymentName
    ensures r.Ok? ==>
      && r.value.mcpServerUrl == "http://localhost:8080/mcp"
      && r.value.elasticsearchPort == 9200 && r.value.elasticsearchIndex == "default"
      && r.value.devtunnelAccessToken.None?
      && r.value.elasticsearchHost == "localhost"
      && r.value.elasticsearchUsername.None? && r.value.elasticsearchPassword.None?
      && r.value.azureClientId.None? && r.value.azureClientSecret.None? && r.value.azureTenantId.None?
      && r.value.agentName == "elasticsearch-mcp-agent"
      && r.value.agentInstructions == DefaultAgentInstructions
    ensures ValidateProjectEndpoint(projectEndpoint).Err? ==> r == Err(ValidateProjectEndpoint(projectEndpoint).error)
    ensures ValidateProjectEndpoint(projectEndpoint).Ok? && ValidateModelDeploymentName(modelDeploymentName).Err? ==>
      r == Err(ValueError("MODEL_DEPLOYMENT_NAME must be set"))
  {
    match ValidateProjectEndpoint(projectEndpoint)
    case Err(e) => Err(e)
    case Ok(endpoint) =>
      match ValidateModelDeploymentName(modelDeploymentName)
      case Err(e) => Err(e)
      case Ok(name) =>
        Ok(Settings(endpoint, name, DefaultMcpServerUrl, None, DefaultElasticsearchHost, DefaultElasticsearchPort,
                    None, None, DefaultElasticsearchIndex, None, None, None, DefaultAgentName, DefaultAgentInstructions))
  }

  /** The default MCP URL is not a devtunnel URL: a default client sends no tunnel authorization. */
  lemma DefaultUrlIsLocal()
    ensures !Mcp.IsAzureDevtunnel(DefaultMcpServerUrl)
  {
    var lowered := AsciiLower(DefaultMcpServerUrl);
    assert 'v' !in lowered by {
      forall k | 0 <= k < |lowered| ensures lowered[k] != 'v' {
        assert lowered[k] == LowerChar(DefaultMcpServerUrl[k]);
      }
    }
    assert 'v' in Mcp.DevtunnelDomain by {
      assert Mcp.DevtunnelDomain[2] == 'v';
    }
    if Contains(lowered, Mcp.DevtunnelDomain) {
      ContainsChars(lowered, Mcp.DevtunnelDomain, 'v');
    }
  }

  /** With the default index configured, the first client's mapping and search calls name index "default". */
  lemma DefaultIndexResolves(index: Option<string>)
    requires index.None? || index.value == ""
    ensures Mcp.ResolveIndex(index, DefaultElasticsearchIndex) == "default"
  {
  }
}
