/**
 * The bring-your-own mock agent: its base URL, its configuration default,
 * its card and its canned answer.
 */
module ByoAgent {
  import opened Wrappers
  import opened Text
  import opened JsonValue
  import opened Env
  import opened AgentCards
  import MockAgentServer

  /** `str(n)` for any integer. */
  function IntToString(n: int): (r: string)
    ensures n >= 0 ==> r == NatToString(n)
    ensures n < 0 ==> r == "-" + NatToString(-n)
  {
    if n < 0 then "-" + NatToString(-n) else NatToString(n)
  }

  /** `get_base_url`: `BASE_URL` exactly as given, then `https://` and the
      route host, then `http://host:port`; nothing is validated. */
  function GetBaseUrl(host: string, port: int, env: Environment): (r: string)
    ensures NonEmpty(env, "BASE_URL").Some? ==> r == env["BASE_URL"]
    ensures NonEmpty(env, "BASE_URL").None? && NonEmpty(env, "OPENSHIFT_ROUTE_HOST").Some? ==>
              r == "https://" + env["OPENSHIFT_ROUTE_HOST"]
    ensures NonEmpty(env, "BASE_URL").None? && NonEmpty(env, "OPENSHIFT_ROUTE_HOST").None? ==>
              r == "http://" + host + ":" + IntToString(port)
  {
    match NonEmpty(env, "BASE_URL")
    case Some(base) => base
    case None =>
      match NonEmpty(env, "OPENSHIFT_ROUTE_HOST")
      case Some(routeHost) => "https://" + routeHost
      case None => "http://" + host + ":" + IntToString(port)
  }

  /** Where the mock agent accepts its arguments and its environment holds
      no stray whitespace, both agents pick the same base URL. */
  lemma SameBaseUrlAsMockAgent(host: string, port: int, env: Environment)
    requires host != "" && MockAgentServer.ValidPort(port)
    requires "BASE_URL" in env ==> Strip(env["BASE_URL"]) == env["BASE_URL"]
    requires "OPENSHIFT_ROUTE_HOST" in env ==> Strip(env["OPENSHIFT_ROUTE_HOST"]) == env["OPENSHIFT_ROUTE_HOST"]
    ensures MockAgentServer.GetBaseUrl(host, port, env) == Ok(GetBaseUrl(host, port, env))
  {
  }

  /** A `BASE_URL` of blanks is served as the base URL here, while the mock
      agent refuses it. */
  lemma BlankBaseUrlKept(host: string, port: int, env: Environment)
    requires NonEmpty(env, "BASE_URL") == Some(" ")
    ensures GetBaseUrl(host, port, env) == " "
    ensures host != "" && MockAgentServer.ValidPort(port) ==>
              MockAgentServer.GetBaseUrl(host, port, env) == Err(MockAgentServer.BaseUrlBlank)
  {
    assert Strip(" ") == "" by {
      assert IsSpace(' ');
    }
  }

  // ---------------------------------------------------------------------
  // Configuration (`load_agent_config`)

  /** The parts of the YAML configuration the agent reads: the `agent`
      section and `mock_response` (`None` when the key is absent). */
  datatype ByoConfig = ByoConfig(agent: AgentConfig, mockResponse: Option<Json>)

  const DefaultResponse: string := "Default mock response: The agent is operational."

  const DefaultConfig: ByoConfig := ByoConfig(
    AgentConfig("mock-agent", "A mock agent, used for testing agentic systems.", "0.1.0",
                ["text/plain"], ["text/plain"],
                Some([SkillConfig("status-query", "Query status log", "Find status lines relevant to a user question.",
                                  ["text/plain"], ["text/plain"], Some(["query", "status"]))])),
    Some(JStr(DefaultResponse)))

  /** The file is read only when a path is given and exists; YAML loading
      is the parameter `readYaml`. */
  function LoadAgentConfig(configPath: Option<string>, exists_: string -> bool, readYaml: string -> ByoConfig): (c: ByoConfig)
    ensures configPath.None? || !exists_(configPath.value) ==> c == DefaultConfig
    ensures configPath.Some? && exists_(configPath.value) ==> c == readYaml(configPath.value)
  {
    if configPath.Some? && exists_(configPath.value) then readYaml(configPath.value) else DefaultConfig
  }

  /** With no configuration file the agent advertises the one status-query
      skill and answers with the default response. */
  lemma DefaultConfigCard(baseUrl: string, codec: JsonCodec)
    ensures var card := CardFromConfig(baseUrl, DefaultConfig.agent);
            |card.skills| == 1 && card.skills[0].id == "status-query" &&
            card.skills[0].tags == ["query", "status"] && card.url == baseUrl
    ensures ResponseText(DefaultConfig.mockResponse, codec) == DefaultResponse
  {
    var card := CardFromConfig(baseUrl, DefaultConfig.agent);
    assert card.skills[0] == SkillFromConfig(DefaultConfig.agent.skills.value[0]);
  }

  // ---------------------------------------------------------------------
  // The card (`build_agent_card`)

  /** The skills loop and the card, never signed. */
  method BuildAgentCard(baseUrl: string, config: AgentConfig) returns (card: AgentCard)
    ensures card == CardFromConfig(baseUrl, config)
    ensures card.url == baseUrl && card.signatures.None?
    ensures |card.skills| == |config.skills.GetOr([])|
  {
    var skills := BuildSkills(config);
    card := AgentCard(config.name, config.description, config.version, baseUrl,
                      config.defaultInputModes, config.defaultOutputModes, skills, None);
  }

  // ---------------------------------------------------------------------
  // The canned answer

  const NoResponse: string := "No response data configured."

  /** Python's `str()` of a YAML scalar and `json.dumps(v, indent=2)` of a
      mapping or list. */
  function ResponseText(mockResponse: Option<Json>, codec: JsonCodec): (r: string)
    ensures mockResponse.None? ==> r == NoResponse
    ensures mockResponse.Some? && (mockResponse.value.JObj? || mockResponse.value.JArr?) ==> r == codec.pretty(mockResponse.value)
    ensures mockResponse.Some? && mockResponse.value.JStr? ==> r == mockResponse.value.s
    ensures mockResponse == Some(JNull) ==> r == "None"
    ensures mockResponse.Some? && mockResponse.value.JBool? ==> r == (if mockResponse.value.b then "True" else "False")
  {
    match mockResponse
    case None => NoResponse
    case Some(j) =>
      match j
      case JObj(_) => codec.pretty(j)
      case JArr(_) => codec.pretty(j)
      case JStr(s) => s
      case JNull => "None"
      case JBool(b) => if b then "True" else "False"
      case _ => codec.numberText(j)
  }

  /** `MockAgent`: one fixed response. */
  class MockAgent {
    const responseData: string

    constructor (responseData: string)
      ensures this.responseData == responseData
    {
      this.responseData := responseData;
    }

    /** `answer`: the stored response, whatever the question. */
    method Answer(question: string) returns (r: string)
      ensures r == responseData
    {
      r := responseData;
    }
  }
}
