/** The data types of agent configuration: queries, stored configurations and results. */
module AgentConfigs {

  /** Settings is the string-to-string map sent to an agent. */
  type Settings = map<string, string>

  /** A stored configuration; an empty name or environment means "any". */
  datatype AgentConfig = AgentConfig(
    config: Settings,
    serviceName: string,
    serviceEnvironment: string,
    agentName: string,
    etag: string)

  datatype Service = Service(name: string, environment: string)

  /** A query. Only `service` takes part in matching. */
  datatype Query = Query(
    service: Service,
    etag: string,
    insecureAgents: seq<string>,
    markAsAppliedByAgent: bool)

  datatype Source = Source(settings: Settings, etag: string, agent: string)

  datatype Result = Result(source: Source)

  /** The etag returned when there is no configuration. */
  const ETAG_SENTINEL := "-"

  function ZeroResult(): Result {
    Result(Source(map[], ETAG_SENTINEL, ""))
  }

  /** What is sent back for a selected configuration. */
  function ToResult(c: AgentConfig): Result {
    Result(Source(c.config, c.etag, c.agentName))
  }

  /** The result holds the settings, etag and agent of this configuration. */
  predicate Carries(r: Result, c: AgentConfig) {
    r.source.settings == c.config && r.source.etag == c.etag && r.source.agent == c.agentName
  }

  /** The result for a service without configuration. */
  predicate IsSentinel(r: Result) {
    r.source.settings == map[] && r.source.etag == "-" && r.source.agent == ""
  }

  /** Whether configuration `c` is stored under exactly this name and environment. */
  predicate HasKey(c: AgentConfig, name: string, env: string) {
    c.serviceName == name && c.serviceEnvironment == env
  }
}
