/**
 * The cluster objects the bridge and the operator read and write, with the
 * fields they look at. A string field absent from the object is `""` where
 * every use of it treats absence and the empty string alike (`get(k, "")`
 * or a truthiness test); it is an `Option` where the two differ.
 */
module Cluster {
  import opened Wrappers
  import opened Text
  import opened JsonValue

  /** `DEFAULT_AGENT_ENDPOINT`, also the operator's default endpoint annotation. */
  const DefaultAgentEndpoint: string := "/.well-known/agent.json"

  datatype Metadata = Metadata(
    name: string,
    namespace: string,
    labels: map<string, string>,
    annotations: map<string, string>
  )

  /** The parts of a Route's `spec` that are read: `host`, `tls` (only its
      truthiness matters) and `to.name`. */
  datatype RouteSpec = RouteSpec(host: string, tls: Json, toName: Option<string>)

  /** A watched Kubernetes object (Route, Service, Deployment, ...). For a
      kind without a route spec, `spec` is `NoRouteSpec`. */
  datatype Resource = Resource(apiVersion: string, kind: string, metadata: Metadata, spec: RouteSpec)

  const NoRouteSpec: RouteSpec := RouteSpec("", JNull, None)

  /** `spec.sourceRef` of an Agent CR: the object the agent was found on. */
  datatype SourceRef = SourceRef(apiVersion: string, kind: string, name: string, namespace: string)

  const NoSourceRef: SourceRef := SourceRef("", "", "", "")

  /** One entry of `status.conditions`. */
  datatype Condition = Condition(
    ctype: Option<string>,
    status: string,
    reason: string,
    message: string,
    lastTransitionTime: string
  )

  datatype AgentSpec = AgentSpec(
    agentClass: Option<string>,
    name: Option<string>,
    endpoint: Option<string>,
    sourceRef: SourceRef
  )

  datatype AgentStatus = AgentStatus(
    phase: Option<string>,
    conditions: Option<seq<Condition>>,
    url: Option<string>,
    agentCard: Option<Json>,
    lastSeen: Option<string>
  )

  const NoStatus: AgentStatus := AgentStatus(None, None, None, None, None)

  /** An Agent custom resource. */
  datatype AgentCr = AgentCr(
    apiVersion: string,
    kind: string,
    metadata: Metadata,
    spec: AgentSpec,
    status: AgentStatus
  )

  /** What an HTTP GET yields: a response, or an exception on the way. */
  datatype HttpResult = Response(status: int, body: seq<byte>) | Unreachable
}
