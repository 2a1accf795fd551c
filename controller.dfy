/**
 * The label-driven Agent operator (`AgentController`): it turns a watched
 * Route, Service or Deployment carrying `ai.openshift.io/agent.*` labels
 * into an Agent custom resource, keeps that resource's status (phase and
 * `Ready` condition) in step with the agent's endpoint, and remembers the
 * Agent CRs it created in `managed_agents`.
 *
 * The Kubernetes API is an abstract store of Agent CRs keyed by namespace
 * and name; the namespace's Route listing, the HTTP GET of the agent card,
 * `json.loads` and the clock are parameters.
 */
module AgentOperator {
  import opened Wrappers
  import opened Text
  import opened JsonValue
  import opened Cluster

  // ---------------------------------------------------------------------
  // Labels, annotations and the CRD

  const AgentLabelPrefix: string := "ai.openshift.io/agent."
  const AgentClassLabel: string := AgentLabelPrefix + "class"
  const AgentNameLabel: string := AgentLabelPrefix + "name"
  const AgentVersionLabel: string := AgentLabelPrefix + "version"

  const AgentDescriptionAnnotation: string := "ai.openshift.io/agent.description"
  const AgentSkillsAnnotation: string := "ai.openshift.io/agent.skills"
  const AgentEndpointAnnotation: string := "ai.openshift.io/agent.endpoint"

  const AgentCrdGroup: string := "ai.openshift.io"
  const AgentCrdVersion: string := "v1"

  const ManagedByLabel: string := "app.kubernetes.io/managed-by"
  const ManagedByValue: string := "agent-controller"

  /** What `extract_agent_info` returns. `skills` is absent unless the
      skills annotation is non-empty. */
  datatype AgentInfo = AgentInfo(
    agentClass: string,
    name: string,
    version: string,
    description: string,
    endpoint: string,
    sourceRef: SourceRef,
    skills: Option<seq<string>>
  )

  /** `d.get(k, default)` on a label or annotation map. */
  function Lookup(m: map<string, string>, k: string, default: string): (r: string)
    ensures k in m ==> r == m[k]
    ensures k !in m ==> r == default
  {
    if k in m then m[k] else default
  }

  /** `[skill.strip() for skill in skills_str.split(",")]`: one skill per
      comma-separated part, in order, without surrounding whitespace. */
  function ParseSkills(annotation: string): (r: seq<string>)
    ensures |r| == |Split(annotation, ',')| == Count(annotation, ',') + 1
    ensures forall i :: 0 <= i < |r| ==> r[i] == Strip(Split(annotation, ',')[i])
    ensures forall i, j :: 0 <= i < |r| && 0 <= j < |r[i]| ==> r[i][j] != ','
  {
    SplitJoin(annotation, ',');
    var parts := Split(annotation, ',');
    seq(|parts|, i requires 0 <= i < |parts| => StripInside(parts[i], ','))
  }

  /** `Strip`, recording that it takes no character from outside the part. */
  function StripInside(part: string, c: char): (r: string)
    requires forall j :: 0 <= j < |part| ==> part[j] != c
    ensures r == Strip(part)
    ensures forall j :: 0 <= j < |r| ==> r[j] != c
  {
    var r := Strip(part);
    assert forall j :: 0 <= j < |r| ==> r[j] in part;
    r
  }

  /** `extract_agent_info`: the agent a labelled resource announces. */
  function ExtractAgentInfo(resource: Resource): (r: Option<AgentInfo>)
    ensures r.None? <==> Lookup(resource.metadata.labels, AgentClassLabel, "") == "" ||
                         Lookup(resource.metadata.labels, AgentNameLabel, "") == ""
    ensures r.Some? ==> r.value.agentClass == resource.metadata.labels[AgentClassLabel] &&
                        r.value.name == resource.metadata.labels[AgentNameLabel]
    ensures r.Some? ==> r.value.version == Lookup(resource.metadata.labels, AgentVersionLabel, "unknown") &&
                        r.value.description == Lookup(resource.metadata.annotations, AgentDescriptionAnnotation, "") &&
                        r.value.endpoint == Lookup(resource.metadata.annotations, AgentEndpointAnnotation, DefaultAgentEndpoint)
    ensures r.Some? ==> r.value.sourceRef == SourceRef(resource.apiVersion, resource.kind, resource.metadata.name, resource.metadata.namespace)
    ensures r.Some? ==> (r.value.skills.Some? <==> Lookup(resource.metadata.annotations, AgentSkillsAnnotation, "") != "")
    ensures r.Some? && r.value.skills.Some? ==> r.value.skills.value == ParseSkills(resource.metadata.annotations[AgentSkillsAnnotation])
  {
    var labels := resource.metadata.labels;
    var annotations := resource.metadata.annotations;
    var agentClass := Lookup(labels, AgentClassLabel, "");
    var agentName := Lookup(labels, AgentNameLabel, "");
    if agentClass == "" || agentName == "" then None
    else
      var skills := Lookup(annotations, AgentSkillsAnnotation, "");
      Some(AgentInfo(
        agentClass,
        agentName,
        Lookup(labels, AgentVersionLabel, "unknown"),
        Lookup(annotations, AgentDescriptionAnnotation, ""),
        Lookup(annotations, AgentEndpointAnnotation, DefaultAgentEndpoint),
        SourceRef(resource.apiVersion, resource.kind, resource.metadata.name, resource.metadata.namespace),
        if skills != "" then Some(ParseSkills(skills)) else None))
  }

  // ---------------------------------------------------------------------
  // Agent CR names

  /** `agent_name.lower().replace('_', '-')`: the Agent CR's name. */
  function CrName(agentName: string): (r: string)
    ensures |r| == |agentName|
    ensures forall i :: 0 <= i < |r| ==> r[i] != '_' && !('A' <= r[i] <= 'Z')
    ensures forall i :: 0 <= i < |r| ==> r[i] == (if agentName[i] == '_' then '-' else LowerChar(agentName[i]))
  {
    ReplaceChar(Lower(agentName), '_', '-')
  }

  /** A name without upper-case letters or underscores is its own CR name,
      so deriving a CR name twice changes nothing. */
  lemma CrNameFixes(name: string)
    requires forall i :: 0 <= i < |name| ==> name[i] != '_' && !('A' <= name[i] <= 'Z')
    ensures CrName(name) == name
  {
  }

  lemma CrNameIdempotent(name: string)
    ensures CrName(CrName(name)) == CrName(name)
  {
    CrNameFixes(CrName(name));
  }

  // ---------------------------------------------------------------------
  // URLs

  /** The operator's reading of a Route spec: a URL only with a host, and
      `https` exactly when `tls` is truthy. */
  function RouteUrl(spec: RouteSpec): (r: Option<string>)
    ensures r.None? <==> spec.host == ""
    ensures r.Some? ==> r.value == (if Truthy(spec.tls) then "https://" else "http://") + spec.host
  {
    if spec.host == "" then None
    else Some((if Truthy(spec.tls) then "https" else "http") + "://" + spec.host)
  }

  /** The Service branch's loop: the first Route that targets the service
      and has a host; Routes without a host are passed over. */
  function ServiceUrl(routes: seq<Resource>, service: string): (r: Option<string>)
    ensures r.None? <==> forall i :: 0 <= i < |routes| && routes[i].spec.toName == Some(service) ==> routes[i].spec.host == ""
    ensures r.Some? ==> exists i :: 0 <= i < |routes| && routes[i].spec.toName == Some(service) && r == RouteUrl(routes[i].spec) &&
                                    forall j :: 0 <= j < i && routes[j].spec.toName == Some(service) ==> routes[j].spec.host == ""
  {
    if routes == [] then None
    else if routes[0].spec.toName == Some(service) && routes[0].spec.host != "" then RouteUrl(routes[0].spec)
    else
      var rest := ServiceUrl(routes[1..], service);
      assert forall i :: 1 <= i < |routes| ==> routes[i] == routes[1..][i - 1];
      if rest.Some? then
        var i :| 0 <= i < |routes[1..]| && routes[1..][i].spec.toName == Some(service) && rest == RouteUrl(routes[1..][i].spec) &&
                 forall j :: 0 <= j < i && routes[1..][j].spec.toName == Some(service) ==> routes[1..][j].spec.host == "";
        assert routes[i + 1] == routes[1..][i];
        rest
      else rest
  }

  /** The outcome of listing a namespace's Routes: the routes, an
      `ApiException` (logged and ignored), or any other exception, which
      `get_agent_url` does not catch. */
  datatype RouteListing = Listed(routes: seq<Resource>) | ListingApiError | ListingRaised

  /** An exception escaping `get_agent_url`. */
  datatype UrlError = RouteQueryRaised

  /** `get_agent_url`. `namespaceRoutes(ns)` is the Route listing of the
      namespace; `Err` is an exception the function lets escape. */
  function GetAgentUrl(resource: Resource, namespaceRoutes: string -> RouteListing): (r: Result<Option<string>, UrlError>)
    ensures resource.kind == "Route" ==> r == Ok(RouteUrl(resource.spec))
    ensures resource.kind == "Service" ==>
              r == (match namespaceRoutes(resource.metadata.namespace)
                    case Listed(routes) => Ok(ServiceUrl(routes, resource.metadata.name))
                    case ListingApiError => Ok(None)
                    case ListingRaised => Err(RouteQueryRaised))
    ensures resource.kind != "Route" && resource.kind != "Service" ==> r == Ok(None)
    ensures r.Err? <==> resource.kind == "Service" && namespaceRoutes(resource.metadata.namespace).ListingRaised?
    ensures r.Ok? && r.value.Some? ==> r.value.value != ""
  {
    if resource.kind == "Route" then Ok(RouteUrl(resource.spec))
    else if resource.kind == "Service" then
      match namespaceRoutes(resource.metadata.namespace)
      case Listed(routes) => Ok(ServiceUrl(routes, resource.metadata.name))
      case ListingApiError => Ok(None)
      case ListingRaised => Err(RouteQueryRaised)
    else Ok(None)
  }

  /** The URL the agent card is requested from: trailing slashes of `url`
      dropped, then the endpoint. */
  function CardRequestUrl(url: string, endpoint: string): (r: string)
    ensures r == RStripChar(url, '/') + endpoint
  {
    RStripChar(url, '/') + endpoint
  }

  /** Extra trailing slashes on the URL do not change the request. */
  lemma {:induction false} CardRequestUrlIgnoresSlashes(url: string, endpoint: string)
    ensures CardRequestUrl(url + "/", endpoint) == CardRequestUrl(url, endpoint)
  {
    assert (url + "/")[..|url + "/"| - 1] == url;
  }

  predicate Is200(h: HttpResult) {
    h.Response? && h.status == 200
  }

  /** `verify_agent_endpoint`: whether the card endpoint answered 200, and
      the card when its body is JSON. */
  function VerifyAgentEndpoint(url: string, endpoint: string, fetch: string -> HttpResult, codec: JsonCodec): (r: (bool, Option<Json>))
    ensures url == "" ==> r == (false, None)
    ensures url != "" ==> (r.0 <==> Is200(fetch(CardRequestUrl(url, endpoint))))
    ensures r.0 ==> url != "" && Is200(fetch(CardRequestUrl(url, endpoint))) && r.1 == codec.loads(fetch(CardRequestUrl(url, endpoint)).body)
    ensures !r.0 ==> r.1.None?
  {
    if url == "" then (false, None)
    else match fetch(CardRequestUrl(url, endpoint))
      case Response(status, body) =>
        if status == 200 then (true, codec.loads(body)) else (false, None)
      case Unreachable => (false, None)
  }

  // ---------------------------------------------------------------------
  // The Agent CR document

  /** Python truthiness of an optional URL. */
  predicate UrlGiven(url: Option<string>) {
    url.Some? && url.value != ""
  }

  predicate CardGiven(card: Option<Json>) {
    card.Some? && Truthy(card.value)
  }

  /** `create_agent_cr`. */
  function CreateAgentCr(info: AgentInfo, url: Option<string>, card: Option<Json>): (r: AgentCr)
    ensures r.apiVersion == "ai.openshift.io/v1" && r.kind == "Agent"
    ensures r.metadata.name == CrName(info.name) && r.metadata.namespace == info.sourceRef.namespace
    ensures ManagedByLabel in r.metadata.labels && r.metadata.labels[ManagedByLabel] == ManagedByValue
    ensures r.metadata.labels.Keys == {ManagedByLabel, AgentClassLabel} && r.metadata.labels[AgentClassLabel] == info.agentClass
    ensures r.spec == AgentSpec(Some(info.agentClass), Some(info.name), Some(info.endpoint), info.sourceRef)
    ensures r.status.phase == Some("Discovered") && r.status.conditions == Some([])
    ensures r.status.url.Some? <==> UrlGiven(url)
    ensures r.status.url.Some? ==> r.status.url == url
    ensures r.status.agentCard.Some? <==> CardGiven(card)
    ensures r.status.agentCard.Some? ==> r.status.agentCard == card
    ensures r.status.lastSeen.None?
  {
    AgentCr(
      AgentCrdGroup + "/" + AgentCrdVersion,
      "Agent",
      Metadata(CrName(info.name), info.sourceRef.namespace,
               map[ManagedByLabel := ManagedByValue, AgentLabelPrefix + "class" := info.agentClass], map[]),
      AgentSpec(Some(info.agentClass), Some(info.name), Some(info.endpoint), info.sourceRef),
      AgentStatus(Some("Discovered"), Some([]),
                  if UrlGiven(url) then url else None,
                  if CardGiven(card) then card else None,
                  None))
  }

  // ---------------------------------------------------------------------
  // The status rewrite (`update_agent_status`)

  const ReadyType: string := "Ready"

  /** What the endpoint check found. */
  datatype Probe = NoUrlGiven | Accessible(card: Option<Json>) | NotAccessible

  function ProbeEndpoint(url: Option<string>, endpoint: string, fetch: string -> HttpResult, codec: JsonCodec): (p: Probe)
    ensures p.NoUrlGiven? <==> !UrlGiven(url)
    ensures p.Accessible? <==> UrlGiven(url) && VerifyAgentEndpoint(url.value, endpoint, fetch, codec).0
  {
    if !UrlGiven(url) then NoUrlGiven
    else
      var (accessible, card) := VerifyAgentEndpoint(url.value, endpoint, fetch, codec);
      if accessible then Accessible(card) else NotAccessible
  }

  /** The `Ready` condition each outcome writes. */
  function ReadyCondition(p: Probe, now: string): (c: Condition)
    ensures c.ctype == Some(ReadyType) && c.lastTransitionTime == now
    ensures c.status == (if p.Accessible? then "True" else "False")
    ensures p.NoUrlGiven? ==> c.reason == "NoURL"
  {
    match p
    case Accessible(_) => Condition(Some(ReadyType), "True", "EndpointAccessible", "Agent endpoint is accessible", now)
    case NotAccessible => Condition(Some(ReadyType), "False", "EndpointNotAccessible", "Agent endpoint is not accessible", now)
    case NoUrlGiven => Condition(Some(ReadyType), "False", "NoURL", "No accessible URL found for agent", now)
  }

  /** The conditions that are not of type `Ready`, in their order. */
  function WithoutReady(cs: seq<Condition>): (r: seq<Condition>)
    ensures |r| <= |cs|
    ensures forall i :: 0 <= i < |r| ==> r[i].ctype != Some(ReadyType)
  {
    if cs == [] then []
    else if cs[0].ctype == Some(ReadyType) then WithoutReady(cs[1..])
    else [cs[0]] + WithoutReady(cs[1..])
  }

  /** A condition survives exactly when it was there and is not `Ready`. */
  lemma {:induction false} WithoutReadyMembers(cs: seq<Condition>, c: Condition)
    ensures c in WithoutReady(cs) <==> c in cs && c.ctype != Some(ReadyType)
    decreases |cs|
  {
    if cs != [] {
      WithoutReadyMembers(cs[1..], c);
      assert c in cs <==> c == cs[0] || c in cs[1..];
    }
  }

  /** Filtering distributes over concatenation: the kept conditions keep
      their relative order. */
  lemma {:induction false} WithoutReadyAppend(a: seq<Condition>, b: seq<Condition>)
    ensures WithoutReady(a + b) == WithoutReady(a) + WithoutReady(b)
    decreases |a|
  {
    if a == [] {
      assert a + b == b;
    } else {
      assert (a + b)[0] == a[0] && (a + b)[1..] == a[1..] + b;
      WithoutReadyAppend(a[1..], b);
    }
  }

  /** Conditions without a `Ready` entry are kept as they are. */
  lemma {:induction false} WithoutReadyKeeps(cs: seq<Condition>)
    requires forall i :: 0 <= i < |cs| ==> cs[i].ctype != Some(ReadyType)
    ensures WithoutReady(cs) == cs
    decreases |cs|
  {
    if cs != [] {
      WithoutReadyKeeps(cs[1..]);
    }
  }

  /** The new status `update_agent_status` writes. */
  function UpdatedStatus(st: AgentStatus, url: Option<string>, endpoint: string, fetch: string -> HttpResult, codec: JsonCodec, now: string): (r: AgentStatus)
    ensures r.conditions.Some? && |r.conditions.value| >= 1
    ensures r.conditions.value[|r.conditions.value| - 1].ctype == Some(ReadyType)
    ensures forall i :: 0 <= i < |r.conditions.value| - 1 ==> r.conditions.value[i].ctype != Some(ReadyType)
    ensures r.conditions.value[..|r.conditions.value| - 1] == WithoutReady(st.conditions.GetOr([]))
    ensures r.phase == Some("Ready") || r.phase == Some("Failed")
    ensures r.phase == Some("Ready") <==> UrlGiven(url) && VerifyAgentEndpoint(url.value, endpoint, fetch, codec).0
    ensures r.lastSeen == (if r.phase == Some("Ready") then Some(now) else st.lastSeen)
    ensures !UrlGiven(url) ==> r.conditions.value[|r.conditions.value| - 1].reason == "NoURL" && r.url == st.url
    ensures UrlGiven(url) ==> r.url == url
    ensures r.agentCard != st.agentCard ==> r.phase == Some("Ready") && CardGiven(r.agentCard)
  {
    var p := ProbeEndpoint(url, endpoint, fetch, codec);
    var kept := WithoutReady(st.conditions.GetOr([]));
    var conditions := kept + [ReadyCondition(p, now)];
    assert conditions[..|conditions| - 1] == kept;
    AgentStatus(
      if p.Accessible? then Some("Ready") else Some("Failed"),
      Some(conditions),
      if p.NoUrlGiven? then st.url else url,
      if p.Accessible? && CardGiven(p.card) then p.card else st.agentCard,
      if p.Accessible? then Some(now) else st.lastSeen)
  }

  /** A second update with the same probe result gives the same status:
      the old `Ready` condition is replaced, not accumulated. */
  lemma UpdatedStatusIdempotent(st: AgentStatus, url: Option<string>, endpoint: string, fetch: string -> HttpResult, codec: JsonCodec, now: string)
    ensures UpdatedStatus(UpdatedStatus(st, url, endpoint, fetch, codec, now), url, endpoint, fetch, codec, now) ==
            UpdatedStatus(st, url, endpoint, fetch, codec, now)
  {
    var once := UpdatedStatus(st, url, endpoint, fetch, codec, now);
    var kept := WithoutReady(st.conditions.GetOr([]));
    var c := ReadyCondition(ProbeEndpoint(url, endpoint, fetch, codec), now);
    assert once.conditions == Some(kept + [c]);
    WithoutReadyAppend(kept, [c]);
    WithoutReadyKeeps(kept);
    assert WithoutReady([c]) == [];
    var twice := UpdatedStatus(once, url, endpoint, fetch, codec, now);
    assert once.conditions.GetOr([]) == kept + [c];
    assert WithoutReady(kept + [c]) == kept;
    assert twice.conditions == Some(WithoutReady(once.conditions.GetOr([])) + [c]);
    assert twice.url == once.url && twice.agentCard == once.agentCard;
  }

  // ---------------------------------------------------------------------
  // The controller's state

  /** Agent CRs by (namespace, name). */
  type Store = map<(string, string), AgentCr>

  /** The store after `update_agent_status(namespace, cr_name, ...)`; a
      missing CR (the API's 404) leaves it unchanged. */
  function StatusUpdate(store: Store, key: (string, string), url: Option<string>, endpoint: string,
                        fetch: string -> HttpResult, codec: JsonCodec, now: string): (r: Store)
    ensures r.Keys == store.Keys
    ensures forall k :: k in store && k != key ==> r[k] == store[k]
    ensures key in store ==> r[key] == store[key].(status := UpdatedStatus(store[key].status, url, endpoint, fetch, codec, now))
  {
    if key in store then store[key := store[key].(status := UpdatedStatus(store[key].status, url, endpoint, fetch, codec, now))]
    else store
  }

  datatype EventType = Added | Modified | Deleted | OtherEvent

  datatype ControllerState = ControllerState(store: Store, managed: map<string, string>)

  /** The key of the Agent CR a resource's agent maps to, and its
      `managed_agents` key. */
  function CrKey(resource: Resource, info: AgentInfo): (string, string) {
    (resource.metadata.namespace, CrName(info.name))
  }

  function AgentKey(resource: Resource, info: AgentInfo): string {
    resource.metadata.namespace + "/" + info.name
  }

  /** The effect of `handle_resource_event`: create or refresh the Agent CR
      on ADDED/MODIFIED, delete a CR this controller created on DELETED.
      An exception escaping `get_agent_url` is caught by the handler's
      outer `except Exception` and abandons the event. */
  function HandleEvent(s: ControllerState, event: EventType, resource: Resource,
                       namespaceRoutes: string -> RouteListing,
                       fetch: string -> HttpResult, codec: JsonCodec, now: string): ControllerState
  {
    match ExtractAgentInfo(resource)
    case None => s
    case Some(info) =>
      if event == Added || event == Modified then
        match GetAgentUrl(resource, namespaceRoutes)
        case Err(_) => s
        case Ok(url) => Upsert(s, resource, info, url, fetch, codec, now)
      else if event == Deleted then Remove(s, resource, info)
      else s
  }

  /** ADDED/MODIFIED for the agent `info` of `resource`, whose URL is `url`:
      create the CR, or refresh it for a Route or while it has no URL. */
  function Upsert(s: ControllerState, resource: Resource, info: AgentInfo, url: Option<string>,
                  fetch: string -> HttpResult, codec: JsonCodec, now: string): ControllerState
  {
    var key := CrKey(resource, info);
    if key in s.store then
      var existing := s.store[key];
      if resource.kind == "Route" || !UrlGiven(existing.status.url) then
        var repointed :=
          if resource.kind == "Route" || existing.spec.sourceRef.kind == "" then
            s.store[key := existing.(spec := existing.spec.(sourceRef := info.sourceRef))]
          else s.store;
        s.(store := StatusUpdate(repointed, key, url, info.endpoint, fetch, codec, now))
      else s
    else
      var created := s.store[key := CreateAgentCr(info, url, None)];
      ControllerState(StatusUpdate(created, key, url, info.endpoint, fetch, codec, now),
                      s.managed[AgentKey(resource, info) := resource.kind + "/" + resource.metadata.name])
  }

  /** DELETED: forget the agent and its CR, if this controller created it
      and the CR is still there. */
  function Remove(s: ControllerState, resource: Resource, info: AgentInfo): ControllerState {
    var key := CrKey(resource, info);
    var agentKey := AgentKey(resource, info);
    if agentKey in s.managed && key in s.store then
      ControllerState(s.store - {key}, s.managed - {agentKey})
    else s
  }

  // ---------------------------------------------------------------------
  // Properties of an event

  /** A resource without both agent labels changes nothing. */
  lemma NonAgentIgnored(s: ControllerState, event: EventType, resource: Resource,
                        namespaceRoutes: string -> RouteListing, fetch: string -> HttpResult, codec: JsonCodec, now: string)
    requires Lookup(resource.metadata.labels, AgentClassLabel, "") == "" || Lookup(resource.metadata.labels, AgentNameLabel, "") == ""
    ensures HandleEvent(s, event, resource, namespaceRoutes, fetch, codec, now) == s
  {
  }

  /** An event touches only its own agent's CR and `managed_agents` entry. */
  lemma EventFrame(s: ControllerState, event: EventType, resource: Resource, info: AgentInfo,
                   namespaceRoutes: string -> RouteListing, fetch: string -> HttpResult, codec: JsonCodec, now: string)
    requires ExtractAgentInfo(resource) == Some(info)
    ensures var r := HandleEvent(s, event, resource, namespaceRoutes, fetch, codec, now);
            (forall k :: k != CrKey(resource, info) ==> (k in r.store <==> k in s.store)) &&
            (forall k :: k in s.store && k != CrKey(resource, info) ==> r.store[k] == s.store[k]) &&
            (forall a :: a != AgentKey(resource, info) ==> (a in r.managed <==> a in s.managed)) &&
            (forall a :: a in s.managed && a != AgentKey(resource, info) ==> r.managed[a] == s.managed[a])
  {
    if (event == Added || event == Modified) && GetAgentUrl(resource, namespaceRoutes).Ok? {
      UpsertFrame(s, resource, info, GetAgentUrl(resource, namespaceRoutes).value, fetch, codec, now);
    }
  }

  lemma UpsertFrame(s: ControllerState, resource: Resource, info: AgentInfo, url: Option<string>,
                    fetch: string -> HttpResult, codec: JsonCodec, now: string)
    ensures var r := Upsert(s, resource, info, url, fetch, codec, now);
            (forall k :: k != CrKey(resource, info) ==> (k in r.store <==> k in s.store)) &&
            (forall k :: k in s.store && k != CrKey(resource, info) ==> r.store[k] == s.store[k]) &&
            (forall a :: a != AgentKey(resource, info) ==> (a in r.managed <==> a in s.managed)) &&
            (forall a :: a in s.managed && a != AgentKey(resource, info) ==> r.managed[a] == s.managed[a])
  {
    var key := CrKey(resource, info);
    var r := Upsert(s, resource, info, url, fetch, codec, now);
    if key in s.store {
      var existing := s.store[key];
      if resource.kind == "Route" || !UrlGiven(existing.status.url) {
        var repointed :=
          if resource.kind == "Route" || existing.spec.sourceRef.kind == "" then
            s.store[key := existing.(spec := existing.spec.(sourceRef := info.sourceRef))]
          else s.store;
        assert r == s.(store := StatusUpdate(repointed, key, url, info.endpoint, fetch, codec, now));
      }
    } else {
      var created := s.store[key := CreateAgentCr(info, url, None)];
      assert r.store == StatusUpdate(created, key, url, info.endpoint, fetch, codec, now);
      assert r.managed == s.managed[AgentKey(resource, info) := resource.kind + "/" + resource.metadata.name];
    }
  }

  /** An existing CR is refreshed only for a Route or while it has no URL. */
  lemma ExistingCrKeptUnlessRouteOrNoUrl(s: ControllerState, event: EventType, resource: Resource, info: AgentInfo,
                                         namespaceRoutes: string -> RouteListing, fetch: string -> HttpResult, codec: JsonCodec, now: string)
    requires ExtractAgentInfo(resource) == Some(info)
    requires CrKey(resource, info) in s.store
    requires resource.kind != "Route" && UrlGiven(s.store[CrKey(resource, info)].status.url)
    ensures event != Deleted || AgentKey(resource, info) !in s.managed ==>
              HandleEvent(s, event, resource, namespaceRoutes, fetch, codec, now) == s
  {
  }

  /** A Route always points the existing CR's `sourceRef` at itself and
      refreshes the status; the phase leaves `Discovered` for good. */
  lemma RouteRepointsExistingCr(s: ControllerState, event: EventType, resource: Resource, info: AgentInfo,
                                namespaceRoutes: string -> RouteListing, fetch: string -> HttpResult, codec: JsonCodec, now: string)
    requires ExtractAgentInfo(resource) == Some(info)
    requires event == Added || event == Modified
    requires resource.kind == "Route" && CrKey(resource, info) in s.store
    ensures var r := HandleEvent(s, event, resource, namespaceRoutes, fetch, codec, now);
            var key := CrKey(resource, info);
            key in r.store && r.store[key].spec.sourceRef == info.sourceRef &&
            r.store[key].status.phase in {Some("Ready"), Some("Failed")} &&
            r.managed == s.managed
  {
  }

  /** A `managed_agents` entry appears only when the event created the CR. */
  lemma ManagedOnlyOnCreate(s: ControllerState, event: EventType, resource: Resource, info: AgentInfo,
                            namespaceRoutes: string -> RouteListing, fetch: string -> HttpResult, codec: JsonCodec, now: string)
    requires ExtractAgentInfo(resource) == Some(info)
    ensures var r := HandleEvent(s, event, resource, namespaceRoutes, fetch, codec, now);
            var a := AgentKey(resource, info);
            (a in r.managed && (a !in s.managed || r.managed[a] != s.managed[a])) <==>
            ((event == Added || event == Modified) && GetAgentUrl(resource, namespaceRoutes).Ok? &&
             CrKey(resource, info) !in s.store &&
             (a !in s.managed || s.managed[a] != resource.kind + "/" + resource.metadata.name))
  {
  }

  /** A created CR carries the agent's labels and a settled phase. */
  lemma CreatedCrSettles(s: ControllerState, event: EventType, resource: Resource, info: AgentInfo,
                         namespaceRoutes: string -> RouteListing, fetch: string -> HttpResult, codec: JsonCodec, now: string)
    requires ExtractAgentInfo(resource) == Some(info)
    requires event == Added || event == Modified
    requires CrKey(resource, info) !in s.store
    ensures var r := HandleEvent(s, event, resource, namespaceRoutes, fetch, codec, now);
            GetAgentUrl(resource, namespaceRoutes).Ok? ==>
              var cr := r.store[CrKey(resource, info)];
              CrKey(resource, info) in r.store &&
              cr.metadata.labels[ManagedByLabel] == ManagedByValue &&
              cr.spec.sourceRef == info.sourceRef &&
              cr.status.phase in {Some("Ready"), Some("Failed")} &&
              |cr.status.conditions.value| == 1 &&
              r.managed[AgentKey(resource, info)] == resource.kind + "/" + resource.metadata.name
  {
    if GetAgentUrl(resource, namespaceRoutes).Ok? {
      var url := GetAgentUrl(resource, namespaceRoutes).value;
      var cr0 := CreateAgentCr(info, url, None);
      assert WithoutReady(cr0.status.conditions.GetOr([])) == [];
    }
  }

  /** A Route listing that raises something other than an `ApiException`
      abandons ADDED/MODIFIED for a Service: no CR is created or patched,
      and `managed_agents` is untouched. */
  lemma ListingFailureAbandonsEvent(s: ControllerState, event: EventType, resource: Resource,
                                    namespaceRoutes: string -> RouteListing, fetch: string -> HttpResult, codec: JsonCodec, now: string)
    requires event == Added || event == Modified
    requires resource.kind == "Service" && namespaceRoutes(resource.metadata.namespace).ListingRaised?
    ensures HandleEvent(s, event, resource, namespaceRoutes, fetch, codec, now) == s
  {
  }

  /** DELETED removes the CR and the entry exactly when the entry exists
      and the CR is still there; otherwise nothing changes. */
  lemma DeleteOnlyManaged(s: ControllerState, resource: Resource, info: AgentInfo,
                          namespaceRoutes: string -> RouteListing, fetch: string -> HttpResult, codec: JsonCodec, now: string)
    requires ExtractAgentInfo(resource) == Some(info)
    ensures var r := HandleEvent(s, Deleted, resource, namespaceRoutes, fetch, codec, now);
            if AgentKey(resource, info) in s.managed && CrKey(resource, info) in s.store then
              r.store == s.store - {CrKey(resource, info)} && r.managed == s.managed - {AgentKey(resource, info)}
            else r == s
  {
  }

  /** ADDED for a new agent followed by DELETED of the same resource gives
      the store back and forgets the agent. */
  lemma AddThenDelete(s: ControllerState, resource: Resource, info: AgentInfo,
                      namespaceRoutes: string -> RouteListing, fetch: string -> HttpResult, codec: JsonCodec, now: string)
    requires ExtractAgentInfo(resource) == Some(info)
    requires CrKey(resource, info) !in s.store
    ensures var added := HandleEvent(s, Added, resource, namespaceRoutes, fetch, codec, now);
            var r := HandleEvent(added, Deleted, resource, namespaceRoutes, fetch, codec, now);
            r.store == s.store &&
            r.managed == if GetAgentUrl(resource, namespaceRoutes).Ok? then s.managed - {AgentKey(resource, info)} else s.managed
  {
    if GetAgentUrl(resource, namespaceRoutes).Err? {
      return;
    }
    var key := CrKey(resource, info);
    var url := GetAgentUrl(resource, namespaceRoutes).value;
    var added := Upsert(s, resource, info, url, fetch, codec, now);
    UpsertFrame(s, resource, info, url, fetch, codec, now);
    assert key in added.store && AgentKey(resource, info) in added.managed;
    assert added.store - {key} == s.store;
    assert HandleEvent(added, Deleted, resource, namespaceRoutes, fetch, codec, now) == Remove(added, resource, info);
  }

  /** Every CR sits under its own namespace and name. */
  predicate KeysMatchNames(store: Store) {
    forall k :: k in store ==> store[k].metadata.namespace == k.0 && store[k].metadata.name == k.1
  }

  /** Every event keeps CRs filed under their own namespace and name. */
  lemma EventKeepsKeysMatchingNames(s: ControllerState, event: EventType, resource: Resource,
                                    namespaceRoutes: string -> RouteListing, fetch: string -> HttpResult, codec: JsonCodec, now: string)
    requires KeysMatchNames(s.store)
    ensures KeysMatchNames(HandleEvent(s, event, resource, namespaceRoutes, fetch, codec, now).store)
  {
    var r := HandleEvent(s, event, resource, namespaceRoutes, fetch, codec, now);
    if info :| ExtractAgentInfo(resource) == Some(info) {
      EventFrame(s, event, resource, info, namespaceRoutes, fetch, codec, now);
      var key := CrKey(resource, info);
      forall k | k in r.store
        ensures r.store[k].metadata.namespace == k.0 && r.store[k].metadata.name == k.1
      {
        if k == key {
          EventKeepsMetadata(s, event, resource, info, namespaceRoutes, fetch, codec, now);
        }
      }
    }
  }

  /** What an event leaves in the agent's CR metadata: the old metadata, or
      that of the CR it created. */
  lemma EventKeepsMetadata(s: ControllerState, event: EventType, resource: Resource, info: AgentInfo,
                           namespaceRoutes: string -> RouteListing, fetch: string -> HttpResult, codec: JsonCodec, now: string)
    requires ExtractAgentInfo(resource) == Some(info)
    ensures var r := HandleEvent(s, event, resource, namespaceRoutes, fetch, codec, now);
            var key := CrKey(resource, info);
            key in r.store ==>
              r.store[key].metadata == (if key in s.store then s.store[key].metadata
                                        else CreateAgentCr(info, GetAgentUrl(resource, namespaceRoutes).value, None).metadata)
  {
  }

  /** The phases an Agent CR goes through: Discovered, then Ready or Failed. */
  predicate KnownPhases(store: Store) {
    forall k :: k in store ==> store[k].status.phase in {Some("Discovered"), Some("Ready"), Some("Failed")}
  }

  lemma EventKeepsKnownPhases(s: ControllerState, event: EventType, resource: Resource,
                              namespaceRoutes: string -> RouteListing, fetch: string -> HttpResult, codec: JsonCodec, now: string)
    requires KnownPhases(s.store)
    ensures KnownPhases(HandleEvent(s, event, resource, namespaceRoutes, fetch, codec, now).store)
  {
    if info :| ExtractAgentInfo(resource) == Some(info) {
      if (event == Added || event == Modified) && GetAgentUrl(resource, namespaceRoutes).Ok? {
        UpsertKeepsKnownPhases(s, resource, info, GetAgentUrl(resource, namespaceRoutes).value, fetch, codec, now);
      }
    }
  }

  lemma UpsertKeepsKnownPhases(s: ControllerState, resource: Resource, info: AgentInfo, url: Option<string>,
                               fetch: string -> HttpResult, codec: JsonCodec, now: string)
    requires KnownPhases(s.store)
    ensures KnownPhases(Upsert(s, resource, info, url, fetch, codec, now).store)
  {
    var key := CrKey(resource, info);
    var r := Upsert(s, resource, info, url, fetch, codec, now);
    var next := if key in s.store then s.store[key] else CreateAgentCr(info, url, None);
    var phase := UpdatedStatus(next.status, url, info.endpoint, fetch, codec, now).phase;
    assert phase in {Some("Discovered"), Some("Ready"), Some("Failed")};
    forall k | k in r.store
      ensures r.store[k].status.phase in {Some("Discovered"), Some("Ready"), Some("Failed")}
    {
      if k != key {
        UpsertFrame(s, resource, info, url, fetch, codec, now);
      }
    }
  }

  // ---------------------------------------------------------------------
  // The controller

  class AgentController {
    /** The cluster's Agent CRs, as the API serves them. */
    var store: Store
    /** `managed_agents`: "namespace/agent name" to "Kind/resource name". */
    var managedAgents: map<string, string>

    constructor (cluster: Store)
      ensures store == cluster && managedAgents == map[]
    {
      store := cluster;
      managedAgents := map[];
    }

    function State(): ControllerState
      reads this
    {
      ControllerState(store, managedAgents)
    }

    /** The list comprehension dropping the old `Ready` condition. */
    static method DropReady(cs: seq<Condition>) returns (kept: seq<Condition>)
      ensures kept == WithoutReady(cs)
    {
      kept := [];
      var i := 0;
      while i < |cs|
        invariant 0 <= i <= |cs|
        invariant kept == WithoutReady(cs[..i])
      {
        assert cs[..i + 1] == cs[..i] + [cs[i]];
        WithoutReadyAppend(cs[..i], [cs[i]]);
        assert WithoutReady([cs[i]]) == if cs[i].ctype == Some(ReadyType) then [] else [cs[i]];
        if cs[i].ctype != Some(ReadyType) {
          kept := kept + [cs[i]];
        }
        i := i + 1;
      }
      assert cs[..i] == cs;
    }

    /** `update_agent_status`: read the CR, rewrite its status field by
      field, and write it back. */
    method UpdateAgentStatus(namespace: string, crName: string, url: Option<string>, endpoint: string,
                             fetch: string -> HttpResult, codec: JsonCodec, now: string)
      modifies this
      ensures store == StatusUpdate(old(store), (namespace, crName), url, endpoint, fetch, codec, now)
      ensures managedAgents == old(managedAgents)
    {
      if (namespace, crName) !in store {
        return;
      }
      var agent := store[(namespace, crName)];
      var status := agent.status;
      var condition: Condition;
      if UrlGiven(url) {
        status := status.(url := url);
        var (accessible, card) := VerifyAgentEndpoint(url.value, endpoint, fetch, codec);
        if accessible {
          status := status.(phase := Some("Ready"), lastSeen := Some(now));
          if CardGiven(card) {
            status := status.(agentCard := card);
          }
          condition := Condition(Some(ReadyType), "True", "EndpointAccessible", "Agent endpoint is accessible", now);
        } else {
          status := status.(phase := Some("Failed"));
          condition := Condition(Some(ReadyType), "False", "EndpointNotAccessible", "Agent endpoint is not accessible", now);
        }
      } else {
        status := status.(phase := Some("Failed"));
        condition := Condition(Some(ReadyType), "False", "NoURL", "No accessible URL found for agent", now);
      }
      var conditions := DropReady(status.conditions.GetOr([]));
      conditions := conditions + [condition];
      status := status.(conditions := Some(conditions));
      store := store[(namespace, crName) := agent.(status := status)];
    }

    /** `handle_resource_event`. */
    method HandleResourceEvent(event: EventType, resource: Resource, namespaceRoutes: string -> RouteListing,
                               fetch: string -> HttpResult, codec: JsonCodec, now: string)
      modifies this
      ensures State() == HandleEvent(old(State()), event, resource, namespaceRoutes, fetch, codec, now)
    {
      var info := ExtractAgentInfo(resource);
      if info.None? {
        return;
      }
      var namespace := resource.metadata.namespace;
      var kind := resource.kind;
      var agentKey := namespace + "/" + info.value.name;
      if event == Added || event == Modified {
        var lookup := GetAgentUrl(resource, namespaceRoutes);
        if lookup.Err? {
          return;
        }
        var url := lookup.value;
        var crName := CrName(info.value.name);
        if (namespace, crName) in store {
          var existing := store[(namespace, crName)];
          if kind == "Route" || !UrlGiven(existing.status.url) {
            if kind == "Route" || existing.spec.sourceRef.kind == "" {
              store := store[(namespace, crName) := existing.(spec := existing.spec.(sourceRef := info.value.sourceRef))];
            }
            UpdateAgentStatus(namespace, crName, url, info.value.endpoint, fetch, codec, now);
          }
        } else {
          store := store[(namespace, crName) := CreateAgentCr(info.value, url, None)];
          UpdateAgentStatus(namespace, crName, url, info.value.endpoint, fetch, codec, now);
          managedAgents := managedAgents[agentKey := kind + "/" + resource.metadata.name];
        }
      } else if event == Deleted {
        if agentKey in managedAgents {
          var crName := CrName(info.value.name);
          if (namespace, crName) in store {
            store := store - {(namespace, crName)};
            managedAgents := managedAgents - {agentKey};
          }
        }
      }
    }
  }
}
