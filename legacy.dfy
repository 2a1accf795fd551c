/**
 * The older discovery tool (`bak/mcp/oc_agent_bridge.py`): it lists the
 * Agent CRs of a scope with `oc get agents` and turns each into a record
 * read straight from the CR, optionally probing the card URL. Its
 * namespace scope is the one `Discovery.NamespaceScope` models.
 */
module LegacyBridge {
  import opened Wrappers
  import opened Text
  import opened JsonValue
  import opened Cluster
  import opened Discovery

  /** The scope rules of the older tool are those of the newer one. */
  lemma LegacyScopeOrder(namespace: Option<string>, allNamespaces: bool, current: ProjectQuery)
    ensures allNamespaces ==> NamespaceScope(namespace, allNamespaces, current) == Ok(Scope("--all-namespaces", "all namespaces"))
    ensures !allNamespaces && namespace.Some? && namespace.value != "" ==>
              NamespaceScope(namespace, allNamespaces, current) == Ok(Scope("-n " + namespace.value, "namespace: " + namespace.value))
    ensures !allNamespaces && (namespace.None? || namespace.value == "") ==>
              NamespaceScope(namespace, allNamespaces, current) ==
                (match current
                 case Project(out) =>
                   if Strip(out) == "" then Err(NoCurrentProject)
                   else Ok(Scope("-n " + Strip(out), "current project: " + Strip(out)))
                 case QueryFailed => Err(NoCurrentProject)
                 case QueryTimedOut => Err(ProjectTimeout))
  {
  }

  // ---------------------------------------------------------------------
  // `oc get agents` (`discover_agents_native`)

  function AgentsArgv(namespaceFlag: string): seq<string> {
    Words("oc get agents " + namespaceFlag + " -o json")
  }

  /** The command line asks for JSON in the chosen scope. */
  lemma AgentsArgvShape(namespaceFlag: string)
    ensures AgentsArgv(namespaceFlag) == ["oc", "get", "agents"] + Words(namespaceFlag) + ["-o", "json"]
    ensures IsWord(namespaceFlag) ==> AgentsArgv(namespaceFlag) == ["oc", "get", "agents", namespaceFlag, "-o", "json"]
  {
    assert "oc get agents " + namespaceFlag + " -o json" ==
           "oc" + " " + ("get" + " " + ("agents" + " " + (namespaceFlag + " " + ("-o" + " " + "json"))));
    FixedWords();
    assert IsWord("agents");
    var t3 := "-o" + " " + "json";
    var t2 := namespaceFlag + " " + t3;
    var t1 := "agents" + " " + t2;
    WordsCons("oc", "get" + " " + t1);
    WordsCons("get", t1);
    WordsCons("agents", t2);
    WordsAppend(namespaceFlag, t3);
    WordsCons("-o", "json");
    WordsOfWord("json");
    if IsWord(namespaceFlag) {
      WordsOfWord(namespaceFlag);
    }
  }

  /** For a one-word namespace: `oc get agents -n <ns> -o json`. */
  lemma AgentsArgvForNamespace(ns: string)
    requires IsWord(ns)
    ensures AgentsArgv("-n " + ns) == ["oc", "get", "agents", "-n", ns, "-o", "json"]
  {
    AgentsArgvShape("-n " + ns);
    NamespaceFlagWords(ns);
  }

  // ---------------------------------------------------------------------
  // The record of one Agent CR

  /** The record dictionary; `endpointAccessible` is `None` when the key
      is absent. `version` and `description` are whatever the stored card
      holds. */
  datatype LegacyRecord = LegacyRecord(
    agentName: string,
    namespace: string,
    agentClass: string,
    version: Json,
    phase: string,
    url: string,
    agentCardUrl: string,
    description: Json,
    endpointAccessible: Option<bool>
  )

  datatype LegacyError = NotLoggedIn | ScopeFailed(error: ScopeError) | ListingFailed | StoredCardNotObject

  /** The probe: absent without `verify_endpoints`, `False` without a card
      URL, else whether the GET answered 200 (an exception gives `False`). */
  function EndpointAccessible(cardUrl: string, verifyEndpoints: bool, fetch: string -> HttpResult): (r: Option<bool>)
    ensures r.None? <==> !verifyEndpoints
    ensures verifyEndpoints && cardUrl == "" ==> r == Some(false)
    ensures r == Some(true) ==> cardUrl != "" && fetch(cardUrl).Response? && fetch(cardUrl).status == 200
    ensures verifyEndpoints && cardUrl != "" && fetch(cardUrl).Response? && fetch(cardUrl).status == 200 ==> r == Some(true)
  {
    if verifyEndpoints && cardUrl != "" then
      Some(match fetch(cardUrl) { case Response(status, _) => status == 200 case Unreachable => false })
    else if verifyEndpoints then Some(false)
    else None
  }

  /** One pass of the loop. A stored `agentCard` that is not an object
      makes `.get` raise. */
  function RecordFor(cr: AgentCr, verifyEndpoints: bool, fetch: string -> HttpResult): (r: Result<LegacyRecord, LegacyError>)
    ensures r.Err? <==> cr.status.agentCard.Some? && !cr.status.agentCard.value.JObj?
    ensures r.Err? ==> r.error == StoredCardNotObject
    ensures r.Ok? ==> r.value.agentName == cr.spec.name.GetOr("unknown") &&
                      r.value.agentClass == cr.spec.agentClass.GetOr("unknown") &&
                      r.value.namespace == cr.metadata.namespace &&
                      r.value.phase == cr.status.phase.GetOr("Unknown") &&
                      r.value.url == cr.status.url.GetOr("")
    ensures r.Ok? ==> (r.value.agentCardUrl != "" <==> r.value.url != "")
    ensures r.Ok? && r.value.url != "" ==> r.value.agentCardUrl == r.value.url + cr.spec.endpoint.GetOr(DefaultAgentEndpoint)
    ensures r.Ok? ==> r.value.endpointAccessible == EndpointAccessible(r.value.agentCardUrl, verifyEndpoints, fetch)
  {
    var card := cr.status.agentCard.GetOr(JObj(map[]));
    if !card.JObj? then Err(StoredCardNotObject)
    else
      var url := cr.status.url.GetOr("");
      var cardUrl := CardUrl(url, cr.spec.endpoint.GetOr(DefaultAgentEndpoint));
      Ok(LegacyRecord(cr.spec.name.GetOr("unknown"), cr.metadata.namespace, cr.spec.agentClass.GetOr("unknown"),
                      GetOrDefault(card.fields, "version", JStr("")), cr.status.phase.GetOr("Unknown"),
                      url, cardUrl, GetOrDefault(card.fields, "description", JStr("")),
                      EndpointAccessible(cardUrl, verifyEndpoints, fetch)))
  }

  /** A CR with nothing filled in gets every default. */
  lemma BareCrDefaults(name: string, namespace: string, verifyEndpoints: bool, fetch: string -> HttpResult)
    ensures var cr := AgentCr("ai.openshift.io/v1", "Agent", Metadata(name, namespace, map[], map[]),
                              AgentSpec(None, None, None, NoSourceRef), NoStatus);
            RecordFor(cr, verifyEndpoints, fetch) ==
              Ok(LegacyRecord("unknown", namespace, "unknown", JStr(""), "Unknown", "", "", JStr(""),
                              if verifyEndpoints then Some(false) else None))
  {
  }

  /** The loop body as a function of the CR. */
  function RecordOf(verifyEndpoints: bool, fetch: string -> HttpResult): AgentCr -> Result<LegacyRecord, LegacyError> {
    cr => RecordFor(cr, verifyEndpoints, fetch)
  }

  /** The records of the CR list, or the first exception. */
  function Records(crs: seq<AgentCr>, verifyEndpoints: bool, fetch: string -> HttpResult): Result<seq<LegacyRecord>, LegacyError> {
    Collect(crs, RecordOf(verifyEndpoints, fetch))
  }

  /** `for agent_cr in agent_crs: ... agents.append(agent_info)` */
  method RecordLoop(crs: seq<AgentCr>, verifyEndpoints: bool, fetch: string -> HttpResult)
    returns (r: Result<seq<LegacyRecord>, LegacyError>)
    ensures r == Records(crs, verifyEndpoints, fetch)
  {
    ghost var rec := RecordOf(verifyEndpoints, fetch);
    var agents: seq<LegacyRecord> := [];
    var i := 0;
    while i < |crs|
      invariant 0 <= i <= |crs|
      invariant Collect(crs[..i], rec) == Ok(agents)
    {
      var record := RecordFor(crs[i], verifyEndpoints, fetch);
      CollectExtend(crs, i, rec, agents);
      assert rec(crs[i]) == record;
      if record.Err? {
        return Err(record.error);
      }
      agents := agents + [record.value];
      i := i + 1;
    }
    assert crs[..|crs|] == crs;
    return Ok(agents);
  }

  /** Exactly one record per CR, in order, or the exception of a CR whose
      stored card is not an object. */
  lemma OneRecordPerCr(crs: seq<AgentCr>, verifyEndpoints: bool, fetch: string -> HttpResult)
    ensures var r := Records(crs, verifyEndpoints, fetch);
            r.Ok? ==> |r.value| == |crs| &&
                      forall i :: 0 <= i < |crs| ==> RecordFor(crs[i], verifyEndpoints, fetch) == Ok(r.value[i])
    ensures Records(crs, verifyEndpoints, fetch).Err? <==>
              exists i :: 0 <= i < |crs| && RecordFor(crs[i], verifyEndpoints, fetch).Err?
  {
    CollectAll(crs, RecordOf(verifyEndpoints, fetch));
  }

  // ---------------------------------------------------------------------
  // `discover_agents`

  const DiscoverabilityHint: string :=
    "\n\nTo make agents discoverable, ensure they have these labels:\n  ai.openshift.io/agent.class: \"a2a\"\n  ai.openshift.io/agent.name: \"your-agent-name\""

  /** The tool's answer: the empty-scope message, or the count, the scope
      and the records (rendered as JSON after the header). */
  datatype Listing = NoAgents(message: string) | Found(header: string, agents: seq<LegacyRecord>)

  function Header(count: nat, scopeMessage: string): string {
    "Found " + NatToString(count) + " agent(s) in " + scopeMessage + ":\n\n"
  }

  /** `discover_agents`: login, scope, listing, then one record per CR.
      The login check and the listing's outcome are inputs. */
  function DiscoverAgents(loggedIn: bool, namespace: Option<string>, allNamespaces: bool, current: ProjectQuery,
                          runAgents: seq<string> -> Option<seq<AgentCr>>, verifyEndpoints: bool,
                          fetch: string -> HttpResult): (r: Result<Listing, LegacyError>)
    ensures !loggedIn ==> r == Err(NotLoggedIn)
    ensures loggedIn && NamespaceScope(namespace, allNamespaces, current).Err? ==>
              r == Err(ScopeFailed(NamespaceScope(namespace, allNamespaces, current).error))
    ensures r.Ok? ==> loggedIn && NamespaceScope(namespace, allNamespaces, current).Ok?
  {
    if !loggedIn then Err(NotLoggedIn)
    else match NamespaceScope(namespace, allNamespaces, current)
      case Err(e) => Err(ScopeFailed(e))
      case Ok(scope) =>
        match runAgents(AgentsArgv(scope.flag))
        case None => Err(ListingFailed)
        case Some(crs) => ListingOf(scope.message, crs, verifyEndpoints, fetch)
  }

  /** The answer for a listing of `crs` in the scope described by
      `scopeMessage`. */
  function ListingOf(scopeMessage: string, crs: seq<AgentCr>, verifyEndpoints: bool,
                     fetch: string -> HttpResult): (r: Result<Listing, LegacyError>)
    ensures crs == [] ==> r.Ok? && r.value.NoAgents? && StartsWith(r.value.message, "No agents found in " + scopeMessage)
    ensures r.Ok? && r.value.Found? ==>
              r.value.header == Header(|crs|, scopeMessage) &&
              DigitsValue(NatToString(|crs|)) == |crs| &&
              |r.value.agents| == |crs| &&
              forall i :: 0 <= i < |crs| ==> RecordFor(crs[i], verifyEndpoints, fetch) == Ok(r.value.agents[i])
    ensures r.Err? <==> exists i :: 0 <= i < |crs| && RecordFor(crs[i], verifyEndpoints, fetch).Err?
  {
    var prefix := "No agents found in " + scopeMessage;
    StartsWithConcat(prefix, "." + DiscoverabilityHint);
    assert prefix + "." + DiscoverabilityHint == prefix + ("." + DiscoverabilityHint);
    OneRecordPerCr(crs, verifyEndpoints, fetch);
    NatToStringValue(|crs|);
    if crs == [] then Ok(NoAgents(prefix + "." + DiscoverabilityHint))
    else match Records(crs, verifyEndpoints, fetch)
      case Err(e) => Err(e)
      case Ok(agents) => Ok(Found(Header(|agents|, scopeMessage), agents))
  }

  /** Once logged in with a scope and a listing, the answer is the listing's:
      see `ListingOf`. */
  lemma ListingMatchesCrs(loggedIn: bool, namespace: Option<string>, allNamespaces: bool, current: ProjectQuery,
                          runAgents: seq<string> -> Option<seq<AgentCr>>, verifyEndpoints: bool,
                          fetch: string -> HttpResult, crs: seq<AgentCr>)
    requires loggedIn && NamespaceScope(namespace, allNamespaces, current).Ok?
    requires runAgents(AgentsArgv(NamespaceScope(namespace, allNamespaces, current).value.flag)) == Some(crs)
    ensures DiscoverAgents(loggedIn, namespace, allNamespaces, current, runAgents, verifyEndpoints, fetch) ==
              ListingOf(NamespaceScope(namespace, allNamespaces, current).value.message, crs, verifyEndpoints, fetch)
  {
  }
}
