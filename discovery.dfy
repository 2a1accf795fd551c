/**
 * The discovery side of the bridge: which namespaces to ask about, the
 * Route index used when an Agent CR has no URL yet, the URL fallback chain,
 * and the per-agent record that `_discover_agents_impl` builds and checks.
 * Cluster queries and HTTP requests are parameters.
 */
module Discovery {
  import opened Wrappers
  import opened Text
  import opened JsonValue
  import opened Env
  import opened Cluster
  import opened CardSignatures

  // ---------------------------------------------------------------------
  // Namespace scope

  /** What `oc project -q` gave: its output, a non-zero exit, or a timeout. */
  datatype ProjectQuery = Project(stdout: string) | QueryFailed | QueryTimedOut

  /** The `oc` namespace flag and the human-readable scope. */
  datatype Scope = Scope(flag: string, message: string)

  datatype ScopeError = NoCurrentProject | ProjectTimeout

  /** `get_namespace_scope`: all namespaces beat a named one, which beats the
      current project; without any of them it fails. */
  function NamespaceScope(namespace: Option<string>, allNamespaces: bool, current: ProjectQuery): (r: Result<Scope, ScopeError>)
    ensures allNamespaces ==> r == Ok(Scope("--all-namespaces", "all namespaces"))
    ensures !allNamespaces && namespace.Some? && namespace.value != "" ==>
              r == Ok(Scope("-n " + namespace.value, "namespace: " + namespace.value))
    ensures r.Err? <==> !allNamespaces && (namespace.None? || namespace.value == "") &&
                        (current.QueryFailed? || current.QueryTimedOut? || Strip(current.stdout) == "")
    ensures r.Err? ==> (r.error == ProjectTimeout <==> current.QueryTimedOut?)
    ensures r.Ok? && !allNamespaces && (namespace.None? || namespace.value == "") ==>
              current.Project? && r.value.flag == "-n " + Strip(current.stdout)
  {
    if allNamespaces then Ok(Scope("--all-namespaces", "all namespaces"))
    else if namespace.Some? && namespace.value != "" then
      Ok(Scope("-n " + namespace.value, "namespace: " + namespace.value))
    else match current
      case QueryTimedOut => Err(ProjectTimeout)
      case QueryFailed => Err(NoCurrentProject)
      case Project(out) =>
        var project := Strip(out);
        if project == "" then Err(NoCurrentProject)
        else Ok(Scope("-n " + project, "current project: " + project))
  }

  // ---------------------------------------------------------------------
  // URLs from Routes

  /** `_build_url_from_route`: `https` exactly when `tls` is truthy. */
  function BuildUrlFromRoute(spec: RouteSpec): (r: Option<string>)
    ensures r.None? <==> spec.host == ""
    ensures r.Some? && Truthy(spec.tls) ==> r.value == "https://" + spec.host
    ensures r.Some? && !Truthy(spec.tls) ==> r.value == "http://" + spec.host
  {
    if spec.host == "" then None
    else Some((if Truthy(spec.tls) then "https" else "http") + "://" + spec.host)
  }

  /** The `oc` queries `resolve_url_from_source_ref` makes: `get_route(name,
      ns)`, and `run(argv)`, the Routes an `oc get routes` command line
      lists (`None` when the command fails or its output is not JSON). */
  datatype OpenShift = OpenShift(getRoute: (string, string) -> Option<Resource>, run: seq<string> -> Option<seq<Resource>>)

  /** `resolve_url_from_source_ref`; every query is inside its `try`. */
  function ResolveUrlFromSourceRef(ns: string, ref: SourceRef, os: OpenShift): (r: Option<string>)
    ensures Strip(ref.kind) == "" || Strip(ref.name) == "" ==> r.None?
    ensures Strip(ref.kind) != "Route" && Strip(ref.kind) != "Service" ==> r.None?
    ensures r.Some? && Strip(ref.kind) == "Route" ==>
              os.getRoute(Strip(ref.name), ns).Some? && r == BuildUrlFromRoute(os.getRoute(Strip(ref.name), ns).value.spec)
    ensures Strip(ref.name) != "" && Strip(ref.kind) == "Service" ==> r == ServiceLookup(ns, Strip(ref.name), os)
  {
    var kind := Strip(ref.kind);
    var name := Strip(ref.name);
    if kind == "" || name == "" then None
    else if kind == "Route" then
      match os.getRoute(name, ns)
      case Some(route) => BuildUrlFromRoute(route.spec)
      case None => None
    else if kind == "Service" then ServiceLookup(ns, name, os)
    else None
  }

  /** The Service branch: list the namespace's Routes (without a label
      selector) and take the first one that targets the service. */
  function ServiceLookup(ns: string, service: string, os: OpenShift): (r: Option<string>)
    ensures r.Some? ==> os.run(ServiceRoutesArgv(ns)).Some?
  {
    match os.run(ServiceRoutesArgv(ns))
    case Some(routes) => RouteToService(routes, service)
    case None => None
  }

  /** The Service branch as written: the label selector is empty, yet the
      command line still carries `-l`. */
  function ServiceLookupAsWritten(ns: string, service: string, os: OpenShift): (r: Option<string>)
    ensures r.Some? ==> os.run(RoutesArgvAsWritten("-n " + ns, "")).Some?
  {
    match os.run(RoutesArgvAsWritten("-n " + ns, ""))
    case Some(routes) => RouteToService(routes, service)
    case None => None
  }

  // ---------------------------------------------------------------------
  // The `oc get routes` command line (`OpenShiftClient.get_routes`)

  /** The f-string `get_routes` builds before splitting it. */
  function RoutesCommand(nsFlag: string, selector: string): string {
    "oc get routes " + nsFlag + " -l " + selector + " -o json"
  }

  /** The argument vector `get_routes` runs, as written: `cmd.split()`. */
  function RoutesArgvAsWritten(nsFlag: string, selector: string): seq<string> {
    Words(RoutesCommand(nsFlag, selector))
  }

  /** The argument vector with the label flag left out when there is no
      selector: the evident intent of passing `label_selector=""`. */
  function RoutesArgv(nsFlag: string, selector: string): seq<string> {
    ["oc", "get", "routes"] + Words(nsFlag) + (if Words(selector) == [] then [] else ["-l"] + Words(selector)) + ["-o", "json"]
  }

  /** The argument vector of the Service branch (corrected). */
  function ServiceRoutesArgv(ns: string): seq<string> {
    RoutesArgv("-n " + ns, "")
  }

  /** The `oc` flags used here that take a value: namespace, label selector
      and output format. */
  const ValueFlags: set<string> := {"-n", "-l", "-o"}

  /** How `oc` reads those flags: each takes the next token as its value,
      whatever that token is, and a later occurrence overrides an earlier
      one; other tokens are skipped. */
  function FlagValues(args: seq<string>): map<string, string>
    decreases |args|
  {
    if |args| < 2 then map[]
    else if args[0] in ValueFlags then
      var rest := FlagValues(args[2..]);
      if args[0] in rest then rest else rest[args[0] := args[1]]
    else FlagValues(args[1..])
  }

  /** The output format an argument vector asks for. */
  function OutputFormat(args: seq<string>): Option<string> {
    var flags := FlagValues(args);
    if "-o" in flags then Some(flags["-o"]) else None
  }

  /** `oc` prints data `json.loads` accepts only when asked for JSON output
      (otherwise it prints a table, or fails). */
  ghost predicate JsonOnlyWhenAsked(run: seq<string> -> Option<seq<Resource>>) {
    forall args :: run(args).Some? ==> OutputFormat(args) == Some("json")
  }

  /** The f-string, piece by piece. */
  lemma RoutesCommandPieces(nsFlag: string, selector: string)
    ensures RoutesCommand(nsFlag, selector) ==
              "oc" + " " + ("get" + " " + ("routes" + " " + (nsFlag + " " + ("-l" + " " + (selector + " " + ("-o" + " " + "json"))))))
  {
  }

  lemma FixedWords()
    ensures IsWord("oc") && IsWord("get") && IsWord("routes") && IsWord("-l") && IsWord("-o") && IsWord("json") && IsWord("-n")
  {
  }

  /** How `cmd.split()` cuts the f-string: the pieces of the namespace flag
      and of the selector, between the fixed words. */
  lemma RoutesCommandWords(nsFlag: string, selector: string)
    ensures RoutesArgvAsWritten(nsFlag, selector) ==
              ["oc", "get", "routes"] + Words(nsFlag) + ["-l"] + Words(selector) + ["-o", "json"]
  {
    RoutesCommandPieces(nsFlag, selector);
    FixedWords();
    var t6 := "-o" + " " + "json";
    var t5 := selector + " " + t6;
    var t4 := "-l" + " " + t5;
    var t3 := nsFlag + " " + t4;
    var t2 := "routes" + " " + t3;
    var t1 := "get" + " " + t2;
    WordsCons("oc", t1);
    WordsCons("get", t2);
    WordsCons("routes", t3);
    WordsAppend(nsFlag, t4);
    WordsCons("-l", t5);
    WordsAppend(selector, t6);
    WordsCons("-o", "json");
    WordsOfWord("json");
  }

  /** A leading word splits off. */
  lemma WordsCons(w: string, rest: string)
    requires IsWord(w)
    ensures Words(w + " " + rest) == [w] + Words(rest)
  {
    WordsAppend(w, rest);
    WordsOfWord(w);
  }

  /** With a real selector the corrected command line is the one written. */
  lemma RoutesArgvAgrees(nsFlag: string, selector: string)
    requires Words(selector) != []
    ensures RoutesArgv(nsFlag, selector) == RoutesArgvAsWritten(nsFlag, selector)
  {
    RoutesCommandWords(nsFlag, selector);
  }

  /** `-n ns` splits into the flag and the namespace. */
  lemma NamespaceFlagWords(ns: string)
    requires IsWord(ns)
    ensures Words("-n " + ns) == ["-n", ns]
  {
    assert "-n " + ns == "-n" + " " + ns;
    FixedWords();
    WordsAppend("-n", ns);
    WordsOfWord("-n");
    WordsOfWord(ns);
  }

  /** As written, the Service branch runs
      `oc get routes -n <ns> -l -o json`: `-l` takes `-o` as its selector
      and no output format is asked for. */
  lemma ServiceRoutesArgvAsWrittenLosesJson(ns: string)
    requires IsWord(ns)
    ensures RoutesArgvAsWritten("-n " + ns, "") == ["oc", "get", "routes", "-n", ns, "-l", "-o", "json"]
    ensures FlagValues(RoutesArgvAsWritten("-n " + ns, "")) == map["-n" := ns, "-l" := "-o"]
    ensures OutputFormat(RoutesArgvAsWritten("-n " + ns, "")) == None
  {
    RoutesCommandWords("-n " + ns, "");
    NamespaceFlagWords(ns);
    var args := ["oc", "get", "routes", "-n", ns, "-l", "-o", "json"];
    assert Words("") == [];
    assert RoutesArgvAsWritten("-n " + ns, "") == args;
    assert FlagValues(args[7..]) == map[];
    assert FlagValues(args[5..]) == map["-l" := "-o"] by {
      assert args[5..][2..] == args[7..];
    }
    assert FlagValues(args[3..]) == map["-l" := "-o", "-n" := ns] by {
      assert args[3..][2..] == args[5..];
    }
    SkipsFixedWords(args);
  }

  /** As written, the Service branch never finds a URL when `oc` prints
      JSON only on request. */
  lemma ServiceLookupAsWrittenNeverResolves(ns: string, service: string, os: OpenShift)
    requires IsWord(ns)
    requires JsonOnlyWhenAsked(os.run)
    ensures ServiceLookupAsWritten(ns, service, os) == None
  {
    ServiceRoutesArgvAsWrittenLosesJson(ns);
  }

  /** `oc get routes` takes no value of its own. */
  lemma SkipsFixedWords(args: seq<string>)
    requires |args| >= 5 && args[..3] == ["oc", "get", "routes"]
    ensures FlagValues(args) == FlagValues(args[3..])
  {
    assert args[0] == "oc" && args[1] == "get" && args[2] == "routes";
    assert "oc" !in ValueFlags && "get" !in ValueFlags && "routes" !in ValueFlags;
    assert FlagValues(args) == FlagValues(args[1..]);
    assert args[1..][0] == "get" && args[1..][1..] == args[2..];
    assert FlagValues(args[1..]) == FlagValues(args[2..]);
    assert args[2..][0] == "routes" && args[2..][1..] == args[3..];
  }

  /** The corrected Service branch asks for JSON output in the namespace,
      without a label selector. */
  lemma ServiceRoutesArgvAsksForJson(ns: string)
    requires IsWord(ns)
    ensures ServiceRoutesArgv(ns) == ["oc", "get", "routes", "-n", ns, "-o", "json"]
    ensures FlagValues(ServiceRoutesArgv(ns)) == map["-n" := ns, "-o" := "json"]
    ensures OutputFormat(ServiceRoutesArgv(ns)) == Some("json")
  {
    NamespaceFlagWords(ns);
    var args := ["oc", "get", "routes", "-n", ns, "-o", "json"];
    assert Words("") == [];
    assert ServiceRoutesArgv(ns) == args;
    assert FlagValues(args[5..]) == map["-o" := "json"] by {
      assert args[5..][2..] == [];
    }
    assert FlagValues(args[3..]) == map["-o" := "json", "-n" := ns] by {
      assert args[3..][2..] == args[5..];
    }
    SkipsFixedWords(args);
  }

  /** The corrected Service branch resolves the service when the listing
      has a Route targeting it and every such Route has a host. */
  lemma ServiceLookupResolves(ns: string, service: string, os: OpenShift, routes: seq<Resource>)
    requires os.run(ServiceRoutesArgv(ns)) == Some(routes)
    requires exists i :: 0 <= i < |routes| && routes[i].spec.toName == Some(service)
    requires forall i :: 0 <= i < |routes| && routes[i].spec.toName == Some(service) ==> routes[i].spec.host != ""
    ensures ServiceLookup(ns, service, os).Some?
  {
    RouteToServiceFinds(routes, service);
  }

  lemma {:induction false} RouteToServiceFinds(routes: seq<Resource>, service: string)
    requires exists i :: 0 <= i < |routes| && routes[i].spec.toName == Some(service)
    requires forall i :: 0 <= i < |routes| && routes[i].spec.toName == Some(service) ==> routes[i].spec.host != ""
    ensures RouteToService(routes, service).Some?
  {
    if routes[0].spec.toName != Some(service) {
      var i :| 0 <= i < |routes| && routes[i].spec.toName == Some(service);
      assert routes[1..][i - 1] == routes[i];
      RouteToServiceFinds(routes[1..], service);
    }
  }

  /** The Service branch's loop: the URL of the first Route whose `to.name`
      is the service. */
  function RouteToService(routes: seq<Resource>, service: string): (r: Option<string>)
    ensures r.Some? ==> exists i :: 0 <= i < |routes| && routes[i].spec.toName == Some(service) &&
                                   BuildUrlFromRoute(routes[i].spec) == r
  {
    if routes == [] then None
    else if routes[0].spec.toName == Some(service) then
      (assert routes[0].spec.toName == Some(service) && BuildUrlFromRoute(routes[0].spec) == BuildUrlFromRoute(routes[0].spec);
       BuildUrlFromRoute(routes[0].spec))
    else
      var rest := RouteToService(routes[1..], service);
      (if rest.Some? then
         var i :| 0 <= i < |routes[1..]| && routes[1..][i].spec.toName == Some(service) && BuildUrlFromRoute(routes[1..][i].spec) == rest;
         assert routes[i + 1] == routes[1..][i];
         rest
       else rest)
  }

  // ---------------------------------------------------------------------
  // The Route index (`RouteIndexBuilder.build_route_index`)

  /** `AGENT_LABEL_KEYS`, in priority order. */
  const AgentLabelKeys: seq<string> := ["a2a.agent.name", "ai.openshift.io/agent.name", "app"]

  type RouteIndex = map<(string, string), string>

  /** The label loop for one route: every key whose label value is set
      overwrites the entry for that value. */
  function IndexLabels(index: RouteIndex, ns: string, labels: map<string, string>, url: string, keys: seq<string>): RouteIndex
    decreases |keys|
  {
    if keys == [] then index
    else
      var next := if keys[0] in labels && labels[keys[0]] != "" then index[(ns, labels[keys[0]]) := url] else index;
      IndexLabels(next, ns, labels, url, keys[1..])
  }

  /** One pass of the route loop. */
  function IndexRoute(index: RouteIndex, route: Resource): RouteIndex {
    var ns := route.metadata.namespace;
    var host := route.spec.host;
    if ns == "" || host == "" then index
    else
      var url := "https://" + host;
      var labelled := IndexLabels(index, ns, route.metadata.labels, url, AgentLabelKeys);
      var name := route.metadata.name;
      if name != "" && (ns, name) !in labelled then labelled[(ns, name) := url] else labelled
  }

  /** The index after the loop has seen all of `routes`. */
  function RouteIndexOf(routes: seq<Resource>): RouteIndex
    decreases |routes|
  {
    if routes == [] then map[]
    else IndexRoute(RouteIndexOf(routes[..|routes| - 1]), routes[|routes| - 1])
  }

  /** `build_route_index`, with its nested loops. */
  method BuildRouteIndex(routes: seq<Resource>) returns (index: RouteIndex)
    ensures index == RouteIndexOf(routes)
  {
    index := map[];
    var i := 0;
    while i < |routes|
      invariant 0 <= i <= |routes|
      invariant index == RouteIndexOf(routes[..i])
    {
      var route := routes[i];
      assert routes[..i + 1][..i] == routes[..i];
      var ns := route.metadata.namespace;
      var host := route.spec.host;
      if ns != "" && host != "" {
        var url := "https://" + host;
        var labels := route.metadata.labels;
        ghost var start := index;
        var k := 0;
        while k < |AgentLabelKeys|
          invariant 0 <= k <= |AgentLabelKeys|
          invariant IndexLabels(index, ns, labels, url, AgentLabelKeys[k..]) == IndexLabels(start, ns, labels, url, AgentLabelKeys)
        {
          var key := AgentLabelKeys[k];
          if key in labels && labels[key] != "" {
            index := index[(ns, labels[key]) := url];
          }
          assert AgentLabelKeys[k..][1..] == AgentLabelKeys[k + 1..];
          k := k + 1;
        }
        var name := route.metadata.name;
        if name != "" && (ns, name) !in index {
          index := index[(ns, name) := url];
        }
      }
      i := i + 1;
    }
    assert routes[..|routes|] == routes;
  }

  /** A URL set by the label loop: some label key in `keys` carries `n`. */
  predicate Labelled(labels: map<string, string>, keys: seq<string>, n: string) {
    exists i :: 0 <= i < |keys| && keys[i] in labels && labels[keys[i]] != "" && labels[keys[i]] == n
  }

  lemma {:induction false} IndexLabelsEffect(index: RouteIndex, ns: string, labels: map<string, string>, url: string, keys: seq<string>)
    ensures forall n :: Labelled(labels, keys, n) ==>
              (ns, n) in IndexLabels(index, ns, labels, url, keys) && IndexLabels(index, ns, labels, url, keys)[(ns, n)] == url
    ensures forall k :: k in index && !(k.0 == ns && Labelled(labels, keys, k.1)) ==>
              k in IndexLabels(index, ns, labels, url, keys) && IndexLabels(index, ns, labels, url, keys)[k] == index[k]
    ensures forall k :: k in IndexLabels(index, ns, labels, url, keys) ==> k in index || (k.0 == ns && Labelled(labels, keys, k.1))
    decreases |keys|
  {
    if keys != [] {
      var next := if keys[0] in labels && labels[keys[0]] != "" then index[(ns, labels[keys[0]]) := url] else index;
      IndexLabelsEffect(next, ns, labels, url, keys[1..]);
      forall n | Labelled(labels, keys, n)
        ensures (ns, n) in IndexLabels(index, ns, labels, url, keys) && IndexLabels(index, ns, labels, url, keys)[(ns, n)] == url
      {
        var i :| 0 <= i < |keys| && keys[i] in labels && labels[keys[i]] != "" && labels[keys[i]] == n;
        if i > 0 {
          assert keys[1..][i - 1] == keys[i];
          assert Labelled(labels, keys[1..], n);
        } else if !Labelled(labels, keys[1..], n) {
          assert (ns, n) in next && next[(ns, n)] == url;
        }
      }
      forall k | k in IndexLabels(index, ns, labels, url, keys)
        ensures k in index || (k.0 == ns && Labelled(labels, keys, k.1))
      {
        if k.0 == ns && Labelled(labels, keys[1..], k.1) {
          var i :| 0 <= i < |keys[1..]| && keys[1..][i] in labels && labels[keys[1..][i]] != "" && labels[keys[1..][i]] == k.1;
          assert keys[i + 1] == keys[1..][i];
        } else if k !in index {
          assert k in next;
          assert keys[0] in labels && labels[keys[0]] != "" && k == (ns, labels[keys[0]]);
        }
      }
      forall k | k in index && !(k.0 == ns && Labelled(labels, keys, k.1))
        ensures k in IndexLabels(index, ns, labels, url, keys) && IndexLabels(index, ns, labels, url, keys)[k] == index[k]
      {
        LabelledTail(labels, keys, k.1);
        if keys[0] in labels && labels[keys[0]] != "" {
          assert k.0 == ns ==> labels[keys[0]] != k.1;
        }
      }
    }
  }

  lemma LabelledTail(labels: map<string, string>, keys: seq<string>, n: string)
    requires keys != []
    ensures Labelled(labels, keys[1..], n) ==> Labelled(labels, keys, n)
  {
    if Labelled(labels, keys[1..], n) {
      var i :| 0 <= i < |keys[1..]| && keys[1..][i] in labels && labels[keys[1..][i]] != "" && labels[keys[1..][i]] == n;
      assert keys[i + 1] == keys[1..][i];
    }
  }

  /** The rules one route applies to the index: without a namespace or a
      host it changes nothing; otherwise each label value it carries
      overwrites its entry with `https://host` (whatever `tls` says), and
      its own name is added only when no entry exists yet; every other
      entry is kept. */
  lemma IndexRouteRules(index: RouteIndex, route: Resource)
    ensures var ns := route.metadata.namespace;
            ns == "" || route.spec.host == "" ==> IndexRoute(index, route) == index
    ensures var ns := route.metadata.namespace;
            var r := IndexRoute(index, route);
            ns != "" && route.spec.host != "" ==>
              (forall n :: Labelled(route.metadata.labels, AgentLabelKeys, n) ==> (ns, n) in r && r[(ns, n)] == "https://" + route.spec.host) &&
              (forall k :: k in index && !(k.0 == ns && Labelled(route.metadata.labels, AgentLabelKeys, k.1)) ==> k in r && r[k] == index[k]) &&
              (route.metadata.name != "" && (ns, route.metadata.name) !in index && !Labelled(route.metadata.labels, AgentLabelKeys, route.metadata.name) ==>
                 (ns, route.metadata.name) in r && r[(ns, route.metadata.name)] == "https://" + route.spec.host) &&
              (forall k :: k in r ==> k in index || (k.0 == ns && (Labelled(route.metadata.labels, AgentLabelKeys, k.1) || k.1 == route.metadata.name)))
  {
    var ns := route.metadata.namespace;
    if ns != "" && route.spec.host != "" {
      IndexLabelsEffect(index, ns, route.metadata.labels, "https://" + route.spec.host, AgentLabelKeys);
    }
  }

  /** Every entry of the index is `(namespace, name) -> https://host` for a
      route of that namespace with a host. */
  lemma RouteIndexEntries(routes: seq<Resource>)
    ensures forall k :: k in RouteIndexOf(routes) ==>
              k.0 != "" &&
              exists i :: 0 <= i < |routes| && routes[i].metadata.namespace == k.0 && routes[i].spec.host != "" &&
                          RouteIndexOf(routes)[k] == "https://" + routes[i].spec.host
  {
    forall k | k in RouteIndexOf(routes)
      ensures k.0 != "" &&
              exists i :: 0 <= i < |routes| && routes[i].metadata.namespace == k.0 && routes[i].spec.host != "" &&
                          RouteIndexOf(routes)[k] == "https://" + routes[i].spec.host
    {
      RouteIndexEntry(routes, k);
    }
  }

  /** One entry of the index, by induction on the routes. */
  lemma {:induction false} RouteIndexEntry(routes: seq<Resource>, k: (string, string))
    requires k in RouteIndexOf(routes)
    ensures k.0 != "" &&
            exists i :: 0 <= i < |routes| && routes[i].metadata.namespace == k.0 && routes[i].spec.host != "" &&
                        RouteIndexOf(routes)[k] == "https://" + routes[i].spec.host
    decreases |routes|
  {
    var init := routes[..|routes| - 1];
    var last := routes[|routes| - 1];
    IndexRouteRules(RouteIndexOf(init), last);
    var r := RouteIndexOf(routes);
    var ns := last.metadata.namespace;
    if ns != "" && last.spec.host != "" && k.0 == ns && r[k] == "https://" + last.spec.host {
      assert routes[|routes| - 1] == last;
    } else {
      assert k in RouteIndexOf(init) && r[k] == RouteIndexOf(init)[k];
      RouteIndexEntry(init, k);
      var i :| 0 <= i < |init| && init[i].metadata.namespace == k.0 && init[i].spec.host != "" &&
               RouteIndexOf(init)[k] == "https://" + init[i].spec.host;
      assert routes[i] == init[i];
    }
  }

  // ---------------------------------------------------------------------
  // The agent URL fallback chain

  /** `route_index.get(key)` as an optional string. */
  function Lookup(index: RouteIndex, key: (string, string)): Option<string> {
    if key in index then Some(index[key]) else None
  }

  /** `a or b` on optional strings. */
  function OrElse(a: Option<string>, b: Option<string>): Option<string> {
    if a.Some? && a.value != "" then a else b
  }

  /** `spec.get("name", "unknown")` */
  function AgentName(cr: AgentCr): string {
    cr.spec.name.GetOr("unknown")
  }

  /** The choice `_discover_agents_impl` makes between the four sources of
      an agent URL, in priority order: `status.url`, the CR's `sourceRef`,
      the Route index by agent name, then by CR name; `""` when none of them
      yields one. */
  function FirstUrl(statusUrl: string, fromRef: Option<string>, byAgent: Option<string>, byCr: Option<string>): (url: string)
    ensures statusUrl != "" ==> url == statusUrl
    ensures statusUrl == "" && fromRef.GetOr("") != "" ==> url == fromRef.value
    ensures statusUrl == "" && fromRef.GetOr("") == "" && byAgent.GetOr("") != "" ==> url == byAgent.value
    ensures statusUrl == "" && fromRef.GetOr("") == "" && byAgent.GetOr("") == "" && byCr.GetOr("") != "" ==> url == byCr.value
    ensures statusUrl == "" && fromRef.GetOr("") == "" && byAgent.GetOr("") == "" && byCr.GetOr("") == "" ==> url == ""
  {
    var url := statusUrl;
    if url != "" then url
    else
      var inferred := if fromRef.Some? && fromRef.value != "" then fromRef else OrElse(byAgent, byCr);
      if inferred.Some? && inferred.value != "" then inferred.value else url
  }

  /** The URL of an Agent CR. */
  function AgentUrl(cr: AgentCr, index: RouteIndex, os: OpenShift): string
  {
    var ns := cr.metadata.namespace;
    FirstUrl(cr.status.url.GetOr(""), ResolveUrlFromSourceRef(ns, cr.spec.sourceRef, os),
             Lookup(index, (ns, AgentName(cr))), Lookup(index, (ns, cr.metadata.name)))
  }

  /** A CR whose `sourceRef` lacks a kind or a name falls straight through to
      the Route index. */
  lemma BlankSourceRefSkipped(cr: AgentCr, index: RouteIndex, os: OpenShift)
    requires cr.status.url.GetOr("") == ""
    requires Strip(cr.spec.sourceRef.kind) == "" || Strip(cr.spec.sourceRef.name) == ""
    ensures AgentUrl(cr, index, os) ==
              OrElse(Lookup(index, (cr.metadata.namespace, AgentName(cr))), Lookup(index, (cr.metadata.namespace, cr.metadata.name))).GetOr("")
  {
  }

  /** `f"{url}{endpoint}" if url else ""` */
  function CardUrl(url: string, endpoint: string): (r: string)
    ensures r == "" <==> url == ""
    ensures url != "" ==> r == url + endpoint && r[..|url|] == url
  {
    if url != "" then url + endpoint else ""
  }

  // ---------------------------------------------------------------------
  // The discovery record (`AgentInfo`)

  /** Why endpoint or signature checking failed inside the `try`. */
  datatype CheckError =
    | FetchFailed
    | CardNotJson
    | CardNotObject
    | VerifyEscaped(reason: Escape)
    | NoJwksWhileRequired
    | SignaturesRejected(details: seq<Detail>)

  /** `signature_verification` */
  datatype SigReport = Skipped | Checked(details: seq<Detail>) | CheckFailed(error: CheckError)

  /** A value of the dictionary `to_dict` returns. */
  datatype InfoValue = IText(text: string) | IData(data: Json) | IFlag(flag: bool) | IReport(report: SigReport)

  /** The fields of `AgentInfo`, in declaration order; `Name` is the key
      `to_dict` uses for each. */
  datatype Field =
    | AgentNameField | NamespaceField | AgentClassField | VersionField | PhaseField | UrlField
    | AgentCardUrlField | DescriptionField | EndpointAccessibleField | SignatureVerifiedField
    | SignatureVerificationField
  {
    function Name(): string {
      match this
      case AgentNameField => "agent_name"
      case NamespaceField => "namespace"
      case AgentClassField => "agent_class"
      case VersionField => "version"
      case PhaseField => "phase"
      case UrlField => "url"
      case AgentCardUrlField => "agent_card_url"
      case DescriptionField => "description"
      case EndpointAccessibleField => "endpoint_accessible"
      case SignatureVerifiedField => "signature_verified"
      case SignatureVerificationField => "signature_verification"
    }
  }

  /** The fields of an `AgentInfo`, as a value. */
  datatype InfoRecord = InfoRecord(
    agentName: string,
    namespace: string,
    agentClass: string,
    version: Json,
    phase: string,
    url: string,
    agentCardUrl: string,
    description: Json,
    endpointAccessible: Option<bool>,
    signatureVerified: Option<bool>,
    signatureVerification: Option<SigReport>
  ) {
    /** A field's value, `None` for a Python `None`. */
    function FieldValue(f: Field): Option<InfoValue> {
      match f
      case AgentNameField => Some(IText(agentName))
      case NamespaceField => Some(IText(namespace))
      case AgentClassField => Some(IText(agentClass))
      case VersionField => if version == JNull then None else Some(IData(version))
      case PhaseField => Some(IText(phase))
      case UrlField => Some(IText(url))
      case AgentCardUrlField => Some(IText(agentCardUrl))
      case DescriptionField => if description == JNull then None else Some(IData(description))
      case EndpointAccessibleField => if endpointAccessible.None? then None else Some(IFlag(endpointAccessible.value))
      case SignatureVerifiedField => if signatureVerified.None? then None else Some(IFlag(signatureVerified.value))
      case SignatureVerificationField => if signatureVerification.None? then None else Some(IReport(signatureVerification.value))
    }

    /** `to_dict`: every field whose value is not `None`, and only those. */
    function ToDict(): (d: map<Field, InfoValue>)
      ensures forall f: Field :: f in d <==> FieldValue(f).Some?
      ensures forall f :: f in d ==> Some(d[f]) == FieldValue(f)
      ensures AgentNameField in d && NamespaceField in d && AgentClassField in d && PhaseField in d &&
              UrlField in d && AgentCardUrlField in d
      ensures EndpointAccessibleField in d <==> endpointAccessible.Some?
    {
      map f: Field | FieldValue(f).Some? :: FieldValue(f).value
    }
  }

  /** The `AgentInfo` dataclass, whose check fields
      `_verify_endpoint_and_signature` fills in place. */
  class AgentInfo {
    var agentName: string
    var namespace: string
    var agentClass: string
    var version: Json
    var phase: string
    var url: string
    var agentCardUrl: string
    var description: Json
    var endpointAccessible: Option<bool>
    var signatureVerified: Option<bool>
    var signatureVerification: Option<SigReport>

    constructor(agentName: string, namespace: string, agentClass: string, version: Json, phase: string,
                url: string, agentCardUrl: string, description: Json)
      ensures Record() == InfoRecord(agentName, namespace, agentClass, version, phase, url, agentCardUrl, description, None, None, None)
    {
      this.agentName := agentName;
      this.namespace := namespace;
      this.agentClass := agentClass;
      this.version := version;
      this.phase := phase;
      this.url := url;
      this.agentCardUrl := agentCardUrl;
      this.description := description;
      this.endpointAccessible := None;
      this.signatureVerified := None;
      this.signatureVerification := None;
    }

    function Record(): InfoRecord
      reads this
    {
      InfoRecord(agentName, namespace, agentClass, version, phase, url, agentCardUrl, description,
                 endpointAccessible, signatureVerified, signatureVerification)
    }
  }

  // ---------------------------------------------------------------------
  // `_verify_endpoint_and_signature`

  /** What the check does to one record: the new values of the three check
      fields (`None` in `Keep` position: left alone) and the exception it
      lets escape, if any. */
  datatype Update<T> = Keep | Put(value: T)

  datatype CheckOutcome = CheckOutcome(
    accessible: Update<Option<bool>>,
    verified: Update<Option<bool>>,
    report: Update<SigReport>,
    escaped: Option<CheckError>
  )

  function Apply<T>(old_: T, u: Update<T>): T {
    match u case Keep => old_ case Put(v) => v
  }

  /** The record after an outcome. */
  function Applied(r: InfoRecord, out: CheckOutcome): InfoRecord {
    r.(endpointAccessible := Apply(r.endpointAccessible, out.accessible),
       signatureVerified := Apply(r.signatureVerified, out.verified),
       signatureVerification := if out.report.Put? then Some(out.report.value) else r.signatureVerification)
  }

  /** The body of the `try`: the accessibility it found and the signature
      fields it set, or the exception it raised. */
  datatype TryResult = Completed(accessible: bool, verified: Update<Option<bool>>, report: Update<SigReport>) | Threw(error: CheckError)

  /** What the check sees of the bridge's `SignatureVerifier`. */
  datatype VerifierView = VerifierView(jwks: Json, lib: JoseLib)

  function TryCheck(cardUrl: string, verifySignatures: bool, verifier: Option<VerifierView>, env: Environment,
                    fetch: string -> HttpResult, codec: JsonCodec, now: int): TryResult
  {
    match fetch(cardUrl)
    case Unreachable => Threw(FetchFailed)
    case Response(status, body) =>
      var accessible := status == 200;
      if !(verifySignatures && status == 200 && verifier.Some?) then Completed(accessible, Keep, Keep)
      else match codec.loads(body)
        case None => Threw(CardNotJson)
        case Some(card) =>
          var jwks := verifier.value.jwks;
          if jwks == JNull then
            if RequireVerifiedCard(env) then Threw(NoJwksWhileRequired)
            else Completed(accessible, Put(None), Put(Skipped))
          else if !card.JObj? then Threw(CardNotObject)
          else match VerifySpec(card.fields, jwks, verifier.value.lib, codec, now)
            case Raised(e) => Threw(VerifyEscaped(e))
            case Verdict(ok, details) =>
              if !ok && RequireVerifiedCard(env) then Threw(SignaturesRejected(details))
              else Completed(accessible, Put(Some(ok)), Put(Checked(details)))
  }

  /** `_verify_endpoint_and_signature` as a function of its inputs; the
      verifier is `None` when signatures are not checked. */
  function EndpointCheck(cardUrl: string, verifyEndpoints: bool, verifySignatures: bool, verifier: Option<VerifierView>,
                         env: Environment, fetch: string -> HttpResult, codec: JsonCodec, now: int): CheckOutcome
  {
    if !(verifyEndpoints || verifySignatures) || cardUrl == "" then
      CheckOutcome(if verifyEndpoints then Put(Some(false)) else Keep, Keep, Keep, None)
    else match TryCheck(cardUrl, verifySignatures, verifier, env, fetch, codec, now)
      case Completed(accessible, verified, report) => CheckOutcome(Put(Some(accessible)), verified, report, None)
      case Threw(e) =>
        CheckOutcome(Put(Some(false)),
                     if verifySignatures then Put(Some(false)) else Keep,
                     if verifySignatures then Put(CheckFailed(e)) else Keep,
                     if RequireVerifiedCard(env) then Some(e) else None)
  }

  /** With a flag and a card URL, the outcome is that of the `try` body. */
  lemma CheckOfTry(cardUrl: string, verifyEndpoints: bool, verifySignatures: bool, verifier: Option<VerifierView>,
                   env: Environment, fetch: string -> HttpResult, codec: JsonCodec, now: int, t: TryResult)
    requires (verifyEndpoints || verifySignatures) && cardUrl != ""
    requires t == TryCheck(cardUrl, verifySignatures, verifier, env, fetch, codec, now)
    ensures var out := EndpointCheck(cardUrl, verifyEndpoints, verifySignatures, verifier, env, fetch, codec, now);
            (t.Completed? ==> out == CheckOutcome(Put(Some(t.accessible)), t.verified, t.report, None)) &&
            (t.Threw? ==> out.accessible == Put(Some(false)) &&
                          out.verified == (if verifySignatures then Put(Some(false)) else Keep) &&
                          out.report == (if verifySignatures then Put(CheckFailed(t.error)) else Keep) &&
                          out.escaped == (if RequireVerifiedCard(env) then Some(t.error) else None))
  {
  }

  /** Without a flag or without a card URL only `endpoint_accessible`
      changes, to `False`, and only when endpoints were asked for. */
  lemma NothingToCheck(cardUrl: string, verifyEndpoints: bool, verifySignatures: bool, verifier: Option<VerifierView>,
                       env: Environment, fetch: string -> HttpResult, codec: JsonCodec, now: int)
    requires !(verifyEndpoints || verifySignatures) || cardUrl == ""
    ensures var out := EndpointCheck(cardUrl, verifyEndpoints, verifySignatures, verifier, env, fetch, codec, now);
            out.verified == Keep && out.report == Keep && out.escaped == None &&
            (out.accessible == Put(Some(false)) <==> verifyEndpoints) && (out.accessible == Keep <==> !verifyEndpoints)
  {
  }

  /** A failure inside the check marks the endpoint inaccessible and, when
      signatures were asked for, the signature unverified; it escapes only
      under `A2A_REQUIRE_VERIFIED_CARD`. */
  lemma FailureHandling(cardUrl: string, verifyEndpoints: bool, verifySignatures: bool, verifier: Option<VerifierView>,
                        env: Environment, fetch: string -> HttpResult, codec: JsonCodec, now: int)
    ensures var out := EndpointCheck(cardUrl, verifyEndpoints, verifySignatures, verifier, env, fetch, codec, now);
            out.escaped.Some? ==> RequireVerifiedCard(env) && out.accessible == Put(Some(false)) &&
                                  (verifySignatures ==> out.verified == Put(Some(false)) && out.report == Put(CheckFailed(out.escaped.value)))
    ensures var out := EndpointCheck(cardUrl, verifyEndpoints, verifySignatures, verifier, env, fetch, codec, now);
            !RequireVerifiedCard(env) ==> out.escaped.None?
    ensures var out := EndpointCheck(cardUrl, verifyEndpoints, verifySignatures, verifier, env, fetch, codec, now);
            (verifyEndpoints || verifySignatures) && cardUrl != "" && fetch(cardUrl).Unreachable? ==>
              out.accessible == Put(Some(false)) && (RequireVerifiedCard(env) <==> out.escaped == Some(FetchFailed))
  {
  }

  /** An endpoint reported accessible answered 200. */
  lemma AccessibleMeans200(cardUrl: string, verifyEndpoints: bool, verifySignatures: bool, verifier: Option<VerifierView>,
                           env: Environment, fetch: string -> HttpResult, codec: JsonCodec, now: int)
    requires EndpointCheck(cardUrl, verifyEndpoints, verifySignatures, verifier, env, fetch, codec, now).accessible == Put(Some(true))
    ensures cardUrl != "" && fetch(cardUrl).Response? && fetch(cardUrl).status == 200
  {
  }

  /** `signature_verified = True` means the card served at the URL passed
      `verify`, so every signature on it was made by a trusted key. */
  lemma VerifiedRecordIsTrusted(cardUrl: string, verifyEndpoints: bool, verifySignatures: bool, verifier: Option<VerifierView>,
                                env: Environment, fetch: string -> HttpResult, codec: JsonCodec, now: int)
    requires EndpointCheck(cardUrl, verifyEndpoints, verifySignatures, verifier, env, fetch, codec, now).verified == Put(Some(true))
    ensures fetch(cardUrl).Response? && fetch(cardUrl).status == 200 && verifier.Some?
    ensures var card := codec.loads(fetch(cardUrl).body);
            card.Some? && card.value.JObj? &&
            VerifySpec(card.value.fields, verifier.value.jwks, verifier.value.lib, codec, now).Verdict? &&
            VerifySpec(card.value.fields, verifier.value.jwks, verifier.value.lib, codec, now).ok
  {
  }

  /** Under `A2A_REQUIRE_VERIFIED_CARD`, with signature checking on and a
      verifier in place, a record that comes back with its endpoint marked
      accessible also has its signatures verified. */
  lemma RequiredMeansVerified(cardUrl: string, verifyEndpoints: bool, verifier: VerifierView,
                              env: Environment, fetch: string -> HttpResult, codec: JsonCodec, now: int)
    requires RequireVerifiedCard(env)
    requires var out := EndpointCheck(cardUrl, verifyEndpoints, true, Some(verifier), env, fetch, codec, now);
             out.escaped.None? && out.accessible == Put(Some(true))
    ensures EndpointCheck(cardUrl, verifyEndpoints, true, Some(verifier), env, fetch, codec, now).verified == Put(Some(true))
  {
  }

  /** The `try` body of `_verify_endpoint_and_signature`, up to the point
      where it either finishes or raises. */
  method AttemptCheck(cardUrl: string, verifySignatures: bool, verifier: SignatureVerifier?, env: Environment,
                      fetch: string -> HttpResult, codec: JsonCodec, now: int) returns (t: TryResult)
    ensures t == TryCheck(cardUrl, verifySignatures, View(verifier), env, fetch, codec, now)
  {
    var response := fetch(cardUrl);
    if response.Unreachable? {
      return Threw(FetchFailed);
    }
    var accessible := response.status == 200;
    if !(verifySignatures && response.status == 200 && verifier != null) {
      return Completed(accessible, Keep, Keep);
    }
    var card := codec.loads(response.body);
    if card.None? {
      return Threw(CardNotJson);
    }
    if verifier.jwks == JNull {
      if RequireVerifiedCard(env) {
        return Threw(NoJwksWhileRequired);
      }
      return Completed(accessible, Put(None), Put(Skipped));
    }
    if !card.value.JObj? {
      return Threw(CardNotObject);
    }
    var r := verifier.Verify(card.value.fields, codec, now);
    if r.Raised? {
      return Threw(VerifyEscaped(r.reason));
    }
    if !r.ok && RequireVerifiedCard(env) {
      return Threw(SignaturesRejected(r.details));
    }
    return Completed(accessible, Put(Some(r.ok)), Put(Checked(r.details)));
  }

  function View(verifier: SignatureVerifier?): Option<VerifierView>
    reads verifier
  {
    if verifier == null then None else Some(VerifierView(verifier.jwks, verifier.lib))
  }

  /** `_verify_endpoint_and_signature(agent_info, ...)`: updates the check
      fields of `info` in place and reports an exception that escapes. */
  method VerifyEndpointAndSignature(info: AgentInfo, cardUrl: string, verifyEndpoints: bool, verifySignatures: bool,
                                    verifier: SignatureVerifier?, env: Environment, fetch: string -> HttpResult,
                                    codec: JsonCodec, now: int) returns (escaped: Option<CheckError>)
    modifies info
    ensures var out := EndpointCheck(cardUrl, verifyEndpoints, verifySignatures, View(verifier), env, fetch, codec, now);
            info.Record() == Applied(old(info.Record()), out) && escaped == out.escaped
  {
    ghost var before := info.Record();
    if !(verifyEndpoints || verifySignatures) || cardUrl == "" {
      if verifyEndpoints {
        info.endpointAccessible := Some(false);
      }
      return None;
    }
    var t := AttemptCheck(cardUrl, verifySignatures, verifier, env, fetch, codec, now);
    ghost var out := EndpointCheck(cardUrl, verifyEndpoints, verifySignatures, View(verifier), env, fetch, codec, now);
    CheckOfTry(cardUrl, verifyEndpoints, verifySignatures, View(verifier), env, fetch, codec, now, t);
    escaped := None;
    match t
    case Completed(accessible, verified, report) =>
      info.endpointAccessible := Some(accessible);
      if verified.Put? {
        info.signatureVerified := verified.value;
      }
      if report.Put? {
        info.signatureVerification := Some(report.value);
      }
      assert info.Record() == Applied(before, out);
    case Threw(e) =>
      if verifySignatures {
        info.signatureVerified := Some(false);
        info.signatureVerification := Some(CheckFailed(e));
      }
      info.endpointAccessible := Some(false);
      if RequireVerifiedCard(env) {
        escaped := Some(e);
      }
      assert info.Record() == Applied(before, out);
  }

  // ---------------------------------------------------------------------
  // The record loop of `_discover_agents_impl`

  datatype DiscoveryError = AgentCardNotObject | CheckEscaped(error: CheckError) | JwksLoadFailed(load: LoadError)

  /** The record built for one Agent CR before any check: defaults for the
      missing fields, the URL from the fallback chain and the card URL. */
  function BaseRecord(cr: AgentCr, index: RouteIndex, os: OpenShift): (r: Result<InfoRecord, DiscoveryError>)
    ensures r.Ok? ==> r.value.agentName == AgentName(cr) && r.value.namespace == cr.metadata.namespace &&
                      r.value.agentClass == cr.spec.agentClass.GetOr("unknown") &&
                      r.value.phase == cr.status.phase.GetOr("Unknown") &&
                      r.value.url == AgentUrl(cr, index, os) &&
                      r.value.agentCardUrl == CardUrl(r.value.url, cr.spec.endpoint.GetOr(DefaultAgentEndpoint)) &&
                      r.value.endpointAccessible.None? && r.value.signatureVerified.None? && r.value.signatureVerification.None?
    ensures r.Err? <==> cr.status.agentCard.Some? && !cr.status.agentCard.value.JObj?
  {
    var card := cr.status.agentCard.GetOr(JObj(map[]));
    if !card.JObj? then Err(AgentCardNotObject)
    else
      var url := AgentUrl(cr, index, os);
      var endpoint := cr.spec.endpoint.GetOr(DefaultAgentEndpoint);
      Ok(InfoRecord(AgentName(cr), cr.metadata.namespace, cr.spec.agentClass.GetOr("unknown"),
                    GetOrDefault(card.fields, "version", JStr("")), cr.status.phase.GetOr("Unknown"),
                    url, CardUrl(url, endpoint), GetOrDefault(card.fields, "description", JStr("")), None, None, None))
  }

  /** One pass of the record loop: the dictionary appended for `cr`. */
  function RecordFor(cr: AgentCr, index: RouteIndex, verifyEndpoints: bool, verifySignatures: bool,
                     verifier: Option<VerifierView>, env: Environment, os: OpenShift, fetch: string -> HttpResult,
                     codec: JsonCodec, now: int): Result<map<Field, InfoValue>, DiscoveryError>
  {
    match BaseRecord(cr, index, os)
    case Err(e) => Err(e)
    case Ok(base) =>
      var out := EndpointCheck(base.agentCardUrl, verifyEndpoints, verifySignatures, verifier, env, fetch, codec, now);
      if out.escaped.Some? then Err(CheckEscaped(out.escaped.value))
      else Ok(Applied(base, out).ToDict())
  }

  /** The loop body as a function of the CR. */
  function RecordOf(index: RouteIndex, verifyEndpoints: bool, verifySignatures: bool,
                    verifier: Option<VerifierView>, env: Environment, os: OpenShift, fetch: string -> HttpResult,
                    codec: JsonCodec, now: int): AgentCr -> Result<map<Field, InfoValue>, DiscoveryError>
  {
    cr => RecordFor(cr, index, verifyEndpoints, verifySignatures, verifier, env, os, fetch, codec, now)
  }

  /** The records of the CR list, or the first exception. */
  function Records(crs: seq<AgentCr>, index: RouteIndex, verifyEndpoints: bool, verifySignatures: bool,
                   verifier: Option<VerifierView>, env: Environment, os: OpenShift, fetch: string -> HttpResult,
                   codec: JsonCodec, now: int): Result<seq<map<Field, InfoValue>>, DiscoveryError>
  {
    Collect(crs, RecordOf(index, verifyEndpoints, verifySignatures, verifier, env, os, fetch, codec, now))
  }

  /** `_discover_agents_impl` after the login check and the scope: the CRs,
      the labelled Routes (`None` when listing them failed) and the result
      of loading the trusted key set are inputs. */
  function DiscoverSpec(crs: seq<AgentCr>, fallbackRoutes: Option<seq<Resource>>, verifyEndpoints: bool, verifySignatures: bool,
                        jwksLoad: Result<Json, LoadError>, lib: JoseLib, env: Environment,
                        os: OpenShift,
                        fetch: string -> HttpResult, codec: JsonCodec, now: int): Result<seq<map<Field, InfoValue>>, DiscoveryError>
  {
    if crs == [] then Ok([])
    else
      var index := if fallbackRoutes.Some? then RouteIndexOf(fallbackRoutes.value) else map[];
      var jwks := VerifierJwks(JNull, jwksLoad);
      if verifySignatures && jwks.Err? then Err(JwksLoadFailed(jwks.error))
      else
        var view := if verifySignatures then Some(VerifierView(jwks.value, lib)) else None;
        Records(crs, index, verifyEndpoints, verifySignatures, view, env, os, fetch, codec, now)
  }

  /** The record loop itself. */
  method DiscoverAgents(crs: seq<AgentCr>, fallbackRoutes: Option<seq<Resource>>, verifyEndpoints: bool, verifySignatures: bool,
                        jwksLoad: Result<Json, LoadError>, lib: JoseLib, env: Environment,
                        os: OpenShift,
                        fetch: string -> HttpResult, codec: JsonCodec, now: int)
    returns (r: Result<seq<map<Field, InfoValue>>, DiscoveryError>)
    ensures r == DiscoverSpec(crs, fallbackRoutes, verifyEndpoints, verifySignatures, jwksLoad, lib, env, os, fetch, codec, now)
  {
    if |crs| == 0 {
      return Ok([]);
    }
    var index: RouteIndex := map[];
    if fallbackRoutes.Some? {
      index := BuildRouteIndex(fallbackRoutes.value);
    }
    var verifier: SignatureVerifier? := null;
    if verifySignatures {
      var jwks := VerifierJwks(JNull, jwksLoad);
      if jwks.Err? {
        return Err(JwksLoadFailed(jwks.error));
      }
      verifier := new SignatureVerifier(jwks.value, lib);
    }
    assert View(verifier) == if verifySignatures then Some(VerifierView(VerifierJwks(JNull, jwksLoad).value, lib)) else None;
    r := RecordLoop(crs, index, verifyEndpoints, verifySignatures, verifier, env, os, fetch, codec, now);
  }

  /** `for agent_cr in agent_crs: ... agents.append(agent_info.to_dict())` */
  method RecordLoop(crs: seq<AgentCr>, index: RouteIndex, verifyEndpoints: bool, verifySignatures: bool,
                    verifier: SignatureVerifier?, env: Environment, os: OpenShift, fetch: string -> HttpResult,
                    codec: JsonCodec, now: int) returns (r: Result<seq<map<Field, InfoValue>>, DiscoveryError>)
    ensures r == Records(crs, index, verifyEndpoints, verifySignatures, View(verifier), env, os, fetch, codec, now)
  {
    ghost var view := View(verifier);
    ghost var rec := RecordOf(index, verifyEndpoints, verifySignatures, view, env, os, fetch, codec, now);
    var agents: seq<map<Field, InfoValue>> := [];
    var i := 0;
    while i < |crs|
      invariant 0 <= i <= |crs|
      invariant Collect(crs[..i], rec) == Ok(agents)
    {
      var record := AgentRecord(crs[i], index, verifyEndpoints, verifySignatures, verifier, env, os, fetch, codec, now);
      assert View(verifier) == view;
      assert rec(crs[i]) == record by {
        assert rec(crs[i]) == RecordFor(crs[i], index, verifyEndpoints, verifySignatures, view, env, os, fetch, codec, now);
      }
      CollectExtend(crs, i, rec, agents);
      if record.Err? {
        return Err(record.error);
      }
      agents := agents + [record.value];
      i := i + 1;
    }
    assert crs[..|crs|] == crs;
    return Ok(agents);
  }

  /** The body of the record loop: build the `AgentInfo`, check it, and
      turn it into a dictionary. */
  method AgentRecord(cr: AgentCr, index: RouteIndex, verifyEndpoints: bool, verifySignatures: bool,
                     verifier: SignatureVerifier?, env: Environment, os: OpenShift, fetch: string -> HttpResult,
                     codec: JsonCodec, now: int) returns (r: Result<map<Field, InfoValue>, DiscoveryError>)
    ensures r == RecordFor(cr, index, verifyEndpoints, verifySignatures, View(verifier), env, os, fetch, codec, now)
  {
    var base := BaseRecord(cr, index, os);
    if base.Err? {
      return Err(base.error);
    }
    var b := base.value;
    var info := new AgentInfo(b.agentName, b.namespace, b.agentClass, b.version, b.phase, b.url, b.agentCardUrl, b.description);
    assert info.Record() == b;
    var escaped := VerifyEndpointAndSignature(info, b.agentCardUrl, verifyEndpoints, verifySignatures, verifier, env, fetch, codec, now);
    if escaped.Some? {
      return Err(CheckEscaped(escaped.value));
    }
    return Ok(info.Record().ToDict());
  }

  /** Discovery yields exactly one record per Agent CR, in input order, each
      the record built for that CR; it raises exactly when one of them does. */
  lemma OneRecordPerCr(crs: seq<AgentCr>, index: RouteIndex, verifyEndpoints: bool, verifySignatures: bool,
                       verifier: Option<VerifierView>, env: Environment, os: OpenShift, fetch: string -> HttpResult,
                       codec: JsonCodec, now: int)
    ensures var r := Records(crs, index, verifyEndpoints, verifySignatures, verifier, env, os, fetch, codec, now);
            r.Ok? ==> |r.value| == |crs| &&
                      forall i :: 0 <= i < |crs| ==>
                        RecordFor(crs[i], index, verifyEndpoints, verifySignatures, verifier, env, os, fetch, codec, now) == Ok(r.value[i])
    ensures Records(crs, index, verifyEndpoints, verifySignatures, verifier, env, os, fetch, codec, now).Err? <==>
              exists i :: 0 <= i < |crs| &&
                RecordFor(crs[i], index, verifyEndpoints, verifySignatures, verifier, env, os, fetch, codec, now).Err?
  {
    CollectAll(crs, RecordOf(index, verifyEndpoints, verifySignatures, verifier, env, os, fetch, codec, now));
  }

  /** An exception escapes the whole discovery only from loading the
      trusted key set, from a malformed `status.agentCard`, or from a check
      under `A2A_REQUIRE_VERIFIED_CARD`. */
  lemma DiscoveryFailsOnlyWhen(crs: seq<AgentCr>, fallbackRoutes: Option<seq<Resource>>, verifyEndpoints: bool, verifySignatures: bool,
                               jwksLoad: Result<Json, LoadError>, lib: JoseLib, env: Environment,
                               os: OpenShift,
                               fetch: string -> HttpResult, codec: JsonCodec, now: int)
    requires !RequireVerifiedCard(env) && (!verifySignatures || jwksLoad.Ok?)
    requires forall i :: 0 <= i < |crs| ==> crs[i].status.agentCard.None? || crs[i].status.agentCard.value.JObj?
    ensures DiscoverSpec(crs, fallbackRoutes, verifyEndpoints, verifySignatures, jwksLoad, lib, env, os, fetch, codec, now).Ok?
  {
    if crs != [] {
      var index := if fallbackRoutes.Some? then RouteIndexOf(fallbackRoutes.value) else map[];
      var view := if verifySignatures then Some(VerifierView(VerifierJwks(JNull, jwksLoad).value, lib)) else None;
      OneRecordPerCr(crs, index, verifyEndpoints, verifySignatures, view, env, os, fetch, codec, now);
      forall i | 0 <= i < |crs|
        ensures RecordFor(crs[i], index, verifyEndpoints, verifySignatures, view, env, os, fetch, codec, now).Ok?
      {
        var base := BaseRecord(crs[i], index, os);
        FailureHandling(base.value.agentCardUrl, verifyEndpoints, verifySignatures, view, env, fetch, codec, now);
      }
    }
  }
}
