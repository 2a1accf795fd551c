# OpenShift A2A agent discovery, signing and control — a Dafny model

The repository connects A2A ("agent to agent") agents running on OpenShift
with tooling that finds them. It has four parts:

- The **discovery bridge** (`mcp/oc_agent_bridge.py`). It lists `Agent` custom
  resources and works out each agent's URL from its status, its `sourceRef`
  or an index of labelled Routes. It can probe each agent card and verify the
  card's JWS signatures against a trusted JSON Web Key Set, and it then
  reports one record per agent.
- The **agent controller** (`agent-operator/controller.py`, with a copy in
  `bak/agent-operator/controller.py` whose logic is the same line for line).
  It watches labelled Services, Deployments and Routes and keeps one `Agent` CR per
  agent, with its phase and a `Ready` condition.
- Two **sample agents**. `mock_agent/agent.py` serves a card that may be
  signed and publishes the JWKS that verifies it. `examples/byo/agent.py` is a
  bring-your-own agent with a canned answer.
- The **older discovery tool** (`bak/mcp/oc_agent_bridge.py`).

## The model

**Shared helpers.** Python's strings, JSON values and environment variables
are modelled directly:

- `Text` covers `strip`, `split(',')`, whitespace `split()`, ASCII
  `lower` and `str(int)`.
- `JsonValue` covers JSON values with Python truthiness and `dict.get`.
- `Env` covers `os.getenv` and the `"1"/"true"/"yes"` flag test.
- `Base64Url` is the unpadded base64url of Appendix C of RFC 7515. It is
  concrete and proved to round-trip.

**External code as parameters.** Everything the code calls but does not
define is a parameter. A lemma assumes of a parameter only what it states in
its `requires`. The parameters are:

- the JOSE library (`JoseLib`: key-set import and the cryptographic check of
  one flattened JWS);
- JSON text handling (`JsonCodec`);
- the signing library (`Signer`);
- the `oc` CLI (`OpenShift`);
- HTTP GETs (`fetch`);
- file existence and contents;
- YAML loading;
- the clock (`now`).

**One module per source area:**

- `CardSignatures`: `SignatureVerifier` of the bridge. Its fold over the
  signatures is `VerifySpec`, and the class method `Verify` is proved equal
  to it.
- `Discovery`:
  - the namespace scope, the URL helpers and the route index (a loop proved
    against `RouteIndexOf`);
  - the URL fallback chain and `AgentInfo`, with its in-place update by the
    endpoint and signature check;
  - the record loop of `_discover_agents_impl`.
- `AgentOperator`: the controller.
  - Agent info extraction, the CR document, the status rewrite and the event
    decision are functions.
  - `AgentController` is a class over a CR store and `managed_agents`. Its
    methods are proved equal to those functions.
- `AgentCards`: the typed card and skills both sample agents build, and the
  card's JSON form.
- `MockAgentServer`: the signing agent's base URL, key source, header, JWKS
  and card building.
- `ByoAgent`: the bring-your-own agent.
- `LegacyBridge`: the older discovery tool.
- `SignVerify`: a cross-file result. Under stated assumptions about the
  libraries, a card signed by the mock agent passes the bridge's `verify`,
  and it fails when the mock agent signs with an algorithm the bridge does
  not allow.

## Model

| member | source | states |
|---|---|---|
| `Base64Url.SextetRoundTrip` | mcp/oc_agent_bridge.py:86-88 | each of the 64 base64url digits decodes back to its value |
| `Base64Url.PaddedIsBodyPlusPad` | mcp/oc_agent_bridge.py:86-88 | standard encoding is the pad-free body followed by exactly the padding, and the body has (4n+2)/3 characters |
| `Base64Url.StripPadding` | mcp/oc_agent_bridge.py:88 | stripping trailing `=` removes exactly the padding |
| `Base64Url.EncodeUnpadded` | mcp/oc_agent_bridge.py:86-88 | `_base64url_encode` never emits `=` and has length (4n+2)/3 for n bytes |
| `Base64Url.DecodeEncodePadded` | mcp/oc_agent_bridge.py:95 | padded decoding inverts padded encoding for every byte string |
| `Base64Url.DecodeEncode` | mcp/oc_agent_bridge.py:86-96 | re-padding and decoding an encoded string gives back the original bytes |
| `Base64Url.DecodeRepads` | mcp/oc_agent_bridge.py:93-95 | the pad length brings the length to a multiple of 4, and a string of length 1 mod 4 is rejected |
| `Base64Url.DecodeOneOver` | mcp/oc_agent_bridge.py:93-95 | a final group with three `=` never decodes |
| `Env.Flag` | mcp/oc_agent_bridge.py:57 | a flag is on exactly when its variable is set to an on spelling; the `"false"` default never switches it on |
| `Env.FlagIgnoresCase` | mcp/oc_agent_bridge.py:57 | the flag test depends only on the lower-cased value |
| `Env.FlagSpellings` | mock_agent/agent.py:89 | `TRUE`, `Yes` and `1` switch a flag on; `on`, `0` and `y` do not |
| `Wrappers.CollectStep` | mcp/oc_agent_bridge.py:572-614 | one more element appends its result, unless the prefix or the element has raised |
| `Wrappers.CollectExtend` | mcp/oc_agent_bridge.py:572-614 | after a successful prefix, the next element either raises for the whole loop or extends the results by its own |
| `Wrappers.CollectErrPersists` | mcp/oc_agent_bridge.py:572-614 | an exception stops the loop: later elements cannot change the outcome |
| `Wrappers.CollectAll` | mcp/oc_agent_bridge.py:572-614 | success gives one result per element in order; the loop raises iff some element does |
| `Text.StripEmptyIffBlank` | mock_agent/agent.py:254-255 | `strip()` is empty exactly when every character is whitespace |
| `Text.StartsWithConcat` | bak/mcp/oc_agent_bridge.py:104-106 | a string starts with any of its prefixes |
| `Text.SplitJoin` | agent-operator/controller.py:112 | `split(',')` yields count(',')+1 parts with no comma in them, and joining them with commas gives back the string |
| `Text.JoinSplit` | agent-operator/controller.py:112 | joining the parts of `split(',')` with commas gives the string back |
| `Text.SplitCount` | agent-operator/controller.py:112 | `split(',')` has one more part than the string has commas |
| `Text.SplitPartsClean` | agent-operator/controller.py:112 | no part of `split(',')` contains a comma |
| `Text.NatToStringValue` | bak/mcp/oc_agent_bridge.py:153 | the decimal text of a count reads back as that count |
| `Text.WordsAppend` | bak/mcp/oc_agent_bridge.py:73-74 | whitespace `split()` of two strings joined by a blank is the concatenation of their splits |
| `Text.WordsOfWord` | bak/mcp/oc_agent_bridge.py:73-74 | a string with no whitespace splits into itself |
| `CardSignatures.RequireVerifiedCard` | mcp/oc_agent_bridge.py:55-57 | the require-verified policy is off unless its variable is set |
| `CardSignatures.HttpxVerify` | mcp/oc_agent_bridge.py:60-62 | TLS verification stays on unless the skip variable is set |
| `CardSignatures.ValidateTimestamps` | mcp/oc_agent_bridge.py:163-186 | the only errors are expired, not yet valid and invalid `iat` |
| `CardSignatures.ExpBoundary` | mcp/oc_agent_bridge.py:168-171 | `exp == now` is accepted, while `exp == now-1` and a non-numeric `exp` are rejected as expired |
| `CardSignatures.NbfRejected` | mcp/oc_agent_bridge.py:174-177 | an `nbf` after now and a non-numeric `nbf` are rejected as not yet valid |
| `CardSignatures.IatOnlyLogs` | mcp/oc_agent_bridge.py:180-186 | a numeric `iat`, however old, never changes the outcome, while a non-numeric `iat` is rejected |
| `CardSignatures.TimestampsPassed` | mcp/oc_agent_bridge.py:163-186 | passing means each claim present is numeric and within its window |
| `CardSignatures.FindByKid` | mcp/oc_agent_bridge.py:191-192 | a key found is in the set and has the header's kid; none found means no key has it |
| `CardSignatures.ResolveKey` | mcp/oc_agent_bridge.py:190-208 | a resolved key is trusted, has the header's kid, and has `use` unset or `sig` |
| `CardSignatures.ResolveKeyIff` | mcp/oc_agent_bridge.py:194-206 | a key resolves iff the kid is found, `use` is unset or `sig`, RS/PS algorithms get an RSA key and ES algorithms an EC key |
| `CardSignatures.AllowedAlgKeyTypes` | mcp/oc_agent_bridge.py:198-206 | RS256 only resolves to RSA keys and ES256 only to EC keys |
| `CardSignatures.CandidatePayloads` | mcp/oc_agent_bridge.py:99-129 | one or two candidates without duplicates, the sorted-keys minified encoding always last, and the JCS encoding first when it is available |
| `CardSignatures.CandidatesUnpadded` | mcp/oc_agent_bridge.py:118-125 | no candidate contains `=` |
| `CardSignatures.CandidatesIgnoreSignatures` | mcp/oc_agent_bridge.py:105-107 | the candidates do not depend on the card's `signatures` |
| `CardSignatures.ProtectedHeader` | mcp/oc_agent_bridge.py:241 | an empty protected header reads as `{}`, and a decoded one is the JSON of the base64url-decoded text |
| `CardSignatures.UnprotectedGet` | mcp/oc_agent_bridge.py:242 | reading the unprotected header fails exactly when it is truthy and not an object |
| `CardSignatures.HeaderParam` | mcp/oc_agent_bridge.py:242-250 | a truthy protected parameter wins over the unprotected header |
| `CardSignatures.Details` | mcp/oc_agent_bridge.py:233-286 | one details entry per signature, in order, each the check of that signature |
| `CardSignatures.TrustedJwksSource` | mcp/oc_agent_bridge.py:141-160 | non-empty inline JSON wins; else a configured path that exists; else a configured URL; else no source |
| `CardSignatures.LoadTrustedJwks` | mcp/oc_agent_bridge.py:141-160 | inline JSON gives its parsed value or the invalid-JSON error; a file gives its JSON or the unreadable error; a URL gives the fetched JSON or the fetch error; no source gives None; each error comes only from its own source |
| `CardSignatures.VerifierJwks` | mcp/oc_agent_bridge.py:135-137 | a truthy key set given to the constructor is used, otherwise the loaded one |
| `CardSignatures.SignatureVerifier.constructor` | mcp/oc_agent_bridge.py:135-138 | the verifier keeps the key set and library it is given |
| `CardSignatures.SignatureVerifier.TryCandidates` | mcp/oc_agent_bridge.py:258-273 | the candidate loop reports success iff some candidate verifies under the resolved key |
| `CardSignatures.SignatureVerifier.CheckOne` | mcp/oc_agent_bridge.py:234-286 | the per-signature body yields the specified details entry |
| `CardSignatures.SignatureVerifier.CheckEntries` | mcp/oc_agent_bridge.py:233-288 | the `for` loop over the signatures raises iff some entry is not an object; otherwise it collects the specified details entry per signature and `all_valid` is true iff every entry is valid |
| `CardSignatures.VerdictOfEntries` | mcp/oc_agent_bridge.py:211-288 | with a non-empty list of object signatures and an imported key set, the verdict is the conjunction of the entries' validity together with their details |
| `CardSignatures.SignatureVerifier.Verify` | mcp/oc_agent_bridge.py:211-288 | `verify` returns exactly the verdict of the folded specification |
| `CardSignatures.SignatureVerifier.VerifyIfRequired` | mcp/oc_agent_bridge.py:290-298 | the gate passes iff the policy is off or the card verifies, and it refuses with no key set when the policy is on |
| `CardSignatures.VerdictCoversEverySignature` | mcp/oc_agent_bridge.py:219-288 | no signatures gives `(False, [])` and no key set gives one error entry; acceptance needs a key set and one valid entry per signature, and one invalid entry fails the card |
| `CardSignatures.ValidSignatureIsTrusted` | mcp/oc_agent_bridge.py:240-276 | a valid entry has an allowed `alg`, no `crit`, claims in their window, and a library-accepted signature over a candidate under a trusted key |
| `CardSignatures.VerifiedCardIsTrusted` | mcp/oc_agent_bridge.py:211-288 | an accepted card has a non-empty list of signatures, every one trusted in that sense |
| `CardSignatures.DisallowedAlgorithmRejected` | mcp/oc_agent_bridge.py:43 | whichever header holds the `kid`, an `alg` outside RS256/ES256 (`none`, `HS256`, `rs256`) is invalid, with an allow-list error and no candidate tried |
| `CardSignatures.CriticalHeaderRejected` | mcp/oc_agent_bridge.py:249-252 | whichever header holds the `kid`, a truthy `crit` in either header makes the entry invalid, with a critical-header error |
| `Discovery.NamespaceScope` | mcp/oc_agent_bridge.py:316-337 | all namespaces beats a namespace, which beats the current project; an error occurs iff no usable project is available, and it is the timeout error iff the query timed out |
| `Discovery.BuildUrlFromRoute` | mcp/oc_agent_bridge.py:394-399 | no host gives no URL; otherwise the scheme is https iff `tls` is truthy |
| `Discovery.ResolveUrlFromSourceRef` | mcp/oc_agent_bridge.py:402-423 | a blank kind or name, or another kind, gives nothing; a Route ref uses that route's URL, and a Service ref uses the corrected service lookup |
| `Discovery.ServiceLookup` | mcp/oc_agent_bridge.py:414-419 | the corrected service lookup only resolves when the route listing succeeded |
| `Discovery.ServiceLookupAsWritten` | mcp/oc_agent_bridge.py:414-419 | the lookup as written only resolves when its route listing succeeded |
| `Discovery.RoutesCommandPieces` | mcp/oc_agent_bridge.py:361 | the routes command is the fixed words joined to the flag and selector by blanks |
| `Discovery.FixedWords` | mcp/oc_agent_bridge.py:361 | the fixed parts of the command contain no whitespace |
| `Discovery.RoutesCommandWords` | mcp/oc_agent_bridge.py:361-363 | the argv of `cmd.split()` is the fixed words around the split flag and selector |
| `Discovery.WordsCons` | mcp/oc_agent_bridge.py:363 | a leading word followed by a blank is split off as the first argument |
| `Discovery.RoutesArgvAgrees` | mcp/oc_agent_bridge.py:358-363 | with a non-blank selector the corrected argv equals the argv as written |
| `Discovery.NamespaceFlagWords` | mcp/oc_agent_bridge.py:415 | `-n ns` splits into two arguments for a namespace without blanks |
| `Discovery.ServiceRoutesArgvAsWrittenLosesJson` | mcp/oc_agent_bridge.py:415 | with an empty selector, `-l` takes `-o` as its value and no output format is requested |
| `Discovery.ServiceLookupAsWrittenNeverResolves` | mcp/oc_agent_bridge.py:414-421 | when `oc` prints JSON only if asked, the Service branch as written never yields a URL |
| `Discovery.SkipsFixedWords` | mcp/oc_agent_bridge.py:361 | the leading `oc get routes` words carry no flag values |
| `Discovery.ServiceRoutesArgvAsksForJson` | mcp/oc_agent_bridge.py:414-415 | the corrected argv asks for JSON output in the namespace |
| `Discovery.ServiceLookupResolves` | mcp/oc_agent_bridge.py:414-419 | the corrected lookup finds a URL whenever a listed route targets the service and every such route has a host |
| `Discovery.RouteToServiceFinds` | mcp/oc_agent_bridge.py:416-419 | the route scan succeeds when a hosted route targets the service |
| `Discovery.RouteToService` | mcp/oc_agent_bridge.py:416-419 | a URL found is that of a route targeting the service |
| `Discovery.BuildRouteIndex` | mcp/oc_agent_bridge.py:430-455 | the loop builds exactly the specified route index |
| `Discovery.IndexLabelsEffect` | mcp/oc_agent_bridge.py:447-449 | labelled names map to the route's URL, other entries are kept, and no other key appears |
| `Discovery.LabelledTail` | mcp/oc_agent_bridge.py:447-448 | a name labelled under a later key is labelled under the whole key list |
| `Discovery.IndexRouteRules` | mcp/oc_agent_bridge.py:434-453 | a route without namespace or host changes nothing; labels overwrite with `https://`+host regardless of `tls`; the route name is added only when absent; nothing else changes |
| `Discovery.RouteIndexEntries` | mcp/oc_agent_bridge.py:430-455 | every index value is `https://`+host of some route in that namespace that has a host |
| `Discovery.RouteIndexEntry` | mcp/oc_agent_bridge.py:430-455 | any one key of the index maps to `https://`+host of a hosted route in that namespace |
| `Discovery.FirstUrl` | mcp/oc_agent_bridge.py:581-593 | URL priority is status URL, then sourceRef, then the index by agent name, then by CR name, else empty |
| `Discovery.BlankSourceRefSkipped` | mcp/oc_agent_bridge.py:584-591 | a blank sourceRef kind or name goes straight to the route index |
| `Discovery.CardUrl` | mcp/oc_agent_bridge.py:600 | the card URL is empty iff the URL is, and is URL+endpoint otherwise |
| `Discovery.InfoRecord.ToDict` | mcp/oc_agent_bridge.py:80-82 | the dict holds exactly the fields that are not None, with their values; name, namespace, class, phase, URL and card URL are always there, and `endpoint_accessible` iff it was set |
| `Discovery.AgentInfo.constructor` | mcp/oc_agent_bridge.py:602-611 | a new record has the given fields and no check results |
| `Discovery.NothingToCheck` | mcp/oc_agent_bridge.py:502-505 | with no check flag or no card URL, only `endpoint_accessible=False` is set, and only when endpoints are verified |
| `Discovery.FailureHandling` | mcp/oc_agent_bridge.py:529-535 | an escaping error means the policy is on and accessibility and, if asked, the signature are marked false; without the policy nothing escapes; an unreachable card is inaccessible |
| `Discovery.AccessibleMeans200` | mcp/oc_agent_bridge.py:508-510 | an endpoint is marked accessible only for a 200 response |
| `Discovery.VerifiedRecordIsTrusted` | mcp/oc_agent_bridge.py:512-524 | `signature_verified=True` only when the fetched card is an object the verifier accepts |
| `Discovery.RequiredMeansVerified` | mcp/oc_agent_bridge.py:520-527 | under the policy, an accessible record that did not raise has a verified signature |
| `Discovery.AttemptCheck` | mcp/oc_agent_bridge.py:507-528 | the probe and verification produce the specified outcome |
| `Discovery.CheckOfTry` | mcp/oc_agent_bridge.py:494-535 | a completed attempt is recorded as its outcome, and an escaping one as the failure handling specifies |
| `Discovery.VerifyEndpointAndSignature` | mcp/oc_agent_bridge.py:494-535 | the record is updated in place by exactly the specified outcome, and the method raises exactly when the outcome escapes |
| `Discovery.BaseRecord` | mcp/oc_agent_bridge.py:572-611 | the record's defaults, URL and card URL are as specified, with no check results; it fails iff the stored card is not an object |
| `Discovery.DiscoverAgents` | mcp/oc_agent_bridge.py:538-616 | the implementation computes the specified discovery result |
| `Discovery.RecordLoop` | mcp/oc_agent_bridge.py:572-614 | the loop computes the specified record list |
| `Discovery.AgentRecord` | mcp/oc_agent_bridge.py:573-614 | one loop iteration builds the specified record |
| `Discovery.OneRecordPerCr` | mcp/oc_agent_bridge.py:572-614 | success yields exactly one record per CR in input order; an error means some CR's record failed |
| `Discovery.DiscoveryFailsOnlyWhen` | mcp/oc_agent_bridge.py:529-570 | without the policy, with loadable keys and object cards, discovery never fails |
| `AgentCards.SkillFromConfig` | mock_agent/agent.py:209-216 | a skill keeps the entry's fields, and `tags` defaults to `[]` |
| `AgentCards.Skills` | mock_agent/agent.py:206-217 | one skill per configuration entry, in order |
| `AgentCards.CardFromConfig` | mock_agent/agent.py:219-228 | the card keeps the configuration's fields and has `url == base_url` and no signatures |
| `AgentCards.BuildSkills` | examples/byo/agent.py:88-99 | the skills loop builds the specified skills |
| `AgentCards.SkillIdsInOrder` | examples/byo/agent.py:88-99 | skill ids follow the configuration order, and there are none without `skills` |
| `AgentCards.Strings` | mock_agent/agent.py:121 | a string list dumps to an array of the same length |
| `AgentCards.SignatureJson` | mock_agent/agent.py:146-151 | a signature dumps to exactly `protected` and `signature` |
| `AgentCards.SignaturesJson` | mock_agent/agent.py:146-151 | the signatures dump entry by entry |
| `AgentCards.CardJson` | mock_agent/agent.py:121 | `signatures` appears in the dump iff it is set |
| `AgentCards.CardJsonWithoutSignatures` | mock_agent/agent.py:121-122 | setting signatures changes nothing else in the dump |
| `AgentOperator.ParseSkills` | agent-operator/controller.py:110-112 | one stripped, comma-free item per comma-separated part |
| `AgentOperator.StripInside` | bak/agent-operator/controller.py:115 | stripping keeps a part free of commas |
| `AgentOperator.ExtractAgentInfo` | agent-operator/controller.py:78-114 | None iff the class or name label is missing or empty; the defaults are version `unknown`, description `""` and the well-known endpoint; sourceRef is the resource; skills are present iff the annotation is non-empty, as the stripped comma split (same logic: bak/agent-operator/controller.py:84-115) |
| `AgentOperator.CrName` | agent-operator/controller.py:182 | the CR name has the agent name's length, no `_` and no upper case, character by character |
| `AgentOperator.CrNameFixes` | bak/agent-operator/controller.py:194 | names already in CR form are unchanged |
| `AgentOperator.CrNameIdempotent` | bak/agent-operator/controller.py:330 | deriving the CR name twice gives the same name |
| `AgentOperator.RouteUrl` | agent-operator/controller.py:121-128 | no host gives None; otherwise `https://host` iff `tls` is truthy, else `http://host` (bak/agent-operator/controller.py:126-133) |
| `AgentOperator.ServiceUrl` | agent-operator/controller.py:143-151 | the first route to the service that has a host gives the URL; there is no URL iff no such route has a host |
| `AgentOperator.GetAgentUrl` | agent-operator/controller.py:116-155 | a Route gives its URL; a Service gives the first hosted route to it, None when the listing raises an `ApiException`, and an escaping error when it raises anything else; any other kind gives None; a URL is never empty |
| `AgentOperator.CardRequestUrl` | agent-operator/controller.py:162 | trailing slashes are stripped before the endpoint is appended |
| `AgentOperator.CardRequestUrlIgnoresSlashes` | agent-operator/controller.py:162 | a trailing slash does not change the card request URL |
| `AgentOperator.VerifyAgentEndpoint` | agent-operator/controller.py:157-174 | an empty URL gives `(False, None)`; accessible iff the response is 200; the card is the parsed body, None when it is not JSON |
| `AgentOperator.CreateAgentCr` | agent-operator/controller.py:176-215 | the CR name and namespace are derived; both labels, including managed-by, are set; the spec copies the agent info; phase `Discovered` with `[]` conditions; `url` and `agentCard` present iff truthy (bak/agent-operator/controller.py:196-222) |
| `AgentOperator.ProbeEndpoint` | agent-operator/controller.py:233-237 | no URL is recorded as such, and accessible iff the endpoint check succeeds |
| `AgentOperator.ReadyCondition` | agent-operator/controller.py:242-266 | a `Ready` condition at `now`, `True` iff accessible, reason `NoURL` without a URL |
| `AgentOperator.WithoutReady` | agent-operator/controller.py:271 | the filtered list is no longer and holds no `Ready` condition |
| `AgentOperator.WithoutReadyMembers` | bak/agent-operator/controller.py:286 | the filter keeps exactly the non-`Ready` conditions |
| `AgentOperator.WithoutReadyAppend` | agent-operator/controller.py:271 | filtering distributes over concatenation |
| `AgentOperator.WithoutReadyKeeps` | agent-operator/controller.py:271 | a list without `Ready` conditions is unchanged, order included |
| `AgentOperator.UpdatedStatus` | agent-operator/controller.py:233-273 | exactly one `Ready` condition, last, after the others in their old order; phase `Ready` iff a URL is accessible, else `Failed`; `lastSeen` changes only when Ready; reason `NoURL` without a URL; the card changes only when Ready (bak/agent-operator/controller.py:248-288) |
| `AgentOperator.UpdatedStatusIdempotent` | agent-operator/controller.py:233-273 | applying the status update twice equals applying it once |
| `AgentOperator.StatusUpdate` | agent-operator/controller.py:217-289 | only the named CR's status changes; a missing CR changes nothing |
| `AgentOperator.NonAgentIgnored` | agent-operator/controller.py:300-302 | a resource without agent labels leaves the state unchanged |
| `AgentOperator.EventFrame` | agent-operator/controller.py:291-391 | an event touches only its own CR key and its own managed entry |
| `AgentOperator.UpsertFrame` | agent-operator/controller.py:313-367 | ADDED and MODIFIED touch only their own CR key and their own managed entry |
| `AgentOperator.ExistingCrKeptUnlessRouteOrNoUrl` | agent-operator/controller.py:325-327 | an existing CR with a URL is left alone by a non-Route resource |
| `AgentOperator.RouteRepointsExistingCr` | agent-operator/controller.py:327-346 | a Route re-points an existing CR's sourceRef, settles its phase, and leaves `managed_agents` alone (bak/agent-operator/controller.py:343-352) |
| `AgentOperator.ManagedOnlyOnCreate` | agent-operator/controller.py:349-367 | a managed entry is added or changed iff the event creates the CR, which needs the URL lookup not to raise (bak/agent-operator/controller.py:392) |
| `AgentOperator.CreatedCrSettles` | agent-operator/controller.py:349-367 | when the URL lookup does not raise, a created CR is managed-by labelled, points at the resource, has a settled phase and one condition, and is recorded as managed |
| `AgentOperator.ListingFailureAbandonsEvent` | agent-operator/controller.py:135-153 | a Route listing that raises something other than an `ApiException` abandons ADDED/MODIFIED for a Service: the state is unchanged (the outer handler at agent-operator/controller.py:371-372) |
| `AgentOperator.DeleteOnlyManaged` | agent-operator/controller.py:374-391 | DELETED removes the CR and the key iff the key is managed and the CR exists; otherwise nothing changes (bak/agent-operator/controller.py:401-412) |
| `AgentOperator.AddThenDelete` | agent-operator/controller.py:349-387 | creating and then deleting the same agent restores the store and forgets the agent; when the URL lookup raises, nothing changes at all |
| `AgentOperator.EventKeepsKeysMatchingNames` | agent-operator/controller.py:313 | every CR stays stored under its own namespace and name |
| `AgentOperator.EventKeepsMetadata` | agent-operator/controller.py:325-367 | an event never rewrites an existing CR's metadata, and a new one gets the created metadata |
| `AgentOperator.EventKeepsKnownPhases` | agent-operator/controller.py:201-266 | phases stay among Discovered, Ready and Failed |
| `AgentOperator.UpsertKeepsKnownPhases` | agent-operator/controller.py:313-367 | creating or refreshing a CR keeps every phase among Discovered, Ready and Failed |
| `AgentOperator.AgentController.constructor` | agent-operator/controller.py:47-68 | the controller starts with the cluster's CRs and no managed agents |
| `AgentOperator.AgentController.DropReady` | agent-operator/controller.py:269-271 | the comprehension loop computes the filtered conditions |
| `AgentOperator.AgentController.UpdateAgentStatus` | agent-operator/controller.py:217-289 | the store becomes the specified status update, and `managed_agents` is unchanged |
| `AgentOperator.AgentController.HandleResourceEvent` | agent-operator/controller.py:291-391 | the controller's state becomes the specified event outcome |
| `MockAgentServer.GetBaseUrl` | mock_agent/agent.py:244-265 | an empty host or a port outside 1..65535 is refused first; then `BASE_URL` stripped, then `https://` and the stripped route host, then `http://host:port`; a blank value is an error |
| `MockAgentServer.InvalidArgumentsIgnoreEnv` | mock_agent/agent.py:247-250 | invalid arguments fail whatever the environment holds |
| `MockAgentServer.BaseUrlTrimmed` | mock_agent/agent.py:253-256 | a served `BASE_URL` is the non-empty stripped value |
| `MockAgentServer.SigningKeySource` | mock_agent/agent.py:87-113 | non-empty inline JSON wins; else a configured key path that exists gives the key file; else the fail flag alone decides between generating a key and `NoSigningKey` |
| `MockAgentServer.NoKeyConfigured` | mock_agent/agent.py:96-113 | a key path that does not exist counts as no key configured: the source is the same as with neither variable set, and it succeeds iff the fail flag is off |
| `MockAgentServer.LoadSigningKey` | mock_agent/agent.py:85-113 | inline JSON gives its imported JWK or `InvalidJwkJson`; a key file gives `KeyFileUnreadable`, else its JWK import, else its PEM import or `PemRejected`; otherwise the generated key or `NoSigningKey` |
| `MockAgentServer.SigningKid` | mock_agent/agent.py:128 | `A2A_SIGNING_KID`, then the key's kid, then `mock-agent-key`, never falsy |
| `MockAgentServer.SigningAlg` | mock_agent/agent.py:129 | a non-empty `A2A_SIGNING_ALG` is the algorithm, else RS256; never empty |
| `MockAgentServer.JwksUrl` | mock_agent/agent.py:134-137 | a configured `A2A_JWKS_URL` is the `jku`; otherwise it is base_url+`/.well-known/jwks.json` when publishing, and absent when not |
| `MockAgentServer.SigningHeader` | mock_agent/agent.py:139-141 | the header has exactly `alg`, `kid` and, when set, `jku` |
| `MockAgentServer.SignWithKey` | mock_agent/agent.py:116-159 | signing fails exactly when `serialize_json` raises; otherwise the card is unchanged but for its one signature over the protected header and payload, and a JWKS is prepared iff publishing, holding the single public key |
| `MockAgentServer.SignAgentCard` | mock_agent/agent.py:116-159 | a key-loading error is the result; with a key, the result is that of signing with it; it fails iff either step fails |
| `MockAgentServer.SignatureParts` | mock_agent/agent.py:121-151 | the protected part decodes to the compact header, the signature is over (protected, payload), and the payload ignores the signature |
| `MockAgentServer.BuiltCard` | mock_agent/agent.py:201-241 | the card is signed iff the sign flag is on; the URL and skill count come from the configuration |
| `MockAgentServer.JwksBody` | mock_agent/agent.py:318-336 | not served unless publishing; otherwise `A2A_JWKS_JSON`, then an existing path, then the published JWKS, then `{"keys": []}` |
| `MockAgentServer.MockAgentServer.constructor` | mock_agent/agent.py:235-236 | no JWKS is published at start |
| `MockAgentServer.MockAgentServer.BuildAgentCard` | mock_agent/agent.py:231-239 | returns the specified card or error, and `PUBLISHED_JWKS` is replaced only by a prepared JWKS |
| `MockAgentServer.MockAgentServer.ServedJwks` | mock_agent/agent.py:322-336 | the endpoint serves the specified body for the current published JWKS |
| `ByoAgent.IntToString` | examples/byo/agent.py:124 | Python's `str` of an integer, sign included |
| `ByoAgent.GetBaseUrl` | examples/byo/agent.py:113-124 | `BASE_URL` as given, then `https://`+route host, then `http://host:port`, unvalidated |
| `ByoAgent.SameBaseUrlAsMockAgent` | examples/byo/agent.py:113-124 | on valid arguments and unpadded values, both agents choose the same base URL |
| `ByoAgent.BlankBaseUrlKept` | examples/byo/agent.py:116-117 | a blank `BASE_URL` is served here, while the mock agent refuses it |
| `ByoAgent.LoadAgentConfig` | examples/byo/agent.py:53-80 | the file is used iff a path is given and exists, otherwise the default |
| `ByoAgent.DefaultConfigCard` | examples/byo/agent.py:59-80 | the default advertises one `status-query` skill and answers with the default response |
| `ByoAgent.BuildAgentCard` | examples/byo/agent.py:83-110 | the unsigned card, one skill per entry, `url == base_url` |
| `ByoAgent.ResponseText` | examples/byo/agent.py:148-152 | missing gives the fixed message, a dict or list gives indented JSON, and a scalar gives Python's `str` |
| `ByoAgent.MockAgent.constructor` | examples/byo/agent.py:28-30 | the agent stores its response |
| `ByoAgent.MockAgent.Answer` | examples/byo/agent.py:32-33 | the answer is the stored response, whatever the question |
| `LegacyBridge.LegacyScopeOrder` | bak/mcp/oc_agent_bridge.py:44-66 | all namespaces, then a namespace, then the current project; no project or a failed query is an error, and a timeout its own error |
| `LegacyBridge.AgentsArgvShape` | bak/mcp/oc_agent_bridge.py:73-74 | the argv is `oc get agents`, the split flag and `-o json` |
| `LegacyBridge.AgentsArgvForNamespace` | bak/mcp/oc_agent_bridge.py:73-74 | a namespace flag splits into `-n` and the namespace |
| `LegacyBridge.EndpointAccessible` | bak/mcp/oc_agent_bridge.py:141-149 | absent when not verifying, false without a card URL, true only for a 200 response, and true whenever it is 200 |
| `LegacyBridge.RecordFor` | bak/mcp/oc_agent_bridge.py:111-151 | the defaults are name/class `unknown` and phase `Unknown`; card URL iff URL; each check as specified; an error iff the stored card is not an object |
| `LegacyBridge.BareCrDefaults` | bak/mcp/oc_agent_bridge.py:116-128 | a bare CR gets every default |
| `LegacyBridge.RecordLoop` | bak/mcp/oc_agent_bridge.py:110-151 | the loop builds the specified records |
| `LegacyBridge.OneRecordPerCr` | bak/mcp/oc_agent_bridge.py:110-151 | one record per CR, in order, and failure iff some CR's record fails |
| `LegacyBridge.DiscoverAgents` | bak/mcp/oc_agent_bridge.py:88-156 | not logged in and scope errors come first; a result implies login and a scope |
| `LegacyBridge.ListingOf` | bak/mcp/oc_agent_bridge.py:104-153 | an empty listing gives the not-found message; otherwise the header counts the CRs and there is one record per CR in order; failure iff some record fails |
| `LegacyBridge.ListingMatchesCrs` | bak/mcp/oc_agent_bridge.py:98-153 | once logged in with a scope, the answer for a successful `oc get agents` is the listing of the CRs it returned |
| `SignVerify.ServedSignatures` | mock_agent/agent.py:146-151 | the served card carries exactly the one signature entry |
| `SignVerify.FallbackIsSignedPayload` | mcp/oc_agent_bridge.py:123-125 | the bridge's last payload candidate is the mock agent's signed payload |
| `SignVerify.HeaderReadsBack` | mock_agent/agent.py:139-144 | the protected header the mock agent writes reads back as itself, with no `crit` and no timestamp claims |
| `SignVerify.TrustedKeyResolves` | mcp/oc_agent_bridge.py:190-208 | a trusted key fitting the signing kid and alg resolves to the signer's public key |
| `SignVerify.EntryAccepted` | mcp/oc_agent_bridge.py:240-276 | an entry whose header passes every rule and whose signature verifies on the fallback candidate is valid |
| `SignVerify.EntryChecks` | mcp/oc_agent_bridge.py:234-286 | the mock agent's signature entry is valid with its kid and alg |
| `SignVerify.OneEntryVerdict` | mcp/oc_agent_bridge.py:219-288 | a card with one signature gets that entry's validity as its verdict |
| `SignVerify.SignedCardVerifies` | mock_agent/agent.py:116-159 | a card the mock agent manages to sign with an allowed algorithm passes the bridge's `verify` under a fitting trusted key set |
| `SignVerify.UnlistedAlgorithmRejected` | mock_agent/agent.py:129 | a card signed with an `A2A_SIGNING_ALG` outside the allow-list is rejected with an allow-list error |

## Left out

- I/O is not modelled: `subprocess`, `httpx`, the Kubernetes client, file reads, `os.path.exists` and YAML loading. The model sees only their results, as parameters.
- Watch streams, `asyncio`, the FastMCP tool wrappers and their text formatting are not modelled.
- The A2A client relays (`send_message_to_agent` and its streaming form) and the `get_agent_card` tools are not modelled.
- `examples/byo/agent.py` and `mock_agent/agent.py`: the A2A executor classes and the uvicorn/FastAPI setup are not modelled.
- `mock_agent/agent.py`: `StatusKB` and its `MockAgent` search are not modelled, and neither is this file's `load_agent_config`.
- Cryptography is not modelled. Key-set import, JWS serialization and signature checking are the `JoseLib` and `Signer` parameters.
- CardSignatures.CombinedHeader: authlib's merge of the protected and unprotected headers is modelled as the unprotected members laid over the protected ones, so an unprotected member wins. It decides only which header the key resolver sees.
- Base64Url.Decode: Python's lenient decoding is replaced by a strict decoder, which rejects characters outside the alphabet and malformed padding.
- Text.Lower: only ASCII letters are folded. Python's Unicode case mapping is not modelled.
- JSON parsing, JCS (RFC 8785) canonicalization and `json.dumps` text are the `JsonCodec` parameter; only their results are modelled.
- The a2a library's `model_dump(mode="json", exclude_none=True)` is modelled field by field for the fields these agents set. Its other defaults and aliasing are not modelled.
- `int(time.time())` and `datetime.now()` are the `now` parameter.
- Cards and configurations are typed. A missing required key in a configuration, which would raise `KeyError`, is not modelled, and neither are `isinstance` checks on wrongly typed fields.
- AgentOperator.StatusUpdate: a full replacement of the CR stands in for the API server's merge-patch. The status subresource semantics are not modelled.
- AgentOperator.HandleEvent: Kubernetes API errors other than 404 leave the state unchanged. Failed controller calls are not retried.
- AgentOperator.ServiceUrl: the controller's Service branch skips routes without a host on the way to the first hosted route, as the code does. It is cited against its own lines.
- Discovery.EndpointCheck: when the require-verified policy is on, the error re-raised from inside `_verify_endpoint_and_signature` is modelled as an escape from the whole discovery. This follows the code.
- Discovery.NamespaceScope: a missing `oc` binary (`FileNotFoundError`) is not modelled.
- Discovery.ResolveUrlFromSourceRef: the Service branch uses the corrected lookup `Discovery.ServiceLookup` (see Findings). The code as written never resolves a Service reference and falls back to the route index; `Discovery.ServiceLookupAsWrittenNeverResolves` states that behaviour.
- Discovery.BaseRecord: its URL comes from `Discovery.ResolveUrlFromSourceRef`, so a Service reference is resolved by the corrected lookup, not as written.
- Discovery.AgentRecord: inherits the corrected Service lookup through `Discovery.BaseRecord`.
- Discovery.DiscoverAgents: every record inherits the corrected Service lookup.
- The signature age limit (`MAX_SIGNATURE_AGE_SECONDS`) is not modelled, because it only decides whether an old `iat` is logged.

## Findings

| source | as written | input that shows it | evidently intended | confidence | as-written member | corrected member |
|---|---|---|---|---|---|---|
| mcp/oc_agent_bridge.py:414-419 | the Service branch lists routes with `get_routes(f"-n {ns}", label_selector="")`, so the command is `oc get routes -n ns -l  -o json`; `split()` makes `-o` the value of `-l`, JSON output is never requested, so the command fails or prints no JSON, and the caught exception leaves the URL unresolved | an Agent CR with no `status.url` and `sourceRef` `{kind: Service, name: svc}` in namespace `demo`, with a Route to `svc` that has a host: argv `["oc","get","routes","-n","demo","-l","-o","json"]` | list all routes of the namespace as JSON (`oc get routes -n demo -o json`) and return the first matching route's URL | not executed | `Discovery.ServiceLookupAsWrittenNeverResolves` | `Discovery.ServiceLookupResolves` |
