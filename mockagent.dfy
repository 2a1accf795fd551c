/**
 * The mock A2A agent's card publishing: its base URL, where its signing
 * key comes from, how it signs its agent card (JWS JSON serialization with
 * one signature, section 7.2 of RFC 7515) and which JWKS body it serves.
 * The JOSE library (key import, generation and signing) and the
 * environment are parameters.
 */
module MockAgentServer {
  import opened Wrappers
  import opened Text
  import opened JsonValue
  import opened Env
  import opened Base64Url
  import opened AgentCards

  // ---------------------------------------------------------------------
  // Base URL (`get_base_url`)

  datatype BaseUrlError = InvalidHost | InvalidPort | BaseUrlBlank | RouteHostBlank

  predicate ValidPort(port: int) {
    1 <= port <= 65535
  }

  /** `get_base_url`: the arguments are checked first; then `BASE_URL`,
      then the OpenShift route host, then `http://host:port`. A value made
      only of whitespace is an error, not a fall-through. */
  function GetBaseUrl(host: string, port: int, env: Environment): (r: Result<string, BaseUrlError>)
    ensures host == "" ==> r == Err(InvalidHost)
    ensures host != "" && !ValidPort(port) ==> r == Err(InvalidPort)
    ensures host != "" && ValidPort(port) && NonEmpty(env, "BASE_URL").Some? ==>
              r == (if Strip(env["BASE_URL"]) == "" then Err(BaseUrlBlank) else Ok(Strip(env["BASE_URL"])))
    ensures host != "" && ValidPort(port) && NonEmpty(env, "BASE_URL").None? && NonEmpty(env, "OPENSHIFT_ROUTE_HOST").Some? ==>
              r == (if Strip(env["OPENSHIFT_ROUTE_HOST"]) == "" then Err(RouteHostBlank)
                    else Ok("https://" + Strip(env["OPENSHIFT_ROUTE_HOST"])))
    ensures host != "" && ValidPort(port) && NonEmpty(env, "BASE_URL").None? && NonEmpty(env, "OPENSHIFT_ROUTE_HOST").None? ==>
              r == Ok("http://" + host + ":" + NatToString(port))
  {
    if host == "" then Err(InvalidHost)
    else if !ValidPort(port) then Err(InvalidPort)
    else match NonEmpty(env, "BASE_URL")
      case Some(base) => if Strip(base) == "" then Err(BaseUrlBlank) else Ok(Strip(base))
      case None =>
        match NonEmpty(env, "OPENSHIFT_ROUTE_HOST")
        case Some(routeHost) => if Strip(routeHost) == "" then Err(RouteHostBlank) else Ok("https://" + Strip(routeHost))
        case None => Ok("http://" + host + ":" + NatToString(port))
  }

  /** Bad arguments are reported whatever the environment holds. */
  lemma InvalidArgumentsIgnoreEnv(host: string, port: int, env1: Environment, env2: Environment)
    requires host == "" || !ValidPort(port)
    ensures GetBaseUrl(host, port, env1) == GetBaseUrl(host, port, env2)
    ensures GetBaseUrl(host, port, env1).Err?
  {
  }

  /** A base URL the function returns is never blank and never carries
      surrounding whitespace from the environment. */
  lemma BaseUrlTrimmed(host: string, port: int, env: Environment)
    requires NonEmpty(env, "BASE_URL").Some?
    requires GetBaseUrl(host, port, env).Ok?
    ensures GetBaseUrl(host, port, env).value == Strip(env["BASE_URL"]) != ""
  {
  }

  // ---------------------------------------------------------------------
  // The signing key (`_load_signing_key`)

  /** The JOSE library as the mock agent uses it. Keys are their JWK
      dictionaries. */
  datatype Signer = Signer(
    /** `JsonWebKey.import_key(dict)`; `None` when it raises `ValueError`/`KeyError` */
    importJwk: Json -> Option<Json>,
    /** `JsonWebKey.import_key(pem_text)`; `None` when it raises */
    importPem: string -> Option<Json>,
    /** `JsonWebKey.generate_key("RSA", 2048, {"kid": "mock-agent-key", ...})` */
    generated: Json,
    /** `key.as_dict(is_private=False)` */
    publicJwk: Json -> map<string, Json>,
    /** the signature `serialize_json` computes over `protected.payload`;
        `None` when it raises, as for an algorithm outside its registry
        or a key that does not fit the algorithm */
    sign: (Json, string, string) -> Option<string>
  )

  datatype KeySource = InlineJwk(text: string) | KeyFile(path: string) | GenerateKey

  /** `SigningError`s; `PemRejected`, the PEM fallback's own import error,
      which is not a `SigningError` and escapes as it is; and
      `SerializeFailed`, an exception of `serialize_json`, which escapes
      as well. */
  datatype SignError = InvalidJwkJson | KeyFileUnreadable | NoSigningKey | PemRejected | SerializeFailed

  /** The source order: inline JSON, then a key file that exists, then a
      generated key unless the configuration forbids it. */
  function SigningKeySource(env: Environment, exists_: string -> bool): (r: Result<KeySource, SignError>)
    ensures NonEmpty(env, "A2A_SIGNING_JWK_JSON").Some? ==> r == Ok(InlineJwk(env["A2A_SIGNING_JWK_JSON"]))
    ensures NonEmpty(env, "A2A_SIGNING_JWK_JSON").None? && NonEmpty(env, "A2A_SIGNING_JWK_PATH").Some? &&
            exists_(env["A2A_SIGNING_JWK_PATH"]) ==>
              r == Ok(KeyFile(env["A2A_SIGNING_JWK_PATH"]))
    ensures NonEmpty(env, "A2A_SIGNING_JWK_JSON").None? &&
            (NonEmpty(env, "A2A_SIGNING_JWK_PATH").None? || !exists_(env["A2A_SIGNING_JWK_PATH"])) ==>
              r == (if Flag(env, "A2A_FAIL_IF_NO_SIGNING_KEY") then Err(NoSigningKey) else Ok(GenerateKey))
    ensures r.Ok? && r.value.KeyFile? ==> exists_(r.value.path) && r.value.path != ""
    ensures r.Err? ==> r.error == NoSigningKey && Flag(env, "A2A_FAIL_IF_NO_SIGNING_KEY")
  {
    match NonEmpty(env, "A2A_SIGNING_JWK_JSON")
    case Some(text) => Ok(InlineJwk(text))
    case None =>
      match NonEmpty(env, "A2A_SIGNING_JWK_PATH")
      case Some(path) =>
        if exists_(path) then Ok(KeyFile(path))
        else if Flag(env, "A2A_FAIL_IF_NO_SIGNING_KEY") then Err(NoSigningKey) else Ok(GenerateKey)
      case None =>
        if Flag(env, "A2A_FAIL_IF_NO_SIGNING_KEY") then Err(NoSigningKey) else Ok(GenerateKey)
  }

  /** Without a usable key configured (no inline JSON, and no key path or
      one that does not exist) the flag alone decides between generating
      one and failing, whatever else the environment holds. */
  lemma NoKeyConfigured(env: Environment, exists_: string -> bool, other: Environment)
    requires NonEmpty(env, "A2A_SIGNING_JWK_JSON").None?
    requires NonEmpty(env, "A2A_SIGNING_JWK_PATH").None? || !exists_(env["A2A_SIGNING_JWK_PATH"])
    requires NonEmpty(other, "A2A_SIGNING_JWK_JSON").None? && NonEmpty(other, "A2A_SIGNING_JWK_PATH").None?
    requires Flag(other, "A2A_FAIL_IF_NO_SIGNING_KEY") == Flag(env, "A2A_FAIL_IF_NO_SIGNING_KEY")
    ensures SigningKeySource(env, exists_) == SigningKeySource(other, exists_)
    ensures SigningKeySource(env, exists_).Ok? <==> !Flag(env, "A2A_FAIL_IF_NO_SIGNING_KEY")
  {
  }

  /** `JsonWebKey.import_key(json.loads(text))`: `None` when either step
      raises. */
  function JwkFromText(text: string, signer: Signer, codec: JsonCodec): (k: Option<Json>)
    ensures k.Some? <==> codec.loadsText(text).Some? && signer.importJwk(codec.loadsText(text).value).Some?
    ensures k.Some? ==> k == signer.importJwk(codec.loadsText(text).value)
  {
    match codec.loadsText(text)
    case None => None
    case Some(j) => signer.importJwk(j)
  }

  /** `_load_signing_key`: a key file is tried as a JWK in JSON first and
      as PEM text when that fails. */
  function LoadSigningKey(env: Environment, exists_: string -> bool, readFile: string -> Option<string>,
                          signer: Signer, codec: JsonCodec): (r: Result<Json, SignError>)
    ensures SigningKeySource(env, exists_).Err? ==> r == Err(NoSigningKey)
    ensures SigningKeySource(env, exists_) == Ok(GenerateKey) ==> r == Ok(signer.generated)
    ensures SigningKeySource(env, exists_).Ok? && SigningKeySource(env, exists_).value.InlineJwk? ==>
              var text := SigningKeySource(env, exists_).value.text;
              (r.Ok? <==> JwkFromText(text, signer, codec).Some?) &&
              (r.Ok? ==> r.value == JwkFromText(text, signer, codec).value) &&
              (r.Err? ==> r.error == InvalidJwkJson)
    ensures SigningKeySource(env, exists_).Ok? && SigningKeySource(env, exists_).value.KeyFile? ==>
              var path := SigningKeySource(env, exists_).value.path;
              (readFile(path).None? <==> r == Err(KeyFileUnreadable)) &&
              (readFile(path).Some? && JwkFromText(readFile(path).value, signer, codec).Some? ==>
                 r == Ok(JwkFromText(readFile(path).value, signer, codec).value)) &&
              (readFile(path).Some? && JwkFromText(readFile(path).value, signer, codec).None? ==>
                 (r.Ok? <==> signer.importPem(readFile(path).value).Some?) &&
                 (r.Ok? ==> r.value == signer.importPem(readFile(path).value).value) &&
                 (r.Err? ==> r.error == PemRejected))
    ensures r.Err? && r.error == InvalidJwkJson ==> SigningKeySource(env, exists_).Ok? && SigningKeySource(env, exists_).value.InlineJwk?
    ensures r.Err? && (r.error == KeyFileUnreadable || r.error == PemRejected) ==>
              SigningKeySource(env, exists_).Ok? && SigningKeySource(env, exists_).value.KeyFile?
    ensures r.Err? ==> r.error != SerializeFailed
  {
    match SigningKeySource(env, exists_)
    case Err(e) => Err(e)
    case Ok(InlineJwk(text)) =>
      (match JwkFromText(text, signer, codec)
       case None => Err(InvalidJwkJson)
       case Some(key) => Ok(key))
    case Ok(KeyFile(path)) =>
      (match readFile(path)
       case None => Err(KeyFileUnreadable)
       case Some(raw) =>
         match JwkFromText(raw, signer, codec)
         case Some(key) => Ok(key)
         case None =>
           match signer.importPem(raw)
           case Some(key) => Ok(key)
           case None => Err(PemRejected))
    case Ok(GenerateKey) => Ok(signer.generated)
  }

  // ---------------------------------------------------------------------
  // Signing (`_sign_agent_card`)

  const DefaultKid: string := "mock-agent-key"
  const DefaultAlg: string := "RS256"

  /** `A2A_SIGNING_KID or key.kid or "mock-agent-key"` */
  function SigningKid(env: Environment, publicKey: map<string, Json>): (kid: Json)
    ensures Truthy(kid)
    ensures NonEmpty(env, "A2A_SIGNING_KID").Some? ==> kid == JStr(env["A2A_SIGNING_KID"])
    ensures NonEmpty(env, "A2A_SIGNING_KID").None? && Truthy(Get(publicKey, "kid")) ==> kid == Get(publicKey, "kid")
    ensures NonEmpty(env, "A2A_SIGNING_KID").None? && !Truthy(Get(publicKey, "kid")) ==> kid == JStr(DefaultKid)
  {
    match NonEmpty(env, "A2A_SIGNING_KID")
    case Some(kid) => JStr(kid)
    case None => Or(Get(publicKey, "kid"), JStr(DefaultKid))
  }

  /** `A2A_SIGNING_ALG or "RS256"` */
  function SigningAlg(env: Environment): (alg: string)
    ensures alg != ""
    ensures NonEmpty(env, "A2A_SIGNING_ALG").Some? ==> alg == env["A2A_SIGNING_ALG"]
    ensures NonEmpty(env, "A2A_SIGNING_ALG").None? ==> alg == DefaultAlg
  {
    NonEmpty(env, "A2A_SIGNING_ALG").GetOr(DefaultAlg)
  }

  /** The `jku` header: the configured JWKS URL, else the agent's own
      well-known JWKS when it publishes one. */
  function JwksUrl(env: Environment, baseUrl: string): (jku: Option<string>)
    ensures jku.Some? <==> NonEmpty(env, "A2A_JWKS_URL").Some? || Flag(env, "A2A_PUBLISH_JWKS")
    ensures NonEmpty(env, "A2A_JWKS_URL").Some? ==> jku == Some(env["A2A_JWKS_URL"])
    ensures NonEmpty(env, "A2A_JWKS_URL").None? && Flag(env, "A2A_PUBLISH_JWKS") ==>
              jku == Some(baseUrl + "/.well-known/jwks.json")
    ensures jku.Some? ==> jku.value != ""
  {
    match NonEmpty(env, "A2A_JWKS_URL")
    case Some(url) => Some(url)
    case None => if Flag(env, "A2A_PUBLISH_JWKS") then Some(baseUrl + "/.well-known/jwks.json") else None
  }

  /** The protected header: always `alg` and `kid`, and `jku` when set. */
  function SigningHeader(alg: string, kid: Json, jku: Option<string>): (h: map<string, Json>)
    ensures h.Keys == {"alg", "kid"} + (if jku.Some? then {"jku"} else {})
    ensures h["alg"] == JStr(alg) && h["kid"] == kid
    ensures jku.Some? ==> h["jku"] == JStr(jku.value)
  {
    var base := map["alg" := JStr(alg), "kid" := kid];
    if jku.Some? then base["jku" := JStr(jku.value)] else base
  }

  /** The payload that is signed: the card's JSON without `signatures`,
      sorted keys, minified, UTF-8. */
  function SignedPayload(card: AgentCard, codec: JsonCodec): seq<byte> {
    codec.sortedMinified(JObj(CardJson(card) - {"signatures"}))
  }

  /** The protected header the agent signs under with `key`. */
  function HeaderFor(env: Environment, baseUrl: string, key: Json, signer: Signer): map<string, Json> {
    SigningHeader(SigningAlg(env), SigningKid(env, signer.publicJwk(key)), JwksUrl(env, baseUrl))
  }

  /** The `protected` member: the compact header, base64url-encoded. */
  function ProtectedFor(env: Environment, baseUrl: string, key: Json, signer: Signer, codec: JsonCodec): string {
    Encode(codec.compact(JObj(HeaderFor(env, baseUrl, key, signer))))
  }

  /** What `_sign_agent_card` computes once the key is loaded: the card with
      its one signature, and the JWKS to publish when publishing is on. */
  datatype Signed = Signed(card: AgentCard, jwks: Option<Json>)

  function SignWithKey(card: AgentCard, baseUrl: string, env: Environment, key: Json,
                       signer: Signer, codec: JsonCodec): (r: Result<Signed, SignError>)
    ensures var sig := signer.sign(key, ProtectedFor(env, baseUrl, key, signer, codec), Encode(SignedPayload(card, codec)));
            (r.Err? <==> sig.None?) && (r.Err? ==> r.error == SerializeFailed) &&
            (r.Ok? ==> r.value.card.signatures == Some([CardSignature(ProtectedFor(env, baseUrl, key, signer, codec), sig.value)]))
    ensures r.Ok? ==> r.value.card == card.(signatures := r.value.card.signatures)
    ensures r.Ok? ==> (r.value.jwks.Some? <==> Flag(env, "A2A_PUBLISH_JWKS"))
    ensures r.Ok? && r.value.jwks.Some? ==> r.value.jwks.value == JObj(map["keys" := JArr([JObj(signer.publicJwk(key))])])
    ensures r.Ok? && r.value.jwks.Some? ==> Truthy(r.value.jwks.value)
  {
    var publicKey := signer.publicJwk(key);
    assert "keys" in map["keys" := JArr([JObj(publicKey)])];
    var protectedB64 := ProtectedFor(env, baseUrl, key, signer, codec);
    var payloadB64 := Encode(SignedPayload(card, codec));
    match signer.sign(key, protectedB64, payloadB64)
    case None => Err(SerializeFailed)
    case Some(signature) =>
      Ok(Signed(card.(signatures := Some([CardSignature(protectedB64, signature)])),
                if Flag(env, "A2A_PUBLISH_JWKS") then Some(JObj(map["keys" := JArr([JObj(publicKey)])])) else None))
  }

  /** `_sign_agent_card`. */
  function SignAgentCard(card: AgentCard, baseUrl: string, env: Environment, exists_: string -> bool,
                         readFile: string -> Option<string>, signer: Signer, codec: JsonCodec): (r: Result<Signed, SignError>)
    ensures LoadSigningKey(env, exists_, readFile, signer, codec).Err? ==>
              r == Err(LoadSigningKey(env, exists_, readFile, signer, codec).error)
    ensures LoadSigningKey(env, exists_, readFile, signer, codec).Ok? ==>
              r == SignWithKey(card, baseUrl, env, LoadSigningKey(env, exists_, readFile, signer, codec).value, signer, codec)
    ensures r.Err? <==> LoadSigningKey(env, exists_, readFile, signer, codec).Err? ||
                        SignWithKey(card, baseUrl, env, LoadSigningKey(env, exists_, readFile, signer, codec).value, signer, codec).Err?
    ensures r.Ok? && r.value.jwks.Some? ==> Truthy(r.value.jwks.value)
  {
    match LoadSigningKey(env, exists_, readFile, signer, codec)
    case Err(e) => Err(e)
    case Ok(key) => SignWithKey(card, baseUrl, env, key, signer, codec)
  }

  /** The one signature's parts, as the verifier reads them: the signed
      header decodes from `protected`, the signed payload is the card's
      JSON without `signatures`, and an existing `signatures` value makes
      no difference. */
  lemma SignatureParts(card: AgentCard, baseUrl: string, env: Environment, key: Json, signer: Signer, codec: JsonCodec)
    ensures var r := SignWithKey(card, baseUrl, env, key, signer, codec);
            r.Ok? ==>
              var sig := r.value.card.signatures.value[0];
              Decode(sig.protectedB64) == Some(codec.compact(JObj(HeaderFor(env, baseUrl, key, signer)))) &&
              Some(sig.signature) == signer.sign(key, sig.protectedB64, Encode(SignedPayload(card, codec))) &&
              SignedPayload(r.value.card, codec) == SignedPayload(card, codec)
  {
    var r := SignWithKey(card, baseUrl, env, key, signer, codec);
    if r.Ok? {
      DecodeEncode(codec.compact(JObj(HeaderFor(env, baseUrl, key, signer))));
      CardJsonWithoutSignatures(card, r.value.card.signatures);
      assert r.value.card == card.(signatures := r.value.card.signatures);
    }
  }

  /** Whether the card is signed: `A2A_SIGN_CARD` in any case of 1/true/yes. */
  function SignCard(env: Environment): bool {
    Flag(env, "A2A_SIGN_CARD")
  }

  /** What `build_agent_card` yields: the card from the configuration,
      signed when asked, and the JWKS it publishes. */
  function BuiltCard(baseUrl: string, config: AgentConfig, env: Environment, exists_: string -> bool,
                     readFile: string -> Option<string>, signer: Signer, codec: JsonCodec): (r: Result<Signed, SignError>)
    ensures !SignCard(env) ==> r == Ok(Signed(CardFromConfig(baseUrl, config), None))
    ensures SignCard(env) ==> r == SignAgentCard(CardFromConfig(baseUrl, config), baseUrl, env, exists_, readFile, signer, codec)
    ensures r.Ok? ==> r.value.card.url == baseUrl && |r.value.card.skills| == |config.skills.GetOr([])|
    ensures r.Ok? ==> (r.value.card.signatures.Some? <==> SignCard(env))
  {
    var card := CardFromConfig(baseUrl, config);
    if SignCard(env) then SignAgentCard(card, baseUrl, env, exists_, readFile, signer, codec)
    else Ok(Signed(card, None))
  }

  // ---------------------------------------------------------------------
  // The JWKS endpoint (`get_jwks` in `main`)

  datatype JwksServeError = NotServed | JwksFileUnreadable

  /** The JWKS body, when the route exists (publishing on): inline JSON,
      then a file that exists, then the key set published at start-up,
      then an empty key set. */
  function JwksBody(env: Environment, exists_: string -> bool, readFile: string -> Option<string>,
                    published: Option<Json>, codec: JsonCodec): (r: Result<string, JwksServeError>)
    ensures !Flag(env, "A2A_PUBLISH_JWKS") <==> r == Err(NotServed)
    ensures Flag(env, "A2A_PUBLISH_JWKS") && NonEmpty(env, "A2A_JWKS_JSON").Some? ==> r == Ok(env["A2A_JWKS_JSON"])
    ensures Flag(env, "A2A_PUBLISH_JWKS") && NonEmpty(env, "A2A_JWKS_JSON").None? &&
            NonEmpty(env, "A2A_JWKS_PATH").Some? && exists_(env["A2A_JWKS_PATH"]) ==>
              r == (match readFile(env["A2A_JWKS_PATH"]) case Some(t) => Ok(t) case None => Err(JwksFileUnreadable))
    ensures Flag(env, "A2A_PUBLISH_JWKS") && NonEmpty(env, "A2A_JWKS_JSON").None? &&
            (NonEmpty(env, "A2A_JWKS_PATH").None? || !exists_(env["A2A_JWKS_PATH"])) ==>
              r == Ok(codec.text(if published.Some? then published.value else JObj(map["keys" := JArr([])])))
  {
    if !Flag(env, "A2A_PUBLISH_JWKS") then Err(NotServed)
    else match NonEmpty(env, "A2A_JWKS_JSON")
      case Some(text) => Ok(text)
      case None =>
        var path := NonEmpty(env, "A2A_JWKS_PATH");
        if path.Some? && exists_(path.value) then
          match readFile(path.value) { case Some(t) => Ok(t) case None => Err(JwksFileUnreadable) }
        else if published.Some? then Ok(codec.text(published.value))
        else Ok(codec.text(JObj(map["keys" := JArr([])])))
  }

  // ---------------------------------------------------------------------
  // The server's one piece of state: `PUBLISHED_JWKS`

  class MockAgentServer {
    /** `PUBLISHED_JWKS` */
    var publishedJwks: Option<Json>

    constructor ()
      ensures publishedJwks.None?
    {
      publishedJwks := None;
    }

    /** `build_agent_card`: the skills loop, the card, and signing when
        asked; a key set to publish is stored in `PUBLISHED_JWKS`. */
    method BuildAgentCard(baseUrl: string, config: AgentConfig, env: Environment, exists_: string -> bool,
                          readFile: string -> Option<string>, signer: Signer, codec: JsonCodec)
      returns (r: Result<AgentCard, SignError>)
      modifies this
      ensures var built := BuiltCard(baseUrl, config, env, exists_, readFile, signer, codec);
              (r.Ok? <==> built.Ok?) && (r.Ok? ==> r.value == built.value.card) &&
              (r.Err? ==> r.error == built.error) &&
              publishedJwks == (if built.Ok? && built.value.jwks.Some? then built.value.jwks else old(publishedJwks))
    {
      ghost var built := BuiltCard(baseUrl, config, env, exists_, readFile, signer, codec);
      var skills := BuildSkills(config);
      var card := AgentCard(config.name, config.description, config.version, baseUrl,
                            config.defaultInputModes, config.defaultOutputModes, skills, None);
      assert card == CardFromConfig(baseUrl, config);
      if SignCard(env) {
        var signed := SignAgentCard(card, baseUrl, env, exists_, readFile, signer, codec);
        assert signed == built;
        if signed.Err? {
          return Err(signed.error);
        }
        card := signed.value.card;
        if signed.value.jwks.Some? && Truthy(signed.value.jwks.value) {
          publishedJwks := signed.value.jwks;
        }
      } else {
        assert built == Ok(Signed(card, None));
      }
      return Ok(card);
    }

    /** The body `GET /.well-known/jwks.json` answers with. */
    function ServedJwks(env: Environment, exists_: string -> bool, readFile: string -> Option<string>, codec: JsonCodec): (r: Result<string, JwksServeError>)
      reads this
      ensures r == JwksBody(env, exists_, readFile, publishedJwks, codec)
    {
      JwksBody(env, exists_, readFile, publishedJwks, codec)
    }
  }
}
