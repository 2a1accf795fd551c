/**
 * `SignatureVerifier` of the discovery bridge: checking the `signatures` of
 * an agent card in the JWS JSON serialization (section 7.2 of RFC 7515)
 * against a trusted JSON Web Key Set, failing closed.
 *
 * The JOSE library itself (key-set import and the cryptographic check of one
 * flattened JWS) is the parameter `lib`; JSON text handling is `codec`.
 */
module CardSignatures {
  import opened Wrappers
  import opened Text
  import opened JsonValue
  import opened Base64Url
  import opened Env

  /** `ALLOWED_SIGNATURE_ALGORITHMS` */
  const AllowedAlgorithms: seq<string> := ["RS256", "ES256"]

  /** `alg in SecurityConfig.ALLOWED_ALGORITHMS` (list membership by `==`). */
  predicate AllowedAlg(alg: Json) {
    alg.JStr? && alg.s in AllowedAlgorithms
  }

  /** `SecurityConfig.require_verified_card()`: off unless switched on. */
  function RequireVerifiedCard(env: Environment): (on: bool)
    ensures "A2A_REQUIRE_VERIFIED_CARD" !in env ==> !on
  {
    Flag(env, "A2A_REQUIRE_VERIFIED_CARD")
  }

  /** `SecurityConfig.httpx_verify()`: TLS is verified unless explicitly skipped. */
  function HttpxVerify(env: Environment): (verify: bool)
    ensures "A2A_INSECURE_SKIP_TLS_VERIFY" !in env ==> verify
  {
    !Flag(env, "A2A_INSECURE_SKIP_TLS_VERIFY")
  }

  /** A key of an imported key set, with the JWK parameters the resolver
      inspects (sections 4.1, 4.2 and 4.5 of RFC 7517). */
  datatype Jwk = Jwk(kid: Option<string>, kty: string, use: Option<string>, material: Json)

  /** The JOSE library: `JsonWebKey.import_key_set` (`None` when it raises)
      and whether `JsonWebSignature.deserialize_json` accepts the flattened JWS
      (`protected`, `payload`, `signature`) under a key, given the combined
      header it hands to the key resolver. */
  datatype JoseLib = JoseLib(
    importKeySet: Json -> Option<seq<Jwk>>,
    sigOk: (Jwk, map<string, Json>, Json, string, Json) -> bool
  )

  /** The exceptions raised inside the per-signature `try`, whose text ends up
      in a details entry as `error`. */
  datatype VerifyError =
    | ProtectedUndecodable
    | HeaderNotObject
    | UnprotectedNotObject
    | AlgorithmNotAllowed(alg: Json)
    | CriticalHeader(crit: Json)
    | Expired(exp: Json)
    | NotYetValid(nbf: Json)
    | InvalidIat(iat: Json)
    | NoTrustedJwks

  /** One entry of `details`: `valid` always, `kid` and `alg` once they have
      been read (`Some(JNull)` is a key present with value `None`), `error`
      when an exception was caught. */
  datatype Detail = Detail(valid: bool, kid: Option<Json>, alg: Option<Json>, error: Option<VerifyError>)

  /** Exceptions that escape `verify` itself. */
  datatype Escape = KeySetImportFailed | SignaturesNotAList | SignatureEntryNotObject

  datatype VerifyResult = Verdict(ok: bool, details: seq<Detail>) | Raised(reason: Escape)

  // ---------------------------------------------------------------------
  // Timestamps (sections 4.1.4 to 4.1.6 of RFC 7519)

  /** `isinstance(v, (int, float))`; a JSON `true`/`false` is a Python `bool`,
      which is an `int`. */
  predicate IsNumber(v: Json) {
    v.JNum? || v.JBool? || v.JNaN? || v.JInf?
  }

  /** Python's `v < now` for a number (every comparison with NaN is false). */
  predicate Before(v: Json, now: int)
    requires IsNumber(v)
  {
    match v
    case JNum(r) => r < now as real
    case JBool(b) => (if b then 1 else 0) < now
    case JInf(positive) => !positive
    case _ => false
  }

  /** Python's `v > now` for a number. */
  predicate After(v: Json, now: int)
    requires IsNumber(v)
  {
    match v
    case JNum(r) => r > now as real
    case JBool(b) => (if b then 1 else 0) > now
    case JInf(positive) => positive
    case _ => false
  }

  /** `SignatureVerifier._validate_timestamps` with the clock passed in:
      the first failing check, or `None` when the header passes. An old `iat`
      is only logged, so it never fails. */
  function ValidateTimestamps(p: map<string, Json>, now: int): (r: Option<VerifyError>)
    ensures r.Some? ==> r.value.Expired? || r.value.NotYetValid? || r.value.InvalidIat?
  {
    var exp := Get(p, "exp");
    var nbf := Get(p, "nbf");
    var iat := Get(p, "iat");
    if exp != JNull && (!IsNumber(exp) || Before(exp, now)) then Some(Expired(exp))
    else if nbf != JNull && (!IsNumber(nbf) || After(nbf, now)) then Some(NotYetValid(nbf))
    else if iat != JNull && !IsNumber(iat) then Some(InvalidIat(iat))
    else None
  }

  /** `exp` is inclusive: a signature expiring exactly now still passes, one
      that expired a second ago does not, and neither does a non-numeric `exp`. */
  lemma ExpBoundary(p: map<string, Json>, now: int)
    requires "nbf" !in p && "iat" !in p
    ensures ValidateTimestamps(p["exp" := JNum(now as real)], now) == None
    ensures ValidateTimestamps(p["exp" := JNum((now - 1) as real)], now) == Some(Expired(JNum((now - 1) as real)))
    ensures ValidateTimestamps(p["exp" := JStr("tomorrow")], now) == Some(Expired(JStr("tomorrow")))
  {
  }

  /** `nbf` in the future, or not a number, is rejected. */
  lemma NbfRejected(p: map<string, Json>, now: int, t: real)
    requires Get(p, "exp") == JNull
    requires t > now as real
    ensures ValidateTimestamps(p["nbf" := JNum(t)], now) == Some(NotYetValid(JNum(t)))
    ensures ValidateTimestamps(p["nbf" := JStr("soon")], now) == Some(NotYetValid(JStr("soon")))
  {
  }

  /** Any numeric `iat`, however old, makes no difference; a non-numeric one
      is rejected when `exp` and `nbf` pass. */
  lemma IatOnlyLogs(p: map<string, Json>, now: int, t: real)
    ensures ValidateTimestamps(p["iat" := JNum(t)], now) == ValidateTimestamps(p - {"iat"}, now)
    ensures ValidateTimestamps(p - {"iat"}, now) == None ==>
              ValidateTimestamps(p["iat" := JStr("then")], now) == Some(InvalidIat(JStr("then")))
  {
    assert Get(p["iat" := JNum(t)], "exp") == Get(p - {"iat"}, "exp");
    assert Get(p["iat" := JNum(t)], "nbf") == Get(p - {"iat"}, "nbf");
    assert Get(p["iat" := JStr("then")], "exp") == Get(p - {"iat"}, "exp");
    assert Get(p["iat" := JStr("then")], "nbf") == Get(p - {"iat"}, "nbf");
  }

  /** A header that passes has, for each claim, either no value or a number
      on the right side of `now`. */
  lemma TimestampsPassed(p: map<string, Json>, now: int)
    requires ValidateTimestamps(p, now) == None
    ensures Get(p, "exp") == JNull || (IsNumber(Get(p, "exp")) && !Before(Get(p, "exp"), now))
    ensures Get(p, "nbf") == JNull || (IsNumber(Get(p, "nbf")) && !After(Get(p, "nbf"), now))
    ensures Get(p, "iat") == JNull || IsNumber(Get(p, "iat"))
  {
  }

  // ---------------------------------------------------------------------
  // Key resolution (`_create_key_resolver`)

  /** The key set's notion of "this key has the requested kid". */
  predicate KidMatches(k: Jwk, kid: Json) {
    match k.kid
    case Some(s) => kid == JStr(s)
    case None => kid == JNull
  }

  /** `key_set.find_by_kid(kid)`: the first key with that kid. */
  function FindByKid(keys: seq<Jwk>, kid: Json): (r: Option<Jwk>)
    ensures r.Some? ==> r.value in keys && KidMatches(r.value, kid)
    ensures r.None? ==> forall k :: k in keys ==> !KidMatches(k, kid)
  {
    if keys == [] then None
    else if KidMatches(keys[0], kid) then Some(keys[0])
    else FindByKid(keys[1..], kid)
  }

  datatype ResolveError = KeyNotFound | InvalidUse(use: string) | KeyTypeMismatch(kty: string) | AlgNotText

  /** `key.use` is set (present and not empty). */
  predicate UseSet(k: Jwk) {
    k.use.Some? && k.use.value != ""
  }

  /** The algorithm families that constrain the key type. */
  predicate RsaFamily(alg: string) { StartsWith(alg, "RS") || StartsWith(alg, "PS") }
  predicate EcFamily(alg: string) { StartsWith(alg, "ES") }

  /** The resolver `_create_key_resolver` returns, applied to a header. */
  function ResolveKey(keys: seq<Jwk>, header: map<string, Json>): (r: Result<Jwk, ResolveError>)
    ensures r.Ok? ==> r.value in keys && KidMatches(r.value, Get(header, "kid"))
    ensures r.Ok? ==> !UseSet(r.value) || r.value.use.value == "sig"
  {
    match FindByKid(keys, Get(header, "kid"))
    case None => Err(KeyNotFound)
    case Some(k) =>
      if UseSet(k) && k.use.value != "sig" then Err(InvalidUse(k.use.value))
      else
        var alg := if "alg" in header then header["alg"] else JStr("");
        if !alg.JStr? then Err(AlgNotText)
        else if RsaFamily(alg.s) then (if k.kty != "RSA" then Err(KeyTypeMismatch(k.kty)) else Ok(k))
        else if EcFamily(alg.s) then (if k.kty != "EC" then Err(KeyTypeMismatch(k.kty)) else Ok(k))
        else Ok(k)
  }

  /** What the resolver guarantees about the key it hands out, and that it
      hands out the first key with the kid whenever that key fits. */
  lemma ResolveKeyIff(keys: seq<Jwk>, header: map<string, Json>, alg: string)
    requires Get(header, "alg") == JStr(alg) && "alg" in header
    ensures ResolveKey(keys, header).Ok? <==>
              FindByKid(keys, Get(header, "kid")).Some? &&
              var k := FindByKid(keys, Get(header, "kid")).value;
              (!UseSet(k) || k.use.value == "sig") &&
              (RsaFamily(alg) ==> k.kty == "RSA") &&
              (!RsaFamily(alg) && EcFamily(alg) ==> k.kty == "EC")
  {
  }

  /** RS256 needs an RSA key and ES256 an EC key. */
  lemma AllowedAlgKeyTypes(keys: seq<Jwk>, header: map<string, Json>)
    requires "alg" in header
    ensures header["alg"] == JStr("RS256") && ResolveKey(keys, header).Ok? ==> ResolveKey(keys, header).value.kty == "RSA"
    ensures header["alg"] == JStr("ES256") && ResolveKey(keys, header).Ok? ==> ResolveKey(keys, header).value.kty == "EC"
  {
    assert StartsWith("RS256", "RS");
    assert StartsWith("ES256", "ES") && !StartsWith("ES256", "RS") && !StartsWith("ES256", "PS");
  }

  // ---------------------------------------------------------------------
  // Payload candidates (`_candidate_payload_b64s`)

  /** The card without its `signatures` member, as the deep copy holds it. */
  function Unsigned(card: map<string, Json>): map<string, Json> {
    card - {"signatures"}
  }

  /** The deterministic fallback: sorted-keys minified JSON, base64url. */
  function FallbackPayload(card: map<string, Json>, codec: JsonCodec): string {
    Encode(codec.sortedMinified(JObj(Unsigned(card))))
  }

  /** `_candidate_payload_b64s`: the RFC 8785 form first when the library
      produces one, then the minified fallback unless it is the same string. */
  function CandidatePayloads(card: map<string, Json>, codec: JsonCodec): (r: seq<string>)
    ensures 1 <= |r| <= 2
    ensures r[|r| - 1] == FallbackPayload(card, codec)
    ensures |r| == 2 ==> r[0] != r[1] && codec.jcs(JObj(Unsigned(card))).Some? &&
                         r[0] == Encode(codec.jcs(JObj(Unsigned(card))).value)
    ensures codec.jcs(JObj(Unsigned(card))).None? ==> |r| == 1
  {
    var copy := JObj(Unsigned(card));
    var uniques := match codec.jcs(copy) { case Some(b) => [Encode(b)] case None => [] };
    var fallback := Encode(codec.sortedMinified(copy));
    if fallback in uniques then uniques else uniques + [fallback]
  }

  /** No candidate carries base64 padding. */
  lemma CandidatesUnpadded(card: map<string, Json>, codec: JsonCodec)
    ensures forall i, j :: 0 <= i < |CandidatePayloads(card, codec)| && 0 <= j < |CandidatePayloads(card, codec)[i]| ==>
              CandidatePayloads(card, codec)[i][j] != '='
  {
    var copy := JObj(Unsigned(card));
    EncodeUnpadded(codec.sortedMinified(copy));
    if codec.jcs(copy).Some? { EncodeUnpadded(codec.jcs(copy).value); }
  }

  /** The candidates do not depend on what the card's `signatures` hold. */
  lemma CandidatesIgnoreSignatures(card: map<string, Json>, sigs: Json, codec: JsonCodec)
    ensures CandidatePayloads(card["signatures" := sigs], codec) == CandidatePayloads(card, codec)
  {
    assert Unsigned(card["signatures" := sigs]) == Unsigned(card);
  }

  // ---------------------------------------------------------------------
  // One entry of `signatures`

  /** `_base64url_decode_to_json(protected_b64) if protected_b64 else {}`:
      a falsy value is an empty header; anything else must be a string that
      decodes (re-padded) to UTF-8 JSON text. */
  function ProtectedHeader(protectedB64: Json, codec: JsonCodec): (r: Result<Json, VerifyError>)
    ensures !Truthy(protectedB64) ==> r == Ok(JObj(map[]))
    ensures r.Ok? && Truthy(protectedB64) ==>
              protectedB64.JStr? && Decode(protectedB64.s).Some? && codec.loads(Decode(protectedB64.s).value) == Some(r.value)
  {
    if !Truthy(protectedB64) then Ok(JObj(map[]))
    else if !protectedB64.JStr? then Err(ProtectedUndecodable)
    else match Decode(protectedB64.s)
      case None => Err(ProtectedUndecodable)
      case Some(raw) =>
        match codec.loads(raw)
        case None => Err(ProtectedUndecodable)
        case Some(j) => Ok(j)
  }

  /** `(unprotected or {}).get(name)`: fails when the unprotected header is
      truthy but not an object. */
  function UnprotectedGet(u: Json, name: string): (r: Result<Json, VerifyError>)
    ensures r.Err? <==> Truthy(u) && !u.JObj?
  {
    if !Truthy(u) then Ok(JNull)
    else if u.JObj? then Ok(Get(u.fields, name))
    else Err(UnprotectedNotObject)
  }

  /** `protected_json.get(name) or (unprotected or {}).get(name)` */
  function HeaderParam(pj: map<string, Json>, u: Json, name: string): (r: Result<Json, VerifyError>)
    ensures Truthy(Get(pj, name)) ==> r == Ok(Get(pj, name))
  {
    if Truthy(Get(pj, name)) then Ok(Get(pj, name)) else UnprotectedGet(u, name)
  }

  /** The header the library hands to the key resolver: the protected header
      with the members of an unprotected object header laid over it. */
  function CombinedHeader(pj: map<string, Json>, u: Json): map<string, Json> {
    if u.JObj? then pj + u.fields else pj
  }

  /** One payload candidate verifies: the resolver yields a trusted key and
      the library accepts the signature under it. */
  predicate CandidateVerifies(keys: seq<Jwk>, header: map<string, Json>, protectedB64: Json,
                              payload: string, signature: Json, lib: JoseLib) {
    ResolveKey(keys, header).Ok? && lib.sigOk(ResolveKey(keys, header).value, header, protectedB64, payload, signature)
  }

  predicate AnyCandidateVerifies(keys: seq<Jwk>, header: map<string, Json>, protectedB64: Json,
                                 cands: seq<string>, signature: Json, lib: JoseLib) {
    exists i :: 0 <= i < |cands| && CandidateVerifies(keys, header, protectedB64, cands[i], signature, lib)
  }

  /** The body of the `for sig in signatures` loop for an object entry: the
      details entry it appends. */
  function CheckSignature(sig: map<string, Json>, keys: seq<Jwk>, cands: seq<string>,
                          lib: JoseLib, codec: JsonCodec, now: int): Detail
  {
    var protectedB64 := Get(sig, "protected");
    var signature := Get(sig, "signature");
    var u := Get(sig, "header");
    match ProtectedHeader(protectedB64, codec)
    case Err(e) => Detail(false, None, None, Some(e))
    case Ok(pjv) =>
      if !pjv.JObj? then Detail(false, None, None, Some(HeaderNotObject))
      else
        var pj := pjv.fields;
        match HeaderParam(pj, u, "kid")
        case Err(e) => Detail(false, None, None, Some(e))
        case Ok(kid) =>
          var alg := Get(pj, "alg");
          if !AllowedAlg(alg) then Detail(false, Some(kid), Some(alg), Some(AlgorithmNotAllowed(alg)))
          else
            match HeaderParam(pj, u, "crit")
            case Err(e) => Detail(false, Some(kid), Some(alg), Some(e))
            case Ok(crit) =>
              if Truthy(crit) then Detail(false, Some(kid), Some(alg), Some(CriticalHeader(crit)))
              else
                match ValidateTimestamps(pj, now)
                case Some(e) => Detail(false, Some(kid), Some(alg), Some(e))
                case None =>
                  Detail(AnyCandidateVerifies(keys, CombinedHeader(pj, u), protectedB64, cands, signature, lib),
                         Some(kid), Some(alg), None)
  }

  /** The details of a list of object entries, one per entry, in order. */
  function Details(sigs: seq<Json>, keys: seq<Jwk>, cands: seq<string>,
                   lib: JoseLib, codec: JsonCodec, now: int): (ds: seq<Detail>)
    requires forall i :: 0 <= i < |sigs| ==> sigs[i].JObj?
    ensures |ds| == |sigs|
    ensures forall i :: 0 <= i < |sigs| ==> ds[i] == CheckSignature(sigs[i].fields, keys, cands, lib, codec, now)
  {
    seq(|sigs|, i requires 0 <= i < |sigs| => CheckSignature(sigs[i].fields, keys, cands, lib, codec, now))
  }

  /** `SignatureVerifier.verify` with the trusted JWKS `jwks` (`JNull` for
      `None`) and the clock passed in. */
  function VerifySpec(card: map<string, Json>, jwks: Json, lib: JoseLib, codec: JsonCodec, now: int): VerifyResult {
    var sigs := Get(card, "signatures");
    if !Truthy(sigs) then Verdict(false, [])
    else if jwks == JNull then Verdict(false, [Detail(false, None, None, Some(NoTrustedJwks))])
    else match lib.importKeySet(jwks)
      case None => Raised(KeySetImportFailed)
      case Some(keys) =>
        if !sigs.JArr? then Raised(SignaturesNotAList)
        else if exists i :: 0 <= i < |sigs.items| && !sigs.items[i].JObj? then Raised(SignatureEntryNotObject)
        else
          var ds := Details(sigs.items, keys, CandidatePayloads(card, codec), lib, codec, now);
          Verdict(forall i :: 0 <= i < |ds| ==> ds[i].valid, ds)
  }

  /** Once the key set is configured and imports and every entry is an
      object, the verdict is the conjunction of the entries' details. */
  lemma VerdictOfEntries(card: map<string, Json>, jwks: Json, keys: seq<Jwk>, lib: JoseLib, codec: JsonCodec, now: int)
    requires Get(card, "signatures").JArr? && Get(card, "signatures").items != []
    requires forall i :: 0 <= i < |Get(card, "signatures").items| ==> Get(card, "signatures").items[i].JObj?
    requires jwks != JNull && lib.importKeySet(jwks) == Some(keys)
    ensures var ds := Details(Get(card, "signatures").items, keys, CandidatePayloads(card, codec), lib, codec, now);
            VerifySpec(card, jwks, lib, codec, now) == Verdict(forall i :: 0 <= i < |ds| ==> ds[i].valid, ds)
  {
  }

  // ---------------------------------------------------------------------
  // Where the trusted key set comes from (`_load_trusted_jwks`)

  datatype JwksSource = InlineJson(text: string) | FilePath(path: string) | Url(url: string) | NoSource

  /** The first configured source wins: inline JSON, then a path that exists,
      then a URL. */
  function TrustedJwksSource(env: Environment, exists_: string -> bool): (src: JwksSource)
    ensures NonEmpty(env, "A2A_TRUSTED_JWKS_JSON").Some? ==> src == InlineJson(env["A2A_TRUSTED_JWKS_JSON"])
    ensures NonEmpty(env, "A2A_TRUSTED_JWKS_JSON").None? && NonEmpty(env, "A2A_TRUSTED_JWKS_PATH").Some? &&
            exists_(env["A2A_TRUSTED_JWKS_PATH"]) ==>
              src == FilePath(env["A2A_TRUSTED_JWKS_PATH"])
    ensures NonEmpty(env, "A2A_TRUSTED_JWKS_JSON").None? &&
            (NonEmpty(env, "A2A_TRUSTED_JWKS_PATH").None? || !exists_(env["A2A_TRUSTED_JWKS_PATH"])) ==>
              src == (if NonEmpty(env, "A2A_TRUSTED_JWKS_URL").Some? then Url(env["A2A_TRUSTED_JWKS_URL"]) else NoSource)
    ensures src.FilePath? ==> exists_(src.path)
    ensures src.NoSource? ==> NonEmpty(env, "A2A_TRUSTED_JWKS_JSON").None? && NonEmpty(env, "A2A_TRUSTED_JWKS_URL").None?
  {
    match NonEmpty(env, "A2A_TRUSTED_JWKS_JSON")
    case Some(text) => InlineJson(text)
    case None =>
      match NonEmpty(env, "A2A_TRUSTED_JWKS_PATH")
      case Some(path) =>
        if exists_(path) then FilePath(path)
        else (match NonEmpty(env, "A2A_TRUSTED_JWKS_URL") case Some(url) => Url(url) case None => NoSource)
      case None =>
        match NonEmpty(env, "A2A_TRUSTED_JWKS_URL") case Some(url) => Url(url) case None => NoSource
  }

  datatype LoadError = InlineJwksInvalid | JwksFileUnreadable | JwksFetchFailed

  /** `_load_trusted_jwks`, with the file system and the HTTP client as
      parameters (`None` when reading or fetching raises); the result `JNull`
      stands for `None`. */
  function LoadTrustedJwks(env: Environment, exists_: string -> bool, readFile: string -> Option<Json>,
                           fetch: string -> Option<Json>, codec: JsonCodec): (r: Result<Json, LoadError>)
    ensures var src := TrustedJwksSource(env, exists_);
            src.InlineJson? ==>
              r == (if codec.loadsText(src.text).Some? then Ok(codec.loadsText(src.text).value) else Err(InlineJwksInvalid))
    ensures var src := TrustedJwksSource(env, exists_);
            src.FilePath? ==>
              r == (if readFile(src.path).Some? then Ok(readFile(src.path).value) else Err(JwksFileUnreadable))
    ensures var src := TrustedJwksSource(env, exists_);
            src.Url? ==>
              r == (if fetch(src.url).Some? then Ok(fetch(src.url).value) else Err(JwksFetchFailed))
    ensures TrustedJwksSource(env, exists_).NoSource? ==> r == Ok(JNull)
    ensures r == Err(InlineJwksInvalid) <==> TrustedJwksSource(env, exists_).InlineJson? &&
                                             codec.loadsText(TrustedJwksSource(env, exists_).text).None?
    ensures r == Err(JwksFileUnreadable) ==> TrustedJwksSource(env, exists_).FilePath?
    ensures r == Err(JwksFetchFailed) ==> TrustedJwksSource(env, exists_).Url?
  {
    match TrustedJwksSource(env, exists_)
    case InlineJson(text) => (match codec.loadsText(text) case Some(j) => Ok(j) case None => Err(InlineJwksInvalid))
    case FilePath(path) => (match readFile(path) case Some(j) => Ok(j) case None => Err(JwksFileUnreadable))
    case Url(url) => (match fetch(url) case Some(j) => Ok(j) case None => Err(JwksFetchFailed))
    case NoSource => Ok(JNull)
  }

  /** `jwks or self._load_trusted_jwks()`: the environment is consulted only
      when no truthy key set is given. */
  function VerifierJwks(given: Json, load: Result<Json, LoadError>): (r: Result<Json, LoadError>)
    ensures Truthy(given) ==> r == Ok(given)
    ensures !Truthy(given) ==> r == load
  {
    if Truthy(given) then Ok(given) else load
  }

  // ---------------------------------------------------------------------
  // The verifier object

  class SignatureVerifier {
    /** The trusted key set (`JNull` when none is configured). */
    const jwks: Json
    /** The JOSE library instance (`self.jws`). */
    const lib: JoseLib

    constructor(jwks: Json, lib: JoseLib)
      ensures this.jwks == jwks && this.lib == lib
    {
      this.jwks := jwks;
      this.lib := lib;
    }

    /** The inner `for payload_b64 in payload_b64_candidates` loop, stopping
        at the first candidate the library accepts. */
    method TryCandidates(keys: seq<Jwk>, header: map<string, Json>, protectedB64: Json,
                         cands: seq<string>, signature: Json) returns (verified: bool)
      ensures verified <==> AnyCandidateVerifies(keys, header, protectedB64, cands, signature, lib)
    {
      verified := false;
      var i := 0;
      while i < |cands|
        invariant 0 <= i <= |cands|
        invariant !verified
        invariant forall j :: 0 <= j < i ==> !CandidateVerifies(keys, header, protectedB64, cands[j], signature, lib)
      {
        var key := ResolveKey(keys, header);
        var accepted := key.Ok? && lib.sigOk(key.value, header, protectedB64, cands[i], signature);
        assert accepted == CandidateVerifies(keys, header, protectedB64, cands[i], signature, lib);
        if accepted {
          return true;
        }
        i := i + 1;
      }
    }

    /** The `try` block for one object entry of `signatures`. */
    method CheckOne(sig: map<string, Json>, keys: seq<Jwk>, cands: seq<string>, codec: JsonCodec, now: int)
      returns (info: Detail)
      ensures info == CheckSignature(sig, keys, cands, lib, codec, now)
    {
      var protectedB64 := Get(sig, "protected");
      var signature := Get(sig, "signature");
      var u := Get(sig, "header");
      var pjv := ProtectedHeader(protectedB64, codec);
      if pjv.Err? {
        return Detail(false, None, None, Some(pjv.error));
      }
      if !pjv.value.JObj? {
        return Detail(false, None, None, Some(HeaderNotObject));
      }
      var pj := pjv.value.fields;
      var kid := HeaderParam(pj, u, "kid");
      if kid.Err? {
        return Detail(false, None, None, Some(kid.error));
      }
      info := Detail(false, Some(kid.value), Some(Get(pj, "alg")), None);
      if !AllowedAlg(Get(pj, "alg")) {
        return info.(error := Some(AlgorithmNotAllowed(Get(pj, "alg"))));
      }
      var crit := HeaderParam(pj, u, "crit");
      if crit.Err? {
        return info.(error := Some(crit.error));
      }
      if Truthy(crit.value) {
        return info.(error := Some(CriticalHeader(crit.value)));
      }
      var stale := ValidateTimestamps(pj, now);
      if stale.Some? {
        return info.(error := stale);
      }
      var verified := TryCandidates(keys, CombinedHeader(pj, u), protectedB64, cands, signature);
      info := info.(valid := verified);
    }

    /** `SignatureVerifier.verify(agent_card)` at clock reading `now`. */
    method Verify(card: map<string, Json>, codec: JsonCodec, now: int) returns (r: VerifyResult)
      ensures r == VerifySpec(card, jwks, lib, codec, now)
    {
      var sigs := Get(card, "signatures");
      if !Truthy(sigs) {
        return Verdict(false, []);
      }
      var cands := CandidatePayloads(card, codec);
      if jwks == JNull {
        return Verdict(false, [Detail(false, None, None, Some(NoTrustedJwks))]);
      }
      var imported := lib.importKeySet(jwks);
      if imported.None? {
        return Raised(KeySetImportFailed);
      }
      if !sigs.JArr? {
        return Raised(SignaturesNotAList);
      }
      var keys := imported.value;
      var checked := CheckEntries(sigs.items, keys, cands, codec, now);
      if checked.None? {
        return Raised(SignatureEntryNotObject);
      }
      VerdictOfEntries(card, jwks, keys, lib, codec, now);
      return Verdict(checked.value.0, checked.value.1);
    }

    /** The `for sig in signatures` loop: the details entries and whether
        all of them are valid, or `None` when an entry is not an object. */
    method CheckEntries(items: seq<Json>, keys: seq<Jwk>, cands: seq<string>, codec: JsonCodec, now: int)
      returns (r: Option<(bool, seq<Detail>)>)
      ensures r.None? <==> exists i :: 0 <= i < |items| && !items[i].JObj?
      ensures r.Some? ==>
                (forall i :: 0 <= i < |items| ==> items[i].JObj?) &&
                r.value.1 == Details(items, keys, cands, lib, codec, now) &&
                (r.value.0 <==> forall i :: 0 <= i < |r.value.1| ==> r.value.1[i].valid)
    {
      var allValid := true;
      var details: seq<Detail> := [];
      var i := 0;
      while i < |items|
        invariant 0 <= i <= |items| && |details| == i
        invariant forall j :: 0 <= j < i ==> items[j].JObj?
        invariant forall j :: 0 <= j < i ==> details[j] == CheckSignature(items[j].fields, keys, cands, lib, codec, now)
        invariant allValid <==> forall j :: 0 <= j < i ==> details[j].valid
      {
        if !items[i].JObj? {
          return None;
        }
        var info := CheckOne(items[i].fields, keys, cands, codec, now);
        if !info.valid {
          allValid := false;
        }
        details := details + [info];
        i := i + 1;
      }
      assert details == Details(items, keys, cands, lib, codec, now);
      return Some((allValid, details));
    }

    /** `verify_if_required`: with `A2A_REQUIRE_VERIFIED_CARD` on, a card
        passes only if every one of its signatures verifies. */
    function VerifyIfRequired(env: Environment, card: map<string, Json>, codec: JsonCodec, now: int): (g: Gate)
      ensures g.Passed? <==> !RequireVerifiedCard(env) || (VerifySpec(card, jwks, lib, codec, now).Verdict? && VerifySpec(card, jwks, lib, codec, now).ok)
      ensures RequireVerifiedCard(env) && jwks == JNull ==> g == Refused(NoJwksConfigured)
    {
      if !RequireVerifiedCard(env) then Passed
      else if jwks == JNull then Refused(NoJwksConfigured)
      else match VerifySpec(card, jwks, lib, codec, now)
        case Raised(e) => Refused(VerifyRaised(e))
        case Verdict(ok, _) => if ok then Passed else Refused(NotVerified)
    }
  }

  datatype GateError = NoJwksConfigured | NotVerified | VerifyRaised(reason: Escape)
  datatype Gate = Passed | Refused(why: GateError)

  // ---------------------------------------------------------------------
  // Properties of `verify`

  /** A card is accepted only when it has signatures, a trusted key set is
      configured and imports, every entry is an object, and there is exactly
      one details entry per signature, all valid; conversely a single invalid
      entry makes the card fail. */
  lemma VerdictCoversEverySignature(card: map<string, Json>, jwks: Json, lib: JoseLib, codec: JsonCodec, now: int)
    ensures var r := VerifySpec(card, jwks, lib, codec, now);
            var sigs := Get(card, "signatures");
            r.Verdict? && r.ok ==>
              jwks != JNull && lib.importKeySet(jwks).Some? && sigs.JArr? && |sigs.items| >= 1 &&
              |r.details| == |sigs.items| && (forall i :: 0 <= i < |sigs.items| ==> sigs.items[i].JObj?)
    ensures var r := VerifySpec(card, jwks, lib, codec, now);
            r.Verdict? && jwks != JNull && Truthy(Get(card, "signatures")) ==>
              (r.ok <==> forall i :: 0 <= i < |r.details| ==> r.details[i].valid)
    ensures !Truthy(Get(card, "signatures")) ==> VerifySpec(card, jwks, lib, codec, now) == Verdict(false, [])
    ensures Truthy(Get(card, "signatures")) && jwks == JNull ==>
              VerifySpec(card, jwks, lib, codec, now) == Verdict(false, [Detail(false, None, None, Some(NoTrustedJwks))])
  {
    var r := VerifySpec(card, jwks, lib, codec, now);
    var sigs := Get(card, "signatures");
    if r.Verdict? && r.ok {
      assert Truthy(sigs) && jwks != JNull;
      assert |sigs.items| >= 1;
    }
  }

  /** What a valid details entry guarantees: the protected header is a
      base64url object with an allowed `alg`, no `crit` anywhere, claims
      within their window, and the library accepted the signature over one
      of the payload candidates under a key of the TRUSTED set whose kid is
      the header's and whose `use`, if set, is `sig`. */
  predicate TrustedSignature(sig: map<string, Json>, keys: seq<Jwk>, cands: seq<string>,
                             lib: JoseLib, codec: JsonCodec, now: int) {
    var pjv := ProtectedHeader(Get(sig, "protected"), codec);
    Get(sig, "protected").JStr? && pjv.Ok? && pjv.value.JObj? &&
    var pj := pjv.value.fields;
    var header := CombinedHeader(pj, Get(sig, "header"));
    AllowedAlg(Get(pj, "alg")) &&
    HeaderParam(pj, Get(sig, "header"), "crit").Ok? && !Truthy(HeaderParam(pj, Get(sig, "header"), "crit").value) &&
    ValidateTimestamps(pj, now) == None &&
    exists c, k :: c in cands && k in keys && KidMatches(k, Get(header, "kid")) && (!UseSet(k) || k.use.value == "sig") &&
                   lib.sigOk(k, header, Get(sig, "protected"), c, Get(sig, "signature"))
  }

  lemma ValidSignatureIsTrusted(sig: map<string, Json>, keys: seq<Jwk>, cands: seq<string>,
                                lib: JoseLib, codec: JsonCodec, now: int)
    requires CheckSignature(sig, keys, cands, lib, codec, now).valid
    ensures TrustedSignature(sig, keys, cands, lib, codec, now)
  {
    var pjv := ProtectedHeader(Get(sig, "protected"), codec);
    var pj := pjv.value.fields;
    var header := CombinedHeader(pj, Get(sig, "header"));
    assert AnyCandidateVerifies(keys, header, Get(sig, "protected"), cands, Get(sig, "signature"), lib);
    var i :| 0 <= i < |cands| && CandidateVerifies(keys, header, Get(sig, "protected"), cands[i], Get(sig, "signature"), lib);
    var k := ResolveKey(keys, header).value;
    assert cands[i] in cands && k in keys;
  }

  /** Fail-closed: an accepted card has every one of its signatures made by
      a key of the configured trusted set, never by a key the card brings
      along (an embedded `jwk` or a `jku`). */
  lemma VerifiedCardIsTrusted(card: map<string, Json>, jwks: Json, lib: JoseLib, codec: JsonCodec, now: int)
    requires VerifySpec(card, jwks, lib, codec, now).Verdict? && VerifySpec(card, jwks, lib, codec, now).ok
    ensures jwks != JNull && lib.importKeySet(jwks).Some?
    ensures var sigs := Get(card, "signatures");
            sigs.JArr? && |sigs.items| >= 1 &&
            forall i :: 0 <= i < |sigs.items| ==>
              sigs.items[i].JObj? &&
              TrustedSignature(sigs.items[i].fields, lib.importKeySet(jwks).value, CandidatePayloads(card, codec), lib, codec, now)
  {
    var sigs := Get(card, "signatures");
    var keys := lib.importKeySet(jwks).value;
    var cands := CandidatePayloads(card, codec);
    VerdictCoversEverySignature(card, jwks, lib, codec, now);
    forall i | 0 <= i < |sigs.items|
      ensures TrustedSignature(sigs.items[i].fields, keys, cands, lib, codec, now)
    {
      var ds := Details(sigs.items, keys, cands, lib, codec, now);
      assert ds[i].valid;
      ValidSignatureIsTrusted(sigs.items[i].fields, keys, cands, lib, codec, now);
    }
  }

  /** An algorithm outside the allow-list (`none`, `HS256`, ...) is rejected
      before any key is looked up, whatever the library would say. */
  lemma DisallowedAlgorithmRejected(sig: map<string, Json>, keys: seq<Jwk>, cands: seq<string>,
                                    lib: JoseLib, codec: JsonCodec, now: int, pj: map<string, Json>)
    requires ProtectedHeader(Get(sig, "protected"), codec) == Ok(JObj(pj))
    requires HeaderParam(pj, Get(sig, "header"), "kid").Ok?
    requires !AllowedAlg(Get(pj, "alg"))
    ensures CheckSignature(sig, keys, cands, lib, codec, now) ==
              Detail(false, Some(HeaderParam(pj, Get(sig, "header"), "kid").value), Some(Get(pj, "alg")),
                     Some(AlgorithmNotAllowed(Get(pj, "alg"))))
    ensures !AllowedAlg(JStr("none")) && !AllowedAlg(JStr("HS256")) && !AllowedAlg(JStr("rs256"))
  {
    assert "none" !in AllowedAlgorithms && "HS256" !in AllowedAlgorithms && "rs256" !in AllowedAlgorithms;
  }

  /** A `crit` parameter, in either header, is never accepted. */
  lemma CriticalHeaderRejected(sig: map<string, Json>, keys: seq<Jwk>, cands: seq<string>,
                               lib: JoseLib, codec: JsonCodec, now: int, pj: map<string, Json>)
    requires ProtectedHeader(Get(sig, "protected"), codec) == Ok(JObj(pj))
    requires HeaderParam(pj, Get(sig, "header"), "kid").Ok? && AllowedAlg(Get(pj, "alg"))
    requires Truthy(Get(pj, "crit")) ||
             (Get(sig, "header").JObj? && Truthy(Get(Get(sig, "header").fields, "crit")))
    ensures !CheckSignature(sig, keys, cands, lib, codec, now).valid
    ensures CheckSignature(sig, keys, cands, lib, codec, now).error.Some? &&
            CheckSignature(sig, keys, cands, lib, codec, now).error.value.CriticalHeader?
  {
  }
}
