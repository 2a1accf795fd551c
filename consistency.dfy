/**
 * The mock agent's signing and the bridge's verification fit together:
 * the card JSON the mock agent serves after signing passes
 * `SignatureVerifier.verify` when the verifier trusts the signing key, and
 * fails when the mock agent is configured with an algorithm outside the
 * bridge's allow-list.
 */
module SignVerify {
  import opened Wrappers
  import opened Text
  import opened JsonValue
  import opened Env
  import opened Base64Url
  import opened AgentCards
  import opened CardSignatures
  import opened MockAgentServer

  /** The card JSON the agent serves once it is signed. */
  function Served(card: AgentCard, baseUrl: string, env: Environment, key: Json, signer: Signer, codec: JsonCodec): map<string, Json>
    requires SignWithKey(card, baseUrl, env, key, signer, codec).Ok?
  {
    CardJson(SignWithKey(card, baseUrl, env, key, signer, codec).value.card)
  }

  /** The JOSE library accepts, under a key holding the public half of
      `key`, every signature the signer made with `key`. */
  ghost predicate SignerMatchesLibrary(signer: Signer, lib: JoseLib, key: Json) {
    forall k: Jwk, header: map<string, Json>, protectedB64: string, payloadB64: string
      {:trigger lib.sigOk(k, header, JStr(protectedB64), payloadB64, JStr(signer.sign(key, protectedB64, payloadB64).value))} ::
      k.material == JObj(signer.publicJwk(key)) && signer.sign(key, protectedB64, payloadB64).Some? ==>
        lib.sigOk(k, header, JStr(protectedB64), payloadB64, JStr(signer.sign(key, protectedB64, payloadB64).value))
  }

  /** The trusted key the verifier finds for the signing `kid` is the
      signing key's public half, meant for signatures and of the type the
      algorithm needs. */
  predicate TrustedKeyFits(keys: seq<Jwk>, kid: Json, alg: string, publicKey: map<string, Json>) {
    FindByKid(keys, kid).Some? &&
    var k := FindByKid(keys, kid).value;
    (!UseSet(k) || k.use.value == "sig") &&
    k.kty == (if alg == "RS256" then "RSA" else "EC") &&
    k.material == JObj(publicKey)
  }

  /** The served `signatures` is the one entry the signing made. */
  lemma ServedSignatures(card: AgentCard, baseUrl: string, env: Environment, key: Json, signer: Signer, codec: JsonCodec)
    requires SignWithKey(card, baseUrl, env, key, signer, codec).Ok?
    ensures var s := SignWithKey(card, baseUrl, env, key, signer, codec).value;
            Get(Served(card, baseUrl, env, key, signer, codec), "signatures") == JArr([SignatureJson(s.card.signatures.value[0])])
  {
    var s := SignWithKey(card, baseUrl, env, key, signer, codec).value;
    var served := CardJson(s.card);
    assert served["signatures"] == SignaturesJson(s.card.signatures.value);
    assert SignaturesJson(s.card.signatures.value).items == [SignatureJson(s.card.signatures.value[0])];
  }

  /** The bridge's fallback candidate is exactly the payload the mock agent
      signed. */
  lemma FallbackIsSignedPayload(card: AgentCard, baseUrl: string, env: Environment, key: Json, signer: Signer, codec: JsonCodec)
    requires SignWithKey(card, baseUrl, env, key, signer, codec).Ok?
    ensures var cands := CandidatePayloads(Served(card, baseUrl, env, key, signer, codec), codec);
            cands[|cands| - 1] == Encode(SignedPayload(card, codec))
  {
    var s := SignWithKey(card, baseUrl, env, key, signer, codec).value;
    CardJsonWithoutSignatures(card, s.card.signatures);
    assert s.card == card.(signatures := s.card.signatures);
    assert Unsigned(CardJson(s.card)) == CardJson(card) - {"signatures"};
  }

  /** The protected header reads back as the signed header and holds no
      `crit` and no time claims. */
  lemma HeaderReadsBack(env: Environment, baseUrl: string, key: Json, signer: Signer, codec: JsonCodec, now: int)
    requires var h := HeaderFor(env, baseUrl, key, signer);
             codec.compact(JObj(h)) != [] && codec.loads(codec.compact(JObj(h))) == Some(JObj(h))
    ensures var h := HeaderFor(env, baseUrl, key, signer);
            ProtectedHeader(JStr(Encode(codec.compact(JObj(h)))), codec) == Ok(JObj(h))
    ensures var h := HeaderFor(env, baseUrl, key, signer);
            Get(h, "crit") == JNull && ValidateTimestamps(h, now) == None
  {
    var h := HeaderFor(env, baseUrl, key, signer);
    var raw := codec.compact(JObj(h));
    EncodeUnpadded(raw);
    DecodeEncode(raw);
    assert Truthy(JStr(Encode(raw)));
    assert "crit" !in h && "exp" !in h && "nbf" !in h && "iat" !in h;
  }

  /** The trusted key fits the signed header, so the resolver hands it out. */
  lemma TrustedKeyResolves(keys: seq<Jwk>, h: map<string, Json>, kid: Json, alg: string, publicKey: map<string, Json>)
    requires "alg" in h && h["alg"] == JStr(alg) && Get(h, "kid") == kid
    requires alg in AllowedAlgorithms
    requires TrustedKeyFits(keys, kid, alg, publicKey)
    ensures ResolveKey(keys, h) == Ok(FindByKid(keys, kid).value)
    ensures FindByKid(keys, kid).value.material == JObj(publicKey)
  {
    assert alg == "RS256" || alg == "ES256";
    assert StartsWith("RS256", "RS");
    assert StartsWith("ES256", "ES") && !StartsWith("ES256", "RS") && !StartsWith("ES256", "PS");
  }

  /** A signature entry with a readable protected header holding an allowed
      `alg`, a `kid`, no `crit` and no time claims, and no unprotected
      header, is valid as soon as its last candidate verifies. */
  lemma EntryAccepted(protectedB64: string, signature: string, h: map<string, Json>, keys: seq<Jwk>,
                      cands: seq<string>, lib: JoseLib, codec: JsonCodec, now: int)
    requires ProtectedHeader(JStr(protectedB64), codec) == Ok(JObj(h))
    requires Truthy(Get(h, "kid")) && AllowedAlg(Get(h, "alg"))
    requires Get(h, "crit") == JNull && ValidateTimestamps(h, now) == None
    requires cands != [] && CandidateVerifies(keys, h, JStr(protectedB64), cands[|cands| - 1], JStr(signature), lib)
    ensures CheckSignature(SignatureJson(CardSignature(protectedB64, signature)).fields, keys, cands, lib, codec, now) ==
              Detail(true, Some(Get(h, "kid")), Some(Get(h, "alg")), None)
  {
    var entry := SignatureJson(CardSignature(protectedB64, signature)).fields;
    assert Get(entry, "protected") == JStr(protectedB64);
    assert Get(entry, "signature") == JStr(signature);
    assert Get(entry, "header") == JNull;
    assert CombinedHeader(h, JNull) == h;
    assert AnyCandidateVerifies(keys, h, JStr(protectedB64), cands, JStr(signature), lib);
  }

  /** The one entry the mock agent made checks out under the trusted key. */
  lemma EntryChecks(card: AgentCard, baseUrl: string, env: Environment, key: Json, signer: Signer,
                    keys: seq<Jwk>, lib: JoseLib, codec: JsonCodec, now: int)
    requires var h := HeaderFor(env, baseUrl, key, signer);
             codec.compact(JObj(h)) != [] && codec.loads(codec.compact(JObj(h))) == Some(JObj(h))
    requires SigningAlg(env) in AllowedAlgorithms
    requires SignWithKey(card, baseUrl, env, key, signer, codec).Ok?
    requires TrustedKeyFits(keys, SigningKid(env, signer.publicJwk(key)), SigningAlg(env), signer.publicJwk(key))
    requires SignerMatchesLibrary(signer, lib, key)
    ensures var s := SignWithKey(card, baseUrl, env, key, signer, codec).value;
            CheckSignature(SignatureJson(s.card.signatures.value[0]).fields, keys,
                           CandidatePayloads(Served(card, baseUrl, env, key, signer, codec), codec), lib, codec, now) ==
              Detail(true, Some(SigningKid(env, signer.publicJwk(key))), Some(JStr(SigningAlg(env))), None)
  {
    var h := HeaderFor(env, baseUrl, key, signer);
    var kid := SigningKid(env, signer.publicJwk(key));
    var alg := SigningAlg(env);
    var s := SignWithKey(card, baseUrl, env, key, signer, codec).value;
    var protectedB64 := Encode(codec.compact(JObj(h)));
    var payloadB64 := Encode(SignedPayload(card, codec));
    var signature := signer.sign(key, protectedB64, payloadB64).value;
    var cands := CandidatePayloads(Served(card, baseUrl, env, key, signer, codec), codec);
    assert s.card.signatures.value[0] == CardSignature(protectedB64, signature);
    HeaderReadsBack(env, baseUrl, key, signer, codec, now);
    FallbackIsSignedPayload(card, baseUrl, env, key, signer, codec);
    assert "alg" in h && h["alg"] == JStr(alg) && Get(h, "kid") == kid;
    TrustedKeyResolves(keys, h, kid, alg, signer.publicJwk(key));
    var k := FindByKid(keys, kid).value;
    assert lib.sigOk(k, h, JStr(protectedB64), payloadB64, JStr(signature));
    EntryAccepted(protectedB64, signature, h, keys, cands, lib, codec, now);
  }

  /** A card with one object entry in `signatures` gets that entry's
      details as the whole verdict. */
  lemma OneEntryVerdict(card: map<string, Json>, entry: map<string, Json>, jwks: Json, keys: seq<Jwk>,
                        lib: JoseLib, codec: JsonCodec, now: int)
    requires Get(card, "signatures") == JArr([JObj(entry)])
    requires jwks != JNull && lib.importKeySet(jwks) == Some(keys)
    ensures var d := CheckSignature(entry, keys, CandidatePayloads(card, codec), lib, codec, now);
            VerifySpec(card, jwks, lib, codec, now) == Verdict(d.valid, [d])
  {
    var d := CheckSignature(entry, keys, CandidatePayloads(card, codec), lib, codec, now);
    var items := [JObj(entry)];
    VerdictOfEntries(card, jwks, keys, lib, codec, now);
    var ds := Details(items, keys, CandidatePayloads(card, codec), lib, codec, now);
    assert items[0].fields == entry;
    assert |ds| == 1 && ds[0] == d;
    assert ds == [d];
  }

  /** A card the mock agent signs passes the bridge's verification: one
      details entry, valid, naming the signing `kid` and `alg`. The JSON
      codec must read the protected header back, the algorithm must be on
      the bridge's allow-list, and the trusted key set must hold the
      signing key's public half under its `kid`. */
  lemma SignedCardVerifies(card: AgentCard, baseUrl: string, env: Environment, key: Json, signer: Signer,
                           jwks: Json, keys: seq<Jwk>, lib: JoseLib, codec: JsonCodec, now: int)
    requires var h := HeaderFor(env, baseUrl, key, signer);
             codec.compact(JObj(h)) != [] && codec.loads(codec.compact(JObj(h))) == Some(JObj(h))
    requires SigningAlg(env) in AllowedAlgorithms
    requires SignWithKey(card, baseUrl, env, key, signer, codec).Ok?
    requires jwks != JNull && lib.importKeySet(jwks) == Some(keys)
    requires TrustedKeyFits(keys, SigningKid(env, signer.publicJwk(key)), SigningAlg(env), signer.publicJwk(key))
    requires SignerMatchesLibrary(signer, lib, key)
    ensures VerifySpec(Served(card, baseUrl, env, key, signer, codec), jwks, lib, codec, now) ==
            Verdict(true, [Detail(true, Some(SigningKid(env, signer.publicJwk(key))), Some(JStr(SigningAlg(env))), None)])
  {
    var s := SignWithKey(card, baseUrl, env, key, signer, codec).value;
    ServedSignatures(card, baseUrl, env, key, signer, codec);
    EntryChecks(card, baseUrl, env, key, signer, keys, lib, codec, now);
    OneEntryVerdict(Served(card, baseUrl, env, key, signer, codec), SignatureJson(s.card.signatures.value[0]).fields,
                    jwks, keys, lib, codec, now);
  }

  /** When the mock agent is told to sign with an algorithm outside the
      bridge's allow-list, the bridge rejects the card for exactly that
      reason, before trying any key. */
  lemma UnlistedAlgorithmRejected(card: AgentCard, baseUrl: string, env: Environment, key: Json, signer: Signer,
                                  jwks: Json, keys: seq<Jwk>, lib: JoseLib, codec: JsonCodec, now: int)
    requires var h := HeaderFor(env, baseUrl, key, signer);
             codec.compact(JObj(h)) != [] && codec.loads(codec.compact(JObj(h))) == Some(JObj(h))
    requires SigningAlg(env) !in AllowedAlgorithms
    requires SignWithKey(card, baseUrl, env, key, signer, codec).Ok?
    requires jwks != JNull && lib.importKeySet(jwks) == Some(keys)
    ensures var alg := JStr(SigningAlg(env));
            VerifySpec(Served(card, baseUrl, env, key, signer, codec), jwks, lib, codec, now) ==
            Verdict(false, [Detail(false, Some(SigningKid(env, signer.publicJwk(key))), Some(alg), Some(AlgorithmNotAllowed(alg)))])
  {
    var h := HeaderFor(env, baseUrl, key, signer);
    var s := SignWithKey(card, baseUrl, env, key, signer, codec).value;
    var served := Served(card, baseUrl, env, key, signer, codec);
    ServedSignatures(card, baseUrl, env, key, signer, codec);
    HeaderReadsBack(env, baseUrl, key, signer, codec, now);
    var entry := SignatureJson(s.card.signatures.value[0]).fields;
    var protectedB64 := Encode(codec.compact(JObj(h)));
    assert Get(entry, "protected") == JStr(protectedB64);
    assert Get(entry, "header") == JNull;
    assert Get(h, "kid") == SigningKid(env, signer.publicJwk(key));
    assert Get(h, "alg") == JStr(SigningAlg(env));
    OneEntryVerdict(served, entry, jwks, keys, lib, codec, now);
  }
}
