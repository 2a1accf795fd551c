/**
 * The agent card both sample agents serve (an A2A `AgentCard` with its
 * `AgentSkill`s), the part of their YAML configuration it is built from,
 * and the card's JSON form.
 */
module AgentCards {
  import opened Wrappers
  import opened JsonValue

  /** One entry of `agent.skills` in the configuration; `tags` may be left
      out. */
  datatype SkillConfig = SkillConfig(
    id: string,
    name: string,
    description: string,
    inputModes: seq<string>,
    outputModes: seq<string>,
    tags: Option<seq<string>>
  )

  /** The `agent` section of the configuration; `skills` may be left out.
      Its `capabilities` entry is never read. */
  datatype AgentConfig = AgentConfig(
    name: string,
    description: string,
    version: string,
    defaultInputModes: seq<string>,
    defaultOutputModes: seq<string>,
    skills: Option<seq<SkillConfig>>
  )

  datatype AgentSkill = AgentSkill(
    id: string,
    name: string,
    description: string,
    inputModes: seq<string>,
    outputModes: seq<string>,
    tags: seq<string>
  )

  /** An `AgentCardSignature` as the mock agent fills it in. */
  datatype CardSignature = CardSignature(protectedB64: string, signature: string)

  /** An `AgentCard`; `capabilities` is always the default, empty one. */
  datatype AgentCard = AgentCard(
    name: string,
    description: string,
    version: string,
    url: string,
    defaultInputModes: seq<string>,
    defaultOutputModes: seq<string>,
    skills: seq<AgentSkill>,
    signatures: Option<seq<CardSignature>>
  )

  /** `AgentSkill(...)` from one configuration entry: `tags` defaults to
      the empty list. */
  function SkillFromConfig(c: SkillConfig): (s: AgentSkill)
    ensures s.id == c.id && s.name == c.name && s.description == c.description
    ensures s.inputModes == c.inputModes && s.outputModes == c.outputModes
    ensures s.tags == (if c.tags.Some? then c.tags.value else [])
  {
    AgentSkill(c.id, c.name, c.description, c.inputModes, c.outputModes, c.tags.GetOr([]))
  }

  /** The skills of a configuration: one per entry, in order. */
  function Skills(config: AgentConfig): (r: seq<AgentSkill>)
    ensures |r| == |config.skills.GetOr([])|
    ensures forall i :: 0 <= i < |r| ==> r[i] == SkillFromConfig(config.skills.GetOr([])[i])
  {
    var entries := config.skills.GetOr([]);
    seq(|entries|, i requires 0 <= i < |entries| => SkillFromConfig(entries[i]))
  }

  /** The unsigned card `build_agent_card` assembles. */
  function CardFromConfig(baseUrl: string, config: AgentConfig): (card: AgentCard)
    ensures card.url == baseUrl && card.signatures.None?
    ensures card.name == config.name && card.description == config.description && card.version == config.version
    ensures card.defaultInputModes == config.defaultInputModes && card.defaultOutputModes == config.defaultOutputModes
    ensures card.skills == Skills(config)
  {
    AgentCard(config.name, config.description, config.version, baseUrl,
              config.defaultInputModes, config.defaultOutputModes, Skills(config), None)
  }

  /** The `for skill_config in agent_config.get("skills", [])` loop. */
  method BuildSkills(config: AgentConfig) returns (skills: seq<AgentSkill>)
    ensures skills == Skills(config)
  {
    var entries := config.skills.GetOr([]);
    skills := [];
    var i := 0;
    while i < |entries|
      invariant 0 <= i <= |entries|
      invariant |skills| == i
      invariant forall j :: 0 <= j < i ==> skills[j] == SkillFromConfig(entries[j])
    {
      skills := skills + [SkillFromConfig(entries[i])];
      i := i + 1;
    }
  }

  /** The skills keep the configuration's ids, in order. */
  lemma SkillIdsInOrder(config: AgentConfig)
    ensures forall i :: 0 <= i < |Skills(config)| ==> Skills(config)[i].id == config.skills.GetOr([])[i].id
    ensures config.skills.None? ==> Skills(config) == []
  {
  }

  // ---------------------------------------------------------------------
  // The card's JSON form (`model_dump(mode="json", exclude_none=True)`)

  function Strings(xs: seq<string>): (r: Json)
    ensures r.JArr? && |r.items| == |xs|
  {
    JArr(seq(|xs|, i requires 0 <= i < |xs| => JStr(xs[i])))
  }

  function SkillJson(s: AgentSkill): Json {
    JObj(map["id" := JStr(s.id), "name" := JStr(s.name), "description" := JStr(s.description),
             "inputModes" := Strings(s.inputModes), "outputModes" := Strings(s.outputModes),
             "tags" := Strings(s.tags)])
  }

  /** A signature entry: `protected` and `signature`; the absent `header`
      is left out. */
  function SignatureJson(s: CardSignature): (r: Json)
    ensures r.JObj? && r.fields.Keys == {"protected", "signature"}
    ensures r.fields["protected"] == JStr(s.protectedB64) && r.fields["signature"] == JStr(s.signature)
  {
    JObj(map["protected" := JStr(s.protectedB64), "signature" := JStr(s.signature)])
  }

  function SignaturesJson(sigs: seq<CardSignature>): (r: Json)
    ensures r.JArr? && |r.items| == |sigs|
    ensures forall i :: 0 <= i < |sigs| ==> r.items[i] == SignatureJson(sigs[i])
  {
    JArr(seq(|sigs|, i requires 0 <= i < |sigs| => SignatureJson(sigs[i])))
  }

  /** The card as JSON; `signatures` appears only when it is set. */
  function CardJson(card: AgentCard): (r: map<string, Json>)
    ensures ("signatures" in r) <==> card.signatures.Some?
    ensures card.signatures.Some? ==> r["signatures"] == SignaturesJson(card.signatures.value)
  {
    var unsigned := map[
      "name" := JStr(card.name), "description" := JStr(card.description), "version" := JStr(card.version),
      "url" := JStr(card.url), "capabilities" := JObj(map[]),
      "defaultInputModes" := Strings(card.defaultInputModes), "defaultOutputModes" := Strings(card.defaultOutputModes),
      "skills" := JArr(seq(|card.skills|, i requires 0 <= i < |card.skills| => SkillJson(card.skills[i])))];
    match card.signatures
    case None => unsigned
    case Some(sigs) => unsigned["signatures" := SignaturesJson(sigs)]
  }

  /** Setting the signatures leaves the rest of the JSON as it was. */
  lemma CardJsonWithoutSignatures(card: AgentCard, sigs: Option<seq<CardSignature>>)
    ensures CardJson(card.(signatures := sigs)) - {"signatures"} == CardJson(card) - {"signatures"}
  {
  }
}
