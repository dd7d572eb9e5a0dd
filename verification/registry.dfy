/** The two exported registries and the projection built from them.

    `paramSettings` maps an endpoint key to the flat configuration of the
    parameter panel and `presetSettings` maps it to the column pair of the
    preset dialog. Both are keyed by the endpoint name, and for the
    Bedrock gateway by the composite `bedrock-<provider>`, since Bedrock's
    parameters depend on the model provider behind it. `agentParamSettings`
    keeps the second column of every preset entry.

    Keys are modelled structurally: `Plain(e)` is the key `e` and
    `Composite(e, p)` the key `` `${e}-${p}` ``; the joined string is taken
    to identify its two parts. `UnlistedEndpoint` and `UnlistedProvider`
    stand for enumeration members this file never names.
 */
module Registry {
  import opened Definitions
  import opened ProviderTables
  import opened Configurations

  datatype EModelEndpoint =
    | OpenAI | AzureOpenAI | Custom | Anthropic | Bedrock | Google
    | UnlistedEndpoint(name: string)

  datatype BedrockProvider =
    | AnthropicProvider | MistralAI | Cohere | Meta | AI21 | Amazon | DeepSeek
    | UnlistedProvider(name: string)

  datatype RegistryKey =
    | Plain(endpoint: EModelEndpoint)
    | Composite(gateway: EModelEndpoint, provider: BedrockProvider)

  /** A `{ col1, col2 }` pair. */
  datatype Columns = Columns(col1: seq<Definition>, col2: seq<Definition>)

  const OpenAIColumns: Columns := Columns(OpenAICol1, OpenAICol2)

  const BedrockGeneralColumns: Columns := Columns(BedrockGeneralCol1, BedrockGeneralCol2)

  /** `paramSettings`. */
  const ParamSettings: map<RegistryKey, seq<Definition>> := map[
    Plain(OpenAI) := OpenAIConfig,
    Plain(AzureOpenAI) := OpenAIConfig,
    Plain(Custom) := OpenAIConfig,
    Plain(Anthropic) := AnthropicConfig,
    Composite(Bedrock, AnthropicProvider) := BedrockAnthropicConfig,
    Composite(Bedrock, MistralAI) := BedrockMistralConfig,
    Composite(Bedrock, Cohere) := BedrockCohereConfig,
    Composite(Bedrock, Meta) := BedrockGeneralConfig,
    Composite(Bedrock, AI21) := BedrockGeneralConfig,
    Composite(Bedrock, Amazon) := BedrockGeneralConfig,
    Composite(Bedrock, DeepSeek) := BedrockGeneralConfig,
    Plain(Google) := GoogleConfig]

  /** `presetSettings`. Its declared value type admits `undefined`, which
      is `None` here; every entry the source writes is defined. */
  const PresetSettings: map<RegistryKey, Option<Columns>> := map[
    Plain(OpenAI) := Some(OpenAIColumns),
    Plain(AzureOpenAI) := Some(OpenAIColumns),
    Plain(Custom) := Some(OpenAIColumns),
    Plain(Anthropic) := Some(Columns(AnthropicCol1, AnthropicCol2)),
    Composite(Bedrock, AnthropicProvider) := Some(Columns(BedrockAnthropicCol1, BedrockAnthropicCol2)),
    Composite(Bedrock, MistralAI) := Some(Columns(BedrockMistralCol1, BedrockMistralCol2)),
    Composite(Bedrock, Cohere) := Some(Columns(BedrockCohereCol1, BedrockCohereCol2)),
    Composite(Bedrock, Meta) := Some(BedrockGeneralColumns),
    Composite(Bedrock, AI21) := Some(BedrockGeneralColumns),
    Composite(Bedrock, Amazon) := Some(BedrockGeneralColumns),
    Composite(Bedrock, DeepSeek) := Some(BedrockGeneralColumns),
    Plain(Google) := Some(Columns(GoogleCol1, GoogleCol2))]

  /** The twelve keys the source registers. */
  const RegisteredKeys: set<RegistryKey> := {
    Plain(OpenAI), Plain(AzureOpenAI), Plain(Custom), Plain(Anthropic), Plain(Google),
    Composite(Bedrock, AnthropicProvider), Composite(Bedrock, MistralAI), Composite(Bedrock, Cohere),
    Composite(Bedrock, Meta), Composite(Bedrock, AI21), Composite(Bedrock, Amazon),
    Composite(Bedrock, DeepSeek)}

  /** The accumulator the `reduce` over `presetSettings` ends with: each key
      whose value is defined, mapped to that value's `col2`. */
  function AgentProjection(presets: map<RegistryKey, Option<Columns>>): (agents: map<RegistryKey, seq<Definition>>)
    ensures agents.Keys <= presets.Keys
    ensures (forall k | k in presets :: presets[k].Some?) ==> agents.Keys == presets.Keys
  {
    map k | k in presets && presets[k].Some? :: presets[k].value.col2
  }

  /** `agentParamSettings`. */
  const AgentParamSettings: map<RegistryKey, seq<Definition>> := AgentProjection(PresetSettings)

  /** `record[key]`: the entry, or `None` (`undefined`) for a key the record
      lacks. */
  function Lookup<V>(record: map<RegistryKey, V>, key: RegistryKey): Option<V> {
    if key in record then Some(record[key]) else None
  }

  /** The `reduce` that builds `agentParamSettings`: visit the entries of
      `presets` one at a time and, when the value is defined, store its
      `col2` under the entry's key. The order of the visit is left open;
      the result is the projection whatever the order. */
  method BuildAgentParamSettings(presets: map<RegistryKey, Option<Columns>>)
    returns (acc: map<RegistryKey, seq<Definition>>)
    ensures forall k :: k in acc <==> k in presets && presets[k].Some?
    ensures forall k | k in acc :: acc[k] == presets[k].value.col2
    ensures acc == AgentProjection(presets)
  {
    acc := map[];
    var pending := presets.Keys;
    while pending != {}
      invariant pending <= presets.Keys
      invariant forall k :: k in acc <==> k in presets && k !in pending && presets[k].Some?
      invariant forall k | k in acc :: acc[k] == presets[k].value.col2
      decreases pending
    {
      var key :| key in pending;
      var value := presets[key];
      if value.Some? {
        acc := acc[key := value.value.col2];
      }
      pending := pending - {key};
    }
  }

  // -------------------------------------------------------------------
  // Properties of the registries
  // -------------------------------------------------------------------

  /** Both registries have exactly the twelve registered keys, and every
      preset entry is defined. */
  lemma RegistriesShareKeys()
    ensures ParamSettings.Keys == RegisteredKeys
    ensures PresetSettings.Keys == RegisteredKeys
    ensures forall k | k in PresetSettings :: PresetSettings[k].Some?
  {
    ParamSettingsKeys();
    PresetSettingsKeys();
    PresetSettingsDefined();
  }

  lemma ParamSettingsKeys()
    ensures ParamSettings.Keys == RegisteredKeys
  {
  }

  lemma PresetSettingsKeys()
    ensures PresetSettings.Keys == RegisteredKeys
  {
  }

  lemma PresetSettingsDefined()
    ensures forall k | k in PresetSettings :: PresetSettings[k].Some?
  {
  }

  /** A key is defined in `paramSettings` exactly when it is defined in
      `presetSettings` and in `agentParamSettings`; a key that is not
      registered is `undefined` in all three. */
  lemma {:induction false} LookupsAgree(k: RegistryKey)
    ensures Lookup(ParamSettings, k).Some? <==> k in RegisteredKeys
    ensures Lookup(PresetSettings, k).Some? <==> k in RegisteredKeys
    ensures Lookup(AgentParamSettings, k).Some? <==> k in RegisteredKeys
  {
    RegistriesShareKeys();
  }

  /** The gateway is only registered together with a listed provider:
      plain `bedrock`, a provider the file does not list, and a provider
      behind another endpoint all give `undefined`. */
  lemma UnregisteredGatewayKeys(name: string)
    ensures Lookup(ParamSettings, Plain(Bedrock)) == None
    ensures Lookup(PresetSettings, Composite(Bedrock, UnlistedProvider(name))) == None
    ensures Lookup(AgentParamSettings, Composite(Google, Meta)) == None
  {
  }

  /** `openAI`, `azureOpenAI` and `custom` share OpenAI's flat
      configuration; the Meta, AI21, Amazon and DeepSeek models on the
      gateway share the general one. */
  lemma SharedParamSettings()
    ensures ParamSettings[Plain(AzureOpenAI)] == ParamSettings[Plain(Custom)] == ParamSettings[Plain(OpenAI)] == OpenAIConfig
    ensures forall p | p in {Meta, AI21, Amazon, DeepSeek} :: ParamSettings[Composite(Bedrock, p)] == BedrockGeneralConfig
  {
  }

  /** The same sharing in `presetSettings`: one `openAIColumns` pair and
      one `bedrockGeneralColumns` pair. */
  lemma SharedPresetSettings()
    ensures PresetSettings[Plain(AzureOpenAI)] == PresetSettings[Plain(Custom)] == PresetSettings[Plain(OpenAI)] == Some(OpenAIColumns)
    ensures forall p | p in {Meta, AI21, Amazon, DeepSeek} :: PresetSettings[Composite(Bedrock, p)] == Some(BedrockGeneralColumns)
  {
  }

  /** `agentParamSettings` holds, for every registered key, the second
      column of its preset entry, and nothing else. */
  lemma {:induction false} AgentParamSettingsAreSecondColumns()
    ensures AgentParamSettings.Keys == RegisteredKeys
    ensures forall k | k in AgentParamSettings :: AgentParamSettings[k] == PresetSettings[k].value.col2
  {
    RegistriesShareKeys();
  }

  /** An agent on the gateway with an Anthropic model gets the gateway's
      `topK`, ranging over 0 to 500 in steps of 1. */
  lemma GatewayAnthropicAgentTopK()
    ensures Composite(Bedrock, AnthropicProvider) in AgentParamSettings
    ensures BedrockTopK in AgentParamSettings[Composite(Bedrock, AnthropicProvider)]
    ensures BedrockTopK.range == Some(Range(Lit(0.0), Lit(500.0), Lit(1.0)))
  {
    AgentParamSettingsAreSecondColumns();
    assert AgentParamSettings[Composite(Bedrock, AnthropicProvider)] == BedrockAnthropicCol2;
    assert BedrockAnthropicCol2[4] == BedrockTopK;
  }

  /** The flat configuration and the column pair registered under `k`
      exist and are consistent. */
  predicate ConsistentAt(k: RegistryKey) {
    && k in ParamSettings
    && k in PresetSettings
    && PresetSettings[k].Some?
    && Consistent(ParamSettings[k], PresetSettings[k].value.col1, PresetSettings[k].value.col2)
  }

  lemma OpenAIKeysConsistent(k: RegistryKey)
    requires k in {Plain(OpenAI), Plain(AzureOpenAI), Plain(Custom)}
    ensures ConsistentAt(k)
  {
    assert ParamSettings[k] == OpenAIConfig && PresetSettings[k] == Some(OpenAIColumns);
    OpenAIConsistent();
  }

  lemma AnthropicKeyConsistent()
    ensures ConsistentAt(Plain(Anthropic))
  {
    assert ParamSettings[Plain(Anthropic)] == AnthropicConfig;
    assert PresetSettings[Plain(Anthropic)] == Some(Columns(AnthropicCol1, AnthropicCol2));
    AnthropicConsistent();
  }

  lemma GoogleKeyConsistent()
    ensures ConsistentAt(Plain(Google))
  {
    assert ParamSettings[Plain(Google)] == GoogleConfig;
    assert PresetSettings[Plain(Google)] == Some(Columns(GoogleCol1, GoogleCol2));
    GoogleConsistent();
  }

  lemma GatewayAnthropicKeyConsistent()
    ensures ConsistentAt(Composite(Bedrock, AnthropicProvider))
  {
    assert ParamSettings[Composite(Bedrock, AnthropicProvider)] == BedrockAnthropicConfig;
    assert PresetSettings[Composite(Bedrock, AnthropicProvider)] == Some(Columns(BedrockAnthropicCol1, BedrockAnthropicCol2));
    BedrockAnthropicConsistent();
  }

  lemma GatewayMistralKeyConsistent()
    ensures ConsistentAt(Composite(Bedrock, MistralAI))
  {
    assert ParamSettings[Composite(Bedrock, MistralAI)] == BedrockMistralConfig;
    assert PresetSettings[Composite(Bedrock, MistralAI)] == Some(Columns(BedrockMistralCol1, BedrockMistralCol2));
    BedrockMistralConsistent();
  }

  lemma GatewayCohereKeyConsistent()
    ensures ConsistentAt(Composite(Bedrock, Cohere))
  {
    assert ParamSettings[Composite(Bedrock, Cohere)] == BedrockCohereConfig;
    assert PresetSettings[Composite(Bedrock, Cohere)] == Some(Columns(BedrockCohereCol1, BedrockCohereCol2));
    BedrockCohereConsistent();
  }

  lemma GatewayGeneralKeysConsistent(p: BedrockProvider)
    requires p in {Meta, AI21, Amazon, DeepSeek}
    ensures ConsistentAt(Composite(Bedrock, p))
  {
    assert ParamSettings[Composite(Bedrock, p)] == BedrockGeneralConfig;
    assert PresetSettings[Composite(Bedrock, p)] == Some(BedrockGeneralColumns);
    BedrockGeneralConsistent();
  }

  /** Every registered key's flat configuration and column pair are
      consistent: the flat list is the columns without `model`, with
      distinct keys and well-formed entries. */
  lemma {:induction false} RegisteredLayoutsConsistent(k: RegistryKey)
    requires k in RegisteredKeys
    ensures ConsistentAt(k)
  {
    if k in {Plain(OpenAI), Plain(AzureOpenAI), Plain(Custom)} {
      OpenAIKeysConsistent(k);
    } else if k == Plain(Anthropic) {
      AnthropicKeyConsistent();
    } else if k == Plain(Google) {
      GoogleKeyConsistent();
    } else if k == Composite(Bedrock, AnthropicProvider) {
      GatewayAnthropicKeyConsistent();
    } else if k == Composite(Bedrock, MistralAI) {
      GatewayMistralKeyConsistent();
    } else if k == Composite(Bedrock, Cohere) {
      GatewayCohereKeyConsistent();
    } else {
      GatewayGeneralKeysConsistent(k.provider);
    }
  }
}
