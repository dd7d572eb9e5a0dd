# Generation-parameter registry

This project models the generation-parameter schema registry of the chat
application's data-provider package
(`packages/data-provider/src/parameterSettings.ts`). The registry tells the
parameter panel and the preset dialog which settings to show for each model
endpoint. It is built in four stages:

- **Base definitions.** A few provider-neutral `SettingDefinition` records:
  `model`, `temperature`, `topP`, `stop` and `imageDetail`.
- **The merge `createDefinition(base, overrides)`.** It is the object spread
  `{ ...base, ...overrides }`: a right-biased merge, property by property.
- **Provider tables.** `librechat`, `openAIParams`, `anthropic`, `bedrock`,
  `mistral`, `cohere`, `meta` and `google` are built from literals and from
  `createDefinition`. Bedrock's `topK` refines Anthropic's `topK`.
- **Assembly.** Hand-ordered flat lists (`*Config`) and column pairs
  (`*Col1`/`*Col2`) are registered in `paramSettings` and `presetSettings`.
  Both are keyed by endpoint. The Bedrock gateway is keyed by
  `bedrock-<provider>`. `agentParamSettings` keeps the second column of
  every preset entry.

The modules follow those stages:

- `definitions.dfy` (`Definitions`) holds the definition record.
  - Every property is an `Option`, because the source spreads partial objects.
  - `Get` reads a record as the object it models.
  - The well-formedness predicates state what a definition is meant to satisfy:
    - required properties are present;
    - the default matches the type;
    - `range` appears only on a number, tag bounds only on an array, and
      options and their labels only on an enumeration;
    - a literal range is non-empty, has a positive step and contains a literal default;
    - enum options are distinct and covered exactly by `enumMappings`;
    - tag bounds satisfy `0 <= minTags <= maxTags`.
- `composer.dfy` (`Composer`) holds `createDefinition` and its merge laws.
- `tables.dfy` (`ProviderTables`) holds every definition of the base and
  provider tables, the tables themselves and their properties.
- `configurations.dfy` (`Configurations`) holds every flat list and column
  list, in the source's order, with the flat-list versus column-pair
  consistency proved for each of the seven endpoint layouts.
- `registry.dfy` (`Registry`) holds the three registries, the `reduce` that
  builds `agentParamSettings` (a method with a loop), and the key-set,
  lookup and sharing properties.

Some values are imported from the package's `types` module: `openAISettings`,
`anthropicSettings` and `googleSettings`. This model cannot see them. They
appear as symbolic `ImportedBound(path)`/`Imported(path)` values, and no
numeric fact is claimed about them. Enumeration members (`ImageDetail`,
`ReasoningEffort`, `ReasoningSummary`, `EModelEndpoint`, `BedrockProviders`)
are distinct datatype constructors. Numeric literals such as `0.999` are exact
`real`s and are only compared.

Three source property names are reserved words in Dafny, so they are renamed:
`label` is `displayLabel`, `type` is `valueType` and `default` is
`defaultValue`.

`Configurations.Consistent(flat, col1, col2)` is the relation every endpoint
keeps between its flat list and its column pair:

- `col1` starts with `baseDefinitions.model`;
- the keys of `col1 ++ col2` are pairwise distinct;
- every entry is well formed;
- the flat list is a reordering of `col1 ++ col2` without the leading `model`.

`ConsistentPresentations` derives the observable consequences of that relation
for every flat list and column pair. The seven `*Consistent` lemmas establish
the relation for each layout, and `Registry.RegisteredLayoutsConsistent`
establishes it for every registered key.

## Model

| member | source | states |
|---|---|---|
| Composer.CreateDefinitionRule | packages/data-provider/src/parameterSettings.ts:85-90 | every property of `createDefinition(base, overrides)` is the override's when the override has it and the base's otherwise, so the result has a property exactly when base or override has it |
| Composer.CreateDefinitionKeepsCompleteness | packages/data-provider/src/parameterSettings.ts:85-90 | the unchecked `as SettingDefinition` cast is sound whenever the base or the overrides carry `key`, `type`, `component` and `optionType` |
| Composer.EmptyOverrideIsIdentity | packages/data-provider/src/parameterSettings.ts:85-90 | merging with `{}` gives back the base |
| Composer.EmptyBaseCopiesOverrides | packages/data-provider/src/parameterSettings.ts:85-90 | spreading overrides over `{}` copies the overrides |
| Composer.MergeAssociative | packages/data-provider/src/parameterSettings.ts:85-90 | two successive merges equal one merge with the merged overrides |
| Composer.DisjointOverridesCommute | packages/data-provider/src/parameterSettings.ts:85-90 | override records that set different properties merge to the same record in either order |
| Composer.DisjointMergesCombine | packages/data-provider/src/parameterSettings.ts:85-90 | two successive merges with disjoint overrides, in either order, equal one merge with their union |
| Composer.MergeIdempotent | packages/data-provider/src/parameterSettings.ts:85-90 | applying the same overrides twice changes nothing after the first time |
| Composer.DisjointHasNoSharedProperty | packages/data-provider/src/parameterSettings.ts:85-90 | disjoint override records never both have a property, read as objects |
| ProviderTables.BedrockTopKOverridesOnlyRange | packages/data-provider/src/parameterSettings.ts:454-456 | `bedrock.topK` is `anthropic.topK` with only `range` replaced by `{0, 500, 1}`; key, default, component, type and labels are unchanged |
| ProviderTables.OpenAITopPOverridesKeyDefaultRange | packages/data-provider/src/parameterSettings.ts:157-165 | base `topP` has no default or range; `openAIParams.top_p` changes its key to `top_p`, adds the imported default and range, and leaves every other property as the base has it |
| ProviderTables.ImageDetailEnumCoversOptions | packages/data-provider/src/parameterSettings.ts:65-82 | `imageDetail` is an enum with distinct options, `enumMappings` keys equal to the options, and a default among the options |
| ProviderTables.ReasoningEffortEnumCoversOptions | packages/data-provider/src/parameterSettings.ts:213-236 | the same for `reasoning_effort` |
| ProviderTables.ReasoningSummaryEnumCoversOptions | packages/data-provider/src/parameterSettings.ts:263-286 | the same for `reasoning_summary` |
| ProviderTables.RangeOnBooleanIsRejected | packages/data-provider/src/parameterSettings.ts:117-129 | `resendFiles` is boolean, and the same definition with a `range` added is not well formed |
| ProviderTables.ReasoningEffortOptions | packages/data-provider/src/parameterSettings.ts:213-236 | `reasoning_effort` lists `[none, low, medium, high]` in that order and defaults to `none` |
| ProviderTables.LiteralRangesContainDefaults | packages/data-provider/src/parameterSettings.ts:450-493 | the Bedrock, Mistral, Cohere and Meta `temperature`/`topP` (and Bedrock `topK`) ranges are literal, non-empty and have a positive step, and a literal default lies in them; Mistral `topP` has no default |
| ProviderTables.StopTagBounds | packages/data-provider/src/parameterSettings.ts:50-64 | `stop` has `minTags` 0 and `maxTags` 4, so `0 <= minTags <= maxTags`, and defaults to the empty list |
| ProviderTables.ModelSamplingStopWellFormed | packages/data-provider/src/parameterSettings.ts:15-64 | `model`, `temperature`, `topP` and `stop` are well formed |
| ProviderTables.ImageDetailWellFormed | packages/data-provider/src/parameterSettings.ts:65-82 | `imageDetail` is well formed |
| ProviderTables.BaseDefinitionsSound | packages/data-provider/src/parameterSettings.ts:14-83 | every `baseDefinitions` entry is well formed and carries its own table name as `key` |
| ProviderTables.LibreChatEntriesWellFormed | packages/data-provider/src/parameterSettings.ts:92-141 | `modelLabel`, `maxContextTokens`, `resendFiles` and `promptPrefix` are well formed |
| ProviderTables.LibreChatSound | packages/data-provider/src/parameterSettings.ts:92-141 | every `librechat` entry is well formed and keyed by its table name |
| ProviderTables.OpenAILabelPromptSamplingWellFormed | packages/data-provider/src/parameterSettings.ts:144-165 | `chatGptLabel`, `promptPrefix`, `temperature` and `top_p` are well formed |
| ProviderTables.OpenAIPenaltiesTokensEffortWellFormed | packages/data-provider/src/parameterSettings.ts:166-236 | `frequency_penalty`, `presence_penalty`, `max_tokens` and `reasoning_effort` are well formed |
| ProviderTables.OpenAISwitchesSummaryWellFormed | packages/data-provider/src/parameterSettings.ts:237-299 | `useResponsesApi`, `web_search`, `reasoning_summary` and `disableStreaming` are well formed |
| ProviderTables.OpenAIFirstSixEntriesSound | packages/data-provider/src/parameterSettings.ts:144-199 | each of the first six `openAIParams` names is in the table, well formed and keyed by its name |
| ProviderTables.OpenAILastSixEntriesSound | packages/data-provider/src/parameterSettings.ts:200-299 | every other `openAIParams` entry is well formed and keyed by its name |
| ProviderTables.OpenAIParamsSound | packages/data-provider/src/parameterSettings.ts:143-300 | every `openAIParams` entry is well formed and keyed by its table name |
| ProviderTables.AnthropicTokensSamplingWellFormed | packages/data-provider/src/parameterSettings.ts:303-353 | `maxOutputTokens`, `temperature`, `topP` and `topK` are well formed |
| ProviderTables.AnthropicCacheThinkingSearchWellFormed | packages/data-provider/src/parameterSettings.ts:354-409 | `promptCache`, `thinking`, `thinkingBudget` and `web_search` are well formed |
| ProviderTables.AnthropicTableSound | packages/data-provider/src/parameterSettings.ts:302-410 | every `anthropic` entry is well formed and keyed by its table name |
| ProviderTables.BedrockSystemRegionTokensTemperatureWellFormed | packages/data-provider/src/parameterSettings.ts:413-453 | `system`, `region`, `maxTokens` and `temperature` are well formed |
| ProviderTables.BedrockTopKTopPWellFormed | packages/data-provider/src/parameterSettings.ts:454-460 | `topK` and `topP` are well formed |
| ProviderTables.BedrockTableSound | packages/data-provider/src/parameterSettings.ts:412-461 | every `bedrock` entry is well formed and keyed by its table name |
| ProviderTables.MistralEntriesWellFormed | packages/data-provider/src/parameterSettings.ts:463-471 | Mistral `temperature` and `topP` are well formed |
| ProviderTables.MistralTableSound | packages/data-provider/src/parameterSettings.ts:463-471 | every `mistral` entry is well formed and keyed by its table name |
| ProviderTables.CohereEntriesWellFormed | packages/data-provider/src/parameterSettings.ts:473-482 | Cohere `temperature` and `topP` are well formed |
| ProviderTables.CohereTableSound | packages/data-provider/src/parameterSettings.ts:473-482 | every `cohere` entry is well formed and keyed by its table name |
| ProviderTables.MetaEntriesWellFormed | packages/data-provider/src/parameterSettings.ts:484-493 | Meta `temperature` and `topP` are well formed |
| ProviderTables.MetaTableSound | packages/data-provider/src/parameterSettings.ts:484-493 | every `meta` entry is well formed and keyed by its table name |
| ProviderTables.GoogleSamplingTokensWellFormed | packages/data-provider/src/parameterSettings.ts:496-547 | Google `temperature`, `topP`, `topK` and `maxOutputTokens` are well formed |
| ProviderTables.GoogleThinkingSearchWellFormed | packages/data-provider/src/parameterSettings.ts:548-591 | Google `thinking`, `thinkingBudget` and `web_search` are well formed |
| ProviderTables.GoogleTableSound | packages/data-provider/src/parameterSettings.ts:495-592 | every `google` entry is well formed and keyed by its table name |
| ProviderTables.ProviderTablesSound | packages/data-provider/src/parameterSettings.ts:14-592 | all nine tables are sound: well-formed entries keyed by their table names |
| Configurations.ConsistentPresentations | packages/data-provider/src/parameterSettings.ts:594-810 | for a consistent flat list and column pair: all three lists have pairwise-distinct keys, the flat list's key set is that of `col1 ++ col2` minus `model`, a key in both has the same definition in both, and every flat entry is well formed |
| Configurations.KeysOfListsKeySet | packages/data-provider/src/parameterSettings.ts:594-810 | a list's keys in order hold exactly the list's key set |
| Configurations.FlatDistinctKeys | packages/data-provider/src/parameterSettings.ts:594-810 | the flat list of a consistent presentation has pairwise-distinct keys |
| Configurations.GoogleColumnKeys | packages/data-provider/src/parameterSettings.ts:608-624 | the keys of `googleCol1 ++ googleCol2`, in order |
| Configurations.GoogleColumnKeysDistinct | packages/data-provider/src/parameterSettings.ts:608-624 | the Google columns have pairwise-distinct keys |
| Configurations.GoogleColumnsWellFormed | packages/data-provider/src/parameterSettings.ts:608-624 | every Google column entry is well formed |
| Configurations.GoogleFlatIsColumnsWithoutModel | packages/data-provider/src/parameterSettings.ts:594-624 | `googleConfig` is a reordering of the Google columns without `model` |
| Configurations.GoogleConsistent | packages/data-provider/src/parameterSettings.ts:594-624 | `googleConfig` and the Google columns are consistent |
| Configurations.OpenAIColumnKeys | packages/data-provider/src/parameterSettings.ts:645-666 | the keys of `openAICol1 ++ openAICol2`, in order |
| Configurations.OpenAIColumnKeysDistinct | packages/data-provider/src/parameterSettings.ts:645-666 | the OpenAI columns have pairwise-distinct keys |
| Configurations.OpenAIColumnsWellFormed | packages/data-provider/src/parameterSettings.ts:645-666 | every OpenAI column entry is well formed |
| Configurations.OpenAIFlatIsColumnsWithoutModel | packages/data-provider/src/parameterSettings.ts:626-666 | the `openAI` flat list is a reordering of the OpenAI columns without `model` |
| Configurations.OpenAIConsistent | packages/data-provider/src/parameterSettings.ts:626-666 | the `openAI` flat list and the OpenAI columns are consistent |
| Configurations.OpenAIFlatDistinctKeys | packages/data-provider/src/parameterSettings.ts:626-643 | the `openAI` flat list has pairwise-distinct keys |
| Configurations.OpenAIFlatListShape | packages/data-provider/src/parameterSettings.ts:626-643 | the `openAI` flat list starts with `modelLabel`, `promptPrefix`, `maxContextTokens`; exactly one entry (position 12) has key `reasoning_effort`, and its options are `[none, low, medium, high]` |
| Configurations.AnthropicColumnKeys | packages/data-provider/src/parameterSettings.ts:683-700 | the keys of `anthropicCol1 ++ anthropicCol2`, in order |
| Configurations.AnthropicColumnKeysDistinct | packages/data-provider/src/parameterSettings.ts:683-700 | the Anthropic columns have pairwise-distinct keys |
| Configurations.AnthropicColumnsWellFormed | packages/data-provider/src/parameterSettings.ts:683-700 | every Anthropic column entry is well formed |
| Configurations.AnthropicFlatIsColumnsWithoutModel | packages/data-provider/src/parameterSettings.ts:668-700 | `anthropicConfig` is a reordering of the Anthropic columns without `model` |
| Configurations.AnthropicConsistent | packages/data-provider/src/parameterSettings.ts:668-700 | `anthropicConfig` and the Anthropic columns are consistent |
| Configurations.BedrockAnthropicColumnKeys | packages/data-provider/src/parameterSettings.ts:749-766 | the keys of the gateway Anthropic columns, in order |
| Configurations.BedrockAnthropicColumnKeysDistinct | packages/data-provider/src/parameterSettings.ts:749-766 | the gateway Anthropic columns have pairwise-distinct keys |
| Configurations.BedrockAnthropicColumnsWellFormed | packages/data-provider/src/parameterSettings.ts:749-766 | every gateway Anthropic column entry is well formed |
| Configurations.BedrockAnthropicFlatIsColumnsWithoutModel | packages/data-provider/src/parameterSettings.ts:702-715 | `bedrockAnthropic` is a reordering of its columns without `model` |
| Configurations.BedrockAnthropicConsistent | packages/data-provider/src/parameterSettings.ts:702-715 | `bedrockAnthropic` and its columns are consistent |
| Configurations.BedrockMistralColumnKeys | packages/data-provider/src/parameterSettings.ts:768-781 | the keys of the gateway Mistral columns, in order |
| Configurations.BedrockMistralColumnKeysDistinct | packages/data-provider/src/parameterSettings.ts:768-781 | the gateway Mistral columns have pairwise-distinct keys |
| Configurations.BedrockMistralColumnsWellFormed | packages/data-provider/src/parameterSettings.ts:768-781 | every gateway Mistral column entry is well formed |
| Configurations.BedrockMistralFlatIsColumnsWithoutModel | packages/data-provider/src/parameterSettings.ts:717-726 | `bedrockMistral` is a reordering of its columns without `model` |
| Configurations.BedrockMistralConsistent | packages/data-provider/src/parameterSettings.ts:717-726 | `bedrockMistral` and its columns are consistent |
| Configurations.BedrockCohereColumnKeys | packages/data-provider/src/parameterSettings.ts:783-796 | the keys of the gateway Cohere columns, in order |
| Configurations.BedrockCohereColumnKeysDistinct | packages/data-provider/src/parameterSettings.ts:783-796 | the gateway Cohere columns have pairwise-distinct keys |
| Configurations.BedrockCohereColumnsWellFormed | packages/data-provider/src/parameterSettings.ts:783-796 | every gateway Cohere column entry is well formed |
| Configurations.BedrockCohereFlatIsColumnsWithoutModel | packages/data-provider/src/parameterSettings.ts:728-737 | `bedrockCohere` is a reordering of its columns without `model` |
| Configurations.BedrockCohereConsistent | packages/data-provider/src/parameterSettings.ts:728-737 | `bedrockCohere` and its columns are consistent |
| Configurations.BedrockGeneralColumnKeys | packages/data-provider/src/parameterSettings.ts:798-810 | the keys of the gateway general columns, in order |
| Configurations.BedrockGeneralColumnKeysDistinct | packages/data-provider/src/parameterSettings.ts:798-810 | the gateway general columns have pairwise-distinct keys |
| Configurations.BedrockGeneralColumnsWellFormed | packages/data-provider/src/parameterSettings.ts:798-810 | every gateway general column entry is well formed |
| Configurations.BedrockGeneralFlatIsColumnsWithoutModel | packages/data-provider/src/parameterSettings.ts:739-747 | `bedrockGeneral` is a reordering of its columns without `model` |
| Configurations.BedrockGeneralConsistent | packages/data-provider/src/parameterSettings.ts:739-747 | `bedrockGeneral` and its columns are consistent |
| Registry.AgentProjection | packages/data-provider/src/parameterSettings.ts:874-881 | the result of the `reduce` adds no key of its own, and when every preset entry is defined it keeps every key |
| Registry.BuildAgentParamSettings | packages/data-provider/src/parameterSettings.ts:874-881 | the `reduce` over the preset entries, visited in any order, yields exactly the keys whose value is defined, each mapped to that value's `col2` |
| Registry.RegistriesShareKeys | packages/data-provider/src/parameterSettings.ts:812-872 | `paramSettings` and `presetSettings` have exactly the same twelve keys, and every preset entry is defined |
| Registry.ParamSettingsKeys | packages/data-provider/src/parameterSettings.ts:812-825 | `paramSettings` has exactly the twelve registered keys |
| Registry.PresetSettingsKeys | packages/data-provider/src/parameterSettings.ts:837-872 | `presetSettings` has exactly the twelve registered keys |
| Registry.PresetSettingsDefined | packages/data-provider/src/parameterSettings.ts:837-872 | no `presetSettings` entry is `undefined` |
| Registry.LookupsAgree | packages/data-provider/src/parameterSettings.ts:812-881 | a key is defined in each of the three registries exactly when it is registered, so an unregistered key is `undefined` in all three |
| Registry.UnregisteredGatewayKeys | packages/data-provider/src/parameterSettings.ts:812-872 | plain `bedrock`, a gateway provider the file does not list, and a gateway provider behind another endpoint are all `undefined` |
| Registry.SharedParamSettings | packages/data-provider/src/parameterSettings.ts:812-825 | `openAI`, `azureOpenAI` and `custom` map to the same flat list; Meta, AI21, Amazon and DeepSeek on the gateway map to `bedrockGeneral` |
| Registry.SharedPresetSettings | packages/data-provider/src/parameterSettings.ts:827-872 | the same keys share `openAIColumns` and `bedrockGeneralColumns` in `presetSettings` |
| Registry.AgentParamSettingsAreSecondColumns | packages/data-provider/src/parameterSettings.ts:874-881 | `agentParamSettings` has exactly the registered keys, and each maps to its preset entry's `col2` |
| Registry.GatewayAnthropicAgentTopK | packages/data-provider/src/parameterSettings.ts:852-855 | an agent on the gateway with an Anthropic model gets the gateway `topK`, ranging over 0 to 500 in steps of 1 |
| Registry.OpenAIKeysConsistent | packages/data-provider/src/parameterSettings.ts:813-815 | `openAI`, `azureOpenAI` and `custom` each register a consistent flat list and column pair |
| Registry.AnthropicKeyConsistent | packages/data-provider/src/parameterSettings.ts:816 | `anthropic` registers a consistent flat list and column pair |
| Registry.GoogleKeyConsistent | packages/data-provider/src/parameterSettings.ts:824 | `google` registers a consistent flat list and column pair |
| Registry.GatewayAnthropicKeyConsistent | packages/data-provider/src/parameterSettings.ts:817 | `bedrock-anthropic` registers a consistent flat list and column pair |
| Registry.GatewayMistralKeyConsistent | packages/data-provider/src/parameterSettings.ts:818 | `bedrock-mistral` registers a consistent flat list and column pair |
| Registry.GatewayCohereKeyConsistent | packages/data-provider/src/parameterSettings.ts:819 | `bedrock-cohere` registers a consistent flat list and column pair |
| Registry.GatewayGeneralKeysConsistent | packages/data-provider/src/parameterSettings.ts:820-823 | the Meta, AI21, Amazon and DeepSeek gateway keys each register a consistent flat list and column pair |
| Registry.RegisteredLayoutsConsistent | packages/data-provider/src/parameterSettings.ts:812-872 | for every registered key, both registries have an entry, and the flat list and the column pair are consistent: `col1` opens with `model`, keys are distinct, entries are well formed, and the flat list is the columns without `model` |

## Left out

- `client/src/components/Conversations/Convo.tsx` is not part of this model.
  It is a React component: hooks, client state, routing, an asynchronous
  rename, toasts and rendering.
- The bodies of `openAISettings`, `anthropicSettings`, `googleSettings` and the
  enumerations in the package's `types` module are not part of this model.
  Values read from them are symbolic paths. No range or default fact is
  claimed for them.
- The `SettingDefinition` type of the package's `generate` module is not part
  of this model. The record has exactly the properties this file uses.
- Localisation and rendering: label, description and placeholder codes are
  opaque strings. `*Code`, `showDefault` and `columnSpan` are carried but not
  interpreted.
- Object identity and aliasing: the registries share arrays and column objects
  by reference. Here they are values, so the model states equal contents, not
  shared identity.
- An override property explicitly set to `undefined` would be copied by the
  spread. The model's `None` means "absent". No override in the file sets
  `undefined`.
- The `as SettingDefinition` cast in `createDefinition` checks nothing. The
  model has no check either. `CreateDefinitionKeepsCompleteness` shows the
  cast is sound when either side is complete, and well-formedness is proved
  for every table entry.
- Registry keys are structured (`Plain(endpoint)`, `Composite(gateway,
  provider)`). The string join `` `${e}-${p}` `` is taken to identify its two
  parts. `UnlistedEndpoint`/`UnlistedProvider` stand for enumeration members
  the file never names. Their `name` is only a label that tells such members
  apart. It is not the member's string value, and the model does not keep
  it different from the values of the listed members.
- `Object.entries` visiting order: `BuildAgentParamSettings` picks the next
  entry arbitrarily, so its result is proved for every order.
- `openAIParams.chatGptLabel` is modelled and proved well formed. No list uses
  it, so no list property involves it.
