/** The base definitions and the provider definition tables.

    Each table maps a short name to a definition, as the source's
    `Record<string, SettingDefinition>` objects do. Provider entries are
    either literals or `CreateDefinition(base, overrides)` over a base
    definition or over another provider's entry (Bedrock's `topK` refines
    Anthropic's). Numbers from the imported `openAISettings`,
    `anthropicSettings` and `googleSettings` objects appear as
    `ImportedBound`/`Imported` values named by their path.
 */
module ProviderTables {
  import opened Definitions
  import opened Composer

  /** `{ min, max, step }` of literal numbers. */
  function LitRange(min: real, max: real, step: real): Range {
    Range(Lit(min), Lit(max), Lit(step))
  }

  /** `{ min: s.min, max: s.max, step: s.step }` read from the imported
      settings entry at path `s`. */
  function ImportedRange(s: string): Range {
    Range(ImportedBound(s + ".min"), ImportedBound(s + ".max"), ImportedBound(s + ".step"))
  }

  // -------------------------------------------------------------------
  // baseDefinitions
  // -------------------------------------------------------------------

  const BaseModel: Definition := Empty.(
    key := Some("model"),
    displayLabel := Some("com_ui_model"),
    labelCode := Some(true),
    valueType := Some(StringType),
    component := Some(Dropdown),
    optionType := Some(ModelOption),
    selectPlaceholder := Some("com_ui_select_model"),
    searchPlaceholder := Some("com_ui_select_search_model"),
    searchPlaceholderCode := Some(true),
    selectPlaceholderCode := Some(true),
    columnSpan := Some(4))

  const BaseTemperature: Definition := Empty.(
    key := Some("temperature"),
    displayLabel := Some("com_endpoint_temperature"),
    labelCode := Some(true),
    description := Some("com_endpoint_openai_temp"),
    descriptionCode := Some(true),
    valueType := Some(NumberType),
    component := Some(Slider),
    optionType := Some(ModelOption),
    columnSpan := Some(4))

  const BaseTopP: Definition := Empty.(
    key := Some("topP"),
    displayLabel := Some("com_endpoint_top_p"),
    labelCode := Some(true),
    description := Some("com_endpoint_anthropic_topp"),
    descriptionCode := Some(true),
    valueType := Some(NumberType),
    component := Some(Slider),
    optionType := Some(ModelOption),
    columnSpan := Some(4))

  const BaseStop: Definition := Empty.(
    key := Some("stop"),
    displayLabel := Some("com_endpoint_stop"),
    labelCode := Some(true),
    description := Some("com_endpoint_openai_stop"),
    descriptionCode := Some(true),
    placeholder := Some("com_endpoint_stop_placeholder"),
    placeholderCode := Some(true),
    valueType := Some(ArrayType),
    defaultValue := Some(StrList([])),
    component := Some(TagsInput),
    optionType := Some(ConversationOption),
    minTags := Some(0),
    maxTags := Some(4))

  const BaseImageDetail: Definition := Empty.(
    key := Some("imageDetail"),
    displayLabel := Some("com_endpoint_plug_image_detail"),
    labelCode := Some(true),
    description := Some("com_endpoint_openai_detail"),
    descriptionCode := Some(true),
    valueType := Some(EnumType),
    defaultValue := Some(Member(Detail(DetailAuto))),
    component := Some(Slider),
    options := Some([Detail(DetailLow), Detail(DetailAuto), Detail(DetailHigh)]),
    enumMappings := Some(map[
      Detail(DetailLow) := "com_ui_low",
      Detail(DetailAuto) := "com_ui_auto",
      Detail(DetailHigh) := "com_ui_high"]),
    optionType := Some(ConversationOption),
    columnSpan := Some(2))

  const BaseDefinitions: map<string, Definition> := map[
    "model" := BaseModel,
    "temperature" := BaseTemperature,
    "topP" := BaseTopP,
    "stop" := BaseStop,
    "imageDetail" := BaseImageDetail]

  // -------------------------------------------------------------------
  // librechat: the fields shared unchanged by every provider
  // -------------------------------------------------------------------

  const ModelLabel: Definition := Empty.(
    key := Some("modelLabel"),
    displayLabel := Some("com_endpoint_custom_name"),
    labelCode := Some(true),
    valueType := Some(StringType),
    defaultValue := Some(Str("")),
    component := Some(Input),
    placeholder := Some("com_endpoint_openai_custom_name_placeholder"),
    placeholderCode := Some(true),
    optionType := Some(ConversationOption))

  const MaxContextTokens: Definition := Empty.(
    key := Some("maxContextTokens"),
    displayLabel := Some("com_endpoint_context_tokens"),
    labelCode := Some(true),
    valueType := Some(NumberType),
    component := Some(Input),
    placeholder := Some("com_nav_theme_system"),
    placeholderCode := Some(true),
    description := Some("com_endpoint_context_info"),
    descriptionCode := Some(true),
    optionType := Some(ModelOption),
    columnSpan := Some(2))

  const ResendFiles: Definition := Empty.(
    key := Some("resendFiles"),
    displayLabel := Some("com_endpoint_plug_resend_files"),
    labelCode := Some(true),
    description := Some("com_endpoint_openai_resend_files"),
    descriptionCode := Some(true),
    valueType := Some(BooleanType),
    defaultValue := Some(Bool(true)),
    component := Some(Switch),
    optionType := Some(ConversationOption),
    showDefault := Some(false),
    columnSpan := Some(2))

  const PromptPrefix: Definition := Empty.(
    key := Some("promptPrefix"),
    displayLabel := Some("com_endpoint_prompt_prefix"),
    labelCode := Some(true),
    valueType := Some(StringType),
    defaultValue := Some(Str("")),
    component := Some(Textarea),
    placeholder := Some("com_endpoint_openai_prompt_prefix_placeholder"),
    placeholderCode := Some(true),
    optionType := Some(ModelOption))

  const LibreChat: map<string, Definition> := map[
    "modelLabel" := ModelLabel,
    "maxContextTokens" := MaxContextTokens,
    "resendFiles" := ResendFiles,
    "promptPrefix" := PromptPrefix]

  // -------------------------------------------------------------------
  // openAIParams
  // -------------------------------------------------------------------

  /** `{ ...librechat.modelLabel, key: 'chatGptLabel' }`. */
  const OpenAIChatGptLabel: Definition := CreateDefinition(ModelLabel, Empty.(key := Some("chatGptLabel")))

  const OpenAITemperature: Definition := CreateDefinition(BaseTemperature, Empty.(
    defaultValue := Some(Imported("openAISettings.temperature.default")),
    range := Some(ImportedRange("openAISettings.temperature"))))

  const OpenAITopP: Definition := CreateDefinition(BaseTopP, Empty.(
    key := Some("top_p"),
    defaultValue := Some(Imported("openAISettings.top_p.default")),
    range := Some(ImportedRange("openAISettings.top_p"))))

  const OpenAIFrequencyPenalty: Definition := Empty.(
    key := Some("frequency_penalty"),
    displayLabel := Some("com_endpoint_frequency_penalty"),
    labelCode := Some(true),
    description := Some("com_endpoint_openai_freq"),
    descriptionCode := Some(true),
    valueType := Some(NumberType),
    defaultValue := Some(Imported("openAISettings.frequency_penalty.default")),
    range := Some(ImportedRange("openAISettings.frequency_penalty")),
    component := Some(Slider),
    optionType := Some(ModelOption),
    columnSpan := Some(4))

  const OpenAIPresencePenalty: Definition := Empty.(
    key := Some("presence_penalty"),
    displayLabel := Some("com_endpoint_presence_penalty"),
    labelCode := Some(true),
    description := Some("com_endpoint_openai_pres"),
    descriptionCode := Some(true),
    valueType := Some(NumberType),
    defaultValue := Some(Imported("openAISettings.presence_penalty.default")),
    range := Some(ImportedRange("openAISettings.presence_penalty")),
    component := Some(Slider),
    optionType := Some(ModelOption),
    columnSpan := Some(4))

  const OpenAIMaxTokens: Definition := Empty.(
    key := Some("max_tokens"),
    displayLabel := Some("com_endpoint_max_output_tokens"),
    labelCode := Some(true),
    valueType := Some(NumberType),
    component := Some(Input),
    description := Some("com_endpoint_openai_max_tokens"),
    descriptionCode := Some(true),
    placeholder := Some("com_nav_theme_system"),
    placeholderCode := Some(true),
    optionType := Some(ModelOption),
    columnSpan := Some(2))

  const OpenAIReasoningEffort: Definition := Empty.(
    key := Some("reasoning_effort"),
    displayLabel := Some("com_endpoint_reasoning_effort"),
    labelCode := Some(true),
    description := Some("com_endpoint_openai_reasoning_effort"),
    descriptionCode := Some(true),
    valueType := Some(EnumType),
    defaultValue := Some(Member(Effort(EffortNone))),
    component := Some(Slider),
    options := Some([Effort(EffortNone), Effort(EffortLow), Effort(EffortMedium), Effort(EffortHigh)]),
    enumMappings := Some(map[
      Effort(EffortNone) := "com_ui_none",
      Effort(EffortLow) := "com_ui_low",
      Effort(EffortMedium) := "com_ui_medium",
      Effort(EffortHigh) := "com_ui_high"]),
    optionType := Some(ModelOption),
    columnSpan := Some(4))

  const OpenAIUseResponsesApi: Definition := Empty.(
    key := Some("useResponsesApi"),
    displayLabel := Some("com_endpoint_use_responses_api"),
    labelCode := Some(true),
    description := Some("com_endpoint_openai_use_responses_api"),
    descriptionCode := Some(true),
    valueType := Some(BooleanType),
    defaultValue := Some(Bool(false)),
    component := Some(Switch),
    optionType := Some(ModelOption),
    showDefault := Some(false),
    columnSpan := Some(2))

  const OpenAIWebSearch: Definition := Empty.(
    key := Some("web_search"),
    displayLabel := Some("com_ui_web_search"),
    labelCode := Some(true),
    description := Some("com_endpoint_openai_use_web_search"),
    descriptionCode := Some(true),
    valueType := Some(BooleanType),
    defaultValue := Some(Bool(false)),
    component := Some(Switch),
    optionType := Some(ModelOption),
    showDefault := Some(false),
    columnSpan := Some(2))

  const OpenAIReasoningSummary: Definition := Empty.(
    key := Some("reasoning_summary"),
    displayLabel := Some("com_endpoint_reasoning_summary"),
    labelCode := Some(true),
    description := Some("com_endpoint_openai_reasoning_summary"),
    descriptionCode := Some(true),
    valueType := Some(EnumType),
    defaultValue := Some(Member(Summary(SummaryNone))),
    component := Some(Slider),
    options := Some([Summary(SummaryNone), Summary(SummaryAuto), Summary(SummaryConcise), Summary(SummaryDetailed)]),
    enumMappings := Some(map[
      Summary(SummaryNone) := "com_ui_none",
      Summary(SummaryAuto) := "com_ui_auto",
      Summary(SummaryConcise) := "com_ui_concise",
      Summary(SummaryDetailed) := "com_ui_detailed"]),
    optionType := Some(ModelOption),
    columnSpan := Some(4))

  const OpenAIDisableStreaming: Definition := Empty.(
    key := Some("disableStreaming"),
    displayLabel := Some("com_endpoint_disable_streaming_label"),
    labelCode := Some(true),
    description := Some("com_endpoint_disable_streaming"),
    descriptionCode := Some(true),
    valueType := Some(BooleanType),
    defaultValue := Some(Bool(false)),
    component := Some(Switch),
    optionType := Some(ModelOption),
    showDefault := Some(false),
    columnSpan := Some(2))

  const OpenAIParams: map<string, Definition> := map[
    "chatGptLabel" := OpenAIChatGptLabel,
    "promptPrefix" := PromptPrefix,
    "temperature" := OpenAITemperature,
    "top_p" := OpenAITopP,
    "frequency_penalty" := OpenAIFrequencyPenalty,
    "presence_penalty" := OpenAIPresencePenalty,
    "max_tokens" := OpenAIMaxTokens,
    "reasoning_effort" := OpenAIReasoningEffort,
    "useResponsesApi" := OpenAIUseResponsesApi,
    "web_search" := OpenAIWebSearch,
    "reasoning_summary" := OpenAIReasoningSummary,
    "disableStreaming" := OpenAIDisableStreaming]

  // -------------------------------------------------------------------
  // anthropic
  // -------------------------------------------------------------------

  const AnthropicMaxOutputTokens: Definition := Empty.(
    key := Some("maxOutputTokens"),
    displayLabel := Some("com_endpoint_max_output_tokens"),
    labelCode := Some(true),
    valueType := Some(NumberType),
    component := Some(Input),
    description := Some("com_endpoint_anthropic_maxoutputtokens"),
    descriptionCode := Some(true),
    placeholder := Some("com_nav_theme_system"),
    placeholderCode := Some(true),
    range := Some(ImportedRange("anthropicSettings.maxOutputTokens")),
    optionType := Some(ModelOption),
    columnSpan := Some(2))

  const AnthropicTemperature: Definition := CreateDefinition(BaseTemperature, Empty.(
    defaultValue := Some(Imported("anthropicSettings.temperature.default")),
    range := Some(ImportedRange("anthropicSettings.temperature"))))

  const AnthropicTopP: Definition := CreateDefinition(BaseTopP, Empty.(
    defaultValue := Some(Imported("anthropicSettings.topP.default")),
    range := Some(ImportedRange("anthropicSettings.topP"))))

  const AnthropicTopK: Definition := Empty.(
    key := Some("topK"),
    displayLabel := Some("com_endpoint_top_k"),
    labelCode := Some(true),
    description := Some("com_endpoint_anthropic_topk"),
    descriptionCode := Some(true),
    valueType := Some(NumberType),
    defaultValue := Some(Imported("anthropicSettings.topK.default")),
    range := Some(ImportedRange("anthropicSettings.topK")),
    component := Some(Slider),
    optionType := Some(ModelOption),
    columnSpan := Some(4))

  const AnthropicPromptCache: Definition := Empty.(
    key := Some("promptCache"),
    displayLabel := Some("com_endpoint_prompt_cache"),
    labelCode := Some(true),
    description := Some("com_endpoint_anthropic_prompt_cache"),
    descriptionCode := Some(true),
    valueType := Some(BooleanType),
    defaultValue := Some(Imported("anthropicSettings.promptCache.default")),
    component := Some(Switch),
    optionType := Some(ConversationOption),
    showDefault := Some(false),
    columnSpan := Some(2))

  const AnthropicThinking: Definition := Empty.(
    key := Some("thinking"),
    displayLabel := Some("com_endpoint_thinking"),
    labelCode := Some(true),
    description := Some("com_endpoint_anthropic_thinking"),
    descriptionCode := Some(true),
    valueType := Some(BooleanType),
    defaultValue := Some(Imported("anthropicSettings.thinking.default")),
    component := Some(Switch),
    optionType := Some(ConversationOption),
    showDefault := Some(false),
    columnSpan := Some(2))

  const AnthropicThinkingBudget: Definition := Empty.(
    key := Some("thinkingBudget"),
    displayLabel := Some("com_endpoint_thinking_budget"),
    labelCode := Some(true),
    description := Some("com_endpoint_anthropic_thinking_budget"),
    descriptionCode := Some(true),
    valueType := Some(NumberType),
    component := Some(Input),
    defaultValue := Some(Imported("anthropicSettings.thinkingBudget.default")),
    range := Some(ImportedRange("anthropicSettings.thinkingBudget")),
    optionType := Some(ConversationOption),
    columnSpan := Some(2))

  const AnthropicWebSearch: Definition := Empty.(
    key := Some("web_search"),
    displayLabel := Some("com_ui_web_search"),
    labelCode := Some(true),
    description := Some("com_endpoint_anthropic_use_web_search"),
    descriptionCode := Some(true),
    valueType := Some(BooleanType),
    defaultValue := Some(Imported("anthropicSettings.web_search.default")),
    component := Some(Switch),
    optionType := Some(ConversationOption),
    showDefault := Some(false),
    columnSpan := Some(2))

  const AnthropicTable: map<string, Definition> := map[
    "maxOutputTokens" := AnthropicMaxOutputTokens,
    "temperature" := AnthropicTemperature,
    "topP" := AnthropicTopP,
    "topK" := AnthropicTopK,
    "promptCache" := AnthropicPromptCache,
    "thinking" := AnthropicThinking,
    "thinkingBudget" := AnthropicThinkingBudget,
    "web_search" := AnthropicWebSearch]

  // -------------------------------------------------------------------
  // bedrock
  // -------------------------------------------------------------------

  const BedrockSystem: Definition := Empty.(
    key := Some("system"),
    displayLabel := Some("com_endpoint_prompt_prefix"),
    labelCode := Some(true),
    valueType := Some(StringType),
    defaultValue := Some(Str("")),
    component := Some(Textarea),
    placeholder := Some("com_endpoint_openai_prompt_prefix_placeholder"),
    placeholderCode := Some(true),
    optionType := Some(ModelOption))

  const BedrockRegion: Definition := Empty.(
    key := Some("region"),
    valueType := Some(StringType),
    displayLabel := Some("com_ui_region"),
    labelCode := Some(true),
    component := Some(Combobox),
    optionType := Some(ConversationOption),
    selectPlaceholder := Some("com_ui_select_region"),
    searchPlaceholder := Some("com_ui_select_search_region"),
    searchPlaceholderCode := Some(true),
    selectPlaceholderCode := Some(true),
    columnSpan := Some(2))

  const BedrockMaxTokens: Definition := Empty.(
    key := Some("maxTokens"),
    displayLabel := Some("com_endpoint_max_output_tokens"),
    labelCode := Some(true),
    valueType := Some(NumberType),
    component := Some(Input),
    description := Some("com_endpoint_anthropic_maxoutputtokens"),
    descriptionCode := Some(true),
    placeholder := Some("com_nav_theme_system"),
    placeholderCode := Some(true),
    optionType := Some(ModelOption),
    columnSpan := Some(2))

  const BedrockTemperature: Definition := CreateDefinition(BaseTemperature, Empty.(
    defaultValue := Some(Num(1.0)),
    range := Some(LitRange(0.0, 1.0, 0.01))))

  /** Anthropic's `topK` with the range widened for the gateway. */
  const BedrockTopK: Definition := CreateDefinition(AnthropicTopK, Empty.(
    range := Some(LitRange(0.0, 500.0, 1.0))))

  const BedrockTopP: Definition := CreateDefinition(BaseTopP, Empty.(
    defaultValue := Some(Num(0.999)),
    range := Some(LitRange(0.0, 1.0, 0.01))))

  const BedrockTable: map<string, Definition> := map[
    "system" := BedrockSystem,
    "region" := BedrockRegion,
    "maxTokens" := BedrockMaxTokens,
    "temperature" := BedrockTemperature,
    "topK" := BedrockTopK,
    "topP" := BedrockTopP]

  // -------------------------------------------------------------------
  // mistral, cohere, meta
  // -------------------------------------------------------------------

  const MistralTemperature: Definition := CreateDefinition(BaseTemperature, Empty.(
    defaultValue := Some(Num(0.7)),
    range := Some(LitRange(0.0, 1.0, 0.01))))

  /** Mistral's `topP` sets a range and no default. */
  const MistralTopP: Definition := CreateDefinition(BaseTopP, Empty.(
    range := Some(LitRange(0.0, 1.0, 0.01))))

  const MistralTable: map<string, Definition> := map[
    "temperature" := MistralTemperature,
    "topP" := MistralTopP]

  const CohereTemperature: Definition := CreateDefinition(BaseTemperature, Empty.(
    defaultValue := Some(Num(0.3)),
    range := Some(LitRange(0.0, 1.0, 0.01))))

  const CohereTopP: Definition := CreateDefinition(BaseTopP, Empty.(
    defaultValue := Some(Num(0.75)),
    range := Some(LitRange(0.01, 0.99, 0.01))))

  const CohereTable: map<string, Definition> := map[
    "temperature" := CohereTemperature,
    "topP" := CohereTopP]

  const MetaTemperature: Definition := CreateDefinition(BaseTemperature, Empty.(
    defaultValue := Some(Num(0.5)),
    range := Some(LitRange(0.0, 1.0, 0.01))))

  const MetaTopP: Definition := CreateDefinition(BaseTopP, Empty.(
    defaultValue := Some(Num(0.9)),
    range := Some(LitRange(0.0, 1.0, 0.01))))

  const MetaTable: map<string, Definition> := map[
    "temperature" := MetaTemperature,
    "topP" := MetaTopP]

  // -------------------------------------------------------------------
  // google
  // -------------------------------------------------------------------

  const GoogleTemperature: Definition := CreateDefinition(BaseTemperature, Empty.(
    defaultValue := Some(Imported("googleSettings.temperature.default")),
    range := Some(ImportedRange("googleSettings.temperature"))))

  const GoogleTopP: Definition := CreateDefinition(BaseTopP, Empty.(
    defaultValue := Some(Imported("googleSettings.topP.default")),
    range := Some(ImportedRange("googleSettings.topP"))))

  const GoogleTopK: Definition := Empty.(
    key := Some("topK"),
    displayLabel := Some("com_endpoint_top_k"),
    labelCode := Some(true),
    description := Some("com_endpoint_google_topk"),
    descriptionCode := Some(true),
    valueType := Some(NumberType),
    defaultValue := Some(Imported("googleSettings.topK.default")),
    range := Some(ImportedRange("googleSettings.topK")),
    component := Some(Slider),
    optionType := Some(ModelOption),
    columnSpan := Some(4))

  const GoogleMaxOutputTokens: Definition := Empty.(
    key := Some("maxOutputTokens"),
    displayLabel := Some("com_endpoint_max_output_tokens"),
    labelCode := Some(true),
    valueType := Some(NumberType),
    component := Some(Input),
    description := Some("com_endpoint_google_maxoutputtokens"),
    descriptionCode := Some(true),
    placeholder := Some("com_nav_theme_system"),
    placeholderCode := Some(true),
    defaultValue := Some(Imported("googleSettings.maxOutputTokens.default")),
    range := Some(ImportedRange("googleSettings.maxOutputTokens")),
    optionType := Some(ModelOption),
    columnSpan := Some(2))

  const GoogleThinking: Definition := Empty.(
    key := Some("thinking"),
    displayLabel := Some("com_endpoint_thinking"),
    labelCode := Some(true),
    description := Some("com_endpoint_google_thinking"),
    descriptionCode := Some(true),
    valueType := Some(BooleanType),
    defaultValue := Some(Imported("googleSettings.thinking.default")),
    component := Some(Switch),
    optionType := Some(ConversationOption),
    showDefault := Some(false),
    columnSpan := Some(2))

  /** Google's `thinkingBudget` has an imported range and no default. */
  const GoogleThinkingBudget: Definition := Empty.(
    key := Some("thinkingBudget"),
    displayLabel := Some("com_endpoint_thinking_budget"),
    labelCode := Some(true),
    description := Some("com_endpoint_google_thinking_budget"),
    descriptionCode := Some(true),
    placeholder := Some("com_ui_auto"),
    placeholderCode := Some(true),
    valueType := Some(NumberType),
    component := Some(Input),
    range := Some(ImportedRange("googleSettings.thinkingBudget")),
    optionType := Some(ConversationOption),
    columnSpan := Some(2))

  const GoogleWebSearch: Definition := Empty.(
    key := Some("web_search"),
    displayLabel := Some("com_endpoint_use_search_grounding"),
    labelCode := Some(true),
    description := Some("com_endpoint_google_use_search_grounding"),
    descriptionCode := Some(true),
    valueType := Some(BooleanType),
    defaultValue := Some(Bool(false)),
    component := Some(Switch),
    optionType := Some(ModelOption),
    showDefault := Some(false),
    columnSpan := Some(2))

  const GoogleTable: map<string, Definition> := map[
    "temperature" := GoogleTemperature,
    "topP" := GoogleTopP,
    "topK" := GoogleTopK,
    "maxOutputTokens" := GoogleMaxOutputTokens,
    "thinking" := GoogleThinking,
    "thinkingBudget" := GoogleThinkingBudget,
    "web_search" := GoogleWebSearch]

  // -------------------------------------------------------------------
  // Properties of the tables
  // -------------------------------------------------------------------

  /** A table entry is well formed and stored under its own key. */
  predicate TableSound(t: map<string, Definition>) {
    forall name | name in t :: WellFormed(t[name]) && t[name].key == Some(name)
  }

  /** Bedrock's `topK` is Anthropic's with only the range replaced by the
      literal `{ min: 0, max: 500, step: 1 }`: key, default, type,
      component and labels are Anthropic's. */
  lemma BedrockTopKOverridesOnlyRange()
    ensures BedrockTopK == AnthropicTopK.(range := Some(LitRange(0.0, 500.0, 1.0)))
    ensures forall p | p != RangeProp :: Get(BedrockTopK, p) == Get(AnthropicTopK, p)
    ensures Get(BedrockTopK, RangeProp) == Some(RangeOf(LitRange(0.0, 500.0, 1.0)))
  {
  }

  /** OpenAI's `top_p` renames the base `topP` and adds a default and a
      range, both read from the imported OpenAI settings; the base has
      neither, and every other property is the base's. */
  lemma OpenAITopPOverridesKeyDefaultRange()
    ensures BaseTopP.defaultValue.None? && BaseTopP.range.None?
    ensures OpenAITopP == BaseTopP.(
      key := Some("top_p"),
      defaultValue := Some(Imported("openAISettings.top_p.default")),
      range := Some(ImportedRange("openAISettings.top_p")))
    ensures forall p | p !in {Key, Default, RangeProp} :: Get(OpenAITopP, p) == Get(BaseTopP, p)
  {
  }

  /** `imageDetail` is an enumeration whose labels map exactly its
      options, listed without repetition, and whose default is one of them. */
  lemma ImageDetailEnumCoversOptions()
    ensures BaseImageDetail.valueType == Some(EnumType) && EnumConsistent(BaseImageDetail)
  {
  }

  /** The same for `reasoning_effort`. */
  lemma ReasoningEffortEnumCoversOptions()
    ensures OpenAIReasoningEffort.valueType == Some(EnumType) && EnumConsistent(OpenAIReasoningEffort)
  {
  }

  /** The same for `reasoning_summary`. */
  lemma ReasoningSummaryEnumCoversOptions()
    ensures OpenAIReasoningSummary.valueType == Some(EnumType) && EnumConsistent(OpenAIReasoningSummary)
  {
  }

  /** `reasoning_effort` offers none, low, medium and high, in that order,
      and defaults to none. */
  lemma ReasoningEffortOptions()
    ensures OpenAIReasoningEffort.options == Some([Effort(EffortNone), Effort(EffortLow), Effort(EffortMedium), Effort(EffortHigh)])
    ensures OpenAIReasoningEffort.defaultValue == Some(Member(Effort(EffortNone)))
  {
  }

  /** Every literal range of the gateway providers is non-empty, has a
      positive step and contains its literal default (Mistral's `topP` has
      none). */
  lemma LiteralRangesContainDefaults()
    ensures forall d: Definition |
        d in {BedrockTemperature, BedrockTopP, BedrockTopK, MistralTemperature, MistralTopP,
              CohereTemperature, CohereTopP, MetaTemperature, MetaTopP} ::
      LiteralRange(d) && LiteralBoundsHold(d)
    ensures MistralTopP.defaultValue.None?
  {
  }

  /** A `range` added to a boolean setting is caught: `resendFiles` with a
      range is not well formed. */
  lemma RangeOnBooleanIsRejected()
    ensures ResendFiles.valueType == Some(BooleanType)
    ensures !WellFormed(ResendFiles.(range := Some(LitRange(0.0, 1.0, 0.01))))
  {
  }

  /** `stop` accepts between 0 and 4 tags and defaults to none. */
  lemma StopTagBounds()
    ensures BaseStop.minTags == Some(0) && BaseStop.maxTags == Some(4)
    ensures TagBoundsHold(BaseStop)
    ensures BaseStop.defaultValue == Some(StrList([]))
  {
  }

  lemma ModelSamplingStopWellFormed()
    ensures WellFormed(BaseModel)
    ensures WellFormed(BaseTemperature)
    ensures WellFormed(BaseTopP)
    ensures WellFormed(BaseStop)
  {
  }

  lemma ImageDetailWellFormed()
    ensures WellFormed(BaseImageDetail)
  {
  }

  /** Every entry of `baseDefinitions` is well formed under its own key. */
  lemma {:induction false} BaseDefinitionsSound()
    ensures TableSound(BaseDefinitions)
  {
    ModelSamplingStopWellFormed();
    ImageDetailWellFormed();
    forall name | name in BaseDefinitions
      ensures WellFormed(BaseDefinitions[name]) && BaseDefinitions[name].key == Some(name)
    {
      if name == "model" {
        assert BaseDefinitions[name] == BaseModel;
      } else if name == "temperature" {
        assert BaseDefinitions[name] == BaseTemperature;
      } else if name == "topP" {
        assert BaseDefinitions[name] == BaseTopP;
      } else if name == "stop" {
        assert BaseDefinitions[name] == BaseStop;
      } else if name == "imageDetail" {
        assert BaseDefinitions[name] == BaseImageDetail;
      }
    }
  }

  lemma LibreChatEntriesWellFormed()
    ensures WellFormed(ModelLabel)
    ensures WellFormed(MaxContextTokens)
    ensures WellFormed(ResendFiles)
    ensures WellFormed(PromptPrefix)
  {
  }

  /** Every entry of `librechat` is well formed under its own key. */
  lemma {:induction false} LibreChatSound()
    ensures TableSound(LibreChat)
  {
    LibreChatEntriesWellFormed();
    forall name | name in LibreChat
      ensures WellFormed(LibreChat[name]) && LibreChat[name].key == Some(name)
    {
      if name == "modelLabel" {
        assert LibreChat[name] == ModelLabel;
      } else if name == "maxContextTokens" {
        assert LibreChat[name] == MaxContextTokens;
      } else if name == "resendFiles" {
        assert LibreChat[name] == ResendFiles;
      } else if name == "promptPrefix" {
        assert LibreChat[name] == PromptPrefix;
      }
    }
  }

  lemma OpenAILabelPromptSamplingWellFormed()
    ensures WellFormed(OpenAIChatGptLabel)
    ensures WellFormed(PromptPrefix)
    ensures WellFormed(OpenAITemperature)
    ensures WellFormed(OpenAITopP)
  {
  }

  lemma OpenAIPenaltiesTokensEffortWellFormed()
    ensures WellFormed(OpenAIFrequencyPenalty)
    ensures WellFormed(OpenAIPresencePenalty)
    ensures WellFormed(OpenAIMaxTokens)
    ensures WellFormed(OpenAIReasoningEffort)
  {
  }

  lemma OpenAISwitchesSummaryWellFormed()
    ensures WellFormed(OpenAIUseResponsesApi)
    ensures WellFormed(OpenAIWebSearch)
    ensures WellFormed(OpenAIReasoningSummary)
    ensures WellFormed(OpenAIDisableStreaming)
  {
  }

  /** Every entry of `openAIParams` is well formed under its own key. */
  lemma {:induction false} OpenAIParamsSound()
    ensures TableSound(OpenAIParams)
  {
    forall name | name in OpenAIParams
      ensures WellFormed(OpenAIParams[name]) && OpenAIParams[name].key == Some(name)
    {
      if name in {"chatGptLabel", "promptPrefix", "temperature", "top_p", "frequency_penalty", "presence_penalty"} {
        OpenAIFirstSixEntriesSound(name);
      } else {
        OpenAILastSixEntriesSound(name);
      }
    }
  }

  lemma OpenAIFirstSixEntriesSound(name: string)
    requires name in {"chatGptLabel", "promptPrefix", "temperature", "top_p", "frequency_penalty", "presence_penalty"}
    ensures name in OpenAIParams && WellFormed(OpenAIParams[name]) && OpenAIParams[name].key == Some(name)
  {
    OpenAILabelPromptSamplingWellFormed();
    OpenAIPenaltiesTokensEffortWellFormed();
    if name == "chatGptLabel" {
      assert OpenAIParams[name] == OpenAIChatGptLabel;
    } else if name == "promptPrefix" {
      assert OpenAIParams[name] == PromptPrefix;
    } else if name == "temperature" {
      assert OpenAIParams[name] == OpenAITemperature;
    } else if name == "top_p" {
      assert OpenAIParams[name] == OpenAITopP;
    } else if name == "frequency_penalty" {
      assert OpenAIParams[name] == OpenAIFrequencyPenalty;
    } else {
      assert OpenAIParams[name] == OpenAIPresencePenalty;
    }
  }

  lemma OpenAILastSixEntriesSound(name: string)
    requires name in OpenAIParams && name !in {"chatGptLabel", "promptPrefix", "temperature", "top_p", "frequency_penalty", "presence_penalty"}
    ensures WellFormed(OpenAIParams[name]) && OpenAIParams[name].key == Some(name)
  {
    OpenAIPenaltiesTokensEffortWellFormed();
    OpenAISwitchesSummaryWellFormed();
    if name == "max_tokens" {
      assert OpenAIParams[name] == OpenAIMaxTokens;
    } else if name == "reasoning_effort" {
      assert OpenAIParams[name] == OpenAIReasoningEffort;
    } else if name == "useResponsesApi" {
      assert OpenAIParams[name] == OpenAIUseResponsesApi;
    } else if name == "web_search" {
      assert OpenAIParams[name] == OpenAIWebSearch;
    } else if name == "reasoning_summary" {
      assert OpenAIParams[name] == OpenAIReasoningSummary;
    } else {
      assert OpenAIParams[name] == OpenAIDisableStreaming;
    }
  }

  lemma AnthropicTokensSamplingWellFormed()
    ensures WellFormed(AnthropicMaxOutputTokens)
    ensures WellFormed(AnthropicTemperature)
    ensures WellFormed(AnthropicTopP)
    ensures WellFormed(AnthropicTopK)
  {
  }

  lemma AnthropicCacheThinkingSearchWellFormed()
    ensures WellFormed(AnthropicPromptCache)
    ensures WellFormed(AnthropicThinking)
    ensures WellFormed(AnthropicThinkingBudget)
    ensures WellFormed(AnthropicWebSearch)
  {
  }

  /** Every entry of `anthropic` is well formed under its own key. */
  lemma {:induction false} AnthropicTableSound()
    ensures TableSound(AnthropicTable)
  {
    AnthropicTokensSamplingWellFormed();
    AnthropicCacheThinkingSearchWellFormed();
    forall name | name in AnthropicTable
      ensures WellFormed(AnthropicTable[name]) && AnthropicTable[name].key == Some(name)
    {
      if name == "maxOutputTokens" {
        assert AnthropicTable[name] == AnthropicMaxOutputTokens;
      } else if name == "temperature" {
        assert AnthropicTable[name] == AnthropicTemperature;
      } else if name == "topP" {
        assert AnthropicTable[name] == AnthropicTopP;
      } else if name == "topK" {
        assert AnthropicTable[name] == AnthropicTopK;
      } else if name == "promptCache" {
        assert AnthropicTable[name] == AnthropicPromptCache;
      } else if name == "thinking" {
        assert AnthropicTable[name] == AnthropicThinking;
      } else if name == "thinkingBudget" {
        assert AnthropicTable[name] == AnthropicThinkingBudget;
      } else if name == "web_search" {
        assert AnthropicTable[name] == AnthropicWebSearch;
      }
    }
  }

  lemma BedrockSystemRegionTokensTemperatureWellFormed()
    ensures WellFormed(BedrockSystem)
    ensures WellFormed(BedrockRegion)
    ensures WellFormed(BedrockMaxTokens)
    ensures WellFormed(BedrockTemperature)
  {
  }

  lemma BedrockTopKTopPWellFormed()
    ensures WellFormed(BedrockTopK)
    ensures WellFormed(BedrockTopP)
  {
  }

  /** Every entry of `bedrock` is well formed under its own key. */
  lemma {:induction false} BedrockTableSound()
    ensures TableSound(BedrockTable)
  {
    BedrockSystemRegionTokensTemperatureWellFormed();
    BedrockTopKTopPWellFormed();
    forall name | name in BedrockTable
      ensures WellFormed(BedrockTable[name]) && BedrockTable[name].key == Some(name)
    {
      if name == "system" {
        assert BedrockTable[name] == BedrockSystem;
      } else if name == "region" {
        assert BedrockTable[name] == BedrockRegion;
      } else if name == "maxTokens" {
        assert BedrockTable[name] == BedrockMaxTokens;
      } else if name == "temperature" {
        assert BedrockTable[name] == BedrockTemperature;
      } else if name == "topK" {
        assert BedrockTable[name] == BedrockTopK;
      } else if name == "topP" {
        assert BedrockTable[name] == BedrockTopP;
      }
    }
  }

  lemma MistralEntriesWellFormed()
    ensures WellFormed(MistralTemperature)
    ensures WellFormed(MistralTopP)
  {
  }

  /** Every entry of `mistral` is well formed under its own key. */
  lemma {:induction false} MistralTableSound()
    ensures TableSound(MistralTable)
  {
    MistralEntriesWellFormed();
    forall name | name in MistralTable
      ensures WellFormed(MistralTable[name]) && MistralTable[name].key == Some(name)
    {
      if name == "temperature" {
        assert MistralTable[name] == MistralTemperature;
      } else if name == "topP" {
        assert MistralTable[name] == MistralTopP;
      }
    }
  }

  lemma CohereEntriesWellFormed()
    ensures WellFormed(CohereTemperature)
    ensures WellFormed(CohereTopP)
  {
  }

  /** Every entry of `cohere` is well formed under its own key. */
  lemma {:induction false} CohereTableSound()
    ensures TableSound(CohereTable)
  {
    CohereEntriesWellFormed();
    forall name | name in CohereTable
      ensures WellFormed(CohereTable[name]) && CohereTable[name].key == Some(name)
    {
      if name == "temperature" {
        assert CohereTable[name] == CohereTemperature;
      } else if name == "topP" {
        assert CohereTable[name] == CohereTopP;
      }
    }
  }

  lemma MetaEntriesWellFormed()
    ensures WellFormed(MetaTemperature)
    ensures WellFormed(MetaTopP)
  {
  }

  /** Every entry of `meta` is well formed under its own key. */
  lemma {:induction false} MetaTableSound()
    ensures TableSound(MetaTable)
  {
    MetaEntriesWellFormed();
    forall name | name in MetaTable
      ensures WellFormed(MetaTable[name]) && MetaTable[name].key == Some(name)
    {
      if name == "temperature" {
        assert MetaTable[name] == MetaTemperature;
      } else if name == "topP" {
        assert MetaTable[name] == MetaTopP;
      }
    }
  }

  lemma GoogleSamplingTokensWellFormed()
    ensures WellFormed(GoogleTemperature)
    ensures WellFormed(GoogleTopP)
    ensures WellFormed(GoogleTopK)
    ensures WellFormed(GoogleMaxOutputTokens)
  {
  }

  lemma GoogleThinkingSearchWellFormed()
    ensures WellFormed(GoogleThinking)
    ensures WellFormed(GoogleThinkingBudget)
    ensures WellFormed(GoogleWebSearch)
  {
  }

  /** Every entry of `google` is well formed under its own key. */
  lemma {:induction false} GoogleTableSound()
    ensures TableSound(GoogleTable)
  {
    GoogleSamplingTokensWellFormed();
    GoogleThinkingSearchWellFormed();
    forall name | name in GoogleTable
      ensures WellFormed(GoogleTable[name]) && GoogleTable[name].key == Some(name)
    {
      if name == "temperature" {
        assert GoogleTable[name] == GoogleTemperature;
      } else if name == "topP" {
        assert GoogleTable[name] == GoogleTopP;
      } else if name == "topK" {
        assert GoogleTable[name] == GoogleTopK;
      } else if name == "maxOutputTokens" {
        assert GoogleTable[name] == GoogleMaxOutputTokens;
      } else if name == "thinking" {
        assert GoogleTable[name] == GoogleThinking;
      } else if name == "thinkingBudget" {
        assert GoogleTable[name] == GoogleThinkingBudget;
      } else if name == "web_search" {
        assert GoogleTable[name] == GoogleWebSearch;
      }
    }
  }

  /** Every provider table is sound. */
  lemma ProviderTablesSound()
    ensures TableSound(BaseDefinitions) && TableSound(LibreChat) && TableSound(OpenAIParams)
    ensures TableSound(AnthropicTable) && TableSound(BedrockTable) && TableSound(MistralTable)
    ensures TableSound(CohereTable) && TableSound(MetaTable) && TableSound(GoogleTable)
  {
    BaseDefinitionsSound();
    LibreChatSound();
    OpenAIParamsSound();
    AnthropicTableSound();
    BedrockTableSound();
    MistralTableSound();
    CohereTableSound();
    MetaTableSound();
    GoogleTableSound();
  }
}
