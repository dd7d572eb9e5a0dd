/** The hand-ordered configurations: for each endpoint a flat list (the
    order in which the parameter panel shows its settings) and a column
    pair (`col1`, `col2`) for the two-column preset dialog. Entries are the
    very definitions of the provider tables; `col1` always opens with the
    base `model` definition, which the flat lists leave out.
 */
module Configurations {
  import opened Definitions
  import opened ProviderTables

  // -------------------------------------------------------------------
  // google
  // -------------------------------------------------------------------

  const GoogleConfig: seq<Definition> := [
    ModelLabel, PromptPrefix, MaxContextTokens, GoogleMaxOutputTokens, GoogleTemperature,
    GoogleTopP, GoogleTopK, ResendFiles, GoogleThinking, GoogleThinkingBudget, GoogleWebSearch]

  const GoogleCol1: seq<Definition> := [BaseModel, ModelLabel, PromptPrefix]

  const GoogleCol2: seq<Definition> := [
    MaxContextTokens, GoogleMaxOutputTokens, GoogleTemperature, GoogleTopP, GoogleTopK,
    ResendFiles, GoogleThinking, GoogleThinkingBudget, GoogleWebSearch]

  // -------------------------------------------------------------------
  // openAI
  // -------------------------------------------------------------------

  const OpenAIConfig: seq<Definition> := [
    ModelLabel, PromptPrefix, MaxContextTokens, OpenAIMaxTokens, OpenAITemperature,
    OpenAITopP, OpenAIFrequencyPenalty, OpenAIPresencePenalty, BaseStop, ResendFiles,
    BaseImageDetail, OpenAIWebSearch, OpenAIReasoningEffort, OpenAIUseResponsesApi,
    OpenAIReasoningSummary, OpenAIDisableStreaming]

  const OpenAICol1: seq<Definition> := [BaseModel, ModelLabel, PromptPrefix]

  /** The same settings as the flat list after `promptPrefix`, but with
      `reasoning_effort`, `reasoning_summary`, `useResponsesApi` and
      `web_search` in a different order. */
  const OpenAICol2: seq<Definition> := [
    MaxContextTokens, OpenAIMaxTokens, OpenAITemperature, OpenAITopP, OpenAIFrequencyPenalty,
    OpenAIPresencePenalty, BaseStop, ResendFiles, BaseImageDetail, OpenAIReasoningEffort,
    OpenAIReasoningSummary, OpenAIUseResponsesApi, OpenAIWebSearch, OpenAIDisableStreaming]

  // -------------------------------------------------------------------
  // anthropic
  // -------------------------------------------------------------------

  const AnthropicConfig: seq<Definition> := [
    ModelLabel, PromptPrefix, MaxContextTokens, AnthropicMaxOutputTokens, AnthropicTemperature,
    AnthropicTopP, AnthropicTopK, ResendFiles, AnthropicPromptCache, AnthropicThinking,
    AnthropicThinkingBudget, AnthropicWebSearch]

  const AnthropicCol1: seq<Definition> := [BaseModel, ModelLabel, PromptPrefix]

  const AnthropicCol2: seq<Definition> := [
    MaxContextTokens, AnthropicMaxOutputTokens, AnthropicTemperature, AnthropicTopP,
    AnthropicTopK, ResendFiles, AnthropicPromptCache, AnthropicThinking,
    AnthropicThinkingBudget, AnthropicWebSearch]

  // -------------------------------------------------------------------
  // bedrock, per model provider
  // -------------------------------------------------------------------

  /** Anthropic models on the gateway: `system` takes the place of
      `promptPrefix`, and `stop` moves to the first column. */
  const BedrockAnthropicConfig: seq<Definition> := [
    ModelLabel, BedrockSystem, MaxContextTokens, BedrockMaxTokens, BedrockTemperature,
    BedrockTopP, BedrockTopK, BaseStop, ResendFiles, BedrockRegion, AnthropicThinking,
    AnthropicThinkingBudget]

  const BedrockMistralConfig: seq<Definition> := [
    ModelLabel, PromptPrefix, MaxContextTokens, BedrockMaxTokens, MistralTemperature,
    MistralTopP, ResendFiles, BedrockRegion]

  const BedrockCohereConfig: seq<Definition> := [
    ModelLabel, PromptPrefix, MaxContextTokens, BedrockMaxTokens, CohereTemperature,
    CohereTopP, ResendFiles, BedrockRegion]

  /** Shared by Meta, AI21, Amazon and DeepSeek; it has no `maxTokens`. */
  const BedrockGeneralConfig: seq<Definition> := [
    ModelLabel, PromptPrefix, MaxContextTokens, MetaTemperature, MetaTopP, ResendFiles,
    BedrockRegion]

  const BedrockAnthropicCol1: seq<Definition> := [BaseModel, ModelLabel, BedrockSystem, BaseStop]

  const BedrockAnthropicCol2: seq<Definition> := [
    MaxContextTokens, BedrockMaxTokens, BedrockTemperature, BedrockTopP, BedrockTopK,
    ResendFiles, BedrockRegion, AnthropicThinking, AnthropicThinkingBudget]

  const BedrockMistralCol1: seq<Definition> := [BaseModel, ModelLabel, PromptPrefix]

  const BedrockMistralCol2: seq<Definition> := [
    MaxContextTokens, BedrockMaxTokens, MistralTemperature, MistralTopP, ResendFiles,
    BedrockRegion]

  const BedrockCohereCol1: seq<Definition> := [BaseModel, ModelLabel, PromptPrefix]

  const BedrockCohereCol2: seq<Definition> := [
    MaxContextTokens, BedrockMaxTokens, CohereTemperature, CohereTopP, ResendFiles,
    BedrockRegion]

  const BedrockGeneralCol1: seq<Definition> := [BaseModel, ModelLabel, PromptPrefix]

  const BedrockGeneralCol2: seq<Definition> := [
    MaxContextTokens, MetaTemperature, MetaTopP, ResendFiles, BedrockRegion]

  // -------------------------------------------------------------------
  // What a configuration is meant to satisfy
  // -------------------------------------------------------------------

  /** No two entries of `s` share a key. */
  predicate DistinctKeys(s: seq<Definition>) {
    forall i, j | 0 <= i < j < |s| :: s[i].key != s[j].key
  }

  /** The keys of the entries of `s`. */
  function KeySet(s: seq<Definition>): set<Option<string>> {
    set d | d in s :: d.key
  }

  /** The keys of `s`, in order. */
  function KeysOf(s: seq<Definition>): seq<Option<string>> {
    seq(|s|, i requires 0 <= i < |s| => s[i].key)
  }

  /** The ordered keys list exactly the key set. */
  lemma KeysOfListsKeySet(s: seq<Definition>)
    ensures forall k :: k in KeysOf(s) <==> k in KeySet(s)
  {
    forall k | k in KeySet(s) ensures k in KeysOf(s) {
      var i :| 0 <= i < |s| && s[i].key == k;
      assert KeysOf(s)[i] == k;
    }
  }

  /** A flat list and a column pair that present the same settings: the
      first column opens with the base `model` definition, no key appears
      twice in the two columns, every entry is well formed, and the flat
      list holds exactly the column entries other than `model`, each once,
      in some order. */
  predicate Consistent(flat: seq<Definition>, col1: seq<Definition>, col2: seq<Definition>) {
    && |col1| > 0 && col1[0] == BaseModel
    && DistinctKeys(col1 + col2)
    && (forall d | d in col1 + col2 :: WellFormed(d))
    && multiset(flat) == multiset(col1[1..] + col2)
  }

  // -------------------------------------------------------------------
  // Consequences of consistency
  // -------------------------------------------------------------------

  /** In a list with distinct keys no definition occurs twice. */
  lemma {:induction false} DistinctKeysOccurOnce(s: seq<Definition>)
    requires DistinctKeys(s)
    ensures forall x :: multiset(s)[x] <= 1
  {
    if s != [] {
      assert DistinctKeys(s[1..]) by {
        forall i, j | 0 <= i < j < |s[1..]| ensures s[1..][i].key != s[1..][j].key {
          assert s[1..][i] == s[i + 1] && s[1..][j] == s[j + 1];
        }
      }
      DistinctKeysOccurOnce(s[1..]);
      assert s == [s[0]] + s[1..];
    }
  }

  /** A definition found at two positions occurs at least twice. */
  lemma RepeatedOccursTwice(s: seq<Definition>, i: int, j: int)
    requires 0 <= i < j < |s| && s[i] == s[j]
    ensures multiset(s)[s[i]] >= 2
  {
    assert s == s[..i] + [s[i]] + s[i + 1..j] + [s[j]] + s[j + 1..];
  }

  /** Removing entries keeps the remaining keys distinct. */
  lemma DistinctKeysSuffix(s: seq<Definition>, k: nat)
    requires DistinctKeys(s) && k <= |s|
    ensures DistinctKeys(s[k..])
  {
    forall i, j | 0 <= i < j < |s[k..]| ensures s[k..][i].key != s[k..][j].key {
      assert s[k..][i] == s[i + k] && s[k..][j] == s[j + k];
    }
  }

  /** The position of an entry of a list with distinct keys is determined
      by its key. */
  lemma DistinctKeysPosition(s: seq<Definition>, i: int, j: int)
    requires DistinctKeys(s) && 0 <= i < |s| && 0 <= j < |s| && s[i].key == s[j].key
    ensures i == j
  {
  }

  /** The flat list holds the same entries as the columns after `model`,
      and none of those is keyed `model`. */
  lemma FlatEntries(flat: seq<Definition>, col1: seq<Definition>, col2: seq<Definition>)
    requires Consistent(flat, col1, col2)
    ensures forall d :: d in flat <==> d in col1[1..] + col2
    ensures forall d | d in col1[1..] + col2 :: d.key != Some("model") && d in col1 + col2
  {
    var all, rest := col1 + col2, col1[1..] + col2;
    assert rest == all[1..];
    forall d ensures d in flat <==> d in rest {
      assert d in flat <==> d in multiset(flat);
      assert d in rest <==> d in multiset(rest);
    }
    forall d | d in rest ensures d.key != Some("model") && d in all {
      var k :| 0 <= k < |rest| && rest[k] == d;
      assert all[k + 1] == d && all[0] == BaseModel;
    }
  }

  /** The flat list has distinct keys: an entry cannot occur twice in it
      (it occurs once in the columns), and two different entries have
      different keys (they do in the columns). */
  lemma {:induction false} FlatDistinctKeys(flat: seq<Definition>, col1: seq<Definition>, col2: seq<Definition>)
    requires Consistent(flat, col1, col2)
    ensures DistinctKeys(flat)
  {
    var rest := col1[1..] + col2;
    assert rest == (col1 + col2)[1..];
    DistinctKeysSuffix(col1 + col2, 1);
    FlatEntries(flat, col1, col2);
    forall i, j | 0 <= i < j < |flat| ensures flat[i].key != flat[j].key {
      if flat[i].key == flat[j].key {
        assert flat[i] in rest && flat[j] in rest;
        var p :| 0 <= p < |rest| && rest[p] == flat[i];
        var q :| 0 <= q < |rest| && rest[q] == flat[j];
        DistinctKeysPosition(rest, p, q);
        RepeatedOccursTwice(flat, i, j);
        DistinctKeysOccurOnce(rest);
        assert false;
      }
    }
  }

  /** In a list with distinct keys, the key at position `k` is found at
      position `k` only. */
  lemma KeyAtOnePosition(s: seq<Definition>, k: int)
    requires DistinctKeys(s) && 0 <= k < |s|
    ensures forall i | 0 <= i < |s| :: s[i].key == s[k].key <==> i == k
  {
    forall i | 0 <= i < |s| && s[i].key == s[k].key ensures i == k {
      DistinctKeysPosition(s, i, k);
    }
  }

  /** What consistency promises: every list has distinct keys; the flat
      list's key set is that of the two columns without `model`; and a key
      present in both presentations carries the very same definition in
      each, which is well formed. */
  lemma {:induction false} ConsistentPresentations(flat: seq<Definition>, col1: seq<Definition>, col2: seq<Definition>)
    requires Consistent(flat, col1, col2)
    ensures DistinctKeys(flat) && DistinctKeys(col1) && DistinctKeys(col2)
    ensures KeySet(flat) == KeySet(col1 + col2) - {Some("model")}
    ensures forall d, e | d in flat && e in col1 + col2 && d.key == e.key :: d == e
    ensures forall d | d in flat :: WellFormed(d)
  {
    var all, rest := col1 + col2, col1[1..] + col2;
    FlatEntries(flat, col1, col2);
    FlatDistinctKeys(flat, col1, col2);
    assert col2 == all[|col1|..];
    DistinctKeysSuffix(all, |col1|);
    assert DistinctKeys(col1) by {
      forall i, j | 0 <= i < j < |col1| ensures col1[i].key != col1[j].key {
        assert col1[i] == all[i] && col1[j] == all[j];
      }
    }
    forall k ensures k in KeySet(flat) <==> k in KeySet(all) - {Some("model")} {
      if k in KeySet(all) - {Some("model")} {
        var d :| d in all && d.key == k;
        var p :| 0 <= p < |all| && all[p] == d;
        assert p != 0 by { assert all[0] == BaseModel; }
        assert rest[p - 1] == d;
      }
    }
    forall d, e | d in flat && e in all && d.key == e.key ensures d == e {
      var p :| 0 <= p < |rest| && rest[p] == d;
      var q :| 0 <= q < |all| && all[q] == e;
      assert all[p + 1] == d;
      DistinctKeysPosition(all, p + 1, q);
    }
  }

  // -------------------------------------------------------------------
  // Reorderings keep a list's entries
  // -------------------------------------------------------------------

  /** A list obtained from another by moving one entry forward holds the
      same entries. */
  lemma MovedEntries(flat: seq<Definition>, rest: seq<Definition>, a: seq<Definition>, b: seq<Definition>, x: Definition, c: seq<Definition>)
    requires flat == a + b + [x] + c && rest == a + [x] + b + c
    ensures multiset(flat) == multiset(rest)
  {
  }

  /** The reordering between OpenAI's flat list and its second column:
      `w, e, u, s, d` becomes `e, s, u, w, d`. */
  lemma TailReordered(flat: seq<Definition>, rest: seq<Definition>, head: seq<Definition>,
                      w: Definition, e: Definition, u: Definition, s: Definition, d: Definition)
    requires flat == head + [w] + [e] + [u] + [s] + [d]
    requires rest == head + [e] + [s] + [u] + [w] + [d]
    ensures multiset(flat) == multiset(rest)
  {
  }

  /** No key occurs twice in `keys`. */
  predicate UniqueKeys(keys: seq<Option<string>>) {
    forall i, j | 0 <= i < j < |keys| :: keys[i] != keys[j]
  }

  /** A key list is free of repetitions when a map gives back each key's
      position. */
  lemma UniqueByPosition(keys: seq<Option<string>>, position: map<Option<string>, int>)
    requires forall i | 0 <= i < |keys| :: keys[i] in position && position[keys[i]] == i
    ensures UniqueKeys(keys)
  {
  }

  /** A list whose key list has no repetition has distinct keys. */
  lemma DistinctKeysOf(s: seq<Definition>, keys: seq<Option<string>>)
    requires KeysOf(s) == keys && UniqueKeys(keys)
    ensures DistinctKeys(s)
  {
    forall i, j | 0 <= i < j < |s| ensures s[i].key != s[j].key {
      assert keys[i] == s[i].key && keys[j] == s[j].key;
    }
  }

  // -------------------------------------------------------------------
  // The configurations of the source
  // -------------------------------------------------------------------

  /** The keys of `google`'s two columns, in order. */
  lemma GoogleColumnKeys()
    ensures KeysOf(GoogleCol1 + GoogleCol2) == [Some("model"), Some("modelLabel"), Some("promptPrefix"), Some("maxContextTokens"), Some("maxOutputTokens"), Some("temperature"), Some("topP"), Some("topK"), Some("resendFiles"), Some("thinking"), Some("thinkingBudget"), Some("web_search")]
  {
  }

  lemma GoogleColumnKeysDistinct()
    ensures DistinctKeys(GoogleCol1 + GoogleCol2)
  {
    GoogleColumnKeys();
    UniqueByPosition([Some("model"), Some("modelLabel"), Some("promptPrefix"), Some("maxContextTokens"), Some("maxOutputTokens"), Some("temperature"), Some("topP"), Some("topK"), Some("resendFiles"), Some("thinking"), Some("thinkingBudget"), Some("web_search")],
      map[Some("model") := 0, Some("modelLabel") := 1, Some("promptPrefix") := 2, Some("maxContextTokens") := 3, Some("maxOutputTokens") := 4, Some("temperature") := 5, Some("topP") := 6, Some("topK") := 7, Some("resendFiles") := 8, Some("thinking") := 9, Some("thinkingBudget") := 10, Some("web_search") := 11]);
    DistinctKeysOf(GoogleCol1 + GoogleCol2, [Some("model"), Some("modelLabel"), Some("promptPrefix"), Some("maxContextTokens"), Some("maxOutputTokens"), Some("temperature"), Some("topP"), Some("topK"), Some("resendFiles"), Some("thinking"), Some("thinkingBudget"), Some("web_search")]);
  }

  lemma GoogleColumnsWellFormed()
    ensures forall d | d in GoogleCol1 + GoogleCol2 :: WellFormed(d)
  {
    ModelSamplingStopWellFormed();
    GoogleSamplingTokensWellFormed();
    GoogleThinkingSearchWellFormed();
    LibreChatEntriesWellFormed();
    OpenAILabelPromptSamplingWellFormed();
  }

  lemma GoogleFlatIsColumnsWithoutModel()
    ensures multiset(GoogleConfig) == multiset(GoogleCol1[1..] + GoogleCol2)
  {
    assert GoogleConfig == GoogleCol1[1..] + GoogleCol2;
  }

  /** `google`'s flat list and column pair are consistent. */
  lemma GoogleConsistent()
    ensures Consistent(GoogleConfig, GoogleCol1, GoogleCol2)
  {
    GoogleColumnKeysDistinct();
    GoogleColumnsWellFormed();
    GoogleFlatIsColumnsWithoutModel();
  }

  /** The keys of `openAI`'s two columns, in order. */
  lemma OpenAIColumnKeys()
    ensures KeysOf(OpenAICol1 + OpenAICol2) == [Some("model"), Some("modelLabel"), Some("promptPrefix"), Some("maxContextTokens"), Some("max_tokens"), Some("temperature"), Some("top_p"), Some("frequency_penalty"), Some("presence_penalty"), Some("stop"), Some("resendFiles"), Some("imageDetail"), Some("reasoning_effort"), Some("reasoning_summary"), Some("useResponsesApi"), Some("web_search"), Some("disableStreaming")]
  {
  }

  lemma OpenAIColumnKeysDistinct()
    ensures DistinctKeys(OpenAICol1 + OpenAICol2)
  {
    OpenAIColumnKeys();
    UniqueByPosition([Some("model"), Some("modelLabel"), Some("promptPrefix"), Some("maxContextTokens"), Some("max_tokens"), Some("temperature"), Some("top_p"), Some("frequency_penalty"), Some("presence_penalty"), Some("stop"), Some("resendFiles"), Some("imageDetail"), Some("reasoning_effort"), Some("reasoning_summary"), Some("useResponsesApi"), Some("web_search"), Some("disableStreaming")],
      map[Some("model") := 0, Some("modelLabel") := 1, Some("promptPrefix") := 2, Some("maxContextTokens") := 3, Some("max_tokens") := 4, Some("temperature") := 5, Some("top_p") := 6, Some("frequency_penalty") := 7, Some("presence_penalty") := 8, Some("stop") := 9, Some("resendFiles") := 10, Some("imageDetail") := 11, Some("reasoning_effort") := 12, Some("reasoning_summary") := 13, Some("useResponsesApi") := 14, Some("web_search") := 15, Some("disableStreaming") := 16]);
    DistinctKeysOf(OpenAICol1 + OpenAICol2, [Some("model"), Some("modelLabel"), Some("promptPrefix"), Some("maxContextTokens"), Some("max_tokens"), Some("temperature"), Some("top_p"), Some("frequency_penalty"), Some("presence_penalty"), Some("stop"), Some("resendFiles"), Some("imageDetail"), Some("reasoning_effort"), Some("reasoning_summary"), Some("useResponsesApi"), Some("web_search"), Some("disableStreaming")]);
  }

  lemma OpenAIColumnsWellFormed()
    ensures forall d | d in OpenAICol1 + OpenAICol2 :: WellFormed(d)
  {
    ModelSamplingStopWellFormed();
    ImageDetailWellFormed();
    LibreChatEntriesWellFormed();
    OpenAILabelPromptSamplingWellFormed();
    OpenAIPenaltiesTokensEffortWellFormed();
    OpenAISwitchesSummaryWellFormed();
  }

  lemma OpenAIFlatIsColumnsWithoutModel()
    ensures multiset(OpenAIConfig) == multiset(OpenAICol1[1..] + OpenAICol2)
  {
    TailReordered(OpenAIConfig, OpenAICol1[1..] + OpenAICol2,
      [ModelLabel, PromptPrefix, MaxContextTokens, OpenAIMaxTokens, OpenAITemperature,
       OpenAITopP, OpenAIFrequencyPenalty, OpenAIPresencePenalty, BaseStop, ResendFiles, BaseImageDetail],
      OpenAIWebSearch, OpenAIReasoningEffort, OpenAIUseResponsesApi, OpenAIReasoningSummary, OpenAIDisableStreaming);
  }

  /** `openAI`'s flat list and column pair are consistent. */
  lemma OpenAIConsistent()
    ensures Consistent(OpenAIConfig, OpenAICol1, OpenAICol2)
  {
    OpenAIColumnKeysDistinct();
    OpenAIColumnsWellFormed();
    OpenAIFlatIsColumnsWithoutModel();
  }

  /** The keys of `anthropic`'s two columns, in order. */
  lemma AnthropicColumnKeys()
    ensures KeysOf(AnthropicCol1 + AnthropicCol2) == [Some("model"), Some("modelLabel"), Some("promptPrefix"), Some("maxContextTokens"), Some("maxOutputTokens"), Some("temperature"), Some("topP"), Some("topK"), Some("resendFiles"), Some("promptCache"), Some("thinking"), Some("thinkingBudget"), Some("web_search")]
  {
  }

  lemma AnthropicColumnKeysDistinct()
    ensures DistinctKeys(AnthropicCol1 + AnthropicCol2)
  {
    AnthropicColumnKeys();
    UniqueByPosition([Some("model"), Some("modelLabel"), Some("promptPrefix"), Some("maxContextTokens"), Some("maxOutputTokens"), Some("temperature"), Some("topP"), Some("topK"), Some("resendFiles"), Some("promptCache"), Some("thinking"), Some("thinkingBudget"), Some("web_search")],
      map[Some("model") := 0, Some("modelLabel") := 1, Some("promptPrefix") := 2, Some("maxContextTokens") := 3, Some("maxOutputTokens") := 4, Some("temperature") := 5, Some("topP") := 6, Some("topK") := 7, Some("resendFiles") := 8, Some("promptCache") := 9, Some("thinking") := 10, Some("thinkingBudget") := 11, Some("web_search") := 12]);
    DistinctKeysOf(AnthropicCol1 + AnthropicCol2, [Some("model"), Some("modelLabel"), Some("promptPrefix"), Some("maxContextTokens"), Some("maxOutputTokens"), Some("temperature"), Some("topP"), Some("topK"), Some("resendFiles"), Some("promptCache"), Some("thinking"), Some("thinkingBudget"), Some("web_search")]);
  }

  lemma AnthropicColumnsWellFormed()
    ensures forall d | d in AnthropicCol1 + AnthropicCol2 :: WellFormed(d)
  {
    AnthropicTokensSamplingWellFormed();
    AnthropicCacheThinkingSearchWellFormed();
    ModelSamplingStopWellFormed();
    LibreChatEntriesWellFormed();
    OpenAILabelPromptSamplingWellFormed();
  }

  lemma AnthropicFlatIsColumnsWithoutModel()
    ensures multiset(AnthropicConfig) == multiset(AnthropicCol1[1..] + AnthropicCol2)
  {
    assert AnthropicConfig == AnthropicCol1[1..] + AnthropicCol2;
  }

  /** `anthropic`'s flat list and column pair are consistent. */
  lemma AnthropicConsistent()
    ensures Consistent(AnthropicConfig, AnthropicCol1, AnthropicCol2)
  {
    AnthropicColumnKeysDistinct();
    AnthropicColumnsWellFormed();
    AnthropicFlatIsColumnsWithoutModel();
  }

  /** The keys of `bedrockAnthropic`'s two columns, in order. */
  lemma BedrockAnthropicColumnKeys()
    ensures KeysOf(BedrockAnthropicCol1 + BedrockAnthropicCol2) == [Some("model"), Some("modelLabel"), Some("system"), Some("stop"), Some("maxContextTokens"), Some("maxTokens"), Some("temperature"), Some("topP"), Some("topK"), Some("resendFiles"), Some("region"), Some("thinking"), Some("thinkingBudget")]
  {
  }

  lemma BedrockAnthropicColumnKeysDistinct()
    ensures DistinctKeys(BedrockAnthropicCol1 + BedrockAnthropicCol2)
  {
    BedrockAnthropicColumnKeys();
    UniqueByPosition([Some("model"), Some("modelLabel"), Some("system"), Some("stop"), Some("maxContextTokens"), Some("maxTokens"), Some("temperature"), Some("topP"), Some("topK"), Some("resendFiles"), Some("region"), Some("thinking"), Some("thinkingBudget")],
      map[Some("model") := 0, Some("modelLabel") := 1, Some("system") := 2, Some("stop") := 3, Some("maxContextTokens") := 4, Some("maxTokens") := 5, Some("temperature") := 6, Some("topP") := 7, Some("topK") := 8, Some("resendFiles") := 9, Some("region") := 10, Some("thinking") := 11, Some("thinkingBudget") := 12]);
    DistinctKeysOf(BedrockAnthropicCol1 + BedrockAnthropicCol2, [Some("model"), Some("modelLabel"), Some("system"), Some("stop"), Some("maxContextTokens"), Some("maxTokens"), Some("temperature"), Some("topP"), Some("topK"), Some("resendFiles"), Some("region"), Some("thinking"), Some("thinkingBudget")]);
  }

  lemma BedrockAnthropicColumnsWellFormed()
    ensures forall d | d in BedrockAnthropicCol1 + BedrockAnthropicCol2 :: WellFormed(d)
  {
    AnthropicCacheThinkingSearchWellFormed();
    ModelSamplingStopWellFormed();
    BedrockSystemRegionTokensTemperatureWellFormed();
    BedrockTopKTopPWellFormed();
    LibreChatEntriesWellFormed();
  }

  lemma BedrockAnthropicFlatIsColumnsWithoutModel()
    ensures multiset(BedrockAnthropicConfig) == multiset(BedrockAnthropicCol1[1..] + BedrockAnthropicCol2)
  {
    MovedEntries(BedrockAnthropicConfig, BedrockAnthropicCol1[1..] + BedrockAnthropicCol2,
      [ModelLabel, BedrockSystem],
      [MaxContextTokens, BedrockMaxTokens, BedrockTemperature, BedrockTopP, BedrockTopK],
      BaseStop,
      [ResendFiles, BedrockRegion, AnthropicThinking, AnthropicThinkingBudget]);
  }

  /** `bedrockAnthropic`'s flat list and column pair are consistent. */
  lemma BedrockAnthropicConsistent()
    ensures Consistent(BedrockAnthropicConfig, BedrockAnthropicCol1, BedrockAnthropicCol2)
  {
    BedrockAnthropicColumnKeysDistinct();
    BedrockAnthropicColumnsWellFormed();
    BedrockAnthropicFlatIsColumnsWithoutModel();
  }

  /** The keys of `bedrockMistral`'s two columns, in order. */
  lemma BedrockMistralColumnKeys()
    ensures KeysOf(BedrockMistralCol1 + BedrockMistralCol2) == [Some("model"), Some("modelLabel"), Some("promptPrefix"), Some("maxContextTokens"), Some("maxTokens"), Some("temperature"), Some("topP"), Some("resendFiles"), Some("region")]
  {
  }

  lemma BedrockMistralColumnKeysDistinct()
    ensures DistinctKeys(BedrockMistralCol1 + BedrockMistralCol2)
  {
    BedrockMistralColumnKeys();
    UniqueByPosition([Some("model"), Some("modelLabel"), Some("promptPrefix"), Some("maxContextTokens"), Some("maxTokens"), Some("temperature"), Some("topP"), Some("resendFiles"), Some("region")],
      map[Some("model") := 0, Some("modelLabel") := 1, Some("promptPrefix") := 2, Some("maxContextTokens") := 3, Some("maxTokens") := 4, Some("temperature") := 5, Some("topP") := 6, Some("resendFiles") := 7, Some("region") := 8]);
    DistinctKeysOf(BedrockMistralCol1 + BedrockMistralCol2, [Some("model"), Some("modelLabel"), Some("promptPrefix"), Some("maxContextTokens"), Some("maxTokens"), Some("temperature"), Some("topP"), Some("resendFiles"), Some("region")]);
  }

  lemma BedrockMistralColumnsWellFormed()
    ensures forall d | d in BedrockMistralCol1 + BedrockMistralCol2 :: WellFormed(d)
  {
    ModelSamplingStopWellFormed();
    BedrockSystemRegionTokensTemperatureWellFormed();
    LibreChatEntriesWellFormed();
    MistralEntriesWellFormed();
    OpenAILabelPromptSamplingWellFormed();
  }

  lemma BedrockMistralFlatIsColumnsWithoutModel()
    ensures multiset(BedrockMistralConfig) == multiset(BedrockMistralCol1[1..] + BedrockMistralCol2)
  {
    assert BedrockMistralConfig == BedrockMistralCol1[1..] + BedrockMistralCol2;
  }

  /** `bedrockMistral`'s flat list and column pair are consistent. */
  lemma BedrockMistralConsistent()
    ensures Consistent(BedrockMistralConfig, BedrockMistralCol1, BedrockMistralCol2)
  {
    BedrockMistralColumnKeysDistinct();
    BedrockMistralColumnsWellFormed();
    BedrockMistralFlatIsColumnsWithoutModel();
  }

  /** The keys of `bedrockCohere`'s two columns, in order. */
  lemma BedrockCohereColumnKeys()
    ensures KeysOf(BedrockCohereCol1 + BedrockCohereCol2) == [Some("model"), Some("modelLabel"), Some("promptPrefix"), Some("maxContextTokens"), Some("maxTokens"), Some("temperature"), Some("topP"), Some("resendFiles"), Some("region")]
  {
  }

  lemma BedrockCohereColumnKeysDistinct()
    ensures DistinctKeys(BedrockCohereCol1 + BedrockCohereCol2)
  {
    BedrockCohereColumnKeys();
    UniqueByPosition([Some("model"), Some("modelLabel"), Some("promptPrefix"), Some("maxContextTokens"), Some("maxTokens"), Some("temperature"), Some("topP"), Some("resendFiles"), Some("region")],
      map[Some("model") := 0, Some("modelLabel") := 1, Some("promptPrefix") := 2, Some("maxContextTokens") := 3, Some("maxTokens") := 4, Some("temperature") := 5, Some("topP") := 6, Some("resendFiles") := 7, Some("region") := 8]);
    DistinctKeysOf(BedrockCohereCol1 + BedrockCohereCol2, [Some("model"), Some("modelLabel"), Some("promptPrefix"), Some("maxContextTokens"), Some("maxTokens"), Some("temperature"), Some("topP"), Some("resendFiles"), Some("region")]);
  }

  lemma BedrockCohereColumnsWellFormed()
    ensures forall d | d in BedrockCohereCol1 + BedrockCohereCol2 :: WellFormed(d)
  {
    ModelSamplingStopWellFormed();
    BedrockSystemRegionTokensTemperatureWellFormed();
    CohereEntriesWellFormed();
    LibreChatEntriesWellFormed();
    OpenAILabelPromptSamplingWellFormed();
  }

  lemma BedrockCohereFlatIsColumnsWithoutModel()
    ensures multiset(BedrockCohereConfig) == multiset(BedrockCohereCol1[1..] + BedrockCohereCol2)
  {
    assert BedrockCohereConfig == BedrockCohereCol1[1..] + BedrockCohereCol2;
  }

  /** `bedrockCohere`'s flat list and column pair are consistent. */
  lemma BedrockCohereConsistent()
    ensures Consistent(BedrockCohereConfig, BedrockCohereCol1, BedrockCohereCol2)
  {
    BedrockCohereColumnKeysDistinct();
    BedrockCohereColumnsWellFormed();
    BedrockCohereFlatIsColumnsWithoutModel();
  }

  /** The keys of `bedrockGeneral`'s two columns, in order. */
  lemma BedrockGeneralColumnKeys()
    ensures KeysOf(BedrockGeneralCol1 + BedrockGeneralCol2) == [Some("model"), Some("modelLabel"), Some("promptPrefix"), Some("maxContextTokens"), Some("temperature"), Some("topP"), Some("resendFiles"), Some("region")]
  {
  }

  lemma BedrockGeneralColumnKeysDistinct()
    ensures DistinctKeys(BedrockGeneralCol1 + BedrockGeneralCol2)
  {
    BedrockGeneralColumnKeys();
    UniqueByPosition([Some("model"), Some("modelLabel"), Some("promptPrefix"), Some("maxContextTokens"), Some("temperature"), Some("topP"), Some("resendFiles"), Some("region")],
      map[Some("model") := 0, Some("modelLabel") := 1, Some("promptPrefix") := 2, Some("maxContextTokens") := 3, Some("temperature") := 4, Some("topP") := 5, Some("resendFiles") := 6, Some("region") := 7]);
    DistinctKeysOf(BedrockGeneralCol1 + BedrockGeneralCol2, [Some("model"), Some("modelLabel"), Some("promptPrefix"), Some("maxContextTokens"), Some("temperature"), Some("topP"), Some("resendFiles"), Some("region")]);
  }

  lemma BedrockGeneralColumnsWellFormed()
    ensures forall d | d in BedrockGeneralCol1 + BedrockGeneralCol2 :: WellFormed(d)
  {
    ModelSamplingStopWellFormed();
    BedrockSystemRegionTokensTemperatureWellFormed();
    LibreChatEntriesWellFormed();
    MetaEntriesWellFormed();
    OpenAILabelPromptSamplingWellFormed();
  }

  lemma BedrockGeneralFlatIsColumnsWithoutModel()
    ensures multiset(BedrockGeneralConfig) == multiset(BedrockGeneralCol1[1..] + BedrockGeneralCol2)
  {
    assert BedrockGeneralConfig == BedrockGeneralCol1[1..] + BedrockGeneralCol2;
  }

  /** `bedrockGeneral`'s flat list and column pair are consistent. */
  lemma BedrockGeneralConsistent()
    ensures Consistent(BedrockGeneralConfig, BedrockGeneralCol1, BedrockGeneralCol2)
  {
    BedrockGeneralColumnKeysDistinct();
    BedrockGeneralColumnsWellFormed();
    BedrockGeneralFlatIsColumnsWithoutModel();
  }

  /** OpenAI's flat list opens with `modelLabel`, `promptPrefix` and
      `maxContextTokens`, and holds exactly one `reasoning_effort` entry,
      whose options are none, low, medium and high, in that order. */
  lemma OpenAIFlatListShape()
    ensures OpenAIConfig[..3] == [ModelLabel, PromptPrefix, MaxContextTokens]
    ensures forall i | 0 <= i < |OpenAIConfig| :: OpenAIConfig[i].key == Some("reasoning_effort") <==> i == 12
    ensures OpenAIConfig[12].options == Some([Effort(EffortNone), Effort(EffortLow), Effort(EffortMedium), Effort(EffortHigh)])
  {
    assert OpenAIConfig[12] == OpenAIReasoningEffort;
    ReasoningEffortOptions();
    OpenAIFlatDistinctKeys();
    KeyAtOnePosition(OpenAIConfig, 12);
  }

  lemma OpenAIFlatDistinctKeys()
    ensures DistinctKeys(OpenAIConfig)
  {
    OpenAIConsistent();
    FlatDistinctKeys(OpenAIConfig, OpenAICol1, OpenAICol2);
  }
}
