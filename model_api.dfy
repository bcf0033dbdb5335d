/** Model provider and model configuration records (src/api/base.py), and
    the two rules that decide how the output-token limit is passed. */
module ModelApi {
  import opened Wrappers
  import opened Text

  /** A model provider; Azure needs `apiVersion`, self-hosted models `baseUrl`. */
  datatype ModelProvider = ModelProvider(
    name: string := "openai",
    baseUrl: Option<string> := None,
    apiKey: string := "EMPTY",
    apiVersion: Option<string> := None)

  /** A model and its request parameters (the floating-point sampling
      parameters are not part of this model). */
  datatype ModelConfig = ModelConfig(
    model: string,
    modelProvider: ModelProvider,
    topK: int := 20,
    parallelToolCalls: bool := false,
    maxRetries: int := 3,
    maxTokens: Option<int> := None,
    supportToolCalling: bool := true,
    candidateCount: Option<int> := None,
    stopSequences: Option<seq<string>> := None,
    maxCompletionTokens: Option<int> := None)

  /** The token limit used when the configuration sets none. */
  const DefaultMaxTokens: int := 4096

  /** A provider built with every field left at its default. */
  function DefaultProvider(): (p: ModelProvider)
    ensures p.name == "openai" && p.apiKey == "EMPTY"
    ensures p.baseUrl == None && p.apiVersion == None
  {
    ModelProvider()
  }

  /** `get_max_tokens_param`: `max_completion_tokens` takes precedence over
      `max_tokens`, and 4096 applies when neither is set. */
  function GetMaxTokensParam(c: ModelConfig): (n: int)
    ensures c.maxCompletionTokens.Some? ==> n == c.maxCompletionTokens.value
    ensures c.maxCompletionTokens.None? && c.maxTokens.Some? ==> n == c.maxTokens.value
    ensures c.maxCompletionTokens.None? && c.maxTokens.None? ==> n == 4096
  {
    if c.maxCompletionTokens.Some? then c.maxCompletionTokens.value
    else if c.maxTokens.Some? then c.maxTokens.value
    else DefaultMaxTokens
  }

  /** `should_use_max_completion_tokens`: only for an Azure provider serving a
      model whose name contains `gpt-5`, `o3` or `o4-mini`, and only when
      `max_completion_tokens` is set. */
  function ShouldUseMaxCompletionTokens(c: ModelConfig): (b: bool)
    ensures b <==>
      && c.maxCompletionTokens.Some?
      && c.modelProvider.name == "azure"
      && ((exists k :: IsOccurrence(c.model, "gpt-5", k))
          || (exists k :: IsOccurrence(c.model, "o3", k))
          || (exists k :: IsOccurrence(c.model, "o4-mini", k)))
  {
    ContainsIff(c.model, "gpt-5");
    ContainsIff(c.model, "o3");
    ContainsIff(c.model, "o4-mini");
    c.maxCompletionTokens.Some? && c.modelProvider.name == "azure"
      && (Contains(c.model, "gpt-5") || Contains(c.model, "o3") || Contains(c.model, "o4-mini"))
  }

  /** Whenever the completion-token parameter is to be used, it is also the
      limit that `GetMaxTokensParam` reports. */
  lemma CompletionTokensAgree(c: ModelConfig)
    requires ShouldUseMaxCompletionTokens(c)
    ensures GetMaxTokensParam(c) == c.maxCompletionTokens.value
  {
  }

  /** An Azure deployment of a `gpt-5` model with a completion-token limit
      uses it; the same configuration on the default provider does not. */
  lemma AzureGpt5Example(limit: int)
    ensures ShouldUseMaxCompletionTokens(
      ModelConfig("gpt-5-mini", ModelProvider(name := "azure"), maxCompletionTokens := Some(limit)))
    ensures !ShouldUseMaxCompletionTokens(
      ModelConfig("gpt-5-mini", DefaultProvider(), maxCompletionTokens := Some(limit)))
  {
    assert IsOccurrence("gpt-5-mini", "gpt-5", 0);
  }
}
