/** The catalogue the gateway client ships with. */
module LlmCatalog {
  import opened LlmModel

  const PROVIDER_TYPES := {
    "openai", "anthropic", "gemini", "vertex", "bedrock", "azure", "copilot", "cohere", "ollama", "baseten",
    "cerebras", "deepinfra", "deepseek", "groq", "huggingface", "mistral", "openrouter", "togetherai", "xai",
    "fireworks", "custom" }

  const PROVIDER_FORMATS := {
    "completions", "messages", "responses", "embeddings", "anthropicTokenCount", "realtime", "rerank" }

  function Shipped(urlOk: string -> bool, quote: string -> string): Env {
    Env(urlOk, quote, PROVIDER_TYPES, PROVIDER_FORMATS)
  }

  /** The shipped catalogue meets the one condition the theorems ask of a catalogue. */
  lemma ShippedIsSane(urlOk: string -> bool, quote: string -> string)
    ensures SaneEnv(Shipped(urlOk, quote))
  {
    assert forall t :: t in PROVIDER_TYPES ==> |t| >= 3 && (|t| == 6 ==> t[4] != 'A');
  }
}
