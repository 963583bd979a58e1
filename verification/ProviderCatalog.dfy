/** The provider types the registry supports, `llm-provider-catalog.ts`. */
module ProviderCatalog {
  import opened Contracts
  import opened Text

  /** A name that trimming leaves alone and does not make empty. */
  predicate IsName(s: string) {
    s != "" && IsTrimmed(s)
  }

  type Name = s: string | IsName(s) witness "-"

  type Slug = s: string | '/' !in s

  datatype AuthMode = ApiKey | OAuth | NoAuth

  datatype Model = Model(modelId: string, displayName: string, supportsReasoning: bool,
                         supportedThinkingLevels: Option<seq<string>>)

  datatype ItemData = CatalogItem(
    providerType: string, displayName: string, authMode: AuthMode, runtimeProviderId: string, usesBuiltInProvider: bool,
    apiType: Option<string>, baseUrlRequired: bool, defaultModels: seq<Model>, defaultThinkingLevel: string)

  /** A catalog item: its runtime provider id holds no slash and its names are trimmed. */
  type CatalogItem = item: ItemData | IsSound(item)
    witness CatalogItem("-", "-", NoAuth, "-", true, None, false, [], "-")

  predicate IsSound(item: ItemData) {
    && '/' !in item.runtimeProviderId
    && IsName(item.defaultThinkingLevel)
    && forall i :: 0 <= i < |item.defaultModels| ==> IsName(item.defaultModels[i].modelId)
  }

  function BuiltIn(providerType: string, displayName: string, runtimeProviderId: Slug, authMode: AuthMode,
                   modelId: Name, levels: Option<seq<string>>): CatalogItem
  {
    CatalogItem(providerType, displayName, authMode, runtimeProviderId, true, None, false,
                [Model(modelId, modelId, true, levels)], "medium")
  }

  function Compatible(providerType: Slug, displayName: string, apiType: string, modelId: Name): CatalogItem {
    CatalogItem(providerType, displayName, ApiKey, providerType, false, Some(apiType), true,
                [Model(modelId, modelId, true, None)], "medium")
  }

  const LOW_TO_XHIGH := Some(["low", "medium", "high", "xhigh"])
  const LOW_TO_MAX := Some(["low", "medium", "high", "xhigh", "max"])

  const OPENAI := BuiltIn("openai", "OpenAI", "openai", ApiKey, "gpt-5.4", LOW_TO_XHIGH)
  const AZURE_OPENAI_RESPONSES :=
    BuiltIn("azure-openai-responses", "Azure OpenAI (Responses)", "azure-openai-responses", ApiKey, "gpt-5.4",
            LOW_TO_XHIGH)
  const OPENAI_CODEX :=
    BuiltIn("openai-codex", "OpenAI Codex (ChatGPT Plus/Pro)", "openai-codex", OAuth, "gpt-5.5", LOW_TO_XHIGH)
  const DEEPSEEK := BuiltIn("deepseek", "DeepSeek", "deepseek", ApiKey, "deepseek-v4-pro", None)
  const ANTHROPIC := BuiltIn("anthropic", "Anthropic", "anthropic", ApiKey, "claude-opus-4-7", LOW_TO_MAX)
  const GOOGLE := BuiltIn("google", "Google", "google", ApiKey, "gemini-3.1-pro-preview", None)
  const VERTEX_AI :=
    BuiltIn("vertex-ai", "Vertex AI (Gemini via Vertex AI)", "google-vertex", ApiKey, "gemini-3.1-pro-preview", None)
  const MISTRAL := BuiltIn("mistral", "Mistral", "mistral", ApiKey, "devstral-medium-latest", None)
  const GROQ := BuiltIn("groq", "Groq", "groq", ApiKey, "openai/gpt-oss-120b", None)
  const CEREBRAS := BuiltIn("cerebras", "Cerebras", "cerebras", ApiKey, "zai-glm-4.7", None)
  const CLOUDFLARE_AI_GATEWAY :=
    BuiltIn("cloudflare-ai-gateway", "Cloudflare AI Gateway", "cloudflare-ai-gateway", ApiKey,
            "workers-ai/@cf/moonshotai/kimi-k2.6", None)
  const CLOUDFLARE_WORKERS_AI :=
    BuiltIn("cloudflare-workers-ai", "Cloudflare Workers AI", "cloudflare-workers-ai", ApiKey,
            "@cf/moonshotai/kimi-k2.6", None)
  const XAI := BuiltIn("xai", "xAI", "xai", ApiKey, "grok-4.20-0309-reasoning", None)
  const OPENROUTER := BuiltIn("openrouter", "OpenRouter", "openrouter", ApiKey, "moonshotai/kimi-k2.6", None)
  const VERCEL_AI_GATEWAY :=
    BuiltIn("vercel-ai-gateway", "Vercel AI Gateway", "vercel-ai-gateway", ApiKey, "zai/glm-5.1", None)
  const MINIMAX := BuiltIn("minimax", "MiniMax", "minimax", ApiKey, "MiniMax-M2.7", None)
  const TOGETHER_AI := Compatible("together-ai", "Together AI", "openai-completions", "deepseek-ai/DeepSeek-V3.1")
  const GITHUB_COPILOT := BuiltIn("github-copilot", "GitHub Copilot", "github-copilot", OAuth, "gpt-5.4", None)
  const AMAZON_BEDROCK :=
    BuiltIn("amazon-bedrock", "Amazon Bedrock", "amazon-bedrock", NoAuth, "us.anthropic.claude-opus-4-6-v1", None)
  const OPENCODE_ZEN := BuiltIn("opencode-zen", "OpenCode Zen", "opencode", ApiKey, "kimi-k2.6", None)
  const OPENCODE_GO := BuiltIn("opencode-go", "OpenCode Go", "opencode-go", ApiKey, "kimi-k2.6", None)
  const FIREWORKS :=
    BuiltIn("fireworks", "Fireworks", "fireworks", ApiKey, "accounts/fireworks/models/kimi-k2p6", None)
  const KIMI_FOR_CODING :=
    BuiltIn("kimi-for-coding", "Kimi For Coding", "kimi-coding", ApiKey, "kimi-for-coding", None)
  const XIAOMI_MIMO := BuiltIn("xiaomi-mimo", "Xiaomi MiMo", "xiaomi", ApiKey, "mimo-v2.5-pro", None)
  const OPENAI_COMPATIBLE :=
    Compatible("openai-compatible", "Any OpenAI-compatible API", "openai-completions", "local-model")

  const CATALOG: seq<CatalogItem> := [
    OPENAI, AZURE_OPENAI_RESPONSES, OPENAI_CODEX, DEEPSEEK, ANTHROPIC, GOOGLE, VERTEX_AI, MISTRAL, GROQ,
    CEREBRAS, CLOUDFLARE_AI_GATEWAY, CLOUDFLARE_WORKERS_AI, XAI, OPENROUTER, VERCEL_AI_GATEWAY, MINIMAX,
    TOGETHER_AI, GITHUB_COPILOT, AMAZON_BEDROCK, OPENCODE_ZEN, OPENCODE_GO, FIREWORKS, KIMI_FOR_CODING,
    XIAOMI_MIMO, OPENAI_COMPATIBLE
  ]

  /** The item of a type, the last one if there were several. */
  function FindItem(catalog: seq<CatalogItem>, providerType: string): (item: Option<CatalogItem>)
    ensures item.Some? ==> item.value in catalog && item.value.providerType == providerType
    ensures item.None? ==> forall i :: 0 <= i < |catalog| ==> catalog[i].providerType != providerType
  {
    if catalog == [] then None
    else if catalog[|catalog| - 1].providerType == providerType then Some(catalog[|catalog| - 1])
    else FindItem(catalog[..|catalog| - 1], providerType)
  }

  ghost predicate HasDistinctTypes(catalog: seq<CatalogItem>) {
    forall i, j :: 0 <= i < j < |catalog| ==> catalog[i].providerType != catalog[j].providerType
  }

  /** With distinct types every item is found under its own. */
  lemma {:induction false} ItemsAreFound(catalog: seq<CatalogItem>, i: nat)
    requires HasDistinctTypes(catalog) && i < |catalog|
    ensures FindItem(catalog, catalog[i].providerType) == Some(catalog[i])
  {
    var found := FindItem(catalog, catalog[i].providerType).value;
    var j :| 0 <= j < |catalog| && catalog[j] == found;
  }

  /**
   A number that tells the catalog's types apart: length, first and last character. Comparing the 25 texts pair by pair,
   or two halves of them, is too costly for the verifier; 25 numbers are compared at once. The lemmas below compute the
   number of each type, five at a time, and `FINGERPRINTS` lists them in the order of the catalog.
   */
  function Fingerprint(providerType: string): nat {
    if providerType == "" then 0
    else |providerType| * 1000000 + providerType[0] as nat * 1000 + providerType[|providerType| - 1] as nat
  }

  const FINGERPRINTS: seq<nat> := [
    6111105, 22097115, 12111120, 8100107, 9097099, 6103101, 9118105, 7109108,
    4103113, 8099115, 21099121, 21099105, 3120105, 10111114, 17118121, 7109120,
    11116105, 14103116, 14097107, 12111110, 11111111, 9102115, 15107103, 11120111,
    17111101
  ]

  lemma {:induction false} FirstFingerprints()
    ensures Fingerprint(OPENAI.providerType) == 6111105
    ensures Fingerprint(AZURE_OPENAI_RESPONSES.providerType) == 22097115
    ensures Fingerprint(OPENAI_CODEX.providerType) == 12111120
    ensures Fingerprint(DEEPSEEK.providerType) == 8100107
    ensures Fingerprint(ANTHROPIC.providerType) == 9097099
  {
  }

  lemma {:induction false} NextFingerprints()
    ensures Fingerprint(GOOGLE.providerType) == 6103101
    ensures Fingerprint(VERTEX_AI.providerType) == 9118105
    ensures Fingerprint(MISTRAL.providerType) == 7109108
    ensures Fingerprint(GROQ.providerType) == 4103113
    ensures Fingerprint(CEREBRAS.providerType) == 8099115
  {
  }

  lemma {:induction false} MiddleFingerprints()
    ensures Fingerprint(CLOUDFLARE_AI_GATEWAY.providerType) == 21099121
    ensures Fingerprint(CLOUDFLARE_WORKERS_AI.providerType) == 21099105
    ensures Fingerprint(XAI.providerType) == 3120105
    ensures Fingerprint(OPENROUTER.providerType) == 10111114
    ensures Fingerprint(VERCEL_AI_GATEWAY.providerType) == 17118121
  {
  }

  lemma {:induction false} LaterFingerprints()
    ensures Fingerprint(MINIMAX.providerType) == 7109120
    ensures Fingerprint(TOGETHER_AI.providerType) == 11116105
    ensures Fingerprint(GITHUB_COPILOT.providerType) == 14103116
    ensures Fingerprint(AMAZON_BEDROCK.providerType) == 14097107
    ensures Fingerprint(OPENCODE_ZEN.providerType) == 12111110
  {
  }

  lemma {:induction false} LastFingerprints()
    ensures Fingerprint(OPENCODE_GO.providerType) == 11111111
    ensures Fingerprint(FIREWORKS.providerType) == 9102115
    ensures Fingerprint(KIMI_FOR_CODING.providerType) == 15107103
    ensures Fingerprint(XIAOMI_MIMO.providerType) == 11120111
    ensures Fingerprint(OPENAI_COMPATIBLE.providerType) == 17111101
  {
  }

  lemma {:induction false} CatalogFingerprints()
    ensures forall i :: 0 <= i < |CATALOG| ==> Fingerprint(CATALOG[i].providerType) == FINGERPRINTS[i]
  {
    hide Fingerprint, BuiltIn, Compatible;
    FirstFingerprints();
    NextFingerprints();
    MiddleFingerprints();
    LaterFingerprints();
    LastFingerprints();
  }

  lemma {:induction false} FingerprintsDiffer()
    ensures forall i, j :: 0 <= i < j < |FINGERPRINTS| ==> FINGERPRINTS[i] != FINGERPRINTS[j]
  {
  }

  lemma {:induction false} CatalogHasDistinctTypes()
    ensures HasDistinctTypes(CATALOG)
  {
    hide Fingerprint, BuiltIn, Compatible;
    CatalogFingerprints();
    FingerprintsDiffer();
    forall i, j | 0 <= i < j < |CATALOG| ensures CATALOG[i].providerType != CATALOG[j].providerType {
      assert FINGERPRINTS[i] != FINGERPRINTS[j];
    }
  }
}
