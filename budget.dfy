/**
 * The budget calculator of youtube_samenvatting.py: the table of total context
 * budgets per (provider, variant, mode), the fixed prompt overhead, and the
 * effective transcript limit derived from them.
 */
module Budget {
  import opened Text

  /** The three backends the gateway can talk to. */
  datatype Provider = Ollama | OpenAI | Anthropic

  /** Which local model family an Ollama model belongs to; hosted providers only use Standard. */
  datatype Variant = Standard | Gemma

  datatype Mode = Summary | Chat

  datatype LimitKey = LimitKey(provider: Provider, variant: Variant, mode: Mode)

  /** Total context budgets in characters, one entry per key the source's table holds. */
  const TranscriptLimits: map<LimitKey, nat> := map[
    LimitKey(Ollama, Standard, Summary) := 50000,
    LimitKey(Ollama, Standard, Chat) := 30000,
    LimitKey(Ollama, Gemma, Summary) := 20000,
    LimitKey(Ollama, Gemma, Chat) := 12000,
    LimitKey(OpenAI, Standard, Summary) := 100000,
    LimitKey(OpenAI, Standard, Chat) := 80000,
    LimitKey(Anthropic, Standard, Summary) := 150000,
    LimitKey(Anthropic, Standard, Chat) := 120000
  ]

  /** Characters reserved for the prompt and the answer on top of the instructions. */
  const PromptOverhead: int := 3000

  /** The effective limit never drops below this many characters. */
  const MinimumLimit: int := 1000

  /** `get_effective_limit(base_limit, prompt_length)`. */
  function EffectiveLimit(baseLimit: int, promptLength: int): (r: int)
    ensures r >= MinimumLimit
    ensures r >= baseLimit - PromptOverhead - promptLength
    ensures r == baseLimit - PromptOverhead - promptLength || r == MinimumLimit
    ensures r == baseLimit - PromptOverhead - promptLength <==> baseLimit >= 4000 + promptLength
  {
    var effective := baseLimit - PromptOverhead - promptLength;
    if effective > MinimumLimit then effective else MinimumLimit
  }

  /** More instructions never leave more room for the transcript, a bigger budget never less. */
  lemma EffectiveLimitMonotonic(b1: int, b2: int, p1: int, p2: int)
    requires b1 <= b2 && p2 <= p1
    ensures EffectiveLimit(b1, p1) <= EffectiveLimit(b2, p2)
  {
  }

  /** The source's variant test, `"gemma" in model.lower()`. */
  function VariantOf(model: string): Variant
  {
    if Contains(Lower(model), "gemma") then Gemma else Standard
  }

  /** The variant test ignores case, and tells the two local models the GUI offers apart. */
  lemma VariantOfModels(model: string)
    ensures VariantOf(Lower(model)) == VariantOf(model)
    ensures VariantOf("gemma2:9b") == Gemma
    ensures VariantOf("Gemma2:9B") == Gemma
    ensures VariantOf("gpt-oss:20b") == Standard
  {
    LowerIdempotent(model);
    assert OccursAt(Lower("gemma2:9b"), "gemma", 0);
    assert OccursAt(Lower("Gemma2:9B"), "gemma", 0);
    assert Lower("gpt-oss:20b") == "gpt-oss:20b";
    MissingCharNotContained("gpt-oss:20b", "gemma", 1);
  }

  /** The table key a call uses: Ollama picks its entry by model name, hosted providers ignore it. */
  function LimitKeyFor(provider: Provider, model: string, mode: Mode): (k: LimitKey)
    ensures k in TranscriptLimits
    ensures k.provider == provider && k.mode == mode
    ensures k.variant == Gemma <==> provider == Ollama && Contains(Lower(model), "gemma")
  {
    var variant := if provider == Ollama then VariantOf(model) else Standard;
    match (provider, variant, mode)
    case (Ollama, Standard, Summary) => LimitKey(Ollama, Standard, Summary)
    case (Ollama, Standard, Chat) => LimitKey(Ollama, Standard, Chat)
    case (Ollama, Gemma, Summary) => LimitKey(Ollama, Gemma, Summary)
    case (Ollama, Gemma, Chat) => LimitKey(Ollama, Gemma, Chat)
    case (OpenAI, _, Summary) => LimitKey(OpenAI, Standard, Summary)
    case (OpenAI, _, Chat) => LimitKey(OpenAI, Standard, Chat)
    case (Anthropic, _, Summary) => LimitKey(Anthropic, Standard, Summary)
    case (Anthropic, _, Chat) => LimitKey(Anthropic, Standard, Chat)
  }

  /** The total context budget a call works with. */
  function BaseLimit(provider: Provider, model: string, mode: Mode): (n: nat)
    ensures 12000 <= n <= 150000
    ensures provider == Ollama && VariantOf(model) == Gemma ==> n <= 20000
    ensures provider != Ollama ==> n >= 80000
  {
    TranscriptLimits[LimitKeyFor(provider, model, mode)]
  }

  /** Every table entry leaves room for up to 8000 characters of instructions before the floor applies. */
  lemma BaseLimitAboveFloor(provider: Provider, model: string, mode: Mode, promptLength: int)
    requires promptLength <= 8000
    ensures EffectiveLimit(BaseLimit(provider, model, mode), promptLength)
         == BaseLimit(provider, model, mode) - PromptOverhead - promptLength
  {
  }
}
