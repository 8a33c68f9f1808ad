/**
 * The provider table the package runs at import time, in source order: the
 * module each block imports, the prefix of its keys, and the first two models
 * of its list (the rest of each list is left out), together with what the
 * general results about registries give for this table.
 */
module ProviderTable {
  import opened PyStr
  import opened Providers

  /** Lines 26-52. */
  const OpenAi: ProviderBlock := ProviderBlock("openai_gradio", "openai", ["gpt-4o-2024-11-20", "gpt-4o"])

  /** Lines 57-67. */
  const Gemini: ProviderBlock := ProviderBlock("gemini_gradio", "gemini", ["gemini-1.5-flash", "gemini-1.5-flash-8b"])

  /** Lines 72-74. */
  const CrewAi: ProviderBlock := ProviderBlock("crewai_gradio", "crewai", ["gpt-4-turbo", "gpt-4"])

  /** Lines 79-86. */
  const Anthropic: ProviderBlock := ProviderBlock("anthropic_gradio", "anthropic", ["claude-3-5-sonnet-20241022", "claude-3-5-haiku-20241022"])

  /** Lines 91-96. */
  const LumaAi: ProviderBlock := ProviderBlock("lumaai_gradio", "lumaai", ["dream-machine", "photon-1"])

  /** Lines 101-105. */
  const XAi: ProviderBlock := ProviderBlock("xai_gradio", "xai", ["grok-beta", "grok-vision-beta"])

  /** Lines 110-116. */
  const Cohere: ProviderBlock := ProviderBlock("cohere_gradio", "cohere", ["command-r7b-12-2024", "command-light"])

  /** Lines 121-130. */
  const SambaNova: ProviderBlock := ProviderBlock("sambanova_gradio", "sambanova", ["Meta-Llama-3.1-405B-Instruct", "Meta-Llama-3.1-8B-Instruct"])

  /** Lines 135-149. */
  const Hyperbolic: ProviderBlock := ProviderBlock("hyperbolic_gradio", "hyperbolic", ["Qwen/Qwen2.5-Coder-32B-Instruct", "meta-llama/Llama-3.2-3B-Instruct"])

  /** Lines 154-167. */
  const Qwen: ProviderBlock := ProviderBlock("qwen_gradio", "qwen", ["qwen-turbo-latest", "qwen-turbo"])

  /** Lines 172-178. */
  const Fireworks: ProviderBlock := ProviderBlock("fireworks_gradio", "fireworks", ["whisper-v3", "whisper-v3-turbo"])

  /** Lines 183-233. */
  const Together: ProviderBlock := ProviderBlock("together_gradio", "together", ["meta-llama/Llama-Vision-Free", "meta-llama/Llama-3.2-11B-Vision-Instruct-Turbo"])

  /** Lines 238-243. */
  const DeepSeek: ProviderBlock := ProviderBlock("deepseek_gradio", "deepseek", ["deepseek-chat", "deepseek-coder"])

  /** Lines 248-255. */
  const SmolAgents: ProviderBlock := ProviderBlock("smolagents_gradio", "smolagents", ["Qwen/Qwen2.5-72B-Instruct", "Qwen/Qwen2.5-4B-Instruct"])

  /** Lines 260-273. */
  const Groq: ProviderBlock := ProviderBlock("groq_gradio", "groq", ["llama3-groq-8b-8192-tool-use-preview", "llama3-groq-70b-8192-tool-use-preview"])

  /** Lines 278-305. */
  const Browser: ProviderBlock := ProviderBlock("browser_use_gradio", "browser", ["gpt-4o-2024-11-20", "gpt-4o"])

  /** Lines 310-316. */
  const Swarms: ProviderBlock := ProviderBlock("swarms_gradio", "swarms", ["gpt-4-turbo", "gpt-4o-mini"])

  /** Lines 321-329. */
  const Transformers: ProviderBlock := ProviderBlock("transformers_gradio", "transformers", ["phi-4", "tulu-3"])

  /** Lines 334-339. */
  const Jupyter: ProviderBlock := ProviderBlock("jupyter_agent", "jupyter", ["meta-llama/Llama-3.2-3B-Instruct", "meta-llama/Llama-3.1-8B-Instruct"])

  /** Lines 344-350. */
  const Langchain: ProviderBlock := ProviderBlock("langchain_gradio", "langchain", ["gpt-4-turbo", "gpt-4"])

  /** Lines 356-369. */
  const Mistral: ProviderBlock := ProviderBlock("mistral_gradio", "mistral", ["mistral-large-latest", "pixtral-large-latest"])

  /** All provider blocks, in the order the package runs them. */
  const SourceBlocks: seq<ProviderBlock> := [
    OpenAi, Gemini, CrewAi, Anthropic, LumaAi, XAi, Cohere, SambaNova, Hyperbolic, Qwen,
    Fireworks, Together, DeepSeek, SmolAgents, Groq, Browser, Swarms, Transformers, Jupyter,
    Langchain, Mistral
  ]

  /** A block with a colon-free prefix that lists at least one colon-free model. */
  predicate BlockShape(b: ProviderBlock)
  {
    Colon !in b.prefix && SeparatorFree(b.models, Colon) && b.models != []
  }

  // One small lemma per block keeps each proof about string literals cheap.

  lemma OpenAiShaped() ensures BlockShape(OpenAi) { }
  lemma GeminiShaped() ensures BlockShape(Gemini) { }
  lemma CrewAiShaped() ensures BlockShape(CrewAi) { }
  lemma AnthropicShaped() ensures BlockShape(Anthropic) { }
  lemma LumaAiShaped() ensures BlockShape(LumaAi) { }
  lemma XAiShaped() ensures BlockShape(XAi) { }
  lemma CohereShaped() ensures BlockShape(Cohere) { }
  lemma SambaNovaShaped() ensures BlockShape(SambaNova) { }
  lemma HyperbolicShaped() ensures BlockShape(Hyperbolic) { }
  lemma QwenShaped() ensures BlockShape(Qwen) { }
  lemma FireworksShaped() ensures BlockShape(Fireworks) { }
  lemma TogetherShaped() ensures BlockShape(Together)
  {
    // A literal this long is checked in two halves.
    var front, back := "meta-llama/Llama-3.2-11B", "-Vision-Instruct-Turbo";
    assert Colon !in front && Colon !in back;
    assert Colon !in front + back;
    assert front + back == Together.models[1];
  }
  lemma DeepSeekShaped() ensures BlockShape(DeepSeek) { }
  lemma SmolAgentsShaped() ensures BlockShape(SmolAgents) { }
  lemma GroqShaped() ensures BlockShape(Groq) { }
  lemma BrowserShaped() ensures BlockShape(Browser) { }
  lemma SwarmsShaped() ensures BlockShape(Swarms) { }
  lemma TransformersShaped() ensures BlockShape(Transformers) { }
  lemma JupyterShaped() ensures BlockShape(Jupyter) { }
  lemma LangchainShaped() ensures BlockShape(Langchain) { }
  lemma MistralShaped() ensures BlockShape(Mistral) { }

  /** Every block of the table has the shape the general results assume. */
  lemma EveryBlockShaped()
    ensures forall i :: 0 <= i < |SourceBlocks| ==> BlockShape(SourceBlocks[i])
  {
    OpenAiShaped();
    GeminiShaped();
    CrewAiShaped();
    AnthropicShaped();
    LumaAiShaped();
    XAiShaped();
    CohereShaped();
    SambaNovaShaped();
    HyperbolicShaped();
    QwenShaped();
    FireworksShaped();
    TogetherShaped();
    DeepSeekShaped();
    SmolAgentsShaped();
    GroqShaped();
    BrowserShaped();
    SwarmsShaped();
    TransformersShaped();
    JupyterShaped();
    LangchainShaped();
    MistralShaped();
  }

  /** The table has distinct colon-free prefixes and colon-free model names. */
  lemma SourceBlocksWellFormed()
    ensures WellFormed(SourceBlocks)
  {
    EveryBlockShaped();
    DistinctPrefixes();
  }

  /** No two blocks of the table share a prefix. */
  lemma DistinctPrefixes()
    ensures forall i, j :: 0 <= i < j < |SourceBlocks| ==> SourceBlocks[i].prefix != SourceBlocks[j].prefix
  {
  }

  /** The table's registry is empty exactly when none of its modules can be imported. */
  lemma SourceRegistryEmptyIff(installed: set<string>)
    ensures RegistryOf(SourceBlocks, installed) == map[] <==>
              forall b <- SourceBlocks :: b.moduleName !in installed
  {
    EveryBlockShaped();
    RegistryEmptyIff(SourceBlocks, installed);
  }

  /**
   * Importing the package: build the registry from the table, failing with
   * ImportError when no provider module is installed. Every key of a built
   * registry dispatches back to its own builder.
   */
  method LoadProviders(installed: set<string>) returns (result: Construction)
    ensures result.NoProvidersInstalled? <==> forall b <- SourceBlocks :: b.moduleName !in installed
    ensures result.Built? ==> result.registry == RegistryOf(SourceBlocks, installed)
    ensures result.Built? ==>
              forall k <- result.registry ::
                Occurrences(k, Colon) == 1 && CustomLoad(k, result.registry).Invoke?
                && CustomLoad(k, result.registry).builder == result.registry[k]
  {
    result := BuildRegistry(SourceBlocks, installed);
    SourceRegistryEmptyIff(installed);
    if result.Built? {
      SourceBlocksWellFormed();
      forall k <- result.registry
        ensures Occurrences(k, Colon) == 1 && CustomLoad(k, result.registry).Invoke?
                && CustomLoad(k, result.registry).builder == result.registry[k]
      {
        RegistryRoutesHome(SourceBlocks, installed, k);
      }
    }
  }

  /**
   * `gpt-4o` is listed by both the OpenAI and the browser-use block; the two
   * prefixes keep the entries apart, and each key reaches its own provider.
   */
  lemma SharedModelNameRoutesByPrefix(installed: set<string>)
    requires OpenAi.moduleName in installed && Browser.moduleName in installed
    ensures var reg := RegistryOf(SourceBlocks, installed);
            && CustomLoad("openai:gpt-4o", reg) == Invoke("openai:gpt-4o", Builder("openai_gradio"), "gpt-4o")
            && CustomLoad("browser:gpt-4o", reg) == Invoke("browser:gpt-4o", Builder("browser_use_gradio"), "gpt-4o")
  {
    SourceBlocksWellFormed();
    assert SourceBlocks[0] == OpenAi && SourceBlocks[15] == Browser;
    assert "gpt-4o" in OpenAi.models && "gpt-4o" in Browser.models;
    assert ModelKey("openai", "gpt-4o") == "openai:gpt-4o";
    assert ModelKey("browser", "gpt-4o") == "browser:gpt-4o";
    RegistryDispatch(SourceBlocks, installed, 0, "gpt-4o");
    RegistryDispatch(SourceBlocks, installed, 15, "gpt-4o");
  }
}
