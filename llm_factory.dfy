/** Choosing a provider from a model identifier's prefix, and the one `chat`
    entry point every provider answers. */
module LlmFactory {
  import opened Wrappers
  import opened Environ
  import opened Json
  import opened Text
  import opened LlmBase
  import OpenAICompat
  import AnthropicAdapter
  import GeminiAdapter

  const GroqUrl: string := "https://api.groq.com/openai/v1"
  const XaiUrl: string := "https://api.x.ai/v1"
  const DashScopeUrl: string := "https://dashscope.aliyuncs.com/compatible-mode/v1"
  const QwenPortalUrl: string := "https://portal.qwen.ai/v1"
  const MistralUrl: string := "https://api.mistral.ai/v1"
  const OllamaDefaultUrl: string := "http://localhost:11434/v1"
  const OllamaKey: string := "ollama"

  /** `get_llm_provider`: the first matching branch of the prefix chain decides;
      the routing prefix is removed with `str.replace` (every occurrence), except
      for Gemini, which receives the identifier whole and strips `gemini/` itself.
      Of opencore's own code only the Gemini constructor raises; the SDK
      clients the other branches construct are not part of this model. */
  function GetLlmProvider(model: string, env: Env): (r: Outcome<Provider>)
    ensures r.Raised? ==> StartsWith(model, "gemini/") || StartsWith(model, "google/")
    ensures (StartsWith(model, "gpt-") || StartsWith(model, "openai/")) ==>
      r == Returned(OpenAICompatible(Replace(model, "openai/", ""), GetEnv(env, "OPENAI_API_KEY"), None))
  {
    if StartsWith(model, "gpt-") || StartsWith(model, "openai/") then
      Returned(OpenAICompatible(Replace(model, "openai/", ""), GetEnv(env, "OPENAI_API_KEY"), None))
    else if StartsWith(model, "anthropic/") then
      Returned(Anthropic(Replace(model, "anthropic/", ""), GetEnv(env, "ANTHROPIC_API_KEY")))
    else if StartsWith(model, "gemini/") || StartsWith(model, "google/") then
      GeminiAdapter.NewGemini(model, GetEnv(env, "GEMINI_API_KEY"), env)
    else if StartsWith(model, "groq/") then
      Returned(OpenAICompatible(Replace(model, "groq/", ""), GetEnv(env, "GROQ_API_KEY"), Some(GroqUrl)))
    else if StartsWith(model, "xai/") then
      Returned(OpenAICompatible(Replace(model, "xai/", ""), GetEnv(env, "XAI_API_KEY"), Some(XaiUrl)))
    else if StartsWith(model, "dashscope/") || StartsWith(model, "qwen/") then
      var oauthToken := GetEnv(env, "QWEN_ACCESS_TOKEN");
      var key := if Truthy(oauthToken) then oauthToken else GetEnv(env, "DASHSCOPE_API_KEY");
      var name := if StartsWith(model, "dashscope/") then Replace(model, "dashscope/", "") else Replace(model, "qwen/", "");
      Returned(OpenAICompatible(name, key, Some(if Truthy(oauthToken) then QwenPortalUrl else DashScopeUrl)))
    else if StartsWith(model, "mistral/") then
      Returned(OpenAICompatible(Replace(model, "mistral/", ""), GetEnv(env, "MISTRAL_API_KEY"), Some(MistralUrl)))
    else if StartsWith(model, "ollama/") then
      Returned(OpenAICompatible(Replace(model, "ollama/", ""), Some(OllamaKey), Some(GetEnvOr(env, "OLLAMA_API_BASE", OllamaDefaultUrl))))
    else
      Returned(OpenAICompatible(model, GetEnv(env, "OPENAI_API_KEY"), None))
  }

  /** None of the routing prefixes. */
  predicate Unprefixed(model: string) {
    !StartsWith(model, "gpt-") && !StartsWith(model, "openai/") && !StartsWith(model, "anthropic/")
    && !StartsWith(model, "gemini/") && !StartsWith(model, "google/") && !StartsWith(model, "groq/")
    && !StartsWith(model, "xai/") && !StartsWith(model, "dashscope/") && !StartsWith(model, "qwen/")
    && !StartsWith(model, "mistral/") && !StartsWith(model, "ollama/")
  }

  /** Removing a routing prefix from `prefix + rest` gives back `rest` whenever
      the prefix does not occur again inside `rest`. */
  lemma StripRoutingPrefix(prefix: string, rest: string)
    requires prefix != ""
    requires !Contains(rest, prefix)
    ensures Replace(prefix + rest, prefix, "") == rest
  {
    PrefixOf(prefix, rest);
    ReplaceWithoutOccurrence(rest, prefix, "");
    assert Replace(prefix + rest, prefix, "") == "" + Replace(rest, prefix, "");
  }

  /** `s` does not start with `p` because they differ at position `i`. */
  lemma DiffersAt(s: string, p: string, i: nat)
    requires i < |s| && i < |p| && s[i] != p[i]
    ensures !StartsWith(s, p)
  {
    if |p| <= |s| {
      assert s[..|p|][i] == s[i];
    }
  }

  /** `anthropic/` selects the Anthropic adapter and `ANTHROPIC_API_KEY`. */
  lemma AnthropicRoute(rest: string, env: Env)
    requires !Contains(rest, "anthropic/")
    ensures GetLlmProvider("anthropic/" + rest, env) == Returned(Anthropic(rest, GetEnv(env, "ANTHROPIC_API_KEY")))
  {
    var m := "anthropic/" + rest;
    PrefixOf("anthropic/", rest);
    DiffersAt(m, "gpt-", 0);
    DiffersAt(m, "openai/", 0);
    StripRoutingPrefix("anthropic/", rest);
  }

  /** `groq/` selects the OpenAI client at Groq's endpoint. */
  lemma GroqRoute(rest: string, env: Env)
    requires !Contains(rest, "groq/")
    ensures GetLlmProvider("groq/" + rest, env) == Returned(OpenAICompatible(rest, GetEnv(env, "GROQ_API_KEY"), Some(GroqUrl)))
  {
    var m := "groq/" + rest;
    PrefixOf("groq/", rest);
    DiffersAt(m, "gpt-", 1);
    DiffersAt(m, "openai/", 0);
    DiffersAt(m, "anthropic/", 0);
    DiffersAt(m, "gemini/", 1);
    DiffersAt(m, "google/", 1);
    StripRoutingPrefix("groq/", rest);
  }

  /** `xai/` selects the OpenAI client at xAI's endpoint. */
  lemma XaiRoute(rest: string, env: Env)
    requires !Contains(rest, "xai/")
    ensures GetLlmProvider("xai/" + rest, env) == Returned(OpenAICompatible(rest, GetEnv(env, "XAI_API_KEY"), Some(XaiUrl)))
  {
    var m := "xai/" + rest;
    PrefixOf("xai/", rest);
    DiffersAt(m, "gpt-", 0);
    DiffersAt(m, "openai/", 0);
    DiffersAt(m, "anthropic/", 0);
    DiffersAt(m, "gemini/", 0);
    DiffersAt(m, "google/", 0);
    DiffersAt(m, "groq/", 0);
    StripRoutingPrefix("xai/", rest);
  }

  /** `mistral/` selects the OpenAI client at Mistral's endpoint. */
  lemma MistralRoute(rest: string, env: Env)
    requires !Contains(rest, "mistral/")
    ensures GetLlmProvider("mistral/" + rest, env) == Returned(OpenAICompatible(rest, GetEnv(env, "MISTRAL_API_KEY"), Some(MistralUrl)))
  {
    var m := "mistral/" + rest;
    PrefixOf("mistral/", rest);
    DiffersAt(m, "gpt-", 0);
    DiffersAt(m, "openai/", 0);
    DiffersAt(m, "anthropic/", 0);
    DiffersAt(m, "gemini/", 0);
    DiffersAt(m, "google/", 0);
    DiffersAt(m, "groq/", 0);
    DiffersAt(m, "xai/", 0);
    DiffersAt(m, "dashscope/", 0);
    DiffersAt(m, "qwen/", 0);
    StripRoutingPrefix("mistral/", rest);
  }

  /** `ollama/` selects the OpenAI client with the placeholder key, at
      `OLLAMA_API_BASE` or the local default. */
  lemma OllamaRoute(rest: string, env: Env)
    requires !Contains(rest, "ollama/")
    ensures GetLlmProvider("ollama/" + rest, env)
      == Returned(OpenAICompatible(rest, Some(OllamaKey), Some(GetEnvOr(env, "OLLAMA_API_BASE", OllamaDefaultUrl))))
  {
    var m := "ollama/" + rest;
    PrefixOf("ollama/", rest);
    DiffersAt(m, "gpt-", 0);
    DiffersAt(m, "openai/", 1);
    DiffersAt(m, "anthropic/", 0);
    DiffersAt(m, "gemini/", 0);
    DiffersAt(m, "google/", 0);
    DiffersAt(m, "groq/", 0);
    DiffersAt(m, "xai/", 0);
    DiffersAt(m, "dashscope/", 0);
    DiffersAt(m, "qwen/", 0);
    DiffersAt(m, "mistral/", 0);
    StripRoutingPrefix("ollama/", rest);
  }

  /** Qwen and DashScope: an OAuth token takes precedence over the API key and
      switches the endpoint to the portal. */
  lemma QwenRoute(rest: string, env: Env)
    requires !Contains(rest, "qwen/")
    ensures GetLlmProvider("qwen/" + rest, env).Returned?
    ensures var p := GetLlmProvider("qwen/" + rest, env).value;
      && p == OpenAICompatible(rest, p.apiKey, p.baseUrl)
      && (Truthy(GetEnv(env, "QWEN_ACCESS_TOKEN")) ==>
            p.apiKey == GetEnv(env, "QWEN_ACCESS_TOKEN") && p.baseUrl == Some(QwenPortalUrl))
      && (!Truthy(GetEnv(env, "QWEN_ACCESS_TOKEN")) ==>
            p.apiKey == GetEnv(env, "DASHSCOPE_API_KEY") && p.baseUrl == Some(DashScopeUrl))
  {
    var m := "qwen/" + rest;
    PrefixOf("qwen/", rest);
    DiffersAt(m, "gpt-", 0);
    DiffersAt(m, "openai/", 0);
    DiffersAt(m, "anthropic/", 0);
    DiffersAt(m, "gemini/", 0);
    DiffersAt(m, "google/", 0);
    DiffersAt(m, "groq/", 0);
    DiffersAt(m, "xai/", 0);
    DiffersAt(m, "dashscope/", 0);
    StripRoutingPrefix("qwen/", rest);
  }

  /** Every `gemini/` identifier reaches the Gemini adapter, which strips the
      prefix once. */
  /** The `dashscope/` spelling of the same branch, with the same key and
      endpoint choice. */
  lemma DashScopeRoute(rest: string, env: Env)
    requires !Contains(rest, "dashscope/")
    ensures GetLlmProvider("dashscope/" + rest, env).Returned?
    ensures var p := GetLlmProvider("dashscope/" + rest, env).value;
      && p == OpenAICompatible(rest, p.apiKey, p.baseUrl)
      && (Truthy(GetEnv(env, "QWEN_ACCESS_TOKEN")) ==> p.apiKey == GetEnv(env, "QWEN_ACCESS_TOKEN") && p.baseUrl == Some(QwenPortalUrl))
      && (!Truthy(GetEnv(env, "QWEN_ACCESS_TOKEN")) ==> p.apiKey == GetEnv(env, "DASHSCOPE_API_KEY") && p.baseUrl == Some(DashScopeUrl))
  {
    var m := "dashscope/" + rest;
    PrefixOf("dashscope/", rest);
    DiffersAt(m, "gpt-", 0); DiffersAt(m, "openai/", 0); DiffersAt(m, "anthropic/", 0);
    DiffersAt(m, "gemini/", 0); DiffersAt(m, "google/", 0); DiffersAt(m, "groq/", 0);
    DiffersAt(m, "xai/", 0);
    StripRoutingPrefix("dashscope/", rest);
  }

  /** `google/` goes to the Gemini constructor with the identifier whole and
      `GEMINI_API_KEY`; since only `gemini/` is stripped there, a returned
      provider keeps the `google/` prefix in its model name. */
  lemma GoogleRoute(rest: string, env: Env)
    ensures GetLlmProvider("google/" + rest, env) ==
      GeminiAdapter.NewGemini("google/" + rest, GetEnv(env, "GEMINI_API_KEY"), env)
    ensures GetLlmProvider("google/" + rest, env).Returned? ==>
      GetLlmProvider("google/" + rest, env).value.Gemini?
      && GetLlmProvider("google/" + rest, env).value.modelName == "google/" + rest
  {
    var m := "google/" + rest;
    PrefixOf("google/", rest);
    DiffersAt(m, "gpt-", 1);
    DiffersAt(m, "openai/", 0);
    DiffersAt(m, "anthropic/", 0);
    DiffersAt(m, GeminiAdapter.InternalPrefix, 1);
  }

  lemma GeminiRoute(rest: string, env: Env)
    ensures GetLlmProvider("gemini/" + rest, env).Returned? ==>
      GetLlmProvider("gemini/" + rest, env).value.Gemini?
      && GetLlmProvider("gemini/" + rest, env).value.modelName == rest
  {
    var m := "gemini/" + rest;
    PrefixOf("gemini/", rest);
    DiffersAt(m, "gpt-", 1);
    DiffersAt(m, "openai/", 0);
    DiffersAt(m, "anthropic/", 0);
    var r := GetLlmProvider(m, env);
    if r.Returned? {
      assert "gemini/" + r.value.modelName == m;
      assert r.value.modelName == m[|"gemini/"|..];
    }
  }

  /** An identifier with no known prefix goes, unchanged, to the OpenAI client. */
  lemma FallbackRoute(model: string, env: Env)
    requires Unprefixed(model)
    ensures GetLlmProvider(model, env) == Returned(OpenAICompatible(model, GetEnv(env, "OPENAI_API_KEY"), None))
  {
  }

  /** The endpoints a provider's client talks to, and the oracles the adapters use. */
  datatype Backends = Backends(
    openai: OpenAICompat.Backend,
    anthropic: AnthropicAdapter.Backend,
    gemini: GeminiAdapter.Backend,
    codec: Codec,
    hex: nat -> string)

  /** `LLMProvider.chat`: each provider answers with a response or raises; the
      Gemini adapter never raises. */
  method ProviderChat(p: Provider, messages: seq<Message>, tools: Option<seq<ToolDef>>, b: Backends)
    returns (r: Outcome<LlmResponse>)
    ensures p.Gemini? ==> r.Returned?
    ensures p.OpenAICompatible? ==>
      (r.Raised? <==> b.openai(OpenAICompat.RequestFor(p.modelName, messages, tools)).Raised?)
    ensures p.Anthropic? ==>
      (r.Raised? <==> b.anthropic(AnthropicAdapter.RequestFor(p.modelName, messages, tools)).Raised?)
  {
    match p
    case OpenAICompatible(name, _, _) =>
      r := OpenAICompat.Chat(name, messages, tools, b.openai);
    case Anthropic(name, _) =>
      r := AnthropicAdapter.Chat(name, messages, tools, b.anthropic, b.codec.dumps);
    case Gemini(name, _) =>
      var response := GeminiAdapter.Chat(name, messages, tools, b.gemini, b.codec, b.hex);
      r := Returned(response);
  }
}
