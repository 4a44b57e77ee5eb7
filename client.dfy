/** `AIClient` (src/claude_clis/shared/ai_client.py): one model per provider
    name, built from that provider's configuration section and an API key,
    and cached for later calls. The model objects themselves are opaque: a
    model is the description of what would be constructed. */
module Client {
  import opened Base
  import opened Text
  import opened Settings

  /** The environment variables the client and the configuration read. */
  datatype Env = Env(
    provider: Option<string>,      // CLAUDE_CLIS_AI_PROVIDER
    googleKey: Option<string>,     // GOOGLE_API_KEY
    geminiKey: Option<string>,     // GEMINI_API_KEY
    anthropicKey: Option<string>)  // ANTHROPIC_API_KEY

  /** What `_get_model` constructs; the Ollama model is the OpenAI-compatible
      one with a fixed placeholder key. */
  datatype Model =
    | GeminiModel(name: Value, apiKey: Value)
    | OpenAIModel(name: Value, baseUrl: string, placeholderKey: string, timeout: Value)
    | AnthropicModel(name: Value, apiKey: Value)

  /** `AIClientError`, or any other exception (the ValueError and
      AttributeError of the configuration, a KeyError on a missing field, a
      TypeError on a non-text base URL). */
  datatype Error = ClientError(msg: string) | OtherError(msg: string)

  const GeminiKeyMissing: string :=
    "Gemini API key not found. Set GOOGLE_API_KEY or configure it with: "
    + "claude-clis config set ai.gemini.api_key YOUR_KEY"
  const AnthropicKeyMissing: string :=
    "Anthropic API key not found. Set ANTHROPIC_API_KEY or configure it with: "
    + "claude-clis config set ai.anthropic.api_key YOUR_KEY"

  /** `a or b or ...` over a configured key and environment keys: the first
      truthy one, if any. */
  function FirstKey(configured: Option<Value>, envs: seq<Option<string>>): Option<Value>
    decreases |envs|
  {
    if configured.Some? && Truthy(configured.value) then configured
    else if envs == [] then None
    else if Given(envs[0]) then Some(Str(envs[0].value))
    else FirstKey(None, envs[1..])
  }

  /** The key found is truthy, and one is found exactly when the configured
      key is truthy or some environment key is non-empty. */
  lemma {:induction false} FirstKeyFound(configured: Option<Value>, envs: seq<Option<string>>)
    ensures var r := FirstKey(configured, envs);
      (r.Some? <==> (configured.Some? && Truthy(configured.value)) || exists k :: 0 <= k < |envs| && Given(envs[k]))
      && (r.Some? ==> Truthy(r.value))
    decreases |envs|
  {
    if !(configured.Some? && Truthy(configured.value)) && envs != [] && !Given(envs[0]) {
      FirstKeyFound(None, envs[1..]);
      if exists k :: 0 <= k < |envs| && Given(envs[k]) {
        var k :| 0 <= k < |envs| && Given(envs[k]);
        assert envs[1..][k - 1] == envs[k];
      }
    }
  }

  function Required(section: Value, name: string): Result<Value, Error>
  {
    match Attr(section, name)
    case None => Failure(OtherError("KeyError: '" + name + "'"))
    case Some(v) => Success(v)
  }

  /** The part of `_get_model` after the section is read: key resolution and
      construction per provider, and the unknown-name error. */
  function BuildModel(provider: string, section: Value, env: Env): Result<Model, Error>
  {
    if provider == "gemini" then
      match FirstKey(Attr(section, "api_key"), [env.googleKey, env.geminiKey])
      case None => Failure(ClientError(GeminiKeyMissing))
      case Some(key) =>
        var name :- Required(section, "model");
        Success(GeminiModel(name, key))
    else if provider == "ollama" then
      var name :- Required(section, "model");
      var base :- Required(section, "base_url");
      if !base.Str? then Failure(OtherError("TypeError: base_url"))
      else
        var timeout :- Required(section, "timeout");
        Success(OpenAIModel(name, base.s + "/v1", "ollama", timeout))
    else if provider == "anthropic" then
      match FirstKey(Attr(section, "api_key"), [env.anthropicKey])
      case None => Failure(ClientError(AnthropicKeyMissing))
      case Some(key) =>
        var name :- Required(section, "model");
        Success(AnthropicModel(name, key))
    else
      Failure(ClientError("Unknown AI provider: " + provider))
  }

  /** The value of `_get_model(provider)` for a cache and the configuration
      the manager would load. */
  function Resolve(provider: string, env: Env, models: map<string, Model>, loaded: Result<Value, string>)
    : Result<Model, Error>
  {
    if provider in models then Success(models[provider])
    else
      match AiConfig(Some(provider), env.provider, loaded)
      case Failure(e) => Failure(OtherError(e))
      case Success(section) => BuildModel(provider, section, env)
  }

  /** `test_provider`: true when a model is obtained, false on
      `AIClientError`; any other exception propagates. */
  function Tested(r: Result<Model, Error>): Result<bool, string>
  {
    match r
    case Success(_) => Success(true)
    case Failure(ClientError(_)) => Success(false)
    case Failure(OtherError(e)) => Failure(e)
  }

  /** Gemini fails with `AIClientError` exactly when neither the configured
      key nor GOOGLE_API_KEY nor GEMINI_API_KEY is set; with a key and a
      model name it builds that model with the first key found. */
  lemma GeminiKeySources(section: Value, env: Env)
    ensures var r := BuildModel("gemini", section, env);
      var cfg := Attr(section, "api_key");
      (r.Failure? && r.error.ClientError? <==>
        !(cfg.Some? && Truthy(cfg.value)) && !Given(env.googleKey) && !Given(env.geminiKey))
      && (r.Failure? && r.error.ClientError? ==> r.error.msg == GeminiKeyMissing)
      && (cfg.Some? && Truthy(cfg.value) && Attr(section, "model").Some? ==>
            r == Success(GeminiModel(Attr(section, "model").value, cfg.value)))
      && (!(cfg.Some? && Truthy(cfg.value)) && Given(env.googleKey) && Attr(section, "model").Some? ==>
            r == Success(GeminiModel(Attr(section, "model").value, Str(env.googleKey.value))))
  {
    var envs := [env.googleKey, env.geminiKey];
    assert FirstKey(Attr(section, "api_key"), envs).None? <==>
      !(Attr(section, "api_key").Some? && Truthy(Attr(section, "api_key").value)) && !Given(env.googleKey) && !Given(env.geminiKey)
    by {
      FirstKeyFound(Attr(section, "api_key"), envs);
      assert envs[0] == env.googleKey && envs[1] == env.geminiKey;
    }
  }

  /** Anthropic fails with `AIClientError` exactly when neither the
      configured key nor ANTHROPIC_API_KEY is set. */
  lemma AnthropicKeySources(section: Value, env: Env)
    ensures var r := BuildModel("anthropic", section, env);
      var cfg := Attr(section, "api_key");
      (r.Failure? && r.error.ClientError? <==> !(cfg.Some? && Truthy(cfg.value)) && !Given(env.anthropicKey))
      && (r.Failure? && r.error.ClientError? ==> r.error.msg == AnthropicKeyMissing)
      && (!(cfg.Some? && Truthy(cfg.value)) && Given(env.anthropicKey) && Attr(section, "model").Some? ==>
            r == Success(AnthropicModel(Attr(section, "model").value, Str(env.anthropicKey.value))))
  {
    var envs := [env.anthropicKey];
    assert FirstKey(Attr(section, "api_key"), envs).None? <==>
      !(Attr(section, "api_key").Some? && Truthy(Attr(section, "api_key").value)) && !Given(env.anthropicKey)
    by {
      FirstKeyFound(Attr(section, "api_key"), envs);
      assert envs[0] == env.anthropicKey;
    }
  }

  /** Ollama needs no key: it never fails with `AIClientError`, and with its
      fields present it targets the "/v1" endpoint under the base URL. */
  lemma OllamaNeedsNoKey(section: Value, env: Env)
    ensures BuildModel("ollama", section, env).Failure? ==> BuildModel("ollama", section, env).error.OtherError?
    ensures (Attr(section, "model").Some? && Attr(section, "base_url").Some? && Attr(section, "base_url").value.Str?
      && Attr(section, "timeout").Some?) ==>
      BuildModel("ollama", section, env) ==
        Success(OpenAIModel(Attr(section, "model").value, Attr(section, "base_url").value.s + "/v1", "ollama",
          Attr(section, "timeout").value))
  {
  }

  /** Out of the box, Ollama builds its default model against
      "http://localhost:11434/v1" whatever the environment. */
  lemma DefaultOllamaModel(env: Env, models: map<string, Model>)
    requires "ollama" !in models
    ensures Resolve("ollama", env, models, Success(Defaults())) ==
      Success(OpenAIModel(Str("llama3.2:latest"), "http://localhost:11434/v1", "ollama", Int(120)))
    ensures Tested(Resolve("ollama", env, models, Success(Defaults()))) == Success(true)
  {
    DefaultOllamaSection(env.provider);
    var fs := OllamaDefaults().fields;
    assert Attr(OllamaDefaults(), "base_url") == Some(Str("http://localhost:11434"));
    assert Attr(OllamaDefaults(), "model") == Some(Str("llama3.2:latest")) by {
      assert fs[1..][0].name == "model";
    }
    assert Attr(OllamaDefaults(), "timeout") == Some(Int(120)) by {
      assert fs[1..][1..][1..][0].name == "timeout";
    }
    OllamaNeedsNoKey(OllamaDefaults(), env);
    assert "http://localhost:11434" + "/v1" == "http://localhost:11434/v1";
    assert Resolve("ollama", env, models, Success(Defaults())) == BuildModel("ollama", OllamaDefaults(), env);
  }

  /** With the default (empty) Gemini key and no key in the environment,
      testing Gemini gives false. */
  lemma DefaultGeminiNeedsKey(env: Env, models: map<string, Model>)
    requires "gemini" !in models && !Given(env.googleKey) && !Given(env.geminiKey)
    ensures Resolve("gemini", env, models, Success(Defaults())) == Failure(ClientError(GeminiKeyMissing))
    ensures Tested(Resolve("gemini", env, models, Success(Defaults()))) == Success(false)
  {
    DefaultGeminiSection(env.provider);
    GeminiKeySources(GeminiDefaults(), env);
  }

  /** A name other than the three (and not empty) is rejected by the
      configuration with ValueError before the client's own dispatch, so
      `test_provider` does not answer false but raises. */
  lemma UnknownNameRaises(provider: string, env: Env, models: map<string, Model>, c: Value)
    requires provider != "" && provider !in Providers && provider !in models
    ensures Resolve(provider, env, models, Success(c)) == Failure(OtherError("Unknown AI provider: " + provider))
    ensures Tested(Resolve(provider, env, models, Success(c))) == Failure("Unknown AI provider: " + provider)
  {
    AiConfigDispatch(Some(provider), env.provider, c);
  }

  /** The empty name is falsy, so the configuration hands back the default
      provider's section; the client's own dispatch then matches no name and
      raises `AIClientError`, which `test_provider` turns into false. */
  lemma EmptyNameReachesClientError(env: Env, models: map<string, Model>)
    requires "" !in models && !Given(env.provider)
    ensures Resolve("", env, models, Success(Defaults())) == Failure(ClientError("Unknown AI provider: "))
    ensures Tested(Resolve("", env, models, Success(Defaults()))) == Success(false)
  {
    assert ProviderFrom(None, env.provider, Success(Defaults())) == Success("gemini") by {
      DefaultProvider();
    }
    assert AiConfig(Some(""), env.provider, Success(Defaults())) == Success(GeminiDefaults()) by {
      DefaultGeminiSection(env.provider);
    }
    assert "Unknown AI provider: " + "" == "Unknown AI provider: ";
  }

  /** A model once obtained is what every later call returns, whatever the
      environment and the configuration are by then. */
  lemma CachedModelReturned(provider: string, env: Env, env2: Env, models: map<string, Model>,
                            loaded: Result<Value, string>, loaded2: Result<Value, string>)
    requires Resolve(provider, env, models, loaded).Success?
    ensures var m := Resolve(provider, env, models, loaded).value;
      Resolve(provider, env2, models[provider := m], loaded2) == Success(m)
  {
  }

  class AIClient {
    var models: map<string, Model>
    const manager: ConfigManager

    constructor(manager: ConfigManager)
      ensures models == map[] && this.manager == manager
    {
      models := map[];
      this.manager := manager;
    }

    /** `_get_model(provider)`: a cached model is returned without reading
        the configuration; otherwise the section is read and the model built
        and cached. */
    method GetModel(provider: string, env: Env) returns (r: Result<Model, Error>)
      modifies this, manager
      ensures r == Resolve(provider, env, old(models), Loaded(old(manager.cache), old(manager.file)))
      ensures models == if r.Success? then old(models)[provider := r.value] else old(models)
      ensures provider in old(models) ==> unchanged(manager)
      ensures manager.file == old(manager.file)
    {
      if provider in models {
        return Success(models[provider]);
      }
      var section := manager.GetAiConfig(Some(provider), env.provider);
      if section.Failure? {
        return Failure(OtherError(section.error));
      }
      r := BuildModel(provider, section.value, env);
      if r.Success? {
        models := models[provider := r.value];
      }
    }

    /** `get_available_providers`. */
    method AvailableProviders() returns (names: seq<string>)
      ensures names == Providers
    {
      names := ["gemini", "ollama", "anthropic"];
    }

    /** `test_provider(provider)`. */
    method TestProvider(provider: string, env: Env) returns (r: Result<bool, string>)
      modifies this, manager
      ensures r == Tested(Resolve(provider, env, old(models), Loaded(old(manager.cache), old(manager.file))))
      ensures r == Success(true) <==> provider in models
    {
      var m := GetModel(provider, env);
      match m {
        case Success(_) => r := Success(true);
        case Failure(ClientError(_)) => r := Success(false);
        case Failure(OtherError(e)) => r := Failure(e);
      }
    }
  }
}
