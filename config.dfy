/**
 * The LLM configuration: the `LlmConfig` request body, the stored config
 * dict, the masked-key rule of `set_llm_config`, and which provider
 * `create_llm_provider` (v5) and `DependencyContainer._create_llm_provider`
 * (v11) build from the dict.
 *
 * The provider classes wrap foreign clients; whether their constructors
 * raise is a parameter `refuse` (`Some(message)` when the constructor of
 * that provider raises with that message). `MockLlmProvider` has no
 * constructor of its own and never raises.
 */
module Config {
  import opened Errors
  import opened PyStr

  /** The request body: `provider` is required, the rest may be `None`. */
  datatype LlmConfig = LlmConfig(provider: string, model: Option<string>, apiKey: Option<string>, baseUrl: Option<string>)

  /** A config dict: key to value, where `None` is Python's `None`. */
  type ConfigDict = map<string, Option<string>>

  /** The provider object a config yields, with the arguments it was built from. */
  datatype Provider =
    | Ollama(model: Option<string>, baseUrl: Option<string>)
    | Gemini(model: Option<string>, apiKey: Option<string>)
    | Mock

  type Refusal = Provider -> Option<string>

  /** `llm_config_store` before any update: Mock, with no key and no URL entry at all. */
  const InitialStore: ConfigDict := map["provider" := Some("Mock"), "model" := Some("mock-model")]

  /** `d.get(key)` */
  function Get(d: ConfigDict, key: string): (r: Option<string>)
    ensures key !in d ==> r == None
  {
    if key in d then d[key] else None
  }

  /** `d[key]`, which raises `KeyError` for a missing key. */
  function Index(d: ConfigDict, key: string): (r: Result<Option<string>>)
    ensures r.Ok? <==> key in d
    ensures r.Err? ==> r.error == KeyError(key)
  {
    if key in d then Ok(d[key]) else Err(KeyError(key))
  }

  /** Python truthiness of an optional string. */
  predicate Truthy(s: Option<string>) { s.Some? && s.value != [] }

  /** `str(x)` of an optional string. */
  function Show(s: Option<string>): string {
    if s.Some? then s.value else "None"
  }

  /** `config.model_dump()`: all four keys, `None` for the unset ones. */
  function Dump(c: LlmConfig): (d: ConfigDict)
    ensures d.Keys == {"provider", "model", "api_key", "base_url"}
  {
    map["provider" := Some(c.provider), "model" := c.model, "api_key" := c.apiKey, "base_url" := c.baseUrl]
  }

  /** A key that is non-empty and made only of `*`: the masked key the settings dialog sends back. */
  predicate Masked(key: Option<string>) {
    Truthy(key) && forall i :: 0 <= i < |key.value| ==> key.value[i] == '*'
  }

  /**
   * The dict `set_llm_config` stores: the request's fields, except that a
   * masked key is replaced by the key already stored (possibly `None`).
   */
  function NewConfig(c: LlmConfig, store: ConfigDict): (d: ConfigDict)
    ensures d.Keys == {"provider", "model", "api_key", "base_url"}
    ensures d["provider"] == Some(c.provider) && d["model"] == c.model && d["base_url"] == c.baseUrl
    ensures Masked(c.apiKey) ==> d["api_key"] == Get(store, "api_key")
    ensures !Masked(c.apiKey) ==> d["api_key"] == c.apiKey
  {
    if Masked(c.apiKey) then Dump(c)["api_key" := Get(store, "api_key")] else Dump(c)
  }

  // ---------------------------------------------------------------------------
  // v5: create_llm_provider
  // ---------------------------------------------------------------------------

  /** The names `PROVIDER_MAP` knows. */
  predicate Known5(name: Option<string>) {
    name == Some("Ollama") || name == Some("Gemini") || name == Some("Mock")
  }

  /** A constructed provider, or the text of the exception its construction raised. */
  function Build(p: Provider, refuse: Refusal): (r: Result<Provider>)
    ensures r.Ok? <==> p.Mock? || refuse(p).None?
    ensures r.Ok? ==> r.value == p
  {
    if !p.Mock? && refuse(p).Some? then Err(ProviderError(refuse(p).value)) else Ok(p)
  }

  /** `str(e)` of an exception: a `KeyError` prints its key in quotes. */
  function Message(e: McrError): string {
    match e
    case KeyError(k) => "'" + k + "'"
    case NotFoundError(m) => m
    case ProviderError(m) => m
    case ValidationError(m) => m
  }

  /** The v5 constructor call, with its arguments read from the dict in order. */
  function Construct5(name: string, config: ConfigDict, refuse: Refusal): (r: Result<Provider>)
    requires Known5(Some(name))
  {
    if name == "Ollama" then
      var model := Index(config, "model");
      if model.Err? then Err(model.error)
      else
        var url := Index(config, "base_url");
        if url.Err? then Err(url.error) else Build(Ollama(model.value, url.value), refuse)
    else if name == "Gemini" then
      var model := Index(config, "model");
      if model.Err? then Err(model.error)
      else
        var key := Index(config, "api_key");
        if key.Err? then Err(key.error) else Build(Gemini(model.value, key.value), refuse)
    else Ok(Mock)
  }

  /**
   * v5 `create_llm_provider`: an unknown name is rejected before the `try`;
   * anything a known provider's construction raises is re-raised as
   * `Failed to initialize {name}: {e}`.
   */
  function CreateLlmProvider5(config: ConfigDict, refuse: Refusal): (r: Result<Provider>)
    ensures !Known5(Get(config, "provider")) ==> r == Err(ProviderError("Unknown LLM provider: " + Show(Get(config, "provider"))))
    ensures r.Ok? ==>
      && Known5(Get(config, "provider"))
      && (r.value.Ollama? <==> Get(config, "provider") == Some("Ollama"))
      && (r.value.Gemini? <==> Get(config, "provider") == Some("Gemini"))
      && (r.value.Mock? || refuse(r.value).None?)
    ensures Known5(Get(config, "provider")) && r.Err? ==>
      exists e :: r.error == ProviderError("Failed to initialize " + Get(config, "provider").value + ": " + e)
  {
    var name := Get(config, "provider");
    if !Known5(name) then Err(ProviderError("Unknown LLM provider: " + Show(name)))
    else
      var built := Construct5(name.value, config, refuse);
      if built.Err? then
        var e := Message(built.error);
        Err(ProviderError("Failed to initialize " + name.value + ": " + e))
      else built
  }

  /** An unknown provider name fails the same way whatever the constructors would do: nothing is built. */
  lemma UnknownBeforeConstruction(config: ConfigDict, refuse1: Refusal, refuse2: Refusal)
    requires !Known5(Get(config, "provider"))
    ensures CreateLlmProvider5(config, refuse1) == CreateLlmProvider5(config, refuse2)
    ensures CreateLlmProvider5(config, refuse1).Err?
  {
  }

  /** v5: an Ollama request builds an Ollama provider from the model and URL of the request. */
  lemma OllamaFromRequest(c: LlmConfig, store: ConfigDict, refuse: Refusal)
    requires c.provider == "Ollama" && refuse(Ollama(c.model, c.baseUrl)).None?
    ensures CreateLlmProvider5(NewConfig(c, store), refuse) == Ok(Ollama(c.model, c.baseUrl))
  {
  }

  // ---------------------------------------------------------------------------
  // v11: DependencyContainer._create_llm_provider
  // ---------------------------------------------------------------------------

  /** The API key Gemini gets: the config's key if truthy, else the environment's `GOOGLE_API_KEY`. */
  function GeminiKey(config: ConfigDict, env: Option<string>): (r: Option<string>)
    ensures Truthy(Get(config, "api_key")) ==> r == Get(config, "api_key")
    ensures !Truthy(Get(config, "api_key")) ==> r == env
  {
    if Truthy(Get(config, "api_key")) then Get(config, "api_key") else env
  }

  /** The v11 constructor call; every name other than Ollama and Gemini gets the mock. */
  function Construct11(config: ConfigDict, env: Option<string>, refuse: Refusal): (r: Result<Provider>)
  {
    var name := Get(config, "provider");
    if name == Some("Ollama") then
      var model := Index(config, "model");
      if model.Err? then Err(model.error)
      else
        var url := Index(config, "base_url");
        if url.Err? then Err(url.error) else Build(Ollama(model.value, url.value), refuse)
    else if name == Some("Gemini") then
      var key := GeminiKey(config, env);
      if !Truthy(key) then Err(ProviderError("Gemini API key not found."))
      else
        var model := Index(config, "model");
        if model.Err? then Err(model.error) else Build(Gemini(model.value, key), refuse)
    else Ok(Mock)
  }

  /**
   * v11 `_create_llm_provider`: a missing dict key is reported as such;
   * every other exception, including the missing Gemini key, is re-raised
   * as `Failed to init {name}: {e}`.
   */
  function CreateLlmProvider11(config: ConfigDict, env: Option<string>, refuse: Refusal): (r: Result<Provider>)
    ensures Get(config, "provider") != Some("Ollama") && Get(config, "provider") != Some("Gemini") ==> r == Ok(Mock)
    ensures r.Ok? && r.value.Gemini? ==> Truthy(r.value.apiKey) && r.value.apiKey == GeminiKey(config, env)
    ensures r.Ok? && !r.value.Mock? ==> refuse(r.value).None?
  {
    var name := Get(config, "provider");
    var built := Construct11(config, env, refuse);
    if built.Err? then
      if built.error.KeyError? then Err(ProviderError("Missing config key for " + Show(name) + ": " + Message(built.error)))
      else Err(ProviderError("Failed to init " + Show(name) + ": " + Message(built.error)))
    else built
  }

  /** v11: Gemini without a truthy key in the dict or the environment fails, with the message re-wrapped. */
  lemma GeminiWithoutKey(config: ConfigDict, env: Option<string>, refuse: Refusal)
    requires Get(config, "provider") == Some("Gemini") && !Truthy(GeminiKey(config, env))
    ensures CreateLlmProvider11(config, env, refuse) == Err(ProviderError("Failed to init Gemini: Gemini API key not found."))
  {
    assert Construct11(config, env, refuse) == Err(ProviderError("Gemini API key not found."));
    assert Show(Get(config, "provider")) == "Gemini";
    assert Message(ProviderError("Gemini API key not found.")) == "Gemini API key not found.";
    assert "Failed to init " + "Gemini" + ": " + "Gemini API key not found." == "Failed to init Gemini: Gemini API key not found.";
  }

  /** v11: the container starts with the mock provider. */
  lemma StartsWithMock(env: Option<string>, refuse: Refusal)
    ensures CreateLlmProvider11(InitialStore, env, refuse) == Ok(Mock)
  {
    assert Get(InitialStore, "provider") == Some("Mock");
  }

  /** v11: an Ollama entry without a `base_url` key (as in the initial store) is reported as a missing key. */
  lemma MissingUrl(model: string, env: Option<string>, refuse: Refusal)
    ensures CreateLlmProvider11(map["provider" := Some("Ollama"), "model" := Some(model)], env, refuse)
      == Err(ProviderError("Missing config key for Ollama: 'base_url'"))
  {
    var d := map["provider" := Some("Ollama"), "model" := Some(model)];
    assert Get(d, "provider") == Some("Ollama");
    assert Index(d, "base_url") == Err(KeyError("base_url"));
    assert Construct11(d, env, refuse) == Err(KeyError("base_url"));
    assert Show(Get(d, "provider")) == "Ollama";
    assert Message(KeyError("base_url")) == "'base_url'";
    assert "Missing config key for " + "Ollama" + ": " + "'base_url'" == "Missing config key for Ollama: 'base_url'";
  }

  // ---------------------------------------------------------------------------
  // set_llm_config
  // ---------------------------------------------------------------------------

  /** `LLM provider updated to {provider}.` */
  function Updated(c: LlmConfig): string {
    "LLM provider updated to " + c.provider + "."
  }

  /** v5 module state: `llm_config_store` and the provider the service uses. */
  class Settings5 {
    var store: ConfigDict
    var provider: Provider
    const refuse: Refusal

    constructor (refuse: Refusal)
      ensures store == InitialStore && provider == Mock && this.refuse == refuse
    {
      store := InitialStore;
      provider := Mock;
      this.refuse := refuse;
    }

    /**
     * v5 `set_llm_config`: the provider is built from the new dict first,
     * and only when that succeeds are provider and store replaced.
     */
    method SetLlmConfig(c: LlmConfig) returns (r: Result<string>)
      modifies this
      ensures var built := CreateLlmProvider5(NewConfig(c, old(store)), refuse);
        (built.Ok? ==> r == Ok(Updated(c)) && provider == built.value && store == NewConfig(c, old(store)))
        && (built.Err? ==> r == Err(built.error) && provider == old(provider) && store == old(store))
    {
      var d := NewConfig(c, store);
      var built := CreateLlmProvider5(d, refuse);
      if built.Ok? {
        provider := built.value;
        store := d;
        r := Ok(Updated(c));
      } else {
        r := Err(built.error);
      }
    }
  }

  /** v11 `DependencyContainer`: the stored dict and the provider built from it. */
  class DependencyContainer {
    var llmConfigStore: ConfigDict
    var llmProvider: Provider
    /** `os.getenv("GOOGLE_API_KEY")` */
    const env: Option<string>
    const refuse: Refusal

    constructor (env: Option<string>, refuse: Refusal)
      ensures llmConfigStore == InitialStore && llmProvider == Mock
      ensures this.env == env && this.refuse == refuse
    {
      llmConfigStore := InitialStore;
      this.env := env;
      this.refuse := refuse;
      StartsWithMock(env, refuse);
      llmProvider := CreateLlmProvider11(InitialStore, env, refuse).value;
    }

    /**
     * v11 `set_llm_config`: the new dict is stored first and the provider
     * built from it afterwards, so a failed build still replaces the store
     * while the old provider stays in use.
     */
    method SetLlmConfig(c: LlmConfig) returns (r: Result<string>)
      modifies this
      ensures llmConfigStore == NewConfig(c, old(llmConfigStore))
      ensures var built := CreateLlmProvider11(llmConfigStore, env, refuse);
        (built.Ok? ==> r == Ok(Updated(c)) && llmProvider == built.value)
        && (built.Err? ==> r == Err(built.error) && llmProvider == old(llmProvider))
    {
      llmConfigStore := NewConfig(c, llmConfigStore);
      var built := CreateLlmProvider11(llmConfigStore, env, refuse);
      if built.Ok? {
        llmProvider := built.value;
        r := Ok(Updated(c));
      } else {
        r := Err(built.error);
      }
    }
  }

  // ---------------------------------------------------------------------------
  // The masked key across updates
  // ---------------------------------------------------------------------------

  /**
   * A masked key keeps the key of the previous stored dict: after storing
   * `first` and then `second` with a masked key, the stored key is
   * `first`'s (or, if that was masked too, whatever was stored before).
   */
  lemma {:induction false} MaskedKeepsKey(first: LlmConfig, second: LlmConfig, store: ConfigDict)
    requires Masked(second.apiKey) && !Masked(first.apiKey)
    ensures NewConfig(second, NewConfig(first, store))["api_key"] == first.apiKey
  {
    assert "api_key" in NewConfig(first, store);
  }

  /** An unmasked key, including `None` and `""`, is stored as sent. */
  lemma UnmaskedStored(c: LlmConfig, store: ConfigDict)
    requires c.apiKey == None || c.apiKey == Some("") || (c.apiKey.Some? && exists i :: 0 <= i < |c.apiKey.value| && c.apiKey.value[i] != '*')
    ensures NewConfig(c, store)["api_key"] == c.apiKey
  {
  }

  /**
   * v11 after a failed Gemini update with no key anywhere: the store holds
   * the Gemini dict while the previous provider stays in use, and the next
   * masked update keeps that dict's key (`None`).
   */
  lemma FailedGeminiUpdate(c: LlmConfig, store: ConfigDict, env: Option<string>, refuse: Refusal)
    requires c.provider == "Gemini" && c.apiKey == None && !Truthy(env)
    ensures var d := NewConfig(c, store);
      CreateLlmProvider11(d, env, refuse) == Err(ProviderError("Failed to init Gemini: Gemini API key not found."))
      && d["api_key"] == None
  {
    var d := NewConfig(c, store);
    assert Get(d, "provider") == Some("Gemini");
    assert Get(d, "api_key") == None;
    GeminiWithoutKey(d, env, refuse);
  }
}
