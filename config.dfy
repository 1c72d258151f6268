/**
 * `AgentWrapper.__init__` in `main.py`: read the configuration from the
 * environment, pick the credentials for the requested model type and build
 * the keyword arguments the agent is constructed with.
 */
module Config {
  import opened Wrappers
  import Provider

  /** The process environment: a name that is not in the map is unset. */
  type Env = map<string, string>

  const DefaultModelType: string := "HfApiModel"
  const DefaultTemperature: string := "0.2"
  const ToolsModule: string := "the_bot.agents.tools"
  const DashScopeBase: string := "https://dashscope-intl.aliyuncs.com/compatible-mode/v1"
  const XaiBase: string := "https://api.x.ai/v1"
  const GeminiModel: string := "gemini-2.5-flash-preview-04-17"
  const LlamaModel: string := "meta-llama/Llama-3.3-70B-Instruct"
  const NoOpenAiCredentials: string := "No API credentials found for OpenAI"
  const NoCredentials: string := "No API credentials found for Hugging Face or OpenAI compatible services"

  /** The variables whose values are checked for truthiness to choose the credentials. */
  const CredentialVars: set<string> :=
    {"HF_TOKEN", "HUGGINGFACEHUB_API_TOKEN", "OPENAI_API_KEY", "XAI_API_KEY", "DASHSCOPE_API_KEY", "GEMINI_API_KEY"}

  /** The keyword arguments `Agent` accepts, named as in Python. */
  datatype Kwarg =
    | model_type | temperature | executor_type | verbose | tool_modules
    | system_prompt | supabase_url | supabase_service_key
    | api_key | api_base | model_id

  /** A value of the keyword-argument dictionary. */
  datatype Value =
    | Str(s: string)
    | NoneValue
    | Flag(b: bool)
    | StrList(items: seq<string>)
      /** `float(text)`; the conversion itself is not modelled. */
    | FloatText(text: string)

  /** Where the API key comes from. */
  datatype Source = DashScope | Xai | OpenAi | Gemini | HfHub

  /** `os.getenv(name)`. */
  function GetEnv(env: Env, name: string): Option<string> {
    if name in env then Some(env[name]) else None
  }

  /** `os.getenv(name, default)`: a variable set to the empty string is not defaulted. */
  function GetEnvOr(env: Env, name: string, default: string): string {
    if name in env then env[name] else default
  }

  /** Python truthiness of an optional string. */
  predicate Truthy(v: Option<string>) {
    v.Some? && v.value != []
  }

  /** Python's `a or b`. */
  function Or(a: Option<string>, b: Option<string>): (r: Option<string>)
    ensures Truthy(r) <==> Truthy(a) || Truthy(b)
    ensures Truthy(a) ==> r == a
    ensures !Truthy(a) ==> r == b
  {
    if Truthy(a) then a else b
  }

  /** `os.getenv("HF_TOKEN") or os.getenv("HUGGINGFACEHUB_API_TOKEN")`. */
  function HfToken(env: Env): Option<string> {
    Or(GetEnv(env, "HF_TOKEN"), GetEnv(env, "HUGGINGFACEHUB_API_TOKEN"))
  }

  function ModelType(env: Env): string {
    GetEnvOr(env, "AGENT_MODEL_TYPE", DefaultModelType)
  }

  /** ASCII lower-casing; see README for why this matches `str.lower()` here. */
  function AsciiLower(s: string): (r: string)
    ensures |r| == |s|
  {
    if s == [] then []
    else
      var c := s[0];
      [if 'A' <= c <= 'Z' then (c as int + 32) as char else c] + AsciiLower(s[1..])
  }

  function OptionalStr(v: Option<string>): Value {
    if v.Some? then Str(v.value) else NoneValue
  }

  /** The dictionary before any credential is added. */
  function BaseKwargs(env: Env): map<Kwarg, Value> {
    map[
      model_type := Str(ModelType(env)),
      temperature := FloatText(GetEnvOr(env, "AGENT_TEMPERATURE", DefaultTemperature)),
      executor_type := Str("local"),
      verbose := Flag(AsciiLower(GetEnvOr(env, "AGENT_VERBOSE", "false")) == "true"),
      tool_modules := StrList([ToolsModule]),
      system_prompt := OptionalStr(GetEnv(env, "SYSTEM_PROMPT")),
      supabase_url := OptionalStr(GetEnv(env, "SUPABASE_URL")),
      supabase_service_key := OptionalStr(GetEnv(env, "SUPABASE_SERVICE_KEY"))
    ]
  }

  /** Which credentials the if/elif chain picks, or the `RuntimeError` message. */
  function ChooseCredentials(env: Env): (r: Result<Source, string>)
    ensures r.Err? ==> r.error in {NoOpenAiCredentials, NoCredentials}
  {
    var modelType := ModelType(env);
    if modelType == "groq" then
      if Truthy(GetEnv(env, "DASHSCOPE_API_KEY")) then Ok(DashScope)
      else if Truthy(GetEnv(env, "XAI_API_KEY")) then Ok(Xai)
      else if Truthy(GetEnv(env, "OPENAI_API_KEY")) then Ok(OpenAi)
      else Err(NoOpenAiCredentials)
    else if Truthy(GetEnv(env, "GEMINI_API_KEY")) && modelType == "google" then Ok(Gemini)
    else if Truthy(HfToken(env)) && modelType == DefaultModelType then Ok(HfHub)
    else Err(NoCredentials)
  }

  /** The key the chosen source supplies. */
  function ApiKey(env: Env, source: Source): Option<string> {
    match source
    case DashScope => GetEnv(env, "DASHSCOPE_API_KEY")
    case Xai => GetEnv(env, "XAI_API_KEY")
    case OpenAi => GetEnv(env, "OPENAI_API_KEY")
    case Gemini => GetEnv(env, "GEMINI_API_KEY")
    case HfHub => HfToken(env)
  }

  /** The entries each branch adds to the dictionary. */
  function Extras(env: Env, source: Source): map<Kwarg, Value> {
    var key := map[api_key := OptionalStr(ApiKey(env, source))];
    match source
    case DashScope =>
      key[api_base := Str(GetEnvOr(env, "DASHSCOPE_API_BASE", DashScopeBase))]
         [model_id := OptionalStr(GetEnv(env, "AGENT_MODEL_ID"))]
    case Xai => key[api_base := Str(GetEnvOr(env, "XAI_API_BASE", XaiBase))]
    case OpenAi => key[api_base := OptionalStr(GetEnv(env, "AGENT_API_BASE"))]
    case Gemini => key[model_id := Str(GetEnvOr(env, "AGENT_MODEL_ID", GeminiModel))]
    case HfHub => key[model_id := Str(GetEnvOr(env, "AGENT_MODEL_ID", LlamaModel))]
  }

  /** The keyword arguments `Agent` is built with, or the `RuntimeError` message. */
  function AgentKwargs(env: Env): Result<map<Kwarg, Value>, string> {
    match ChooseCredentials(env)
    case Err(e) => Err(e)
    case Ok(source) => Ok(BaseKwargs(env) + Extras(env, source))
  }

  lemma UpdateTwo<K, V>(m: map<K, V>, k1: K, v1: V, k2: K, v2: V)
    ensures m[k1 := v1][k2 := v2] == m + map[k1 := v1][k2 := v2]
  {
  }

  lemma UpdateThree<K, V>(m: map<K, V>, k1: K, v1: V, k2: K, v2: V, k3: K, v3: V)
    ensures m[k1 := v1][k2 := v2][k3 := v3] == m + map[k1 := v1][k2 := v2][k3 := v3]
  {
  }

  /** The configuration step of `AgentWrapper.__init__`, filling the dictionary in place. */
  method BuildAgentKwargs(env: Env) returns (r: Result<map<Kwarg, Value>, string>)
    ensures r == AgentKwargs(env)
    ensures r.Ok? ==> BaseKwargs(env).Keys + {api_key} <= r.value.Keys
    ensures r.Ok? ==> r.value[api_key].Str? && r.value[api_key].s != []
  {
    var hfToken := HfToken(env);
    var openaiKey := GetEnv(env, "OPENAI_API_KEY");
    var xaiKey := GetEnv(env, "XAI_API_KEY");
    var dashscopeKey := GetEnv(env, "DASHSCOPE_API_KEY");
    var geminiKey := GetEnv(env, "GEMINI_API_KEY");
    var modelType := ModelType(env);
    var kwargs := BaseKwargs(env);
    if modelType == "groq" {
      if Truthy(dashscopeKey) {
        kwargs := kwargs[api_key := Str(dashscopeKey.value)];
        kwargs := kwargs[api_base := Str(GetEnvOr(env, "DASHSCOPE_API_BASE", DashScopeBase))];
        kwargs := kwargs[model_id := OptionalStr(GetEnv(env, "AGENT_MODEL_ID"))];
        assert ChooseCredentials(env) == Ok(DashScope);
        UpdateThree(BaseKwargs(env), api_key, Str(dashscopeKey.value),
          api_base, Str(GetEnvOr(env, "DASHSCOPE_API_BASE", DashScopeBase)),
          model_id, OptionalStr(GetEnv(env, "AGENT_MODEL_ID")));
      } else if Truthy(xaiKey) {
        kwargs := kwargs[api_key := Str(xaiKey.value)];
        kwargs := kwargs[api_base := Str(GetEnvOr(env, "XAI_API_BASE", XaiBase))];
        assert ChooseCredentials(env) == Ok(Xai);
        UpdateTwo(BaseKwargs(env), api_key, Str(xaiKey.value), api_base, Str(GetEnvOr(env, "XAI_API_BASE", XaiBase)));
      } else if Truthy(openaiKey) {
        kwargs := kwargs[api_key := Str(openaiKey.value)];
        kwargs := kwargs[api_base := OptionalStr(GetEnv(env, "AGENT_API_BASE"))];
        assert ChooseCredentials(env) == Ok(OpenAi);
        UpdateTwo(BaseKwargs(env), api_key, Str(openaiKey.value), api_base, OptionalStr(GetEnv(env, "AGENT_API_BASE")));
      } else {
        return Err(NoOpenAiCredentials);
      }
    } else if Truthy(geminiKey) && modelType == "google" {
      kwargs := kwargs[api_key := Str(geminiKey.value)];
      kwargs := kwargs[model_id := Str(GetEnvOr(env, "AGENT_MODEL_ID", GeminiModel))];
      assert ChooseCredentials(env) == Ok(Gemini);
      UpdateTwo(BaseKwargs(env), api_key, Str(geminiKey.value), model_id, Str(GetEnvOr(env, "AGENT_MODEL_ID", GeminiModel)));
    } else if Truthy(hfToken) && modelType == DefaultModelType {
      kwargs := kwargs[api_key := Str(hfToken.value)];
      kwargs := kwargs[model_id := Str(GetEnvOr(env, "AGENT_MODEL_ID", LlamaModel))];
      assert ChooseCredentials(env) == Ok(HfHub);
      UpdateTwo(BaseKwargs(env), api_key, Str(hfToken.value), model_id, Str(GetEnvOr(env, "AGENT_MODEL_ID", LlamaModel)));
    } else {
      return Err(NoCredentials);
    }
    return Ok(kwargs);
  }

  /** With model type `groq` the key is taken from DashScope, then xAI, then OpenAI; with none set the call fails. */
  lemma GroqPriority(env: Env)
    requires ModelType(env) == "groq"
    ensures ChooseCredentials(env) == Ok(DashScope) <==> Truthy(GetEnv(env, "DASHSCOPE_API_KEY"))
    ensures ChooseCredentials(env) == Ok(Xai) <==>
      !Truthy(GetEnv(env, "DASHSCOPE_API_KEY")) && Truthy(GetEnv(env, "XAI_API_KEY"))
    ensures ChooseCredentials(env) == Ok(OpenAi) <==>
      !Truthy(GetEnv(env, "DASHSCOPE_API_KEY")) && !Truthy(GetEnv(env, "XAI_API_KEY")) &&
      Truthy(GetEnv(env, "OPENAI_API_KEY"))
    ensures ChooseCredentials(env) == Err(NoOpenAiCredentials) <==>
      !Truthy(GetEnv(env, "DASHSCOPE_API_KEY")) && !Truthy(GetEnv(env, "XAI_API_KEY")) &&
      !Truthy(GetEnv(env, "OPENAI_API_KEY"))
  {
  }

  /** Any other model type needs its own key: `google` a Gemini key, `HfApiModel` a Hugging Face token. */
  lemma DirectProviders(env: Env)
    requires ModelType(env) != "groq"
    ensures ChooseCredentials(env) == Ok(Gemini) <==>
      ModelType(env) == "google" && Truthy(GetEnv(env, "GEMINI_API_KEY"))
    ensures ChooseCredentials(env) == Ok(HfHub) <==>
      ModelType(env) == DefaultModelType && Truthy(HfToken(env))
    ensures ChooseCredentials(env).Err? ==> ChooseCredentials(env) == Err(NoCredentials)
    ensures ChooseCredentials(env).Ok? ==> ChooseCredentials(env).value in {Gemini, HfHub}
  {
  }

  /** The chosen key is never empty. */
  lemma ChosenKeyTruthy(env: Env)
    requires ChooseCredentials(env).Ok?
    ensures Truthy(ApiKey(env, ChooseCredentials(env).value))
  {
  }

  /** The provider check of `Agent` accepts every chosen configuration, with the matching provider. */
  lemma ProviderAgrees(env: Env)
    requires ChooseCredentials(env).Ok?
    ensures Provider.SelectProvider(ModelType(env)) == Ok(
      match ChooseCredentials(env).value
      case Gemini => Provider.Google
      case HfHub => Provider.HuggingFace
      case _ => Provider.Groq)
  {
  }

  /** `HF_TOKEN` wins over `HUGGINGFACEHUB_API_TOKEN` unless it is unset or empty. */
  lemma HfTokenPreference(env: Env)
    ensures Truthy(GetEnv(env, "HF_TOKEN")) ==> HfToken(env) == Some(env["HF_TOKEN"])
    ensures !Truthy(GetEnv(env, "HF_TOKEN")) ==> HfToken(env) == GetEnv(env, "HUGGINGFACEHUB_API_TOKEN")
  {
  }

  /** Setting `name` to the empty string and unsetting it differ only at `name`. */
  lemma EnvAgree(env: Env, name: string, other: string)
    ensures other != name ==> GetEnv(env[name := ""], other) == GetEnv(env - {name}, other)
    ensures other != name ==> forall d :: GetEnvOr(env[name := ""], other, d) == GetEnvOr(env - {name}, other, d)
    ensures GetEnv(env[name := ""], name) == Some("") && GetEnv(env - {name}, name) == None
  {
  }

  lemma {:induction false} BaseIgnoresCredentials(env: Env, name: string)
    requires name in CredentialVars
    ensures BaseKwargs(env[name := ""]) == BaseKwargs(env - {name})
  {
    var e1, e2 := env[name := ""], env - {name};
    EnvAgree(env, name, "AGENT_MODEL_TYPE");
    EnvAgree(env, name, "AGENT_TEMPERATURE");
    EnvAgree(env, name, "AGENT_VERBOSE");
    EnvAgree(env, name, "SYSTEM_PROMPT");
    EnvAgree(env, name, "SUPABASE_URL");
    EnvAgree(env, name, "SUPABASE_SERVICE_KEY");
    assert ModelType(e1) == ModelType(e2);
    assert GetEnvOr(e1, "AGENT_TEMPERATURE", DefaultTemperature) == GetEnvOr(e2, "AGENT_TEMPERATURE", DefaultTemperature);
    assert GetEnvOr(e1, "AGENT_VERBOSE", "false") == GetEnvOr(e2, "AGENT_VERBOSE", "false");
  }

  lemma {:induction false} ChoiceIgnoresEmpty(env: Env, name: string)
    requires name in CredentialVars
    ensures ChooseCredentials(env[name := ""]) == ChooseCredentials(env - {name})
  {
    var e1, e2 := env[name := ""], env - {name};
    EnvAgree(env, name, "AGENT_MODEL_TYPE");
    forall v | v in CredentialVars
      ensures Truthy(GetEnv(e1, v)) == Truthy(GetEnv(e2, v))
    {
      EnvAgree(env, name, v);
    }
    assert Truthy(HfToken(e1)) == Truthy(HfToken(e2));
  }

  /** A usable key does not come from the emptied variable, so it is the same either way. */
  lemma {:induction false} ApiKeyIgnoresEmpty(env: Env, name: string, source: Source)
    requires Truthy(ApiKey(env[name := ""], source))
    ensures ApiKey(env[name := ""], source) == ApiKey(env - {name}, source)
  {
    EnvAgree(env, name, "DASHSCOPE_API_KEY");
    EnvAgree(env, name, "XAI_API_KEY");
    EnvAgree(env, name, "OPENAI_API_KEY");
    EnvAgree(env, name, "GEMINI_API_KEY");
    EnvAgree(env, name, "HF_TOKEN");
    EnvAgree(env, name, "HUGGINGFACEHUB_API_TOKEN");
  }

  lemma {:induction false} ExtrasIgnoreEmpty(env: Env, name: string, source: Source)
    requires name in CredentialVars
    requires Truthy(ApiKey(env[name := ""], source))
    ensures Extras(env[name := ""], source) == Extras(env - {name}, source)
  {
    ApiKeyIgnoresEmpty(env, name, source);
    EnvAgree(env, name, "DASHSCOPE_API_BASE");
    EnvAgree(env, name, "XAI_API_BASE");
    EnvAgree(env, name, "AGENT_API_BASE");
    EnvAgree(env, name, "AGENT_MODEL_ID");
  }

  /** A credential variable set to the empty string has the same effect as an unset one. */
  lemma {:induction false} EmptyCountsAsAbsent(env: Env, name: string)
    requires name in CredentialVars
    ensures AgentKwargs(env[name := ""]) == AgentKwargs(env - {name})
  {
    var e1 := env[name := ""];
    BaseIgnoresCredentials(env, name);
    ChoiceIgnoresEmpty(env, name);
    if ChooseCredentials(e1).Ok? {
      ChosenKeyTruthy(e1);
      ExtrasIgnoreEmpty(env, name, ChooseCredentials(e1).value);
    }
  }

  /** Without `AGENT_MODEL_TYPE` the Hugging Face model is used, with its default model id. */
  lemma DefaultConfiguration(env: Env)
    requires "AGENT_MODEL_TYPE" !in env && "AGENT_MODEL_ID" !in env && Truthy(HfToken(env))
    ensures ChooseCredentials(env) == Ok(HfHub)
    ensures AgentKwargs(env).Ok?
    ensures AgentKwargs(env).value[model_type] == Str(DefaultModelType)
    ensures AgentKwargs(env).value[model_id] == Str(LlamaModel)
    ensures AgentKwargs(env).value[api_key] == Str(HfToken(env).value)
  {
    assert ModelType(env) == DefaultModelType;
    var extras := Extras(env, HfHub);
    assert extras == map[api_key := Str(HfToken(env).value), model_id := Str(LlamaModel)];
    assert AgentKwargs(env) == Ok(BaseKwargs(env) + extras);
  }

  /** An explicitly empty `AGENT_MODEL_TYPE` is not replaced by the default, so no provider matches. */
  lemma EmptyModelTypeRejected(env: Env)
    requires "AGENT_MODEL_TYPE" in env && env["AGENT_MODEL_TYPE"] == ""
    ensures AgentKwargs(env) == Err(NoCredentials)
  {
  }

  /** The DashScope branch's defaults: the international endpoint, and no model id unless one is set. */
  lemma DashScopeDefaults(env: Env)
    requires ModelType(env) == "groq" && Truthy(GetEnv(env, "DASHSCOPE_API_KEY"))
    requires "DASHSCOPE_API_BASE" !in env && "AGENT_MODEL_ID" !in env
    ensures AgentKwargs(env).Ok?
    ensures AgentKwargs(env).value[api_base] == Str(DashScopeBase)
    ensures AgentKwargs(env).value[model_id] == NoneValue
  {
  }

  /** `AGENT_VERBOSE` is compared case-insensitively with `true` and is off when unset. */
  lemma VerboseFlag(env: Env)
    ensures "AGENT_VERBOSE" !in env ==> BaseKwargs(env)[verbose] == Flag(false)
    ensures GetEnv(env, "AGENT_VERBOSE") == Some("TRUE") ==> BaseKwargs(env)[verbose] == Flag(true)
    ensures GetEnv(env, "AGENT_VERBOSE") == Some("True") ==> BaseKwargs(env)[verbose] == Flag(true)
    ensures GetEnv(env, "AGENT_VERBOSE") == Some("yes") ==> BaseKwargs(env)[verbose] == Flag(false)
  {
  }
}
