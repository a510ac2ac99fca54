/**
 * Outline providers of the backend: choosing a provider from a per-request
 * configuration, resolving the cloud provider's client settings, the request
 * each provider sends and how each maps the reply (or the failure) to an
 * outline or an exception. Network calls are replaced by their replies,
 * which the operations receive as parameters.
 */
module LlmProvider {
  import opened Wrappers
  import opened Strings
  import opened OutlineSchema

  /** A configuration dictionary: a key maps to a string or to null (`None`). */
  type Config = map<string, Option<string>>

  /** The exceptions the provider code raises or lets through. */
  datatype Failure =
    | RuntimeError(message: string)   // bad configuration, unknown provider
    | OutlineError(message: string)   // the provider produced no usable outline
    | IndexError                      // indexing an empty list or string
    | KeyError                        // indexing a JSON object with 0
    | TypeError                       // indexing null, a number or a boolean
    | AttributeError                  // a str/dict method called on a value of another type
    | HttpStatusError(status: int)    // a non-2xx reply from the completion server
    | JsonDecodeError                 // the completion server's body is not JSON
    | TransportError(message: string) // the POST itself failed (connection error, timeout)

  const DefaultProvider := "openai"
  const DefaultModel := "gpt-4o-chat-bison"
  const DefaultApiVersion := "2024-05-01-preview"
  const DefaultLlamaUrl := "http://localhost:8080/completions"
  const MissingKeyMessage := "api_key missing in config for OpenAI provider"
  const InvalidJsonMessage := "Model returned invalid JSON"
  const MaxTokens: real := 800.0
  const Temperature: real := 0.4

  /** `cfg.get(key)`: the stored value, `None` when the key is absent. */
  function Get(cfg: Config, key: string): Option<string>
  {
    if key in cfg then cfg[key] else None
  }

  /** `cfg.get(key, default)`: a key stored with null yields `None`, not the default. */
  function GetOr(cfg: Config, key: string, default: string): Option<string>
  {
    if key in cfg then cfg[key] else Some(default)
  }

  /** Python truthiness of an optional string. */
  predicate Truthy(v: Option<string>)
  {
    v.Some? && v.value != ""
  }

  /** Python's `a or b` on optional strings. */
  function Or(a: Option<string>, b: Option<string>): Option<string>
  {
    if Truthy(a) then a else b
  }

  /** Characters Python's `str.strip()` removes (`str.isspace`). */
  predicate IsPySpace(c: char)
  {
    var n := c as int;
    (0x09 <= n <= 0x0D) || (0x1C <= n <= 0x20) || n == 0x85 || n == 0xA0 || n == 0x1680
    || (0x2000 <= n <= 0x200A) || n == 0x2028 || n == 0x2029 || n == 0x202F || n == 0x205F
    || n == 0x3000
  }

  /** `s.strip()` */
  function PyStrip(s: string): string
  {
    Trim(s, IsPySpace)
  }

  /** `s.rstrip("/")` */
  function StripTrailingSlashes(s: string): string
  {
    TrimRight(s, c => c == '/')
  }

  // ---------------------------------------------------------------------------
  // Cloud (OpenAI / Azure OpenAI) provider configuration
  // ---------------------------------------------------------------------------

  /** The client the cloud provider talks to. */
  datatype Client =
    | AzureClient(apiKey: string, endpoint: string, apiVersion: string)
    | PublicClient(apiKey: string)

  /** What the cloud provider keeps after construction: its client and its model. */
  datatype CloudSettings = CloudSettings(client: Client, model: Option<string>)

  /**
   * The Azure API version: `(api_version or engine) or "2024-05-01-preview"`.
   * It is never empty and follows the fallback chain api_version, engine, default.
   */
  function ApiVersion(cfg: Config): (v: string)
    ensures v != ""
    ensures Truthy(Get(cfg, "api_version")) ==> v == cfg["api_version"].value
    ensures !Truthy(Get(cfg, "api_version")) && Truthy(Get(cfg, "engine")) ==> v == cfg["engine"].value
    ensures !Truthy(Get(cfg, "api_version")) && !Truthy(Get(cfg, "engine")) ==> v == DefaultApiVersion
  {
    var chosen := Or(Get(cfg, "api_version"), Get(cfg, "engine"));
    Or(chosen, Some(DefaultApiVersion)).value
  }

  /**
   * The configuration checks and defaults of the cloud provider's constructor.
   * It fails exactly when the API key is absent, null or empty; the model
   * defaults only when its key is absent; a non-empty endpoint selects Azure
   * with every trailing '/' removed, otherwise the public client is used.
   */
  function ResolveCloud(cfg: Config): (r: Result<CloudSettings, Failure>)
    ensures r.Failure? <==> !Truthy(Get(cfg, "api_key"))
    ensures r.Failure? ==> r.error == RuntimeError(MissingKeyMessage)
    ensures r.Success? ==> r.value.client.apiKey == cfg["api_key"].value
    ensures r.Success? ==> r.value.model == if "model" in cfg then cfg["model"] else Some(DefaultModel)
    ensures r.Success? ==> (r.value.client.AzureClient? <==> Truthy(Get(cfg, "endpoint")))
    ensures r.Success? && r.value.client.AzureClient? ==>
              var given, kept := cfg["endpoint"].value, r.value.client.endpoint;
              && kept <= given
              && (kept == [] || kept[|kept| - 1] != '/')
              && (forall i :: |kept| <= i < |given| ==> given[i] == '/')
              && r.value.client.apiVersion == ApiVersion(cfg)
  {
    var apiKey := Get(cfg, "api_key");
    if !Truthy(apiKey) then Failure(RuntimeError(MissingKeyMessage))
    else
      var model := GetOr(cfg, "model", DefaultModel);
      var endpoint := Get(cfg, "endpoint");
      var client :=
        if Truthy(endpoint) then AzureClient(apiKey.value, StripTrailingSlashes(endpoint.value), ApiVersion(cfg))
        else PublicClient(apiKey.value);
      Success(CloudSettings(client, model))
  }

  /** An endpoint made only of slashes is non-empty, so it still selects Azure, with an empty endpoint. */
  lemma SlashOnlyEndpointSelectsAzure(cfg: Config, n: nat)
    requires Truthy(Get(cfg, "api_key")) && n > 0
    requires "endpoint" in cfg && cfg["endpoint"] == Some(seq(n, _ => '/'))
    ensures ResolveCloud(cfg).Success?
    ensures ResolveCloud(cfg).value.client == AzureClient(cfg["api_key"].value, "", ApiVersion(cfg))
  {
    var r := ResolveCloud(cfg);
    assert cfg["endpoint"].value[0] == '/';
  }

  // ---------------------------------------------------------------------------
  // Provider selection
  // ---------------------------------------------------------------------------

  /** What `get_provider` builds: which provider, with which settings. */
  datatype ProviderSpec =
    | CloudSpec(settings: CloudSettings)
    | LlamaSpec(baseUrl: Option<string>, model: Option<string>)

  /**
   * `get_provider`: the provider name (default "openai") is lower-cased;
   * "openai" builds the cloud provider, "llama" the completion-server
   * provider, and any other name is rejected.
   */
  function SelectProvider(cfg: Config): (r: Result<ProviderSpec, Failure>)
    ensures GetOr(cfg, "provider", DefaultProvider).None? ==> r == Failure(AttributeError)
    ensures r.Success? && r.value.CloudSpec? <==>
              && GetOr(cfg, "provider", DefaultProvider).Some?
              && AsciiLower(GetOr(cfg, "provider", DefaultProvider).value) == "openai"
              && Truthy(Get(cfg, "api_key"))
    ensures r.Success? && r.value.CloudSpec? ==> Success(r.value.settings) == ResolveCloud(cfg)
    ensures && GetOr(cfg, "provider", DefaultProvider).Some?
            && AsciiLower(GetOr(cfg, "provider", DefaultProvider).value) == "openai"
            && !Truthy(Get(cfg, "api_key"))
            ==> r == Failure(RuntimeError(MissingKeyMessage))
    ensures r.Success? && r.value.LlamaSpec? <==>
              && GetOr(cfg, "provider", DefaultProvider).Some?
              && AsciiLower(GetOr(cfg, "provider", DefaultProvider).value) == "llama"
    ensures r.Success? && r.value.LlamaSpec? ==>
              && r.value.baseUrl == (if "endpoint" in cfg then cfg["endpoint"] else Some(DefaultLlamaUrl))
              && r.value.model == Get(cfg, "model")
    ensures GetOr(cfg, "provider", DefaultProvider).Some? ==>
              var name := AsciiLower(GetOr(cfg, "provider", DefaultProvider).value);
              name != "openai" && name != "llama" ==> r == Failure(RuntimeError("Unknown provider '" + name + "'"))
  {
    match GetOr(cfg, "provider", DefaultProvider)
    case None => Failure(AttributeError)
    case Some(given) =>
      var name := AsciiLower(given);
      if name == "openai" then
        match ResolveCloud(cfg)
        case Success(settings) => Success(CloudSpec(settings))
        case Failure(e) => Failure(e)
      else if name == "llama" then
        Success(LlamaSpec(GetOr(cfg, "endpoint", DefaultLlamaUrl), Get(cfg, "model")))
      else
        Failure(RuntimeError("Unknown provider '" + name + "'"))
  }

  /** Without a "provider" key the cloud provider is chosen. */
  lemma DefaultProviderIsCloud(cfg: Config)
    requires "provider" !in cfg
    ensures SelectProvider(cfg).Success? <==> Truthy(Get(cfg, "api_key"))
    ensures SelectProvider(cfg).Success? ==> SelectProvider(cfg).value.CloudSpec?
  {
    assert AsciiLower(DefaultProvider) == "openai";
  }

  /** Names that differ only in ASCII letter case select the same provider. */
  lemma {:induction false} SelectionIgnoresCase(cfg: Config, a: string, b: string)
    requires AsciiLower(a) == AsciiLower(b)
    ensures SelectProvider(cfg["provider" := Some(a)]) == SelectProvider(cfg["provider" := Some(b)])
  {
    var ca, cb := cfg["provider" := Some(a)], cfg["provider" := Some(b)];
    forall k | k != "provider"
      ensures Get(ca, k) == Get(cb, k) && GetOr(ca, k, DefaultLlamaUrl) == GetOr(cb, k, DefaultLlamaUrl)
              && GetOr(ca, k, DefaultModel) == GetOr(cb, k, DefaultModel)
      ensures (k in ca) == (k in cb) && (k in ca ==> ca[k] == cb[k])
    {
    }
    assert ApiVersion(ca) == ApiVersion(cb);
    assert ResolveCloud(ca) == ResolveCloud(cb);
  }

  /** "azure", in any letter case, is not a provider name: Azure is reached through "openai" and an endpoint. */
  lemma AzureNameRejected(cfg: Config, given: string)
    requires AsciiLower(given) == "azure"
    ensures SelectProvider(cfg["provider" := Some(given)]) == Failure(RuntimeError("Unknown provider 'azure'"))
  {
    var c := cfg["provider" := Some(given)];
    var name := AsciiLower(given);
    assert GetOr(c, "provider", DefaultProvider) == Some(given);
    assert name != "openai" by { assert |name| == 5; }
    assert name != "llama" by { assert name[1] == 'z'; }
    assert "Unknown provider '" + name + "'" == "Unknown provider 'azure'";
  }

  // ---------------------------------------------------------------------------
  // Cloud provider
  // ---------------------------------------------------------------------------

  datatype Message = Message(role: string, content: string)

  /** The chat-completion request: the model and the messages (the response format is always `OutlineModel`). */
  datatype ChatRequest = ChatRequest(model: Option<string>, messages: seq<Message>)

  /** What the structured-output call gave back: an exception, or the parsed object of each choice (`None` when refused). */
  datatype CloudReply =
    | Raised(message: string)
    | Completed(choices: seq<Option<OutlineModel>>)

  const SystemPrompt: string :=
    "You are Not\U{0101}re, an AI presentation assistant.\n"
    + "INPUT: Markdown where important spans are wrapped in <<mark>> \U{2026} <</mark>>.\n"
    + "GOAL: Produce a JSON object with a list of slides for a PowerPoint deck. Each slide must contain:\n"
    + "  \U{2022} title \U{2013} \U{2264} 12 words, sentence-case, without the delimiters\n"
    + "  \U{2022} bullets \U{2013} 2-6 concise bullet strings (\U{2264} 15 words each), without the delimiters\n"
    + "Emphasise ideas contained in the marked spans, but consider the entire text.\n"
    + "Do NOT copy the <<mark>> or <</mark>> tokens, HTML, or markdown formatting into the output.\n"
    + "Summarise; avoid duplication. Respond ONLY with valid JSON conforming to the schema:\n"
    + "{\"slides\": [{\"title\": string, \"bullets\": [string]}]}"

  /** `str(e)` of the exceptions raised inside the try block. */
  const NoChoiceMessage := "list index out of range"
  const RefusedMessage := "'NoneType' object has no attribute 'model_dump'"

  class CloudProvider {
    const client: Client
    const model: Option<string>

    constructor(settings: CloudSettings)
      ensures client == settings.client && model == settings.model
    {
      client := settings.client;
      model := settings.model;
    }

    /** The constructor's checks: fails with the configuration error before any client exists. */
    static method FromConfig(cfg: Config) returns (r: Result<CloudProvider, Failure>)
      ensures r.Failure? <==> ResolveCloud(cfg).Failure?
      ensures r.Failure? ==> r.error == RuntimeError(MissingKeyMessage)
      ensures r.Success? ==> CloudSettings(r.value.client, r.value.model) == ResolveCloud(cfg).value
    {
      match ResolveCloud(cfg)
      case Failure(e) => r := Failure(e);
      case Success(settings) =>
        var p := new CloudProvider(settings);
        r := Success(p);
    }

    /**
     * `generate_outline`: sends the system instruction and then the markdown
     * unchanged as the user message; every exception of the call or of
     * reading its result becomes an OutlineError carrying its message; on
     * success the result is the dumped outline, which conforms to the schema.
     */
    method GenerateOutline(markdown: string, reply: CloudReply) returns (request: ChatRequest, r: Result<Json, Failure>)
      ensures request.model == model
      ensures |request.messages| == 2
      ensures request.messages[0] == Message("system", SystemPrompt)
      ensures request.messages[1] == Message("user", markdown)
      ensures r.Failure? ==> r.error.OutlineError?
      ensures reply.Raised? ==> r == Failure(OutlineError(reply.message))
      ensures r.Success? <==> reply.Completed? && |reply.choices| > 0 && reply.choices[0].Some?
      ensures r.Success? ==> ReadOutline(r.value) == Some(reply.choices[0].value)
    {
      var systemMsg := Message("system", SystemPrompt);
      var userMsg := Message("user", markdown);
      request := ChatRequest(model, [systemMsg, userMsg]);
      match reply
      case Raised(message) =>
        r := Failure(OutlineError(message));
      case Completed(choices) =>
        if |choices| == 0 {
          r := Failure(OutlineError(NoChoiceMessage));
        } else if choices[0].None? {
          r := Failure(OutlineError(RefusedMessage));
        } else {
          r := Success(ModelDump(choices[0].value));
        }
    }
  }

  // ---------------------------------------------------------------------------
  // llama.cpp completion-server provider
  // ---------------------------------------------------------------------------

  const LlamaPromptPrefix: string :=
    "You are a presentation assistant. Produce a concise JSON outline for a PowerPoint presentation based on the article below. "
    + "Prioritise text wrapped in <<mark>> tags, but consider the whole content. Return JSON only.\n\nARTICLE:\n"

  /** What the POST to the completion server gave: the exception it raised, or the reply's status code and body text. */
  datatype HttpReply =
    | PostRaised(message: string)
    | Response(status: int, body: string)

  /**
   * The reply text: `body.get("choices", [{}])[0].get("text", "").strip()`,
   * with the exception each ill-shaped body raises.
   */
  function ReplyText(body: Json): (r: Result<string, Failure>)
    ensures r.Success? ==> r.value == [] || (!IsPySpace(r.value[0]) && !IsPySpace(r.value[|r.value| - 1]))
    ensures r.Failure? ==> !r.error.OutlineError?
    ensures body.JObj? && "choices" !in body.fields ==> r == Success("")
    ensures body.JObj? && "choices" in body.fields && body.fields["choices"] == JArr([]) ==> r == Failure(IndexError)
    ensures body.JObj? && "choices" in body.fields && body.fields["choices"].JArr? && |body.fields["choices"].items| > 0 ==>
              var first := body.fields["choices"].items[0];
              first.JObj? && "text" in first.fields && first.fields["text"].JStr? ==>
                r == Success(PyStrip(first.fields["text"].s))
    ensures body.JObj? && "choices" in body.fields && body.fields["choices"].JArr? && |body.fields["choices"].items| > 0 ==>
              var first := body.fields["choices"].items[0];
              first.JObj? && "text" !in first.fields ==> r == Success("")
  {
    match body
    case JObj(f) =>
      var choices := if "choices" in f then f["choices"] else JArr([JObj(map[])]);
      (match choices
       case JArr(items) =>
         if |items| == 0 then Failure(IndexError)
         else
           (match items[0]
            case JObj(g) =>
              var text := if "text" in g then g["text"] else JStr("");
              if text.JStr? then Success(PyStrip(text.s)) else Failure(AttributeError)
            case _ => Failure(AttributeError))
       case JStr(s) => if s == [] then Failure(IndexError) else Failure(AttributeError)
       case JObj(_) => Failure(KeyError)
       case _ => Failure(TypeError))
    case _ => Failure(AttributeError)
  }

  class LlamaHttpProvider {
    const baseUrl: Option<string>
    const model: Option<string>

    constructor(baseUrl: Option<string> := Some(DefaultLlamaUrl), model: Option<string> := None)
      ensures this.baseUrl == baseUrl && this.model == model
    {
      this.baseUrl := baseUrl;
      this.model := model;
    }

    /**
     * The request body: the fixed prompt followed by the markdown verbatim,
     * at most 800 tokens, temperature 0.4, and a "model" entry exactly when a
     * non-empty model is configured.
     */
    method BuildPayload(markdown: string) returns (payload: map<string, Json>)
      ensures "prompt" in payload && payload["prompt"].JStr?
      ensures var prompt := payload["prompt"].s;
                |LlamaPromptPrefix| <= |prompt| && prompt[..|LlamaPromptPrefix|] == LlamaPromptPrefix
                && prompt[|LlamaPromptPrefix|..] == markdown
      ensures "max_tokens" in payload && payload["max_tokens"] == JNum(MaxTokens)
      ensures "temperature" in payload && payload["temperature"] == JNum(Temperature)
      ensures "model" in payload <==> Truthy(model)
      ensures "model" in payload ==> payload["model"] == JStr(model.value)
      ensures payload.Keys <= {"prompt", "max_tokens", "temperature", "model"}
    {
      payload := map[
        "prompt" := JStr(LlamaPromptPrefix + markdown),
        "max_tokens" := JNum(MaxTokens),
        "temperature" := JNum(Temperature)
      ];
      if Truthy(model) {
        payload := payload["model" := JStr(model.value)];
      }
    }

    /**
     * `generate_outline`: posts the payload; a failing POST, a non-2xx status
     * or a non-JSON body raises its own exception; the reply text is decoded
     * with `parse` and text that is not JSON is an OutlineError; decoded JSON
     * is returned as it is, without a schema check.
     */
    method GenerateOutline(markdown: string, reply: HttpReply, parse: string -> Option<Json>)
      returns (payload: map<string, Json>, r: Result<Json, Failure>)
      ensures "prompt" in payload && payload["prompt"] == JStr(LlamaPromptPrefix + markdown)
      ensures "max_tokens" in payload && payload["max_tokens"] == JNum(MaxTokens)
      ensures "temperature" in payload && payload["temperature"] == JNum(Temperature)
      ensures "model" in payload <==> Truthy(model)
      ensures "model" in payload ==> payload["model"] == JStr(model.value)
      ensures payload.Keys <= {"prompt", "max_tokens", "temperature", "model"}
      ensures reply.PostRaised? ==> r == Failure(TransportError(reply.message))
      ensures reply.Response? && !(200 <= reply.status < 300) ==> r == Failure(HttpStatusError(reply.status))
      ensures reply.Response? && 200 <= reply.status < 300 && parse(reply.body).None? ==> r == Failure(JsonDecodeError)
      ensures reply.Response? && 200 <= reply.status < 300 && parse(reply.body).Some? ==>
                match ReplyText(parse(reply.body).value)
                case Failure(e) => r == Failure(e)
                case Success(text) =>
                  r == if parse(text).Some? then Success(parse(text).value) else Failure(OutlineError(InvalidJsonMessage))
      ensures r.Failure? && r.error.OutlineError? ==> r.error.message == InvalidJsonMessage
    {
      payload := BuildPayload(markdown);
      if reply.PostRaised? {
        r := Failure(TransportError(reply.message));
        return;
      }
      if !(200 <= reply.status < 300) {
        r := Failure(HttpStatusError(reply.status));
        return;
      }
      var body := parse(reply.body);
      if body.None? {
        r := Failure(JsonDecodeError);
        return;
      }
      var text := ReplyText(body.value);
      if text.Failure? {
        r := Failure(text.error);
        return;
      }
      var decoded := parse(text.value);
      if decoded.Some? {
        r := Success(decoded.value);
      } else {
        r := Failure(OutlineError(InvalidJsonMessage));
      }
    }
  }

  /** A provider object built by `get_provider`. */
  datatype Provider = Cloud(cloud: CloudProvider) | Llama(llama: LlamaHttpProvider)

  /** The settings a provider object holds. */
  function SpecOf(p: Provider): ProviderSpec
  {
    match p
    case Cloud(c) => CloudSpec(CloudSettings(c.client, c.model))
    case Llama(l) => LlamaSpec(l.baseUrl, l.model)
  }

  /** `get_provider`: builds the provider `SelectProvider` chooses, or raises its failure. */
  method GetProvider(cfg: Config) returns (r: Result<Provider, Failure>)
    ensures r.Success? <==> SelectProvider(cfg).Success?
    ensures r.Failure? ==> r.error == SelectProvider(cfg).error
    ensures r.Success? ==> SpecOf(r.value) == SelectProvider(cfg).value
  {
    match GetOr(cfg, "provider", DefaultProvider)
    case None =>
      r := Failure(AttributeError);
    case Some(given) =>
      var name := AsciiLower(given);
      if name == "openai" {
        var made := CloudProvider.FromConfig(cfg);
        match made
        case Success(p) => r := Success(Cloud(p));
        case Failure(e) => r := Failure(e);
      } else if name == "llama" {
        var p := new LlamaHttpProvider(GetOr(cfg, "endpoint", DefaultLlamaUrl), Get(cfg, "model"));
        r := Success(Llama(p));
      } else {
        r := Failure(RuntimeError("Unknown provider '" + name + "'"));
      }
  }
}
