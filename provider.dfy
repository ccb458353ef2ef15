/** `ApiModule`: how a chat request is shaped for each provider, how the reply text is
    dug out of the response, how a provider's model list is read, and how the custom
    models join the built-in ones. The network is a parameter (`Network`): it answers
    a request with the decoded JSON response or with the message of the error it threw. */
module Provider {
  import opened Wrappers
  import opened Strings
  import opened Json
  import Utils
  import KeyValueStore

  /** `sendApiRequest(url, options)` as seen by its callers. */
  type Network = Request -> Result<Json>

  /** An HTTP request: verb, URL, headers and the JSON body, if any. */
  datatype Request = Request(verb: string, url: string, headers: map<string, string>, body: Option<Json>)

  /** The `{provider, apiKey, endpoint}` a caller hands in; an empty string stands for a
      missing (falsy) field. */
  datatype ApiConfig = ApiConfig(provider: string, apiKey: string, endpoint: string)

  /** A chat message `{role, content}`; `content` may be `undefined`. */
  datatype Message = Message(role: string, content: Option<Json>)

  const EmptyKeyError: string := "API密钥不能为空"
  const EmptyAddressError: string := "API地址不能为空"
  const UnsupportedProviderError: string := "不支持的API提供商"
  const EmptyResponseError: string := "API返回空响应"
  /** The message of a `TypeError` (a property read on `null`, a missing method). */
  const TypeErrorText: string := "TypeError"
  const MaxTokens: int := 1000

  /** `map[k := v]` when `v` is defined; a property holding `undefined` is left out, as
      `JSON.stringify` leaves it out. */
  function WithOpt(m: map<string, Json>, k: string, v: Option<Json>): (r: map<string, Json>)
    ensures v.Some? ==> r == m[k := v.value]
    ensures v.None? ==> r == m
  {
    if v.Some? then m[k := v.value] else m
  }

  /** `x || 'fallback'` for a string fallback, which is always defined. */
  function OrText(x: Option<Json>, fallback: string): (r: Json)
    ensures TruthyOpt(x) ==> r == x.value
    ensures !TruthyOpt(x) ==> r == JString(fallback)
  {
    if TruthyOpt(x) then x.value else JString(fallback)
  }

  /** A message as a JSON object. */
  function MessageJson(m: Message): Json {
    JObject(WithOpt(map["role" := JString(m.role)], "content", m.content))
  }

  function MessagesJson(ms: seq<Message>): (r: seq<Json>)
    ensures |r| == |ms| && forall i :: 0 <= i < |ms| ==> r[i] == MessageJson(ms[i])
  {
    seq(|ms|, i requires 0 <= i < |ms| => MessageJson(ms[i]))
  }

  /** The message at `i` is the first one whose role is `system`. */
  predicate FirstSystemAt(ms: seq<Message>, i: int) {
    0 <= i < |ms| && ms[i].role == "system" && forall j :: 0 <= j < i ==> ms[j].role != "system"
  }

  /** `messages.find(m => m.role === 'system')`. */
  function FirstSystem(ms: seq<Message>): (r: Option<Message>)
    ensures r.Some? ==> exists i :: FirstSystemAt(ms, i) && ms[i] == r.value
    ensures r.None? <==> forall m :: m in ms ==> m.role != "system"
  {
    if ms == [] then None
    else if ms[0].role == "system" then
      assert FirstSystemAt(ms, 0);
      Some(ms[0])
    else
      var r := FirstSystem(ms[1..]);
      if r.Some? then
        var i :| FirstSystemAt(ms[1..], i) && ms[1..][i] == r.value;
        assert forall j :: 1 <= j < i + 1 ==> ms[j] == ms[1..][j - 1];
        assert FirstSystemAt(ms, i + 1);
        r
      else r
  }

  /** `messages.filter(m => m.role !== 'system')`. */
  function Conversation(ms: seq<Message>): (r: seq<Message>)
    ensures |r| <= |ms|
    ensures forall m :: m in r <==> m in ms && m.role != "system"
    ensures forall m {:trigger multiset(r)[m]} :: multiset(r)[m] == if m.role == "system" then 0 else multiset(ms)[m]
  {
    if ms == [] then []
    else
      assert ms == [ms[0]] + ms[1..];
      if ms[0].role == "system" then Conversation(ms[1..])
      else [ms[0]] + Conversation(ms[1..])
  }

  /** The filter of a concatenation is the concatenation of the filters: the messages
      kept stay in their order. */
  lemma {:induction false} ConversationConcat(a: seq<Message>, b: seq<Message>)
    ensures Conversation(a + b) == Conversation(a) + Conversation(b)
  {
    if a != [] {
      var ab := a + b;
      assert ab[0] == a[0] && ab[1..] == a[1..] + b;
      ConversationConcat(a[1..], b);
    } else {
      assert a + b == b;
    }
  }

  /** One conversation message as Anthropic gets it: `assistant` is kept and every other
      role is sent as `user`. */
  function AnthropicMessage(m: Message): Json {
    MessageJson(Message(if m.role == "assistant" then "assistant" else "user", m.content))
  }

  /** Anthropic's `messages`: the conversation without system messages. */
  function AnthropicMessages(ms: seq<Message>): (r: seq<Json>)
    ensures |r| == |Conversation(ms)|
    ensures forall i :: 0 <= i < |r| ==> r[i] == AnthropicMessage(Conversation(ms)[i])
  {
    var conv := Conversation(ms);
    seq(|conv|, i requires 0 <= i < |conv| => AnthropicMessage(conv[i]))
  }

  /** Google's `contents`: `assistant` becomes `model`, every other role `user`, and the
      content moves into `parts: [{text}]`. */
  function GoogleContent(m: Message): Json {
    var role := if m.role == "assistant" then "model" else "user";
    JObject(map["role" := JString(role), "parts" := Arr([JObject(WithOpt(map[], "text", m.content))])])
  }

  function GoogleContents(ms: seq<Message>): (r: seq<Json>)
    ensures |r| == |ms| && forall i :: 0 <= i < |ms| ==> r[i] == GoogleContent(ms[i])
  {
    seq(|ms|, i requires 0 <= i < |ms| => GoogleContent(ms[i]))
  }

  /** The request body of `sendChatMessage` per provider (the `temperature: 0.7` entry is
      not represented: numbers are integers here). */
  function ChatBody(provider: string, ms: seq<Message>, modelId: Option<Json>): Json {
    if provider == "openai" then
      JObject(map["model" := OrText(modelId, "gpt-3.5-turbo"), "messages" := Arr(MessagesJson(ms)),
                  "max_tokens" := JNum(MaxTokens)])
    else if provider == "anthropic" then
      var body := map["model" := OrText(modelId, "claude-3-haiku-20240307"),
                      "messages" := Arr(AnthropicMessages(ms)), "max_tokens" := JNum(MaxTokens)];
      var sys := FirstSystem(ms);
      JObject(if sys.Some? then WithOpt(body, "system", sys.value.content) else body)
    else if provider == "google" then
      JObject(map["contents" := Arr(GoogleContents(ms)),
                  "generationConfig" := JObject(map["maxOutputTokens" := JNum(MaxTokens)])])
    else
      JObject(map["model" := OrText(modelId, "default"), "messages" := Arr(MessagesJson(ms)),
                  "max_tokens" := JNum(MaxTokens)])
  }

  /** The request URL: the endpoint, or for Google `<endpoint>/<model>:generateContent`. */
  function ChatUrl(provider: string, endpoint: string, modelId: Option<Json>): string {
    if provider == "google" then endpoint + "/" + Text(OrText(modelId, "gemini-pro")) + ":generateContent"
    else endpoint
  }

  /** The request `sendChatMessage` sends, or the error it throws before sending. */
  function BuildChatRequest(cfg: ApiConfig, ms: seq<Message>, modelId: Option<Json>): (r: Result<Request>)
    ensures cfg.apiKey == "" ==> r == Err(EmptyKeyError)
    ensures cfg.apiKey != "" && cfg.endpoint == "" ==> r == Err(EmptyAddressError)
    ensures r.Ok? ==>
      && r.value.verb == "POST" && r.value.body.Some?
      && r.value.headers == Utils.ApiHeaders(cfg.apiKey, cfg.provider)
      && (cfg.provider != "google" ==> r.value.url == cfg.endpoint)
  {
    if cfg.apiKey == "" then Err(EmptyKeyError)
    else if cfg.endpoint == "" then Err(EmptyAddressError)
    else Ok(Request("POST", ChatUrl(cfg.provider, cfg.endpoint, modelId),
                    Utils.ApiHeaders(cfg.apiKey, cfg.provider), Some(ChatBody(cfg.provider, ms, modelId))))
  }

  /** `v?.[k]`: `undefined` when `v` is `null` or `undefined`, else the property. */
  function Step(v: Option<Json>, k: string): Option<Json> {
    if v.None? || v.value.JNull? then None else Prop(v.value, k)
  }

  /** `v.k1?.k2?.…` on a non-null `v`. */
  function Path(v: Option<Json>, ks: seq<string>): Option<Json>
    decreases |ks|
  {
    if ks == [] then v else Path(Step(v, ks[0]), ks[1..])
  }

  const OpenAiContentPath: seq<string> := ["choices", "0", "message", "content"]
  const AnthropicContentPath: seq<string> := ["content", "0", "text"]
  const GoogleContentPath: seq<string> := ["candidates", "0", "content", "parts", "0", "text"]

  /** The reply of `sendChatMessage` taken out of the response, or the error thrown. */
  function ExtractContent(provider: string, response: Json, codec: Codec): (r: Result<Json>)
    ensures response.JNull? ==> r == Err(TypeErrorText)
    ensures r.Ok? ==> Truthy(r.value)
    ensures !response.JNull? && provider == "openai" ==>
      r == (if TruthyOpt(Path(Some(response), OpenAiContentPath))
            then Ok(Path(Some(response), OpenAiContentPath).value) else Err(EmptyResponseError))
    ensures !response.JNull? && provider == "anthropic" ==>
      r == (if TruthyOpt(Path(Some(response), AnthropicContentPath))
            then Ok(Path(Some(response), AnthropicContentPath).value) else Err(EmptyResponseError))
    ensures !response.JNull? && provider == "google" ==>
      r == (if TruthyOpt(Path(Some(response), GoogleContentPath))
            then Ok(Path(Some(response), GoogleContentPath).value) else Err(EmptyResponseError))
  {
    if response.JNull? then Err(TypeErrorText)
    else
      var content :=
        if provider == "openai" then OrText(Path(Some(response), OpenAiContentPath), "")
        else if provider == "anthropic" then OrText(Path(Some(response), AnthropicContentPath), "")
        else if provider == "google" then OrText(Path(Some(response), GoogleContentPath), "")
        else
          var chained := Or(Path(Some(response), OpenAiContentPath),
                         Or(Prop(response, "content"), Or(Prop(response, "text"), Prop(response, "result"))));
          OrText(chained, codec.stringify(response));
      if Truthy(content) then Ok(content) else Err(EmptyResponseError)
  }

  /** For a provider outside the three named ones the chain ends in the response's JSON
      text, which is never empty, so extraction fails only on a `null` response. */
  lemma CustomContentNeverEmpty(provider: string, response: Json, codec: Codec)
    requires Lawful(codec)
    requires provider != "openai" && provider != "anthropic" && provider != "google"
    ensures ExtractContent(provider, response, codec).Err? <==> response.JNull?
  {
    assert codec.stringify(response) != "";
  }

  /** `sendChatMessage(config, messages, modelId)`: the content, or the error it throws. */
  function SendChatMessage(cfg: ApiConfig, ms: seq<Message>, modelId: Option<Json>,
                           codec: Codec, network: Network): (r: Result<Json>)
    ensures cfg.apiKey == "" ==> r == Err(EmptyKeyError)
    ensures cfg.apiKey != "" && cfg.endpoint == "" ==> r == Err(EmptyAddressError)
    ensures r.Ok? ==> Truthy(r.value)
    ensures r.Ok? ==>
      && network(BuildChatRequest(cfg, ms, modelId).value).Ok?
      && r == ExtractContent(cfg.provider, network(BuildChatRequest(cfg, ms, modelId).value).value, codec)
  {
    match BuildChatRequest(cfg, ms, modelId)
    case Err(e) => Err(e)
    case Ok(req) =>
      match network(req)
      case Err(e) => Err(e)
      case Ok(response) => ExtractContent(cfg.provider, response, codec)
  }

  /** Every message Anthropic gets has role `user` or `assistant`, and keeps the
      content of a non-system message of the input, in order. */
  lemma AnthropicMessagesRoles(ms: seq<Message>)
    ensures forall i :: 0 <= i < |AnthropicMessages(ms)| ==>
      Prop(AnthropicMessages(ms)[i], "role") in {Some(JString("user")), Some(JString("assistant"))}
    ensures forall i :: 0 <= i < |AnthropicMessages(ms)| ==>
      Conversation(ms)[i] in ms && Conversation(ms)[i].role != "system"
      && Prop(AnthropicMessages(ms)[i], "content") == Conversation(ms)[i].content
  {
    forall i | 0 <= i < |AnthropicMessages(ms)|
      ensures Prop(AnthropicMessages(ms)[i], "content") == Conversation(ms)[i].content
    {
      assert Conversation(ms)[i] in Conversation(ms);
    }
  }

  /** Anthropic's body: the conversation without system messages, and a top-level
      `system` exactly when a system message with content exists, holding the content
      of the first one. */
  lemma AnthropicBodyShape(ms: seq<Message>, modelId: Option<Json>)
    ensures var body := ChatBody("anthropic", ms, modelId);
      && body.JObject?
      && body.fields["messages"] == Arr(AnthropicMessages(ms))
      && body.fields["model"] == OrText(modelId, "claude-3-haiku-20240307")
      && ("system" in body.fields <==> FirstSystem(ms).Some? && FirstSystem(ms).value.content.Some?)
      && ("system" in body.fields ==> body.fields["system"] == FirstSystem(ms).value.content.value)
  {
  }

  /** Google's request goes to `<endpoint>/<model or gemini-pro>:generateContent`, and
      every content entry has role `model` or `user`, `model` exactly for `assistant`. */
  lemma GoogleRequestShape(cfg: ApiConfig, ms: seq<Message>, modelId: Option<Json>)
    requires cfg.provider == "google" && cfg.apiKey != "" && cfg.endpoint != ""
    ensures var req := BuildChatRequest(cfg, ms, modelId);
      && req.Ok?
      && req.value.url == cfg.endpoint + "/" + (if TruthyOpt(modelId) then Text(modelId.value) else "gemini-pro")
                          + ":generateContent"
      && req.value.headers["x-goog-api-key"] == cfg.apiKey
      && forall i :: 0 <= i < |ms| ==>
           Prop(GoogleContents(ms)[i], "role") == Some(JString(if ms[i].role == "assistant" then "model" else "user"))
  {
  }

  // ----- the model list of one provider (`fetchAvailableModels`) -----

  const OpenAiModelsUrl: string := "https://api.openai.com/v1/models"
  const AnthropicModelsUrl: string := "https://api.anthropic.com/v1/models"
  const GoogleModelsUrl: string := "https://generativelanguage.googleapis.com/v1beta/models"

  /** The GET request for a provider's model list, or the error thrown before sending. */
  function ModelsRequest(cfg: ApiConfig): (r: Result<Request>)
    ensures cfg.provider !in {"openai", "anthropic", "google", "custom"} ==> r == Err(UnsupportedProviderError)
    ensures r.Ok? ==> r.value.url != "" && r.value.verb == "GET" && r.value.body.None?
  {
    var url :=
      if cfg.provider == "openai" then
        (if cfg.endpoint != "" then StripSuffix(cfg.endpoint, "/chat/completions") + "/models" else OpenAiModelsUrl)
      else if cfg.provider == "anthropic" then (if cfg.endpoint != "" then cfg.endpoint else AnthropicModelsUrl)
      else if cfg.provider == "google" then (if cfg.endpoint != "" then cfg.endpoint else GoogleModelsUrl)
      else cfg.endpoint;
    var headers :=
      if cfg.provider == "custom" then map["Content-Type" := "application/json", "Authorization" := "Bearer " + cfg.apiKey]
      else Utils.ApiHeaders(cfg.apiKey, cfg.provider);
    if cfg.provider !in {"openai", "anthropic", "google", "custom"} then Err(UnsupportedProviderError)
    else if url == "" then Err(EmptyAddressError)
    else Ok(Request("GET", url, headers, None))
  }

  /** The OpenAI models URL: a trailing `/chat/completions` of the endpoint is replaced by
      `/models`; any other endpoint gets `/models` appended. */
  lemma OpenAiModelsUrlFromChatEndpoint(base: string, apiKey: string)
    ensures ModelsRequest(ApiConfig("openai", apiKey, base + "/chat/completions")).value.url == base + "/models"
    ensures base != "" && !EndsWith(base, "/chat/completions") ==>
      ModelsRequest(ApiConfig("openai", apiKey, base)).value.url == base + "/models"
  {
    var e := base + "/chat/completions";
    assert EndsWith(e, "/chat/completions") by {
      assert e[|e| - |"/chat/completions"|..] == "/chat/completions";
    }
    assert e[..|e| - |"/chat/completions"|] == base;
  }

  /** `v.includes(sub)` on a string or an array; anything else has no `includes` (`TypeError`). */
  function Includes(v: Option<Json>, sub: string): Option<bool> {
    match v
    case Some(JString(s)) => Some(Contains(s, sub))
    case Some(JArray(items, _)) => Some(JString(sub) in items)
    case _ => None
  }

  /** What happens to one entry of a model list: left out by the filter, kept as the
      given model record, or a `TypeError`. */
  datatype Kept = Skip | Keep(model: Json) | Fault

  /** The record stored for one model. */
  function ModelRecord(id: Option<Json>, name: Option<Json>, description: Json, provider: string): Json {
    JObject(WithOpt(WithOpt(map["description" := description, "provider" := JString(provider)], "id", id), "name", name))
  }

  const CustomModelDescription: string := "自定义API模型"

  /** The model list a custom endpoint is given when its response has none. */
  const DefaultCustomModel: Json :=
    ModelRecord(Some(JString("custom-model")), Some(JString("自定义模型")), JString(CustomModelDescription), "custom")

  /** One entry of a provider's model list, as the `filter`/`map` of `fetchAvailableModels`
      treats it; `dateText` formats `created` as `toLocaleDateString` would. */
  function ModelEntry(provider: string, item: Json, dateText: Option<Json> -> string): (r: Kept)
    ensures r.Keep? ==>
      Prop(r.model, "provider") == Some(JString(if provider in {"openai", "anthropic", "google"} then provider else "custom"))
  {
    if item.JNull? then Fault
    else if provider == "openai" then
      var id := Prop(item, "id");
      match Includes(id, "gpt")
      case None => Fault
      case Some(gpt) =>
        var text := Includes(id, "text");
        if !gpt && text.None? then Fault
        else if gpt || text.value then
          Keep(ModelRecord(id, id, JString("OpenAI模型 (创建时间: " + dateText(Prop(item, "created")) + ")"), "openai"))
        else Skip
    else if provider == "anthropic" then
      Keep(ModelRecord(Prop(item, "id"), Prop(item, "id"), JString("Anthropic Claude模型"), "anthropic"))
    else if provider == "google" then
      var name := Prop(item, "name");
      match Includes(name, "models/gemini")
      case None => Fault
      case Some(false) => Skip
      case Some(true) =>
        if name.value.JString? then
          var id := JString(ReplaceFirst(name.value.s, "models/", ""));
          Keep(ModelRecord(Some(id), Some(id), JString("Google Gemini模型"), "google"))
        else Fault
    else
      var id := Or(Prop(item, "id"), Or(Prop(item, "name"), Prop(item, "model")));
      var name := Or(Prop(item, "name"), Or(Prop(item, "id"), Prop(item, "model")));
      Keep(ModelRecord(id, name, OrText(Prop(item, "description"), CustomModelDescription), "custom"))
  }

  /** The kept records of a list, in order, or `None` on a `TypeError`. */
  function CollectModels(provider: string, items: seq<Json>, dateText: Option<Json> -> string): (r: Option<seq<Json>>)
    ensures r.Some? ==> |r.value| <= |items|
    ensures r.Some? ==> forall m :: m in r.value ==> exists i :: 0 <= i < |items| && ModelEntry(provider, items[i], dateText) == Keep(m)
    ensures r.None? <==> exists i :: 0 <= i < |items| && ModelEntry(provider, items[i], dateText) == Fault
  {
    if items == [] then Some([])
    else
      var rest := CollectModels(provider, items[1..], dateText);
      match ModelEntry(provider, items[0], dateText)
      case Fault => None
      case Skip => rest
      case Keep(m) => if rest.None? then None else Some([m] + rest.value)
  }

  /** The list an array-shaped custom response yields. */
  function ArrayOf(v: Option<Json>): Option<seq<Json>> {
    match v
    case Some(JArray(items, _)) => Some(items)
    case _ => None
  }

  /** The parsing step of `fetchAvailableModels`: the model records, or `None` on a `TypeError`. */
  function ParseModels(provider: string, response: Json, dateText: Option<Json> -> string): Option<seq<Json>> {
    if provider == "openai" || provider == "anthropic" then
      if response.JNull? then None
      else match ArrayOf(Prop(response, "data"))
        case None => None
        case Some(items) => CollectModels(provider, items, dateText)
    else if provider == "google" then
      if response.JNull? then None
      else match ArrayOf(Prop(response, "models"))
        case None => None
        case Some(items) => CollectModels(provider, items, dateText)
    else if provider == "custom" then
      if response.JArray? then CollectModels(provider, response.items, dateText)
      else if response.JNull? then None
      else
        var data := Prop(response, "data");
        if TruthyOpt(data) && data.value.JArray? then CollectModels(provider, data.value.items, dateText)
        else Some([DefaultCustomModel])
    else Some([])
  }

  /** The fetched Google ids have the first `models/` taken out: a name
      `models/gemini-x` is listed as `gemini-x`; a name without `gemini` is dropped. */
  lemma GoogleModelIdStripped(rest: string, dateText: Option<Json> -> string)
    ensures var name := "models/" + rest;
      ModelEntry("google", JObject(map["name" := JString(name)]), dateText)
      == if Contains(name, "models/gemini")
         then Keep(ModelRecord(Some(JString(rest)), Some(JString(rest)), JString("Google Gemini模型"), "google"))
         else Skip
  {
    var name := "models/" + rest;
    var item := JObject(map["name" := JString(name)]);
    assert StartsWith(name, "models/") by { assert name[..|"models/"|] == "models/"; }
    assert IndexOf(name, "models/") == 0;
    assert name[|"models/"|..] == rest;
    assert ReplaceFirst(name, "models/", "") == rest by {
      assert name[..0] + "" + name[|"models/"|..] == rest;
    }
    assert Prop(item, "name") == Some(JString(name));
    assert Includes(Prop(item, "name"), "models/gemini") == Some(Contains(name, "models/gemini"));
  }

  /** A custom endpoint is never without models: an answer that is neither an array nor
      carries a `data` array yields the default model. */
  lemma CustomResponseWithoutListGivesDefault(response: Json, dateText: Option<Json> -> string)
    requires !response.JArray? && !response.JNull?
    requires !(TruthyOpt(Prop(response, "data")) && Prop(response, "data").value.JArray?)
    ensures ParseModels("custom", response, dateText) == Some([DefaultCustomModel])
  {
  }

  /** Every record a provider parser keeps names that provider. */
  lemma {:induction false} CollectedModelsNameProvider(provider: string, items: seq<Json>, dateText: Option<Json> -> string)
    requires provider in {"openai", "anthropic", "google", "custom"}
    requires CollectModels(provider, items, dateText).Some?
    ensures forall m :: m in CollectModels(provider, items, dateText).value ==>
      Prop(m, "provider") == Some(JString(provider))
  {
    forall m | m in CollectModels(provider, items, dateText).value
      ensures Prop(m, "provider") == Some(JString(provider))
    {
      var i :| 0 <= i < |items| && ModelEntry(provider, items[i], dateText) == Keep(m);
    }
  }


  /** How `fetchAvailableModels` ends: it throws (a missing key is checked before its
      `try`), returns `{success: false, error}`, or returns the models. */
  datatype ModelsResult = Rejected(message: string) | Failed(error: string) | Fetched(models: seq<Json>)

  /** The network part of `fetchAvailableModels`, before the list is saved. */
  function FetchModels(cfg: ApiConfig, network: Network, dateText: Option<Json> -> string): (r: ModelsResult)
    ensures r.Rejected? <==> cfg.apiKey == ""
    ensures cfg.apiKey != "" && cfg.provider !in {"openai", "anthropic", "google", "custom"} ==>
      r == Failed(UnsupportedProviderError)
    ensures r.Fetched? ==>
      && ModelsRequest(cfg).Ok? && network(ModelsRequest(cfg).value).Ok?
      && ParseModels(cfg.provider, network(ModelsRequest(cfg).value).value, dateText) == Some(r.models)
  {
    if cfg.apiKey == "" then Rejected(EmptyKeyError)
    else match ModelsRequest(cfg)
      case Err(e) => Failed(e)
      case Ok(req) =>
        match network(req)
        case Err(e) => Failed(e)
        case Ok(response) =>
          match ParseModels(cfg.provider, response, dateText)
          case None => Failed(TypeErrorText)
          case Some(models) => Fetched(models)
  }

  /** `fetchAvailableModels(config)`: on success `availableModels[provider] = models` is
      assigned on the object `getAvailableModels()` returned (the cached one, unless it
      was falsy and `{}` stood in) and saved; the answer does not depend on the save. */
  function FetchAvailableModelsSpec(env: KeyValueStore.Session, db: KeyValueStore.Db, cfg: ApiConfig,
                                    network: Network, dateText: Option<Json> -> string): (ModelsResult, KeyValueStore.Db)
  {
    var r := FetchModels(cfg, network, dateText);
    if !r.Fetched? then (r, db) else (r, StoreModels(env, db, cfg.provider, r.models))
  }

  /** The saving step of a successful `fetchAvailableModels`. */
  function StoreModels(env: KeyValueStore.Session, db: KeyValueStore.Db, provider: string, models: seq<Json>)
    : KeyValueStore.Db
  {
    var (cached, db1) := KeyValueStore.Fetch(env, db, "available_models");
    var available := if Truthy(cached) then cached else EmptyObject;
    var updated := PutProp(available, provider, Arr(models));
    var db2 := if Truthy(cached) then KeyValueStore.Mutate(db1, "available_models", updated) else db1;
    KeyValueStore.Save(env, db2, "available_models", updated).1
  }

  /** After a fetch, the cached model lists hold the new list under the provider when
      the list object is an object or an array, whatever the quota decided about the save. */
  lemma FetchedModelsVisibleInSession(env: KeyValueStore.Session, db: KeyValueStore.Db, provider: string,
                                      models: seq<Json>)
    ensures var db' := StoreModels(env, db, provider, models);
      var cached := KeyValueStore.Fetch(env, db, "available_models").0;
      (cached.JObject? || cached.JArray?) ==>
        "available_models" in db'.cache && Prop(db'.cache["available_models"], provider) == Some(Arr(models))
  {
  }

  /** With nothing stored under `available_models`, `get` answers the `[]` fallback, the
      list is attached to that array as a named property, and `JSON.stringify` drops it:
      after a reload the lists are an empty array again, with no entry for the provider. */
  lemma FetchedModelsLostOnReload(env: KeyValueStore.Session, db: KeyValueStore.Db, provider: string,
                                  models: seq<Json>)
    requires Lawful(env.codec)
    requires "available_models" !in db.cache && "available_models" !in db.items
    ensures var db' := StoreModels(env, db, provider, models);
      var reloaded := KeyValueStore.Fetch(env, KeyValueStore.Reseed(db'), "available_models").0;
      reloaded == EmptyArray && Prop(reloaded, provider).None?
  {
    var db' := StoreModels(env, db, provider, models);
    var updated := JArray([], map[provider := Arr(models)]);
    assert Persisted(updated) == EmptyArray;
    assert env.codec.parse(env.codec.stringify(updated)) == Some(EmptyArray);
    assert "available_models" !in KeyValueStore.PlaceholderNames;
    if "available_models" in db'.items {
      assert db'.items["available_models"] == env.codec.stringify(updated);
    }
  }

  // ----- built-in and custom models (`getAllModels`, `getActiveModels`) -----

  function BuiltinModel(name: string, description: string, endpoint: string, provider: string): Json {
    JObject(map["name" := JString(name), "description" := JString(description), "type" := JString("builtin"),
                "endpoint" := JString(endpoint), "provider" := JString(provider)])
  }

  /** `Config.apiModels`. */
  const BuiltinModels: map<string, Json> := map[
    "gpt-3.5" := BuiltinModel("GPT-3.5 Turbo", "快速、经济、适用于大多数对话场景",
                              "https://api.openai.com/v1/chat/completions", "openai"),
    "gpt-4" := BuiltinModel("GPT-4", "更智能、理解更深层，适用于复杂对话",
                            "https://api.openai.com/v1/chat/completions", "openai"),
    "claude" := BuiltinModel("Claude", "擅长创意写作和逻辑推理", "https://api.anthropic.com/v1/messages", "anthropic"),
    "ernie" := BuiltinModel("文心一言", "中文理解优秀，本土化优化",
                            "https://aip.baidubce.com/rpc/2.0/ai_custom/v1/wenxinworkshop/chat/completions", "baidu")]

  /** The display names of `Config.apiProviders`. */
  const ProviderNames: map<string, string> := map[
    "openai" := "OpenAI", "anthropic" := "Anthropic Claude", "google" := "Google Gemini",
    "azure" := "Azure OpenAI", "custom" := "自定义"]

  /** `Config.apiProviders[provider]?.name || provider`. */
  function ProviderName(p: string): string {
    if p in ProviderNames then ProviderNames[p] else p
  }

  /** The key of a custom model: `<provider>:<id>`. */
  function ModelKey(p: string, model: Json): string {
    p + ":" + TextOpt(Prop(model, "id"))
  }

  /** The entry `getAllModels` makes for one fetched model. */
  function CustomEntry(p: string, model: Json): Json {
    JObject(WithOpt(map["name" := JString(TextOpt(Prop(model, "name")) + " (" + ProviderName(p) + ")"),
                        "description" := OrText(Prop(model, "description"), "自定义" + p + "模型"),
                        "type" := JString("custom"), "provider" := JString(p)],
                    "modelId", Prop(model, "id")))
  }

  /** `availableModels[provider].forEach(...)`: later models overwrite earlier ones with the same key. */
  function AddModels(acc: map<string, Json>, p: string, models: seq<Json>): Option<map<string, Json>>
    decreases |models|
  {
    if models == [] then Some(acc)
    else if models[0].JNull? then None
    else AddModels(acc[ModelKey(p, models[0]) := CustomEntry(p, models[0])], p, models[1..])
  }

  /** `Object.entries(customConfigs).forEach(...)` over the providers in `order`, the
      insertion order of the configs object's keys. */
  function AddProviders(acc: map<string, Json>, configs: Json, available: Json, order: seq<string>): Option<map<string, Json>>
    decreases |order|
  {
    if order == [] then Some(acc)
    else
      var p := order[0];
      var props := OwnProps(configs);
      if p !in props then AddProviders(acc, configs, available, order[1..])
      else if props[p].JNull? then None
      else if !(TruthyOpt(Prop(props[p], "enabled")) && TruthyOpt(Prop(available, p))) then
        AddProviders(acc, configs, available, order[1..])
      else match Prop(available, p)
        case Some(JArray(models, _)) =>
          (match AddModels(acc, p, models)
           case None => None
           case Some(acc1) => AddProviders(acc1, configs, available, order[1..]))
        case _ => None
  }

  /** `getAllModels()`: the built-in models plus one entry per fetched model of every
      enabled provider, or `None` when it throws. */
  function GetAllModels(configs: Json, available: Json, order: seq<string>): Option<map<string, Json>> {
    AddProviders(BuiltinModels, configs, available, order)
  }

  /** `getApiConfig(provider)`: all configs for a falsy provider, else `configs[provider] || null`. */
  function ApiConfigOf(configs: Json, provider: Option<Json>): Json {
    if !TruthyOpt(provider) then configs
    else
      var c := Prop(configs, Text(provider.value));
      if TruthyOpt(c) then c.value else JNull
  }

  /** The filter of `getActiveModels`. */
  predicate IsActive(model: Json, configs: Json) {
    || Prop(model, "type") == Some(JString("builtin"))
    || (Prop(model, "type") == Some(JString("custom"))
        && TruthyOpt(Step(Some(ApiConfigOf(configs, Prop(model, "provider"))), "enabled")))
  }

  /** `getActiveModels()` on the result of `getAllModels()`. */
  function GetActiveModels(all: map<string, Json>, configs: Json): (r: map<string, Json>)
    ensures r.Keys <= all.Keys
    ensures forall k :: k in r ==> r[k] == all[k] && IsActive(all[k], configs)
    ensures forall k :: k in all && IsActive(all[k], configs) ==> k in r
  {
    map k | k in all && IsActive(all[k], configs) :: all[k]
  }

  /** What every model `getAllModels` lists satisfies: built-in, or a custom entry of a
      non-empty provider whose config is enabled. */
  predicate Listed(model: Json, configs: Json) {
    || Prop(model, "type") == Some(JString("builtin"))
    || (exists p :: p != "" && p in OwnProps(configs) && Prop(model, "provider") == Some(JString(p))
                  && Prop(model, "type") == Some(JString("custom"))
                  && TruthyOpt(Prop(OwnProps(configs)[p], "enabled")))
  }

  lemma {:induction false} AddModelsListed(acc: map<string, Json>, p: string, models: seq<Json>, configs: Json)
    requires p != "" && p in OwnProps(configs) && TruthyOpt(Prop(OwnProps(configs)[p], "enabled"))
    requires forall k :: k in acc ==> Listed(acc[k], configs)
    requires AddModels(acc, p, models).Some?
    ensures forall k :: k in AddModels(acc, p, models).value ==> Listed(AddModels(acc, p, models).value[k], configs)
    decreases |models|
  {
    if models != [] {
      var e := CustomEntry(p, models[0]);
      assert Prop(e, "provider") == Some(JString(p)) && Prop(e, "type") == Some(JString("custom"));
      assert Listed(e, configs);
      AddModelsListed(acc[ModelKey(p, models[0]) := e], p, models[1..], configs);
    }
  }

  lemma {:induction false} AddProvidersListed(acc: map<string, Json>, configs: Json, available: Json, order: seq<string>)
    requires "" !in order
    requires forall k :: k in acc ==> Listed(acc[k], configs)
    requires AddProviders(acc, configs, available, order).Some?
    ensures forall k :: k in AddProviders(acc, configs, available, order).value ==>
      Listed(AddProviders(acc, configs, available, order).value[k], configs)
    decreases |order|
  {
    if order != [] {
      var p := order[0];
      var props := OwnProps(configs);
      assert "" !in order[1..];
      if p !in props || !(TruthyOpt(Prop(props[p], "enabled")) && TruthyOpt(Prop(available, p))) {
        AddProvidersListed(acc, configs, available, order[1..]);
      } else {
        var models := Prop(available, p).value.items;
        AddModelsListed(acc, p, models, configs);
        AddProvidersListed(AddModels(acc, p, models).value, configs, available, order[1..]);
      }
    }
  }

  /** Adding one provider's models keeps every key already there and adds the key of
      every model of the list. */
  lemma {:induction false} AddModelsComplete(acc: map<string, Json>, p: string, models: seq<Json>)
    requires AddModels(acc, p, models).Some?
    ensures acc.Keys <= AddModels(acc, p, models).value.Keys
    ensures forall m :: m in models ==> ModelKey(p, m) in AddModels(acc, p, models).value
    decreases |models|
  {
    if models != [] {
      var acc1 := acc[ModelKey(p, models[0]) := CustomEntry(p, models[0])];
      AddModelsComplete(acc1, p, models[1..]);
      forall m | m in models ensures ModelKey(p, m) in AddModels(acc, p, models).value {
        if m != models[0] {
          assert m in models[1..];
        }
      }
    }
  }

  /** The provider loop never removes a key. */
  lemma {:induction false} AddProvidersKeeps(acc: map<string, Json>, configs: Json, available: Json, order: seq<string>)
    requires AddProviders(acc, configs, available, order).Some?
    ensures acc.Keys <= AddProviders(acc, configs, available, order).value.Keys
    decreases |order|
  {
    if order != [] {
      var p := order[0];
      var props := OwnProps(configs);
      if p !in props || !(TruthyOpt(Prop(props[p], "enabled")) && TruthyOpt(Prop(available, p))) {
        AddProvidersKeeps(acc, configs, available, order[1..]);
      } else {
        var models := Prop(available, p).value.items;
        AddModelsComplete(acc, p, models);
        AddProvidersKeeps(AddModels(acc, p, models).value, configs, available, order[1..]);
      }
    }
  }

  /** Every model of an enabled provider the loop visits gets its `<provider>:<id>` key. */
  lemma {:induction false} AddProvidersComplete(acc: map<string, Json>, configs: Json, available: Json,
                                                order: seq<string>, p: string)
    requires AddProviders(acc, configs, available, order).Some?
    requires p in order && p in OwnProps(configs)
    requires TruthyOpt(Prop(OwnProps(configs)[p], "enabled")) && TruthyOpt(Prop(available, p))
    ensures Prop(available, p).value.JArray?
    ensures forall m :: m in Prop(available, p).value.items ==>
      ModelKey(p, m) in AddProviders(acc, configs, available, order).value
    decreases |order|
  {
    var q := order[0];
    var props := OwnProps(configs);
    if q == p {
      var models := Prop(available, p).value.items;
      AddModelsComplete(acc, p, models);
      AddProvidersKeeps(AddModels(acc, p, models).value, configs, available, order[1..]);
    } else {
      assert p in order[1..];
      if q !in props || !(TruthyOpt(Prop(props[q], "enabled")) && TruthyOpt(Prop(available, q))) {
        AddProvidersComplete(acc, configs, available, order[1..], p);
      } else {
        var models := Prop(available, q).value.items;
        AddProvidersComplete(AddModels(acc, q, models).value, configs, available, order[1..], p);
      }
    }
  }

  /** `getAllModels()` lists every built-in model and, when `order` enumerates the config
      keys as `Object.entries` does, every fetched model of every enabled provider that
      has a model list. */
  lemma GetAllModelsComplete(configs: Json, available: Json, order: seq<string>)
    requires Enumerates(order, OwnProps(configs).Keys)
    requires GetAllModels(configs, available, order).Some?
    ensures BuiltinModels.Keys <= GetAllModels(configs, available, order).value.Keys
    ensures forall p :: p in OwnProps(configs) && TruthyOpt(Prop(OwnProps(configs)[p], "enabled"))
                        && TruthyOpt(Prop(available, p)) ==>
      Prop(available, p).value.JArray?
      && forall m :: m in Prop(available, p).value.items ==> ModelKey(p, m) in GetAllModels(configs, available, order).value
  {
    AddProvidersKeeps(BuiltinModels, configs, available, order);
    forall p | p in OwnProps(configs) && TruthyOpt(Prop(OwnProps(configs)[p], "enabled")) && TruthyOpt(Prop(available, p))
      ensures Prop(available, p).value.JArray?
      ensures forall m :: m in Prop(available, p).value.items ==> ModelKey(p, m) in GetAllModels(configs, available, order).value
    {
      AddProvidersComplete(BuiltinModels, configs, available, order, p);
    }
  }

  /** A listed model passes the filter of `getActiveModels`. */
  lemma ListedIsActive(model: Json, configs: Json)
    requires Listed(model, configs)
    ensures IsActive(model, configs)
  {
    if Prop(model, "type") != Some(JString("builtin")) {
      var p :| p != "" && p in OwnProps(configs) && Prop(model, "provider") == Some(JString(p))
               && Prop(model, "type") == Some(JString("custom"))
               && TruthyOpt(Prop(OwnProps(configs)[p], "enabled"));
      assert Text(JString(p)) == p;
      assert ApiConfigOf(configs, Prop(model, "provider")) == OwnProps(configs)[p];
    }
  }

  /** `getActiveModels()` keeps everything `getAllModels()` lists, when both read the same
      configs and no provider key is empty: a custom entry is only made for an enabled
      provider, and the built-in ones are always active. */
  lemma ActiveModelsAreAllModels(configs: Json, available: Json, order: seq<string>)
    requires "" !in order
    requires GetAllModels(configs, available, order).Some?
    ensures GetActiveModels(GetAllModels(configs, available, order).value, configs)
         == GetAllModels(configs, available, order).value
  {
    var all := GetAllModels(configs, available, order).value;
    BuiltinsListed(configs);
    AddProvidersListed(BuiltinModels, configs, available, order);
    ListedAreActive(all, configs);
    var active := GetActiveModels(all, configs);
    assert active.Keys == all.Keys;
  }

  /** The built-in models are listed whatever the configs. */
  lemma BuiltinsListed(configs: Json)
    ensures forall k :: k in BuiltinModels ==> Listed(BuiltinModels[k], configs)
  {
    forall k | k in BuiltinModels ensures Listed(BuiltinModels[k], configs) {
      assert Prop(BuiltinModels[k], "type") == Some(JString("builtin"));
    }
  }

  /** A map of listed models is a map of active ones. */
  lemma ListedAreActive(all: map<string, Json>, configs: Json)
    requires forall k :: k in all ==> Listed(all[k], configs)
    ensures forall k :: k in all ==> IsActive(all[k], configs)
  {
    forall k | k in all ensures IsActive(all[k], configs) {
      ListedIsActive(all[k], configs);
    }
  }

  /** The class holding `fetchAvailableModels`'s effect on the store. */
  class ApiModule {
    const store: KeyValueStore.Store

    constructor (store: KeyValueStore.Store)
      ensures this.store == store
    {
      this.store := store;
    }

    /** `fetchAvailableModels(config)`. */
    method FetchAvailableModels(cfg: ApiConfig, network: Network, dateText: Option<Json> -> string)
      returns (r: ModelsResult)
      modifies store, store.local
      ensures (r, store.State()) == FetchAvailableModelsSpec(store.Env(), old(store.State()), cfg, network, dateText)
    {
      r := FetchModels(cfg, network, dateText);
      if !r.Fetched? {
        return;
      }
      var cached := store.Get("available_models");
      var available := if Truthy(cached) then cached else EmptyObject;
      var updated := PutProp(available, cfg.provider, Arr(r.models));
      if Truthy(cached) {
        store.Stage("available_models", updated);
      }
      var _ := store.Set("available_models", updated);
    }
  }
}
