/** `ChatModule`: sending a message, deciding how it is answered (template or custom
    API), the template reply itself, the context sent to a custom API, and the edits of
    the contact list and of a chat history. Message ids and times, which the source
    takes from `generateId` and `Date.now`, are parameters. */
module Chat {
  import opened Wrappers
  import opened Strings
  import opened Json
  import opened Lists
  import KV = KeyValueStore
  import Provider

  // ----- the template reply (`addFallbackResponse`) -----

  /** `role.personality` where the source can trim it: a falsy value reads as the empty
      (blank) personality, a string as itself, and a truthy value of any other type is
      `None`, because it has no `trim` and the source throws a `TypeError`. */
  function PersonalityOf(role: Json): (r: Option<string>)
    ensures r.None? <==> TruthyOpt(Prop(role, "personality")) && !Prop(role, "personality").value.JString?
    ensures !TruthyOpt(Prop(role, "personality")) ==> r == Some("")
    ensures Prop(role, "personality").Some? && Prop(role, "personality").value.JString? ==>
      r == Some(Prop(role, "personality").value.s)
  {
    match Prop(role, "personality")
    case Some(JString(p)) => Some(p)
    case Some(v) => if Truthy(v) then None else Some("")
    case None => Some("")
  }

  /** `!personality || personality.trim() === ''`. */
  predicate Blank(p: string) {
    Trim(p) == ""
  }

  const QuestionClause: string := " 这是一个问题，我可以帮你解答。"
  const ExclamationClause: string := " 听起来很有趣！"

  /** Whether the message contains a full-width or ASCII question mark. */
  predicate AsksQuestion(m: string) {
    Contains(m, "？") || Contains(m, "?")
  }

  /** Whether the message contains an ASCII or full-width exclamation mark. */
  predicate Exclaims(m: string) {
    Contains(m, "!") || Contains(m, "！")
  }

  /** The one tone clause picked from the personality, in the source's order of tests
      (`toLowerCase` is left out: the keywords have no case). */
  function ToneClause(p: string): string {
    if Contains(p, "温柔") || Contains(p, "体贴") then " 我会温柔地回应你。"
    else if Contains(p, "幽默") || Contains(p, "风趣") then " 让我用幽默的方式回应！"
    else if Contains(p, "专业") || Contains(p, "严谨") then " 从专业角度分析，"
    else ""
  }

  /** The message quoted in a personality reply: its first 20 characters, and `...`
      when it is longer. */
  function Quoted(m: string): string {
    Prefix(m, 20) + (if |m| > 20 then "..." else "")
  }

  /** The tail of a personality reply: the personality, cut to 50 characters and `...`
      (after a space) when it is longer. */
  function PersonalityTail(p: string): string {
    if |p| > 50 then " " + Prefix(p, 50) + "..." else p
  }

  /** The reply to a contact without a personality: the whole message quoted, then a
      clause for a question or, failing that, for an exclamation. */
  function BlankReply(m: string): string {
    "我收到了你的消息：\"" + m + "\"。"
    + (if AsksQuestion(m) then QuestionClause else if Exclaims(m) then ExclamationClause else "")
  }

  /** The middle of a personality reply: the tone clause and the quoted message. */
  function ToneAndQuote(p: string, m: string): string {
    ToneClause(p) + " 关于\"" + Quoted(m) + "\"，"
  }

  /** The reply of a contact with a personality. */
  function PersonalityReply(name: string, p: string, m: string): string {
    "作为" + name + "，" + ToneAndQuote(p, m) + PersonalityTail(p)
  }

  /** The reply text of `addFallbackResponse(role, userMessage)`, or `None` when the
      personality test throws. */
  function FallbackReply(role: Json, m: string): (r: Option<string>)
    ensures r.None? <==> PersonalityOf(role).None?
    ensures PersonalityOf(role).Some? && Blank(PersonalityOf(role).value) ==> r == Some(BlankReply(m))
    ensures PersonalityOf(role).Some? && !Blank(PersonalityOf(role).value) ==>
      r == Some(PersonalityReply(TextOpt(Prop(role, "name")), PersonalityOf(role).value, m))
  {
    match PersonalityOf(role)
    case None => None
    case Some(p) => Some(if Blank(p) then BlankReply(m) else PersonalityReply(TextOpt(Prop(role, "name")), p, m))
  }

  /** In blank mode the reply quotes the whole message, and what follows the quote is the
      question clause exactly when the message asks, the exclamation clause exactly when
      it exclaims without asking, and nothing otherwise. */
  lemma BlankReplyShape(m: string)
    ensures var head := "我收到了你的消息：\"" + m + "\"。";
      var rest := BlankReply(m)[|head|..];
      && StartsWith(BlankReply(m), head)
      && (AsksQuestion(m) <==> rest == QuestionClause)
      && (!AsksQuestion(m) && Exclaims(m) <==> rest == ExclamationClause)
      && (!AsksQuestion(m) && !Exclaims(m) <==> rest == "")
  {
    var head := "我收到了你的消息：\"" + m + "\"。";
    var clause := if AsksQuestion(m) then QuestionClause else if Exclaims(m) then ExclamationClause else "";
    assert BlankReply(m) == head + clause;
    assert (head + clause)[..|head|] == head && (head + clause)[|head|..] == clause;
    assert |QuestionClause| == 16 && |ExclamationClause| == 8;
  }

  /** A personality reply opens with `作为<name>，`. */
  lemma PersonalityReplyStarts(name: string, p: string, m: string)
    ensures StartsWith(PersonalityReply(name, p, m), "作为" + name + "，")
  {
    var head := "作为" + name + "，";
    var r := PersonalityReply(name, p, m);
    assert r == head + (ToneAndQuote(p, m) + PersonalityTail(p));
    assert r[..|head|] == head;
  }

  /** A personality reply ends with the personality, cut to 50 characters and `...`
      when it is longer. */
  lemma PersonalityReplyEnds(name: string, p: string, m: string)
    ensures EndsWith(PersonalityReply(name, p, m), if |p| > 50 then p[..50] + "..." else p)
  {
    var front := "作为" + name + "，" + ToneAndQuote(p, m);
    var tail := if |p| > 50 then p[..50] + "..." else p;
    if |p| > 50 {
      assert PersonalityTail(p) == " " + tail;
      EndsWithAfter(" ", tail, tail);
    }
    EndsWithAfter(front, PersonalityTail(p), tail);
  }

  /** The quote of a personality reply is the message's first 20 characters, marked with
      `...` only when the message is longer, so at most 23 characters. */
  lemma QuotedBounds(m: string)
    ensures |Quoted(m)| <= 23
    ensures StartsWith(Quoted(m), Prefix(m, 20)) && StartsWith(m, Prefix(m, 20))
    ensures |m| <= 20 ==> Quoted(m) == m
  {
    if |m| > 20 {
      assert |Quoted(m)| == 23;
    }
  }

  // ----- the context sent to a custom API (`generateCustomAIResponse`) -----

  /** The system message: the role and its setting, or a generic one for a blank
      setting; `None` when the personality test throws. */
  function SystemPrompt(role: Json): (r: Option<string>)
    ensures r.None? <==> PersonalityOf(role).None?
    ensures PersonalityOf(role).Some? && Blank(PersonalityOf(role).value) ==> r == Some(GenericPrompt)
    ensures PersonalityOf(role).Some? && !Blank(PersonalityOf(role).value) ==>
      r == Some(RolePrompt(TextOpt(Prop(role, "name")), PersonalityOf(role).value))
  {
    match PersonalityOf(role)
    case None => None
    case Some(p) => Some(if !Blank(p) then RolePrompt(TextOpt(Prop(role, "name")), p) else GenericPrompt)
  }

  /** The system message of a contact without a personality. */
  const GenericPrompt: string := "你是一个有帮助的AI助手。"

  /** The system message of a contact with a personality. */
  function RolePrompt(name: string, p: string): string {
    "你是一个AI助手，扮演角色：" + name + "。角色设定：" + p + "。请根据这个设定来回应用户。"
  }

  /** `history.slice(-10)`. */
  function LastTen(h: seq<Json>): (r: seq<Json>)
    ensures |r| == if |h| < 10 then |h| else 10
    ensures EndsWithSeq(h, r)
  {
    if |h| <= 10 then h else h[|h| - 10..]
  }

  /** `s` ends with `t`. */
  predicate EndsWithSeq(s: seq<Json>, t: seq<Json>) {
    |t| <= |s| && s[|s| - |t|..] == t
  }

  /** A history entry as context: `user` stays `user`, every other role is `assistant`. */
  function ContextMessage(entry: Json): Provider.Message {
    Provider.Message(if Prop(entry, "role") == Some(JString("user")) then "user" else "assistant", Prop(entry, "content"))
  }

  /** The message list of `generateCustomAIResponse`, or `None` when the personality
      test or a `null` entry (`msg.role`) throws. */
  function CustomMessages(role: Json, history: seq<Json>, m: string): Option<seq<Provider.Message>> {
    var recent := LastTen(history);
    if SystemPrompt(role).None? || JNull in recent then None
    else Some([Provider.Message("system", Some(JString(SystemPrompt(role).value)))]
              + seq(|recent|, i requires 0 <= i < |recent| => ContextMessage(recent[i]))
              + [Provider.Message("user", Some(JString(m)))])
  }

  /** One system entry, the last (at most) ten history entries as context, then the user
      message: at most twelve messages. */
  lemma CustomMessagesShape(role: Json, history: seq<Json>, m: string)
    requires SystemPrompt(role).Some? && JNull !in history
    ensures var r := CustomMessages(role, history, m);
      && r.Some?
      && 2 <= |r.value| <= 12
      && |r.value| == |LastTen(history)| + 2
      && r.value[0] == Provider.Message("system", Some(JString(SystemPrompt(role).value)))
      && r.value[|r.value| - 1] == Provider.Message("user", Some(JString(m)))
      && forall i :: 0 <= i < |LastTen(history)| ==> r.value[i + 1] == ContextMessage(LastTen(history)[i])
  {
    var recent := LastTen(history);
    var sys := [Provider.Message("system", Some(JString(SystemPrompt(role).value)))];
    var ctx := seq(|recent|, i requires 0 <= i < |recent| => ContextMessage(recent[i]));
    var user := [Provider.Message("user", Some(JString(m)))];
    var r := sys + ctx + user;
    assert CustomMessages(role, history, m) == Some(r);
    assert |r| == |recent| + 2;
    forall i | 0 <= i < |recent| ensures r[i + 1] == ContextMessage(recent[i]) {
      assert r[i + 1] == ctx[i];
    }
  }

  /** The history entry `sendMessage` stores for the user's message. */
  function UserEntry(id: string, m: string, now: int): Json {
    JObject(map["id" := JString(id), "role" := JString("user"), "content" := JString(m), "time" := JNum(now)])
  }

  /** The history entry stored for a reply. */
  function ReplyEntry(id: string, content: Json, now: int): Json {
    JObject(map["id" := JString(id), "role" := JString("assistant"), "content" := content, "time" := JNum(now)])
  }

  /** Once `sendMessage` has pushed the user's message, the list sent to the API holds
      that message twice in a row: as the last context entry and as the final message. */
  lemma UserMessageSentTwice(role: Json, history: seq<Json>, id: string, m: string, now: int)
    requires SystemPrompt(role).Some? && JNull !in history
    ensures var r := CustomMessages(role, history + [UserEntry(id, m, now)], m).value;
      |r| >= 3 && r[|r| - 2] == r[|r| - 1] == Provider.Message("user", Some(JString(m)))
  {
    var h := history + [UserEntry(id, m, now)];
    CustomMessagesShape(role, h, m);
    var recent := LastTen(h);
    assert recent[|recent| - 1] == UserEntry(id, m, now);
  }

  // ----- choosing the reply (`generateAIResponse`) -----

  /** `get('custom_api_configs') || {}`. */
  function CustomConfigsOf(env: KV.Session, db: KV.Db): (Json, KV.Db) {
    var (v, db1) := KV.Fetch(env, db, "custom_api_configs");
    (if Truthy(v) then v else EmptyObject, db1)
  }

  /** `get('available_models') || {}`. */
  function AvailableModelsOf(env: KV.Session, db: KV.Db): (Json, KV.Db) {
    var (v, db1) := KV.Fetch(env, db, "available_models");
    (if Truthy(v) then v else EmptyObject, db1)
  }

  /** `appliedModels[id] || getSetting('selected_api_model', 'gpt-3.5')`, as the property
      name it is used as. */
  function ModelKeyFor(applied: Json, id: string, setting: Json): (k: string)
    ensures TruthyOpt(Prop(applied, id)) ==> k == Text(Prop(applied, id).value)
    ensures !TruthyOpt(Prop(applied, id)) ==> k == Text(setting)
  {
    Text(Or(Prop(applied, id), Some(setting)).value)
  }

  /** A contact without an applied model uses the stored selection, whatever it is (`||`
      returns its right operand even when that is falsy): the parsed value when the stored
      text parses, the raw text when it does not, and `gpt-3.5` only when no selection is
      stored at all. */
  lemma ModelKeyFallsBackToSetting(env: KV.Session, db: KV.Db, applied: Json, id: string)
    requires !TruthyOpt(Prop(applied, id))
    ensures var key := ModelKeyFor(applied, id, KV.Setting(env, db, "selected_api_model", JString("gpt-3.5")));
      && ("selected_api_model" !in db.items ==> key == "gpt-3.5")
      && ("selected_api_model" in db.items && env.codec.parse(db.items["selected_api_model"]).Some? ==>
            key == Text(env.codec.parse(db.items["selected_api_model"]).value))
      && ("selected_api_model" in db.items && env.codec.parse(db.items["selected_api_model"]).None? ==>
            key == db.items["selected_api_model"])
  {
  }

  /** What `generateAIResponse` decides before replying. */
  datatype Decision =
    | NoReply                                   // no open chat, or no such contact
    | Crash                                     // a `TypeError` escapes
    | Template(role: Json)                      // `addFallbackResponse`
    | TryCustom(role: Json, model: Json, apiConfig: Json)  // `generateCustomAIResponse`, template on failure

  /** The decision of `generateAIResponse` and the state after the reads it makes. */
  function DecideSpec(env: KV.Session, db: KV.Db, cur: Option<string>, order: seq<string>): (Decision, KV.Db) {
    if cur.None? then (NoReply, db)
    else
      var id := cur.value;
      var (roles, db1) := KV.Fetch(env, db, "contacts");
      if !roles.JArray? then (Crash, db1)
      else match FindById(roles.items, id)
        case None => (Crash, db1)
        case Some(None) => (NoReply, db1)
        case Some(Some(role)) =>
          var (applied, db2) := KV.Fetch(env, db1, "applied_api_models");
          if applied.JNull? then (Crash, db2)
          else
            var key := ModelKeyFor(applied, id, KV.Setting(env, db2, "selected_api_model", JString("gpt-3.5")));
            var (configs, db3) := CustomConfigsOf(env, db2);
            var (available, db4) := AvailableModelsOf(env, db3);
            match Provider.GetAllModels(configs, available, order)
            case None => (Crash, db4)
            case Some(all) => DecideForModel(env, db4, role, all, key)
  }

  /** The decision once the model catalogue `all` and the model name `key` are known:
      the template for a missing or non-custom model, else the choice for its config. */
  function DecideForModel(env: KV.Session, db: KV.Db, role: Json, all: map<string, Json>, key: string)
    : (Decision, KV.Db)
  {
    if key !in all then (Template(role), db)
    else if Prop(all[key], "type") != Some(JString("custom")) then (Template(role), db)
    else
      var (configs, db1) := CustomConfigsOf(env, db);
      (ChooseFor(role, all[key], configs), db1)
  }

  /** The choice for a custom model, given the configs: its API when the config exists,
      is enabled and has a key, the template otherwise. */
  function ChooseFor(role: Json, model: Json, configs: Json): (d: Decision)
    ensures d.TryCustom? || d == Template(role)
    ensures d.TryCustom? <==>
      var c := Provider.ApiConfigOf(configs, Prop(model, "provider"));
      Truthy(c) && TruthyOpt(Prop(c, "enabled")) && TruthyOpt(Prop(c, "apiKey"))
    ensures d.TryCustom? ==> d == TryCustom(role, model, Provider.ApiConfigOf(configs, Prop(model, "provider")))
  {
    var apiConfig := Provider.ApiConfigOf(configs, Prop(model, "provider"));
    if !Truthy(apiConfig) || !TruthyOpt(Prop(apiConfig, "enabled")) || !TruthyOpt(Prop(apiConfig, "apiKey"))
    then Template(role)
    else TryCustom(role, model, apiConfig)
  }

  /** A built-in model, or a name no model has, is answered by the template; the custom
      API is tried only for a custom model of the catalogue whose config is enabled and
      has a key, and then with that model. */
  lemma OnlyEnabledCustomModelsCallApi(env: KV.Session, db: KV.Db, role: Json, all: map<string, Json>, key: string)
    ensures var d := DecideForModel(env, db, role, all, key).0;
      && (d.TryCustom? || d == Template(role))
      && (d.TryCustom? ==>
            && key in all && d.model == all[key]
            && Prop(d.model, "type") == Some(JString("custom"))
            && TruthyOpt(Prop(d.apiConfig, "enabled")) && TruthyOpt(Prop(d.apiConfig, "apiKey")))
  {
  }

  /** The decision of `generateAIResponse` is one of the four kinds, reached in order:
      no open chat or missing contact, a crash before a model is known, or the model's
      decision. */
  lemma DecisionCases(env: KV.Session, db: KV.Db, cur: Option<string>, order: seq<string>)
    ensures cur.None? ==> DecideSpec(env, db, cur, order) == (NoReply, db)
    ensures DecideSpec(env, db, cur, order).0.TryCustom? ==> cur.Some?
  {
  }

  /** The provider of a model as `switch (provider)` and `===` compare it: a non-string
      value matches none of the named providers, as the empty string does not either. */
  function StringOf(v: Option<Json>): (r: string)
    ensures v.Some? && v.value.JString? ==> r == v.value.s
    ensures !(v.Some? && v.value.JString?) ==> r == ""
  {
    match v
    case Some(JString(s)) => s
    case _ => ""
  }

  /** A key or endpoint of an API config as `sendChatMessage` uses it: a falsy value is
      missing (the empty string here), and any other value is passed on and turned into
      text where a header or a URL is built. */
  function FieldText(v: Option<Json>): (r: string)
    ensures !TruthyOpt(v) ==> r == ""
    ensures TruthyOpt(v) ==> r == Text(v.value)
    ensures v.Some? && v.value.JString? ==> r == v.value.s
  {
    if TruthyOpt(v) then Text(v.value) else ""
  }

  /** `histories[id].push(entry)` followed by `saveChatHistories(histories)`. */
  function AppendEntrySpec(env: KV.Session, db: KV.Db, id: string, entry: Json): (Outcome, KV.Db) {
    var (h, db1) := KV.Fetch(env, db, "chat_histories");
    if h.JNull? then (Threw, db1)
    else match Prop(h, id)
      case Some(JArray(items, named)) =>
        var h' := PutProp(h, id, JArray(items + [entry], named));
        (Completed, KV.Save(env, KV.Mutate(db1, "chat_histories", h'), "chat_histories", h').1)
      case _ => (Threw, db1)
  }

  /** `addFallbackResponse(role, userMessage)`: the personality test throws before
      anything is read or written. */
  function FallbackSpec(env: KV.Session, db: KV.Db, id: string, role: Json, m: string,
                        replyId: string, now: int): (Outcome, KV.Db) {
    match FallbackReply(role, m)
    case None => (Threw, db)
    case Some(reply) => AppendEntrySpec(env, db, id, ReplyEntry(replyId, JString(reply), now))
  }

  /** The answer of the custom API to the context built from the histories object `h`:
      the reply content, or the error that makes `generateCustomAIResponse` fail. */
  function CustomContent(codec: Codec, h: Json, id: string, role: Json, m: string, model: Json,
                         apiConfig: Json, network: Provider.Network): Result<Json> {
    var roleHistory := if TruthyOpt(Prop(h, id)) then Prop(h, id).value else EmptyArray;
    if !roleHistory.JArray? then Err(Provider.TypeErrorText)
    else match CustomMessages(role, roleHistory.items, m)
      case None => Err(Provider.TypeErrorText)
      case Some(ms) =>
        var cfg := Provider.ApiConfig(StringOf(Prop(model, "provider")), FieldText(Prop(apiConfig, "apiKey")),
                                      FieldText(Prop(apiConfig, "endpoint")));
        Provider.SendChatMessage(cfg, ms, Prop(model, "modelId"), codec, network)
  }

  /** `generateCustomAIResponse(...)`: whether it completed (a failure anywhere in it is
      caught by the caller), and the state after it. */
  function CustomReplySpec(env: KV.Session, db: KV.Db, id: string, role: Json, m: string, model: Json,
                           apiConfig: Json, network: Provider.Network, replyId: string, now: int): (bool, KV.Db) {
    var (h, db1) := KV.Fetch(env, db, "chat_histories");
    ReplyFrom(env, db1, h, id, role, m, model, apiConfig, network, replyId, now)
  }

  /** The rest of `generateCustomAIResponse` once the histories object `h` is read. */
  function ReplyFrom(env: KV.Session, db: KV.Db, h: Json, id: string, role: Json, m: string, model: Json,
                     apiConfig: Json, network: Provider.Network, replyId: string, now: int): (bool, KV.Db) {
    if h.JNull? then (false, db)
    else ReplyWith(env, db, CustomContent(env.codec, h, id, role, m, model, apiConfig, network), id, replyId, now)
  }

  /** Storing the API's answer: pushed as a reply when there is one, nothing otherwise. */
  function ReplyWith(env: KV.Session, db: KV.Db, content: Result<Json>, id: string, replyId: string, now: int)
    : (bool, KV.Db)
  {
    match content
    case Err(_) => (false, db)
    case Ok(c) =>
      var (o, db') := AppendEntrySpec(env, db, id, ReplyEntry(replyId, c, now));
      (o == Completed, db')
  }

  /** `generateAIResponse(userMessage)`. */
  function GenerateSpec(env: KV.Session, db: KV.Db, cur: Option<string>, m: string, order: seq<string>,
                        network: Provider.Network, replyId: string, now: int): (Outcome, KV.Db) {
    var (d, db1) := DecideSpec(env, db, cur, order);
    match d
    case NoReply => (Completed, db1)
    case Crash => (Threw, db1)
    case Template(role) => FallbackSpec(env, db1, cur.value, role, m, replyId, now)
    case TryCustom(role, model, apiConfig) =>
      var (ok, db2) := CustomReplySpec(env, db1, cur.value, role, m, model, apiConfig, network, replyId, now);
      if ok then (Completed, db2) else FallbackSpec(env, db2, cur.value, role, m, replyId, now)
  }

  /** A contact whose personality is a truthy non-string value makes `generateAIResponse`
      throw whichever way it was to be answered: the template reply throws at the
      personality test, and so does the custom API's message list, whose failure falls
      back to the template. Nothing is written to storage. */
  lemma NonStringPersonalityThrows(env: KV.Session, db: KV.Db, cur: Option<string>, m: string, order: seq<string>,
                                   network: Provider.Network, replyId: string, now: int)
    requires var d := DecideSpec(env, db, cur, order).0;
      (d.Template? || d.TryCustom?) && PersonalityOf(d.role).None?
    ensures GenerateSpec(env, db, cur, m, order, network, replyId, now).0 == Threw
    ensures GenerateSpec(env, db, cur, m, order, network, replyId, now).1.items == db.items
  {
    DecideKeepsStorage(env, db, cur, order);
    var (d, db1) := DecideSpec(env, db, cur, order);
    assert FallbackReply(d.role, m).None?;
    if d.Template? {
      assert GenerateSpec(env, db, cur, m, order, network, replyId, now)
             == FallbackSpec(env, db1, cur.value, d.role, m, replyId, now) == (Threw, db1);
    } else {
      CustomReplyNeedsPersonality(env, db1, cur.value, d.role, m, d.model, d.apiConfig, network, replyId, now);
      var db2 := KV.Fetch(env, db1, "chat_histories").1;
      assert GenerateSpec(env, db, cur, m, order, network, replyId, now)
             == FallbackSpec(env, db2, cur.value, d.role, m, replyId, now) == (Threw, db2);
    }
  }

  /** With a personality that throws, the custom API is never called: the reply fails
      after reading the histories, and nothing is written. */
  lemma CustomReplyNeedsPersonality(env: KV.Session, db: KV.Db, id: string, role: Json, m: string, model: Json,
                                    apiConfig: Json, network: Provider.Network, replyId: string, now: int)
    requires PersonalityOf(role).None?
    ensures CustomReplySpec(env, db, id, role, m, model, apiConfig, network, replyId, now)
            == (false, KV.Fetch(env, db, "chat_histories").1)
  {
    var (h, db1) := KV.Fetch(env, db, "chat_histories");
    if !h.JNull? {
      assert CustomContent(env.codec, h, id, role, m, model, apiConfig, network).Err?;
    }
  }

  /** Deciding only reads. */
  lemma DecideKeepsStorage(env: KV.Session, db: KV.Db, cur: Option<string>, order: seq<string>)
    ensures DecideSpec(env, db, cur, order).1.items == db.items
  {
  }

  /** A template decision never reaches the network: the outcome is the same whatever
      the network would answer. */
  lemma TemplateRepliesIgnoreNetwork(env: KV.Session, db: KV.Db, cur: Option<string>, m: string, order: seq<string>,
                                     n1: Provider.Network, n2: Provider.Network, replyId: string, now: int)
    requires !DecideSpec(env, db, cur, order).0.TryCustom?
    ensures GenerateSpec(env, db, cur, m, order, n1, replyId, now) == GenerateSpec(env, db, cur, m, order, n2, replyId, now)
  {
  }

  /** A template reply lands at the end of the contact's history in the cache, with the
      text of `FallbackReply`, when the history entry is an array. */
  lemma FallbackAppendsReply(env: KV.Session, db: KV.Db, id: string, role: Json, m: string, replyId: string, now: int)
    requires var h := KV.Fetch(env, db, "chat_histories").0; (h.JObject? || h.JArray?) && Prop(h, id).Some? && Prop(h, id).value.JArray?
    requires PersonalityOf(role).Some?
    ensures var h := KV.Fetch(env, db, "chat_histories").0;
      var (o, db') := FallbackSpec(env, db, id, role, m, replyId, now);
      && o == Completed
      && Prop(db'.cache["chat_histories"], id)
         == Some(Push(Prop(h, id).value, ReplyEntry(replyId, JString(FallbackReply(role, m).value), now)))
  {
  }

  /** The storing half of `sendMessage()`: the user's entry pushed onto the contact's
      history and the histories saved. */
  function PushUserMessage(env: KV.Session, db: KV.Db, id: string, entry: Json): (Outcome, KV.Db) {
    var (h, db1) := KV.Fetch(env, db, "chat_histories");
    match WithEntry(h, id, entry)
    case None => (Threw, db1)
    case Some(h') => (Completed, KV.Save(env, KV.Mutate(db1, "chat_histories", h'), "chat_histories", h').1)
  }

  /** `sendMessage()` with the input's text: the trimmed message is pushed onto the open
      contact's history (created as `[]` when missing), saved, and answered. */
  function SendSpec(env: KV.Session, db: KV.Db, cur: Option<string>, input: string, order: seq<string>,
                    network: Provider.Network, msgId: string, replyId: string, now: int): (Outcome, KV.Db) {
    var m := Trim(input);
    if cur.None? || m == "" then (Completed, db)
    else
      var (o, db1) := PushUserMessage(env, db, cur.value, UserEntry(msgId, m, now));
      if o == Threw then (Threw, db1) else GenerateSpec(env, db1, cur, m, order, network, replyId, now)
  }

  /** With nothing stored under `chat_histories`, `get` answers the `[]` fallback and the
      first message becomes a named property of that array: the session sees it, but
      `JSON.stringify` drops it, so after a reload the histories are an empty array. */
  lemma FirstHistoryLostOnReload(env: KV.Session, db: KV.Db, id: string, entry: Json)
    requires Lawful(env.codec)
    requires "chat_histories" !in db.cache && "chat_histories" !in db.items
    ensures var (o, db') := PushUserMessage(env, db, id, entry);
      && o == Completed
      && "chat_histories" in db'.cache && Prop(db'.cache["chat_histories"], id) == Some(Arr([entry]))
      && KV.Fetch(env, KV.Reseed(db'), "chat_histories").0 == EmptyArray
  {
    var (h, db1) := KV.Fetch(env, db, "chat_histories");
    assert h == EmptyArray;
    var updated := JArray([], map[id := Arr([entry])]);
    assert WithEntry(EmptyArray, id, entry) == Some(updated);
    var (saved, db') := KV.Save(env, KV.Mutate(db1, "chat_histories", updated), "chat_histories", updated);
    assert PushUserMessage(env, db, id, entry) == (Completed, db');
    assert db'.cache["chat_histories"] == updated;
    assert Persisted(updated) == EmptyArray;
    var text := env.codec.stringify(updated);
    assert env.codec.parse(text) == Some(EmptyArray) && text != "";
    assert "chat_histories" !in KV.PlaceholderNames;
    if saved {
      assert db'.items["chat_histories"] == text;
    } else {
      assert db'.items == db.items;
    }
  }

  /** A blank input sends nothing and changes nothing. */
  lemma BlankInputSendsNothing(env: KV.Session, db: KV.Db, cur: Option<string>, input: string, order: seq<string>,
                               network: Provider.Network, msgId: string, replyId: string, now: int)
    requires forall i :: 0 <= i < |input| ==> IsJsWhitespace(input[i])
    ensures SendSpec(env, db, cur, input, order, network, msgId, replyId, now) == (Completed, db)
  {
    TrimEmptyIffBlank(input);
  }

  // ----- contact list and history edits -----

  /** `togglePinContact(roleId)`. */
  function TogglePinSpec(env: KV.Session, db: KV.Db, roleId: string): (Outcome, KV.Db) {
    var (pinned, db1) := KV.Fetch(env, db, "pinned_contacts");
    if !pinned.JArray? then (Threw, db1)
    else
      var pinned' := JArray(Toggle(pinned.items, JString(roleId)), pinned.named);
      (Completed, KV.Save(env, KV.Mutate(db1, "pinned_contacts", pinned'), "pinned_contacts", pinned').1)
  }

  /** The pinned list after a toggle holds the id exactly when it did not before (for a
      list holding it at most once), whether or not the save was accepted. */
  lemma TogglePinFlips(env: KV.Session, db: KV.Db, roleId: string)
    requires var p := KV.Fetch(env, db, "pinned_contacts").0; p.JArray? && AtMostOnce(p.items, JString(roleId))
    ensures var p := KV.Fetch(env, db, "pinned_contacts").0;
      var (o, db') := TogglePinSpec(env, db, roleId);
      && o == Completed
      && db'.cache["pinned_contacts"].JArray?
      && (JString(roleId) in db'.cache["pinned_contacts"].items <==> JString(roleId) !in p.items)
  {
    var p := KV.Fetch(env, db, "pinned_contacts").0;
    ToggleFlips(p.items, JString(roleId));
  }

  /** Pinning and unpinning a contact that was not pinned leaves the cached list as it was. */
  lemma TogglePinTwiceRestores(env: KV.Session, db: KV.Db, roleId: string)
    requires var p := KV.Fetch(env, db, "pinned_contacts").0; p.JArray? && JString(roleId) !in p.items
    ensures var db' := TogglePinSpec(env, TogglePinSpec(env, db, roleId).1, roleId).1;
      "pinned_contacts" in db'.cache && db'.cache["pinned_contacts"] == KV.Fetch(env, db, "pinned_contacts").0
  {
    var p := KV.Fetch(env, db, "pinned_contacts").0;
    var db2 := TogglePinSpec(env, db, roleId).1;
    TogglePinCaches(env, db, roleId);
    var p1 := db2.cache["pinned_contacts"];
    assert p1.items == Toggle(p.items, JString(roleId)) && p1.named == p.named;
    TogglePinCaches(env, db2, roleId);
    ToggleTwiceRestores(p.items, JString(roleId));
    assert Toggle(p1.items, JString(roleId)) == p.items;
  }

  /** After a toggle the cache holds the toggled list, whether or not the save was accepted. */
  lemma TogglePinCaches(env: KV.Session, db: KV.Db, roleId: string)
    requires KV.Fetch(env, db, "pinned_contacts").0.JArray?
    ensures var p := KV.Fetch(env, db, "pinned_contacts").0;
      var db' := TogglePinSpec(env, db, roleId).1;
      && KV.Fetch(env, db', "pinned_contacts").0 == db'.cache["pinned_contacts"]
      && db'.cache["pinned_contacts"] == JArray(Toggle(p.items, JString(roleId)), p.named)
  {
  }

  /** `pinned.filter(id => id !== roleId)` and `savePinnedContacts`. */
  function UnpinStep(env: KV.Session, db: KV.Db, roleId: string): (Outcome, KV.Db) {
    var (pinned, db1) := KV.Fetch(env, db, "pinned_contacts");
    if !pinned.JArray? then (Threw, db1)
    else (Completed, KV.Save(env, db1, "pinned_contacts", Arr(Without(pinned.items, JString(roleId)))).1)
  }

  /** `deleteContact(roleId)` after the confirmation dialog: the state, and whether the
      open chat is closed. */
  function DeleteContactSpec(env: KV.Session, db: KV.Db, cur: Option<string>, confirmed: bool, roleId: string)
    : (Outcome, KV.Db, Option<string>)
  {
    if !confirmed then (Completed, db, cur)
    else
      var (o1, db1) := KV.RemoveByIdSpec(env, db, "contacts", roleId);
      if o1 == Threw then (Threw, db1, cur)
      else
        var (o2, db2) := UnpinStep(env, db1, roleId);
        if o2 == Threw then (Threw, db2, cur)
        else
          var (o3, db3) := KV.DeleteEntrySpec(env, db2, "chat_histories", roleId);
          if o3 == Threw then (Threw, db3, cur)
          else (Completed, db3, if cur == Some(roleId) then None else cur)
  }

  /** The unpin step writes only the pinned list. */
  lemma UnpinKeepsOthers(env: KV.Session, db: KV.Db, roleId: string, k: string)
    requires k != "pinned_contacts"
    ensures KV.SameAt(db, UnpinStep(env, db, roleId).1, k)
  {
    var (pinned, db1) := KV.Fetch(env, db, "pinned_contacts");
    KV.OtherKeysUntouched(env, db, "pinned_contacts", pinned, k);
    if pinned.JArray? {
      KV.OtherKeysUntouched(env, db1, "pinned_contacts", Arr(Without(pinned.items, JString(roleId))), k);
    }
  }

  /** Deleting a contact touches only the contact list, the pinned list and the chat
      histories: every other key, the applied models among them, keeps its stored and
      its cached value. */
  lemma DeleteContactKeepsOtherKeys(env: KV.Session, db: KV.Db, cur: Option<string>, confirmed: bool,
                                    roleId: string, k: string)
    requires k != "contacts" && k != "pinned_contacts" && k != "chat_histories"
    ensures KV.SameAt(db, DeleteContactSpec(env, db, cur, confirmed, roleId).1, k)
  {
    if confirmed {
      var db1 := KV.RemoveByIdSpec(env, db, "contacts", roleId).1;
      var db2 := UnpinStep(env, db1, roleId).1;
      KV.EntryEditsKeepOtherKeys(env, db, "contacts", roleId, k);
      UnpinKeepsOthers(env, db1, roleId, k);
      KV.EntryEditsKeepOtherKeys(env, db2, "chat_histories", roleId, k);
    }
  }

  /** With a quota that takes every write, a completed unpin leaves no pin of the contact. */
  lemma UnpinRemoves(env: KV.Session, db: KV.Db, roleId: string)
    requires KV.Unlimited(env)
    ensures var (o, db') := UnpinStep(env, db, roleId);
      o == Completed ==>
        && "pinned_contacts" in db'.cache
        && db'.cache["pinned_contacts"] == Arr(Without(KV.Fetch(env, db, "pinned_contacts").0.items, JString(roleId)))
        && JString(roleId) !in db'.cache["pinned_contacts"].items
  {
  }

  /** With a quota that takes every write, a confirmed delete that completes leaves no
      element with the contact's id in the contact list, no pin of it, no history under
      it, and its chat closed. */
  lemma DeleteContactCascade(env: KV.Session, db: KV.Db, cur: Option<string>, roleId: string)
    requires KV.Unlimited(env)
    ensures var (o, db', cur') := DeleteContactSpec(env, db, cur, true, roleId);
      o == Completed ==>
        && cur' != Some(roleId)
        && "contacts" in db'.cache
        && db'.cache["contacts"] == Arr(WithoutId(KV.Fetch(env, db, "contacts").0.items, roleId))
        && (forall x :: x in db'.cache["contacts"].items ==> !HasId(x, roleId))
        && "pinned_contacts" in db'.cache
        && db'.cache["pinned_contacts"] == Arr(Without(KV.Fetch(env, db, "pinned_contacts").0.items, JString(roleId)))
        && JString(roleId) !in db'.cache["pinned_contacts"].items
        && "chat_histories" in db'.cache
        && (db'.cache["chat_histories"].JObject? ==> roleId !in db'.cache["chat_histories"].fields)
  {
    var (o1, db1) := KV.RemoveByIdSpec(env, db, "contacts", roleId);
    var (o2, db2) := UnpinStep(env, db1, roleId);
    var (o3, db3) := KV.DeleteEntrySpec(env, db2, "chat_histories", roleId);
    if o1 == Completed && o2 == Completed && o3 == Completed {
      KV.RemoveByIdRemoves(env, db, "contacts", roleId);
      UnpinRemoves(env, db1, roleId);
      KV.DeleteEntryRemoves(env, db2, "chat_histories", roleId);
      UnpinKeepsOthers(env, db1, roleId, "contacts");
      KV.EntryEditsKeepOtherKeys(env, db2, "chat_histories", roleId, "contacts");
      KV.EntryEditsKeepOtherKeys(env, db2, "chat_histories", roleId, "pinned_contacts");
      assert DeleteContactSpec(env, db, cur, true, roleId).1 == db3;
    }
  }

  /** `editMessage`'s change to the histories object `h` of the open contact `id`: the
      new object, `Some(None)` when there is no message with that id, or `None` on a
      `TypeError`. */
  function EditHistories(h: Json, id: string, messageId: string, content: string, now: int): Option<Option<Json>> {
    if h.JNull? then None
    else
      var roleHistory := if TruthyOpt(Prop(h, id)) then Prop(h, id).value else EmptyArray;
      if !roleHistory.JArray? then None
      else match FindIndexById(roleHistory.items, messageId)
        case None => None
        case Some(i) =>
          if i == -1 then Some(None)
          else
            var edited := EditedMessage(roleHistory.items[i], content, now);
            Some(Some(PutProp(h, id, JArray(roleHistory.items[i := edited], roleHistory.named))))
  }

  /** `editMessage(messageId, currentContent)` with the text the prompt returned. */
  function EditSpec(env: KV.Session, db: KV.Db, cur: Option<string>, prompt: Option<string>,
                    messageId: string, currentContent: string, now: int): (Outcome, KV.Db) {
    if prompt.None? || Trim(prompt.value) == "" || prompt.value == currentContent || cur.None? then (Completed, db)
    else
      var (h, db1) := KV.Fetch(env, db, "chat_histories");
      match EditHistories(h, cur.value, messageId, Trim(prompt.value), now)
      case None => (Threw, db1)
      case Some(None) => (Completed, db1)
      case Some(Some(h')) => (Completed, KV.Save(env, KV.Mutate(db1, "chat_histories", h'), "chat_histories", h').1)
  }

  /** The three assignments of `editMessage` on the found message. */
  function EditedMessage(msg: Json, content: string, now: int): Json {
    PutProp(PutProp(PutProp(msg, "content", JString(content)), "edited", JBool(true)), "editTime", JNum(now))
  }

  /** An edit of a found message changes only that message, whose content becomes the
      new text and which is marked edited; the rest of the history keeps its order. */
  lemma EditChangesOneMessage(h: Json, id: string, messageId: string, content: string, now: int)
    requires h.JObject? && id in h.fields && h.fields[id].JArray?
    requires FindIndexById(h.fields[id].items, messageId).Some? && FindIndexById(h.fields[id].items, messageId).value >= 0
    ensures var items := h.fields[id].items;
      var i := FindIndexById(items, messageId).value;
      var r := EditHistories(h, id, messageId, content, now);
      && r.Some? && r.value.Some? && r.value.value.JObject?
      && r.value.value.fields.Keys == h.fields.Keys
      && (forall k :: k in h.fields && k != id ==> r.value.value.fields[k] == h.fields[k])
      && r.value.value.fields[id].JArray?
      && var items' := r.value.value.fields[id].items;
      && |items'| == |items|
      && (forall j :: 0 <= j < |items| && j != i ==> items'[j] == items[j])
      && (items[i].JObject? ==>
            Prop(items'[i], "content") == Some(JString(content)) && Prop(items'[i], "edited") == Some(JBool(true)))
  {
    var items := h.fields[id].items;
    var i := FindIndexById(items, messageId).value;
    assert Prop(h, id) == Some(h.fields[id]);
    var edited := EditedMessage(items[i], content, now);
    var list := JArray(items[i := edited], h.fields[id].named);
    assert EditHistories(h, id, messageId, content, now) == Some(Some(JObject(h.fields[id := list])));
  }

  /** Editing a message that is not there, or with a text that is blank or unchanged,
      changes nothing. */
  lemma NoEditWithoutChange(env: KV.Session, db: KV.Db, cur: Option<string>, prompt: Option<string>,
                            messageId: string, currentContent: string, now: int)
    requires prompt.None? || Trim(prompt.value) == "" || prompt == Some(currentContent)
    ensures EditSpec(env, db, cur, prompt, messageId, currentContent, now) == (Completed, db)
  {
  }

  /** The chat page: the shared store and the open contact. */
  class ChatModule {
    const store: KV.Store
    var currentRoleId: Option<string>

    constructor (store: KV.Store)
      ensures this.store == store && currentRoleId == None
    {
      this.store := store;
      currentRoleId := None;
    }

    /** `histories[id].push(entry)` and the save. */
    method AppendEntry(id: string, entry: Json) returns (o: Outcome)
      modifies store, store.local
      ensures (o, store.State()) == AppendEntrySpec(store.Env(), old(store.State()), id, entry)
    {
      var h := store.Get("chat_histories");
      if h.JNull? {
        return Threw;
      }
      var list := Prop(h, id);
      if !(list.Some? && list.value.JArray?) {
        return Threw;
      }
      var h' := PutProp(h, id, Push(list.value, entry));
      store.Stage("chat_histories", h');
      var _ := store.Set("chat_histories", h');
      o := Completed;
    }

    /** `addFallbackResponse(role, userMessage)`. */
    method AddFallbackResponse(role: Json, m: string, replyId: string, now: int) returns (o: Outcome)
      requires currentRoleId.Some?
      modifies store, store.local
      ensures (o, store.State()) == FallbackSpec(store.Env(), old(store.State()), currentRoleId.value, role, m, replyId, now)
    {
      var reply := FallbackReply(role, m);
      if reply.None? {
        return Threw;
      }
      o := AppendEntry(currentRoleId.value, ReplyEntry(replyId, JString(reply.value), now));
    }

    /** `custom_api_configs` with its `|| {}`. */
    method CustomConfigs() returns (configs: Json)
      modifies store
      ensures (configs, store.State()) == CustomConfigsOf(store.Env(), old(store.State()))
    {
      configs := store.Get("custom_api_configs");
      if !Truthy(configs) {
        configs := EmptyObject;
      }
    }

    /** The decision part of `generateAIResponse`. */
    method Decide(order: seq<string>) returns (d: Decision)
      modifies store
      ensures (d, store.State()) == DecideSpec(store.Env(), old(store.State()), currentRoleId, order)
    {
      if currentRoleId.None? {
        return NoReply;
      }
      var id := currentRoleId.value;
      var roles := store.Get("contacts");
      if !roles.JArray? {
        return Crash;
      }
      var found := FindById(roles.items, id);
      if found.None? {
        return Crash;
      }
      if found.value.None? {
        return NoReply;
      }
      var role := found.value.value;
      var applied := store.Get("applied_api_models");
      if applied.JNull? {
        return Crash;
      }
      var setting := store.GetSetting("selected_api_model", JString("gpt-3.5"));
      var key := ModelKeyFor(applied, id, setting);
      var configs := CustomConfigs();
      var available := store.Get("available_models");
      if !Truthy(available) {
        available := EmptyObject;
      }
      var all := Provider.GetAllModels(configs, available, order);
      if all.None? {
        return Crash;
      }
      d := DecideModel(role, all.value, key);
    }

    /** The end of the decision of `generateAIResponse`. */
    method DecideModel(role: Json, all: map<string, Json>, key: string) returns (d: Decision)
      modifies store
      ensures (d, store.State()) == DecideForModel(store.Env(), old(store.State()), role, all, key)
    {
      if key !in all || Prop(all[key], "type") != Some(JString("custom")) {
        return Template(role);
      }
      var configs := CustomConfigs();
      d := ChooseFor(role, all[key], configs);
    }

    /** `generateCustomAIResponse(role, userMessage, model, apiConfig)`. */
    method GenerateCustomAIResponse(id: string, role: Json, m: string, model: Json, apiConfig: Json,
                                    network: Provider.Network, replyId: string, now: int) returns (ok: bool)
      modifies store, store.local
      ensures (ok, store.State())
           == CustomReplySpec(store.Env(), old(store.State()), id, role, m, model, apiConfig, network, replyId, now)
    {
      var h := store.Get("chat_histories");
      ok := Answer(h, id, role, m, model, apiConfig, network, replyId, now);
    }

    /** The part of `generateCustomAIResponse` after the histories are read. */
    method Answer(h: Json, id: string, role: Json, m: string, model: Json, apiConfig: Json,
                  network: Provider.Network, replyId: string, now: int) returns (ok: bool)
      modifies store, store.local
      ensures (ok, store.State())
           == ReplyFrom(store.Env(), old(store.State()), h, id, role, m, model, apiConfig, network, replyId, now)
    {
      if h.JNull? {
        return false;
      }
      var response := CustomContent(store.codec, h, id, role, m, model, apiConfig, network);
      ok := StoreReply(response, id, replyId, now);
    }

    /** The part of `generateCustomAIResponse` after the API call. */
    method StoreReply(response: Result<Json>, id: string, replyId: string, now: int) returns (ok: bool)
      modifies store, store.local
      ensures (ok, store.State()) == ReplyWith(store.Env(), old(store.State()), response, id, replyId, now)
    {
      if response.Err? {
        return false;
      }
      var o := AppendEntry(id, ReplyEntry(replyId, response.value, now));
      ok := o == Completed;
    }

    /** `generateAIResponse(userMessage)`. */
    method GenerateAIResponse(m: string, order: seq<string>, network: Provider.Network, replyId: string, now: int)
      returns (o: Outcome)
      modifies store, store.local
      ensures (o, store.State()) == GenerateSpec(store.Env(), old(store.State()), currentRoleId, m, order, network, replyId, now)
    {
      var d := Decide(order);
      match d
      case NoReply => o := Completed;
      case Crash => o := Threw;
      case Template(role) =>
        o := AddFallbackResponse(role, m, replyId, now);
      case TryCustom(role, model, apiConfig) =>
        var ok := GenerateCustomAIResponse(currentRoleId.value, role, m, model, apiConfig, network, replyId, now);
        if ok {
          o := Completed;
        } else {
          o := AddFallbackResponse(role, m, replyId, now);
        }
    }

    /** `sendMessage()` with the input's text. */
    method SendMessage(input: string, order: seq<string>, network: Provider.Network,
                       msgId: string, replyId: string, now: int) returns (o: Outcome)
      modifies store, store.local
      ensures (o, store.State())
           == SendSpec(store.Env(), old(store.State()), currentRoleId, input, order, network, msgId, replyId, now)
    {
      var m := Trim(input);
      if currentRoleId.None? || m == "" {
        return Completed;
      }
      o := PushEntry(currentRoleId.value, UserEntry(msgId, m, now));
      if o == Threw {
        return;
      }
      o := GenerateAIResponse(m, order, network, replyId, now);
    }

    /** The storing half of `sendMessage()`. */
    method PushEntry(id: string, entry: Json) returns (o: Outcome)
      modifies store, store.local
      ensures (o, store.State()) == PushUserMessage(store.Env(), old(store.State()), id, entry)
    {
      var h := store.Get("chat_histories");
      var h' := WithEntry(h, id, entry);
      if h'.None? {
        return Threw;
      }
      store.Stage("chat_histories", h'.value);
      var _ := store.Set("chat_histories", h'.value);
      o := Completed;
    }

    /** `togglePinContact(roleId)`. */
    method TogglePinContact(roleId: string) returns (o: Outcome)
      modifies store, store.local
      ensures (o, store.State()) == TogglePinSpec(store.Env(), old(store.State()), roleId)
    {
      var pinned := store.Get("pinned_contacts");
      if !pinned.JArray? {
        return Threw;
      }
      var i := FirstIndex(pinned.items, JString(roleId));
      var items := if i == -1 then pinned.items + [JString(roleId)] else RemoveAt(pinned.items, i);
      var pinned' := JArray(items, pinned.named);
      store.Stage("pinned_contacts", pinned');
      var _ := store.Set("pinned_contacts", pinned');
      o := Completed;
    }

    /** `deleteContact(roleId)` with the answer of the confirmation dialog. */
    method DeleteContact(confirmed: bool, roleId: string) returns (o: Outcome)
      modifies this, store, store.local
      ensures (o, store.State(), currentRoleId)
           == DeleteContactSpec(store.Env(), old(store.State()), old(currentRoleId), confirmed, roleId)
    {
      if !confirmed {
        return Completed;
      }
      o := store.RemoveById("contacts", roleId);
      if o == Threw {
        return;
      }
      o := Unpin(roleId);
      if o == Threw {
        return;
      }
      o := store.DeleteEntry("chat_histories", roleId);
      if o == Threw {
        return;
      }
      if currentRoleId == Some(roleId) {
        currentRoleId := None;
      }
    }

    /** The pinned-list step of `deleteContact`. */
    method Unpin(roleId: string) returns (o: Outcome)
      modifies store, store.local
      ensures (o, store.State()) == UnpinStep(store.Env(), old(store.State()), roleId)
    {
      var pinned := store.Get("pinned_contacts");
      if !pinned.JArray? {
        return Threw;
      }
      var _ := store.Set("pinned_contacts", Arr(Without(pinned.items, JString(roleId))));
      o := Completed;
    }

    /** `editMessage(messageId, currentContent)` with the text the prompt returned. */
    method EditMessage(prompt: Option<string>, messageId: string, currentContent: string, now: int)
      returns (o: Outcome)
      modifies store, store.local
      ensures (o, store.State())
           == EditSpec(store.Env(), old(store.State()), currentRoleId, prompt, messageId, currentContent, now)
    {
      if prompt.None? || Trim(prompt.value) == "" || prompt.value == currentContent || currentRoleId.None? {
        return Completed;
      }
      var h := store.Get("chat_histories");
      var edit := EditHistories(h, currentRoleId.value, messageId, Trim(prompt.value), now);
      if edit.None? {
        return Threw;
      }
      if edit.value.Some? {
        store.Stage("chat_histories", edit.value.value);
        var _ := store.Set("chat_histories", edit.value.value);
      }
      o := Completed;
    }
  }
}
