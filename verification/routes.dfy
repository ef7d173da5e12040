/** The HTTP handlers (server/routes.ts) over the application state: the store
    and the model gateway. A handler takes the state, the request's parsed
    parameters and body, and whatever the outside world supplied (the clock,
    a fresh session id, the remote model's outcome), and gives back the next
    state and the response: a status code and a tagged body. Schema
    validation is a predicate on the body, decided before any state changes. */
module Routes {
  import opened Wrappers
  import opened Storage
  import Gateway

  /** The process-wide singletons the handlers share. */
  datatype App = App(store: Store, gateway: Gateway.Gateway)

  const DefaultTitle := "New Conversation"

  /** Derived titles keep this many characters of the first message. */
  const TitleLength: nat := 30
  const Ellipsis := "..."

  /** What the chat handler stores and returns when the gateway call rejects. */
  const ChatFailureReply := "Sorry, I had trouble processing your request. Please try again."

  datatype Body =
    | ChatReply(response: string, sessionId: SessionId, error: bool)
    | MessageList(messages: seq<Message>)
    | Success
    | SessionList(sessions: seq<ChatSession>)
    | SessionBody(session: ChatSession)
    | SettingsEcho(temperature: real, maxLength: real)
    | ModelList(models: seq<ModelConfig>)
    | ModelBody(model: ModelConfig)
    | ErrorBody(message: string)

  datatype Response = Response(status: int, body: Body)

  /** A handler's result: the next state and the response sent. */
  datatype Handled = Handled(app: App, response: Response)

  function Ok(b: Body): Response {
    Response(200, b)
  }

  function Fail(status: int, message: string): Response {
    Response(status, ErrorBody(message))
  }

  // ---------------------------------------------------------------------------
  // Request bodies and their schemas
  // ---------------------------------------------------------------------------

  datatype ChatSettings = ChatSettings(
    temperature: Field<real>,
    maxLength: Field<real>,
    syntaxHighlighting: Field<bool>,
    darkMode: Field<bool>,
    autoScroll: Field<bool>)

  datatype ChatBody = ChatBody(message: Field<string>, sessionId: Field<string>, settings: Field<ChatSettings>)

  datatype TitleBody = TitleBody(title: Field<string>)

  datatype SettingsBody = SettingsBody(temperature: Field<real>, maxLength: Field<real>)

  datatype ModelPatchBody = ModelPatchBody(
    modelName: Field<string>,
    baseModel: Field<string>,
    fineTuningMethod: Field<string>,
    deploymentPlatform: Field<string>,
    parameters: Field<Parameters>,
    isActive: Field<bool>)

  /** A number in `[0, 1]`. */
  predicate ValidTemperature(t: Field<real>) {
    t.Given? && 0.0 <= t.value <= 1.0
  }

  /** A positive number. */
  predicate ValidMaxLength(m: Field<real>) {
    m.Given? && m.value > 0.0
  }

  predicate ValidChatSettings(s: ChatSettings) {
    && ValidTemperature(s.temperature)
    && ValidMaxLength(s.maxLength)
    && s.syntaxHighlighting.OptionalOk() && s.darkMode.OptionalOk() && s.autoScroll.OptionalOk()
  }

  /** `message` and `sessionId` are required strings; `settings` is optional
      but must be well-formed when present. */
  function ValidChatBody(b: ChatBody): (ok: bool)
    ensures ok ==> b.message.Given? && b.sessionId.Given? && !b.settings.Malformed?
    ensures ok && b.settings.Given? ==>
              var s := b.settings.value;
              && s.temperature.Given? && 0.0 <= s.temperature.value <= 1.0
              && s.maxLength.Given? && s.maxLength.value > 0.0
              && !s.syntaxHighlighting.Malformed? && !s.darkMode.Malformed? && !s.autoScroll.Malformed?
    ensures b.message.Given? && b.sessionId.Given? && b.settings.Missing? ==> ok
    ensures b.message.Given? && b.sessionId.Given? && b.settings.Given? && ValidChatSettings(b.settings.value) ==> ok
  {
    && b.message.Given?
    && b.sessionId.Given?
    && (b.settings.Missing? || (b.settings.Given? && ValidChatSettings(b.settings.value)))
  }

  /** Both fields are required: a temperature in `[0, 1]` and a positive
      length limit. */
  function ValidSettingsBody(b: SettingsBody): (ok: bool)
    ensures ok ==> b.temperature.Given? && b.maxLength.Given?
    ensures b.temperature.Given? && b.maxLength.Given? ==>
              (ok <==> 0.0 <= b.temperature.value <= 1.0 && b.maxLength.value > 0.0)
  {
    ValidTemperature(b.temperature) && ValidMaxLength(b.maxLength)
  }

  /** Every field of a model update is optional. */
  function ValidModelPatchBody(b: ModelPatchBody): (ok: bool)
    ensures ModelPatchBody(Missing, Missing, Missing, Missing, Missing, Missing) == b ==> ok
    ensures ok <==> !(|| b.modelName.Malformed? || b.baseModel.Malformed? || b.fineTuningMethod.Malformed?
                      || b.deploymentPlatform.Malformed? || b.parameters.Malformed? || b.isActive.Malformed?)
  {
    && b.modelName.OptionalOk() && b.baseModel.OptionalOk() && b.fineTuningMethod.OptionalOk()
    && b.deploymentPlatform.OptionalOk() && b.parameters.OptionalOk() && b.isActive.OptionalOk()
  }

  /** The validated body as a partial update: exactly the supplied fields,
      with their values. */
  function ToPatch(b: ModelPatchBody): (p: ConfigPatch)
    ensures p.modelName.Some? <==> b.modelName.Given?
    ensures p.baseModel.Some? <==> b.baseModel.Given?
    ensures p.fineTuningMethod.Some? <==> b.fineTuningMethod.Given?
    ensures p.deploymentPlatform.Some? <==> b.deploymentPlatform.Given?
    ensures p.parameters.Some? <==> b.parameters.Given?
    ensures p.isActive.Some? <==> b.isActive.Given?
    ensures p.modelName.Some? ==> p.modelName.value == b.modelName.value
    ensures p.baseModel.Some? ==> p.baseModel.value == b.baseModel.value
    ensures p.fineTuningMethod.Some? ==> p.fineTuningMethod.value == b.fineTuningMethod.value
    ensures p.deploymentPlatform.Some? ==> p.deploymentPlatform.value == b.deploymentPlatform.value
    ensures p.parameters.Some? ==> p.parameters.value == b.parameters.value
    ensures p.isActive.Some? ==> p.isActive.value == b.isActive.value
  {
    ConfigPatch(b.modelName.ToOption(), b.baseModel.ToOption(), b.fineTuningMethod.ToOption(),
                b.deploymentPlatform.ToOption(), b.parameters.ToOption(), b.isActive.ToOption())
  }

  // ---------------------------------------------------------------------------
  // POST /api/chat
  // ---------------------------------------------------------------------------

  /** The title of a session opened by its first message: the message itself
      when it is short, its first 30 characters and an ellipsis when it is
      long, and the default title when it is empty. */
  function DeriveTitle(message: string): (t: string)
    ensures |t| <= TitleLength + |Ellipsis|
    ensures |t| > 0
    ensures |message| == 0 ==> t == DefaultTitle
    ensures 0 < |message| <= TitleLength ==> t == message
    ensures |message| > TitleLength ==>
              |t| == TitleLength + |Ellipsis| && t[..TitleLength] == message[..TitleLength] && t[TitleLength..] == Ellipsis
  {
    if |message| > 0 then
      (if |message| > TitleLength then message[..TitleLength] + Ellipsis else message)
    else DefaultTitle
  }

  /** Opens the session under its derived title if it is new; otherwise
      rewrites its own title, which only refreshes `updatedAt`. */
  function TouchOrCreate(st: Store, sid: SessionId, message: string, now: Time): (r: Store)
    ensures sid in r.sessions
    ensures sid in st.sessions ==> r.sessions[sid] == st.sessions[sid].(updatedAt := now)
    ensures sid !in st.sessions ==> r.sessions[sid] == ChatSession(sid, DeriveTitle(message), now, now)
    ensures forall other :: other != sid ==> GetSession(r, other) == GetSession(st, other)
    ensures r.sessions.Keys == st.sessions.Keys + {sid}
    ensures r.messages == st.messages && r.messageIdCounter == st.messageIdCounter
    ensures r.modelConfigs == st.modelConfigs && r.modelConfigIdCounter == st.modelConfigIdCounter
  {
    match GetSession(st, sid)
    case None => CreateSession(st, sid, DeriveTitle(message), now).store
    case Some(s) => UpdateSessionTitle(st, sid, s.title, now).store
  }

  /** How the gateway call settled, as the handler sees it. */
  datatype Settled = Fulfilled(text: string) | Rejected

  /** The tail of the chat handler: store the assistant's message and answer.
      A rejected gateway call stores and returns a fixed apology, flagged as
      an error but still with status 200. */
  function StoreReply(st: Store, sid: SessionId, settled: Settled, now: Time): (r: Updated<Response>)
    ensures var text := if settled.Fulfilled? then settled.text else ChatFailureReply;
            && r.value == Ok(ChatReply(text, sid, settled.Rejected?))
            && GetMessages(r.store, sid) == GetMessages(st, sid) + [Message(st.messageIdCounter, sid, text, Assistant, now)]
    ensures forall other :: other != sid ==> GetMessages(r.store, other) == GetMessages(st, other)
    ensures r.store.sessions == st.sessions && r.store.messageIdCounter == st.messageIdCounter + 1
    ensures r.store.modelConfigs == st.modelConfigs && r.store.modelConfigIdCounter == st.modelConfigIdCounter
  {
    match settled
    case Fulfilled(text) =>
      Updated(CreateMessage(st, sid, text, Assistant, now).store, Ok(ChatReply(text, sid, false)))
    case Rejected =>
      Updated(CreateMessage(st, sid, ChatFailureReply, Assistant, now).store, Ok(ChatReply(ChatFailureReply, sid, true)))
  }

  /** `reply` is what the gateway answers for `outcome`: the model's text, or
      the canned reply standing in for a failure. */
  ghost predicate AnswersWith(outcome: Gateway.Outcome, reply: string) {
    match outcome
    case Reply(text) => reply == text
    case Threw(e) => reply == Gateway.FailureReply(e)
  }

  /** `POST /api/chat`. A malformed body is answered 400 and changes nothing.
      Otherwise the session is opened or touched, and exactly two messages
      are appended to it, the user's and then the assistant's, whose text is
      the reply returned. */
  function PostChat(app: App, body: ChatBody, outcome: Gateway.Outcome, now: Time): (r: Handled)
    ensures !ValidChatBody(body) ==> r.app == app && r.response == Fail(400, "Invalid request data")
    ensures ValidChatBody(body) ==>
              var message, sid, c := body.message.value, body.sessionId.value, app.store.messageIdCounter;
              && r.response.status == 200
              && r.response.body.ChatReply?
              && r.response.body.sessionId == sid
              && !r.response.body.error
              && AnswersWith(outcome, r.response.body.response)
              && GetMessages(r.app.store, sid) == GetMessages(app.store, sid)
                   + [Message(c, sid, message, User, now), Message(c + 1, sid, r.response.body.response, Assistant, now)]
              && r.app.store.sessions == TouchOrCreate(app.store, sid, message, now).sessions
              && (forall other :: other != sid ==> GetMessages(r.app.store, other) == GetMessages(app.store, other))
              && r.app.store.messageIdCounter == c + 2
              && r.app.store.modelConfigs == app.store.modelConfigs
              && r.app.store.modelConfigIdCounter == app.store.modelConfigIdCounter
              && r.app.gateway == Gateway.SendMessage(app.gateway, message, outcome).gateway
  {
    if !ValidChatBody(body) then Handled(app, Fail(400, "Invalid request data"))
    else
      var message := body.message.value;
      var sid := body.sessionId.value;
      var st1 := TouchOrCreate(app.store, sid, message, now);
      var st2 := CreateMessage(st1, sid, message, User, now).store;
      var sent := Gateway.SendMessage(app.gateway, message, outcome);
      var done := StoreReply(st2, sid, Fulfilled(sent.reply), now);
      Handled(App(done.store, sent.gateway), done.value)
  }

  /** The gateway absorbs every upstream failure, so the handler's own
      fallback never runs: a failed remote call is answered 200 without the
      error flag, and the gateway's canned reply is what gets stored. */
  lemma UpstreamFailureIsAnsweredNormally(app: App, body: ChatBody, e: Gateway.Thrown, now: Time)
    requires ValidChatBody(body)
    ensures var r := PostChat(app, body, Gateway.Threw(e), now);
            var sid := body.sessionId.value;
            && r.response == Ok(ChatReply(Gateway.FailureReply(e), sid, false))
            && GetMessages(r.app.store, sid)[|GetMessages(r.app.store, sid)| - 1].content == Gateway.FailureReply(e)
            && r.app.gateway == app.gateway
  {
  }

  /** A new session takes its title from the first message; an existing one
      keeps its title and creation time and only has `updatedAt` refreshed. */
  lemma ChatOpensOrTouchesSession(app: App, body: ChatBody, outcome: Gateway.Outcome, now: Time)
    requires ValidChatBody(body)
    ensures var r := PostChat(app, body, outcome, now);
            var sid := body.sessionId.value;
            && sid in r.app.store.sessions
            && r.app.store.sessions[sid].updatedAt == now
            && (sid !in app.store.sessions ==>
                  r.app.store.sessions[sid] == ChatSession(sid, DeriveTitle(body.message.value), now, now))
            && (sid in app.store.sessions ==>
                  && r.app.store.sessions[sid].title == app.store.sessions[sid].title
                  && r.app.store.sessions[sid].createdAt == app.store.sessions[sid].createdAt)
  {
  }

  /** With a clock that has moved past every earlier update, the session
      just written to heads any most-recent-first listing of the sessions. */
  lemma ChatMovesSessionToFront(app: App, body: ChatBody, outcome: Gateway.Outcome, now: Time, listing: seq<ChatSession>)
    requires ValidChatBody(body)
    requires forall sid :: sid in app.store.sessions ==> app.store.sessions[sid].updatedAt < now
    requires ByRecency(listing)
    requires multiset(listing) == multiset(PostChat(app, body, outcome, now).app.store.sessions.Values)
    ensures |listing| > 0 && listing[0] == PostChat(app, body, outcome, now).app.store.sessions[body.sessionId.value]
  {
    var sessions := PostChat(app, body, outcome, now).app.store.sessions;
    var sid := body.sessionId.value;
    var s := sessions[sid];
    assert s in multiset(sessions.Values);
    assert s in listing;
    var j :| 0 <= j < |listing| && listing[j] == s;
    assert listing[0] in multiset(sessions.Values);
    assert listing[0].updatedAt >= now;
    forall k | k in sessions && k != sid
      ensures sessions[k].updatedAt < now
    {
      assert GetSession(PostChat(app, body, outcome, now).app.store, k) == GetSession(app.store, k);
    }
    var k :| k in sessions && sessions[k] == listing[0];
    assert k == sid;
  }

  // ---------------------------------------------------------------------------
  // /api/chat/:sessionId
  // ---------------------------------------------------------------------------

  /** `GET /api/chat/:sessionId`: the session's messages, empty when unknown. */
  function GetChat(app: App, sid: SessionId): (r: Handled)
    ensures r.app == app
    ensures r.response.status == 200 && r.response.body.MessageList?
    ensures sid !in app.store.messages ==> r.response.body.messages == []
    ensures sid in app.store.messages ==> r.response.body.messages == app.store.messages[sid]
  {
    Handled(app, Ok(MessageList(GetMessages(app.store, sid))))
  }

  /** Reading the history back right after a chat turn shows the earlier
      messages followed by the user's message and the reply. */
  lemma ChatThenHistory(app: App, body: ChatBody, outcome: Gateway.Outcome, now: Time)
    requires ValidChatBody(body)
    ensures var r := PostChat(app, body, outcome, now);
            var history := GetChat(r.app, body.sessionId.value).response.body.messages;
            && |history| == |GetMessages(app.store, body.sessionId.value)| + 2
            && history[|history| - 2].role == User && history[|history| - 2].content == body.message.value
            && history[|history| - 1].role == Assistant && history[|history| - 1].content == r.response.body.response
  {
  }

  /** `DELETE /api/chat/:sessionId`: empties the history, keeps the session. */
  function ClearChat(app: App, sid: SessionId): (r: Handled)
    ensures r.response == Ok(Success)
    ensures GetMessages(r.app.store, sid) == []
    ensures GetSession(r.app.store, sid) == GetSession(app.store, sid)
    ensures r.app.store.sessions == app.store.sessions && r.app.gateway == app.gateway
    ensures forall other :: other != sid ==> GetMessages(r.app.store, other) == GetMessages(app.store, other)
    ensures r.app.store.messageIdCounter == app.store.messageIdCounter
    ensures r.app.store.modelConfigs == app.store.modelConfigs
    ensures r.app.store.modelConfigIdCounter == app.store.modelConfigIdCounter
  {
    Handled(app.(store := DeleteMessages(app.store, sid)), Ok(Success))
  }

  // ---------------------------------------------------------------------------
  // /api/sessions
  // ---------------------------------------------------------------------------

  /** `GET /api/sessions`: every session, most recently updated first. */
  method ListSessions(app: App) returns (r: Response)
    ensures r.status == 200 && r.body.SessionList?
    ensures ByRecency(r.body.sessions)
    ensures multiset(r.body.sessions) == multiset(app.store.sessions.Values)
  {
    var sessions := GetSessions(app.store);
    r := Ok(SessionList(sessions));
  }

  /** `POST /api/sessions`: a new session under a fresh id, titled "New
      Conversation" unless a title is given; 400 for a non-string title. */
  function PostSession(app: App, body: TitleBody, freshId: SessionId, now: Time): (r: Handled)
    ensures body.title.Malformed? ==> r.app == app && r.response == Fail(400, "Failed to create chat session")
    ensures !body.title.Malformed? ==>
              var title := if body.title.Given? then body.title.value else DefaultTitle;
              && r.response == Ok(SessionBody(ChatSession(freshId, title, now, now)))
              && GetSession(r.app.store, freshId) == Some(ChatSession(freshId, title, now, now))
              && (forall other :: other != freshId ==> GetSession(r.app.store, other) == GetSession(app.store, other))
              && r.app.store.messages == app.store.messages
              && r.app.store.messageIdCounter == app.store.messageIdCounter
              && r.app.store.modelConfigs == app.store.modelConfigs
              && r.app.store.modelConfigIdCounter == app.store.modelConfigIdCounter
              && r.app.gateway == app.gateway
  {
    if body.title.Malformed? then Handled(app, Fail(400, "Failed to create chat session"))
    else
      var title := body.title.ToOption().GetOr(DefaultTitle);
      var created := CreateSession(app.store, freshId, title, now);
      Handled(app.(store := created.store), Ok(SessionBody(created.value)))
  }

  /** `PATCH /api/sessions/:sessionId`: renames a known session; 400 without a
      string title and 404 for an unknown id, neither of which changes or
      creates anything. */
  function PatchSession(app: App, sid: SessionId, body: TitleBody, now: Time): (r: Handled)
    ensures !body.title.Given? ==> r.app == app && r.response == Fail(400, "Failed to update chat session")
    ensures body.title.Given? && sid !in app.store.sessions ==>
              r.app == app && r.response == Fail(404, "Session not found")
    ensures body.title.Given? && sid in app.store.sessions ==>
              var s := app.store.sessions[sid].(title := body.title.value, updatedAt := now);
              && r.response == Ok(SessionBody(s))
              && GetSession(r.app.store, sid) == Some(s)
              && (forall other :: other != sid ==> GetSession(r.app.store, other) == GetSession(app.store, other))
              && r.app.store.messages == app.store.messages
              && r.app.store.messageIdCounter == app.store.messageIdCounter
              && r.app.store.modelConfigs == app.store.modelConfigs
              && r.app.store.modelConfigIdCounter == app.store.modelConfigIdCounter
              && r.app.gateway == app.gateway
  {
    if !body.title.Given? then Handled(app, Fail(400, "Failed to update chat session"))
    else
      var updated := UpdateSessionTitle(app.store, sid, body.title.value, now);
      match updated.value
      case None => Handled(app, Fail(404, "Session not found"))
      case Some(s) => Handled(app.(store := updated.store), Ok(SessionBody(s)))
  }

  /** `DELETE /api/sessions/:sessionId`: removes the session and its
      messages; succeeds whether or not the id was known. */
  function DeleteSessionRoute(app: App, sid: SessionId): (r: Handled)
    ensures r.response == Ok(Success)
    ensures GetSession(r.app.store, sid) == None && GetMessages(r.app.store, sid) == []
    ensures forall other :: other != sid ==> GetSession(r.app.store, other) == GetSession(app.store, other)
    ensures forall other :: other != sid ==> GetMessages(r.app.store, other) == GetMessages(app.store, other)
    ensures r.app.gateway == app.gateway
    ensures r.app.store.messageIdCounter == app.store.messageIdCounter
    ensures r.app.store.modelConfigs == app.store.modelConfigs
    ensures r.app.store.modelConfigIdCounter == app.store.modelConfigIdCounter
    ensures sid !in app.store.sessions && sid !in app.store.messages ==> r.app == app
  {
    Handled(app.(store := DeleteSession(app.store, sid)), Ok(Success))
  }

  // ---------------------------------------------------------------------------
  // POST /api/settings
  // ---------------------------------------------------------------------------

  /** `POST /api/settings`: hands a valid temperature and length limit to the
      gateway, keeping its transcript, and echoes them; 400 otherwise. */
  function PostSettings(app: App, body: SettingsBody): (r: Handled)
    ensures !ValidSettingsBody(body) ==> r.app == app && r.response == Fail(400, "Invalid settings data")
    ensures ValidSettingsBody(body) ==>
              && r.response == Ok(SettingsEcho(body.temperature.value, body.maxLength.value))
              && r.app.gateway.settings == Gateway.Settings(body.temperature.value, body.maxLength.value)
              && r.app.gateway.history == app.gateway.history
              && r.app.store == app.store
  {
    if !ValidSettingsBody(body) then Handled(app, Fail(400, "Invalid settings data"))
    else
      var t := body.temperature.value;
      var m := body.maxLength.value;
      var g := Gateway.UpdateSettings(app.gateway, Gateway.SettingsPatch(Some(t), Some(m)));
      Handled(app.(gateway := g), Ok(SettingsEcho(t, m)))
  }

  // ---------------------------------------------------------------------------
  // /api/models
  // ---------------------------------------------------------------------------

  /** `GET /api/models`: every configuration, oldest first. */
  function ListModels(app: App): (r: Handled)
    ensures r.app == app && r.response.status == 200 && r.response.body.ModelList?
    ensures ConfigsWf(app.store) ==>
              forall id :: id in app.store.modelConfigs ==> app.store.modelConfigs[id] in r.response.body.models
    ensures ConfigsWf(app.store) ==>
              forall i :: 0 <= i < |r.response.body.models| ==>
                var c := r.response.body.models[i];
                c.id in app.store.modelConfigs && app.store.modelConfigs[c.id] == c
    ensures ConfigsWf(app.store) ==>
              forall i, j :: 0 <= i < j < |r.response.body.models| ==>
                r.response.body.models[i].id < r.response.body.models[j].id
  {
    Handled(app, Ok(ModelList(GetModelConfigs(app.store))))
  }

  /** `GET /api/models/active`: the active configuration, 404 when none is. */
  function ActiveModel(app: App): (r: Handled)
    ensures r.app == app
    ensures ConfigsWf(app.store) ==>
              forall id :: id in app.store.modelConfigs ==>
                (app.store.modelConfigs[id].isActive <==> r.response == Ok(ModelBody(app.store.modelConfigs[id])))
    ensures ConfigsWf(app.store) && (forall id :: id in app.store.modelConfigs ==> !app.store.modelConfigs[id].isActive) ==>
              r.response == Fail(404, "No active model found")
  {
    match GetActiveModelConfig(app.store)
    case None => Handled(app, Fail(404, "No active model found"))
    case Some(c) => Handled(app, Ok(ModelBody(c)))
  }

  /** `POST /api/models/:id/activate`, with `id` the result of `parseInt`
      (`None` for NaN): 404 and no change for an id that is not stored;
      otherwise that configuration becomes the only active one. */
  function ActivateModel(app: App, id: Option<int>): (r: Handled)
    ensures id.None? || id.value !in app.store.modelConfigs ==>
              r.app == app && r.response == Fail(404, "Model not found")
    ensures id.Some? && id.value in app.store.modelConfigs ==>
              var configs := app.store.modelConfigs;
              && r.response == Ok(ModelBody(configs[id.value].(isActive := true)))
              && r.app.store.modelConfigs.Keys == configs.Keys
              && r.app.store.modelConfigs[id.value] == r.response.body.model
              && (forall k :: k in configs && k != id.value ==>
                    r.app.store.modelConfigs[k] == configs[k].(isActive := configs[k].isActive && configs[id.value].isActive))
              && (AtMostOneActive(configs) ==>
                    forall k :: k in r.app.store.modelConfigs ==> (r.app.store.modelConfigs[k].isActive <==> k == id.value))
              && r.app.store.sessions == app.store.sessions && r.app.store.messages == app.store.messages
              && r.app.store.messageIdCounter == app.store.messageIdCounter
              && r.app.store.modelConfigIdCounter == app.store.modelConfigIdCounter
              && r.app.gateway == app.gateway
  {
    if id.None? then Handled(app, Fail(404, "Model not found"))
    else
      var updated := SetActiveModelConfig(app.store, id.value);
      match updated.value
      case None => Handled(app, Fail(404, "Model not found"))
      case Some(c) => Handled(app.(store := updated.store), Ok(ModelBody(c)))
  }

  /** `POST /api/models/:id/update`: a body that fails its schema is answered
      500 (the handler has no 400 path); then 404 and no change for an id
      that is not stored; otherwise the merged configuration. */
  function UpdateModel(app: App, id: Option<int>, body: ModelPatchBody): (r: Handled)
    ensures !ValidModelPatchBody(body) ==> r.app == app && r.response == Fail(500, "Failed to update model")
    ensures ValidModelPatchBody(body) && (id.None? || id.value !in app.store.modelConfigs) ==>
              r.app == app && r.response == Fail(404, "Model not found")
    ensures ValidModelPatchBody(body) && id.Some? && id.value in app.store.modelConfigs ==>
              && r.response == Ok(ModelBody(Merge(app.store.modelConfigs[id.value], ToPatch(body))))
              && r.app.store.modelConfigs.Keys == app.store.modelConfigs.Keys
              && r.app.store.modelConfigs[id.value] == r.response.body.model
              && (forall k :: k in app.store.modelConfigs && k != id.value ==>
                    r.app.store.modelConfigs[k] == app.store.modelConfigs[k].(isActive :=
                      app.store.modelConfigs[k].isActive && !Activates(app.store.modelConfigs[id.value], ToPatch(body))))
              && r.app.store.sessions == app.store.sessions && r.app.store.messages == app.store.messages
              && r.app.store.messageIdCounter == app.store.messageIdCounter
              && r.app.store.modelConfigIdCounter == app.store.modelConfigIdCounter
              && r.app.gateway == app.gateway
              && (AtMostOneActive(app.store.modelConfigs) ==> AtMostOneActive(r.app.store.modelConfigs))
  {
    if !ValidModelPatchBody(body) then Handled(app, Fail(500, "Failed to update model"))
    else if id.None? then Handled(app, Fail(404, "Model not found"))
    else
      var updated := UpdateModelConfig(app.store, id.value, ToPatch(body));
      UpdateModelConfigPreservesInvariants(app.store, id.value, ToPatch(body));
      match updated.value
      case None => Handled(app, Fail(404, "Model not found"))
      case Some(c) => Handled(app.(store := updated.store), Ok(ModelBody(c)))
  }

  // ---------------------------------------------------------------------------
  // Invariants across handlers
  // ---------------------------------------------------------------------------

  // No handler breaks the store's invariants: message ids stay below the
  // counter and ordered within each session, records sit under their own
  // ids, and at most one configuration is active.

  lemma ChatRoutesPreserveWf(app: App, body: ChatBody, outcome: Gateway.Outcome, sid: SessionId, now: Time)
    requires Wf(app.store)
    ensures Wf(PostChat(app, body, outcome, now).app.store)
    ensures Wf(ClearChat(app, sid).app.store)
  {
    SessionOpsPreserveWf(app.store, sid, DefaultTitle, now);
    if ValidChatBody(body) {
      var message := body.message.value;
      var chatSid := body.sessionId.value;
      var st1 := TouchOrCreate(app.store, chatSid, message, now);
      assert Wf(st1) by {
        SessionOpsPreserveWf(app.store, chatSid, DeriveTitle(message), now);
        if chatSid in app.store.sessions {
          SessionOpsPreserveWf(app.store, chatSid, app.store.sessions[chatSid].title, now);
        }
      }
      var st2 := CreateMessage(st1, chatSid, message, User, now).store;
      CreateMessagePreservesWf(st1, chatSid, message, User, now);
      var reply := Gateway.SendMessage(app.gateway, message, outcome).reply;
      CreateMessagePreservesWf(st2, chatSid, reply, Assistant, now);
    }
  }

  lemma SessionRoutesPreserveWf(app: App, sid: SessionId, body: TitleBody, now: Time)
    requires Wf(app.store)
    ensures Wf(PostSession(app, body, sid, now).app.store)
    ensures Wf(PatchSession(app, sid, body, now).app.store)
    ensures Wf(DeleteSessionRoute(app, sid).app.store)
  {
  }

  lemma ModelRoutesPreserveWf(app: App, id: Option<int>, body: ModelPatchBody)
    requires Wf(app.store)
    ensures Wf(ActivateModel(app, id).app.store)
    ensures Wf(UpdateModel(app, id, body).app.store)
  {
  }
}
