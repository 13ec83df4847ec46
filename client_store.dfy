/**
 * The browser-side application store: the session list, each session's
 * messages, the model list, the settings and the UI flags, and the actions
 * that change them. Each action's server call is a parameter holding what
 * the call returned (or its failure message), so an action is a sequence
 * of state updates.
 */
module ClientStore {
  import opened Wrappers
  import opened Text
  import opened Types
  import opened OllamaService
  import Storage
  import SettingsRoutes

  /** `error.message || fallback`. */
  function Reported(message: string, fallback: string): string {
    if message != "" then message else fallback
  }

  /** The optional fields a new session may be created with. */
  datatype CreateSessionData = CreateSessionData(title: Option<string>, model: Option<string>)

  /** What the chat input sends: the content and, optionally, a role. */
  datatype SendMessageData = SendMessageData(content: string, role: Option<Role>)

  /** The server's answer to a send: the stored user message and the reply. */
  datatype SendReply = SendReply(userMessage: Message, aiMessage: Message)

  /**
   * The model a new session asks for: the one requested, else the default
   * model of the settings, else the first listed model, else `llama3.2`; an
   * empty string counts as missing at every step.
   */
  function ChooseModel(requested: Option<string>, settings: Option<Settings>, models: seq<ModelInfo>): (r: string)
    ensures r != ""
    ensures Truthy(requested) ==> r == requested.value
    ensures !Truthy(requested) && settings.Some? && settings.value.defaultModel != "" ==> r == settings.value.defaultModel
    ensures r == "llama3.2" || r == requested.GetOr("") || (settings.Some? && r == settings.value.defaultModel)
            || (|models| > 0 && r == models[0].id)
  {
    if Truthy(requested) then requested.value
    else if settings.Some? && settings.value.defaultModel != "" then settings.value.defaultModel
    else if |models| > 0 && models[0].id != "" then models[0].id
    else "llama3.2"
  }

  /** The first listed model is used exactly when neither the request nor the settings name one. */
  lemma FirstListedModelAsFallback(requested: Option<string>, settings: Option<Settings>, models: seq<ModelInfo>)
    requires |models| > 0 && models[0].id != ""
    ensures ChooseModel(requested, settings, models) == models[0].id <==>
      (!Truthy(requested) && (settings.None? || settings.value.defaultModel == "")) ||
      (Truthy(requested) && requested.value == models[0].id) ||
      (!Truthy(requested) && settings.Some? && settings.value.defaultModel == models[0].id)
  {
  }

  /** `sessions.filter(s => s.id !== id)`. */
  function WithoutId(ss: seq<Session>, id: string): (r: seq<Session>)
    ensures |r| <= |ss|
    ensures forall x :: x in r <==> x in ss && x.id != id
  {
    if ss == [] then []
    else if ss[0].id == id then WithoutId(ss[1..], id)
    else [ss[0]] + WithoutId(ss[1..], id)
  }

  /** Filtering out an id no session has keeps the list as it is. */
  lemma {:induction false} WithoutAbsentId(ss: seq<Session>, id: string)
    requires forall k :: 0 <= k < |ss| ==> ss[k].id != id
    ensures WithoutId(ss, id) == ss
  {
    if ss != [] {
      WithoutAbsentId(ss[1..], id);
      assert [ss[0]] + ss[1..] == ss;
    }
  }

  /** `sessions.map(s => s.id === id ? updated : s)`. */
  function ReplaceById(ss: seq<Session>, id: string, updated: Session): (r: seq<Session>)
    ensures |r| == |ss|
    ensures forall k :: 0 <= k < |ss| ==> r[k] == (if ss[k].id == id then updated else ss[k])
  {
    seq(|ss|, k requires 0 <= k < |ss| => if ss[k].id == id then updated else ss[k])
  }

  /** Replacing with a session of the same id twice is replacing once, and every other entry keeps its place. */
  lemma ReplaceByIdStable(ss: seq<Session>, id: string, updated: Session)
    requires updated.id == id
    ensures ReplaceById(ReplaceById(ss, id, updated), id, updated) == ReplaceById(ss, id, updated)
    ensures WithoutId(ReplaceById(ss, id, updated), id) == WithoutId(ss, id)
  {
    var once := ReplaceById(ss, id, updated);
    assert ReplaceById(once, id, updated) == once;
    SameOthers(ss, once, id);
  }

  /** Two lists that agree wherever the id differs filter to the same list. */
  lemma {:induction false} SameOthers(a: seq<Session>, b: seq<Session>, id: string)
    requires |a| == |b|
    requires forall k :: 0 <= k < |a| ==> (a[k].id == id <==> b[k].id == id) && (a[k].id != id ==> a[k] == b[k])
    ensures WithoutId(a, id) == WithoutId(b, id)
  {
    if a != [] {
      SameOthers(a[1..], b[1..], id);
    }
  }

  /**
   * The stream chunk reducer on one message list: the chunk is appended to
   * the content of the last message if that is an assistant message;
   * otherwise the list is left as it is.
   */
  function AppendedToLast(ms: seq<Message>, chunk: string): (r: seq<Message>)
    ensures |r| == |ms|
    ensures |ms| > 0 ==> r[..|ms| - 1] == ms[..|ms| - 1]
    ensures |ms| > 0 && ms[|ms| - 1].role == Assistant ==>
      r[|ms| - 1] == ms[|ms| - 1].(content := ms[|ms| - 1].content + chunk)
    ensures (|ms| == 0 || ms[|ms| - 1].role != Assistant) ==> r == ms
  {
    if |ms| > 0 && ms[|ms| - 1].role == Assistant then
      ms[..|ms| - 1] + [ms[|ms| - 1].(content := ms[|ms| - 1].content + chunk)]
    else ms
  }

  /** `list.slice(0, -1)`: all but the last message; an empty list stays empty. */
  function DropLast(ms: seq<Message>): (r: seq<Message>)
    ensures |ms| > 0 ==> r + [ms[|ms| - 1]] == ms
    ensures |ms| == 0 ==> r == []
  {
    if |ms| == 0 then [] else ms[..|ms| - 1]
  }

  /** The settings installed when loading them fails. */
  function FallbackSettings(models: seq<ModelInfo>): (r: Settings)
    ensures r.defaultModel == (if |models| > 0 then models[0].id else "llama3.2")
  {
    Settings(if |models| > 0 then models[0].id else "llama3.2", 0.7, 2048.0, "http://localhost:11434", Auto, None, None)
  }

  /** With no models listed, the fallback is exactly the server's default settings document. */
  lemma FallbackMatchesServerDefaults()
    ensures FallbackSettings([]) == Storage.DefaultSettings(Storage.StorageEnv(None, None, None, None))
  {
  }

  class AppStore {
    var sessions: seq<Session>
    var currentSessionId: Option<string>
    var messages: map<string, seq<Message>>
    var models: seq<ModelInfo>
    var settings: Option<Settings>
    var sidebarOpen: bool
    var isLoading: bool
    var error: Option<string>
    var isStreaming: bool
    var settingsOpen: bool

    constructor ()
      ensures sessions == [] && currentSessionId.None? && messages == map[] && models == [] && settings.None?
      ensures sidebarOpen && !isLoading && error.None? && !isStreaming && !settingsOpen
    {
      sessions := [];
      currentSessionId := None;
      messages := map[];
      models := [];
      settings := None;
      sidebarOpen := true;
      isLoading := false;
      error := None;
      isStreaming := false;
      settingsOpen := false;
    }

    /** `state.messages[id] || []`. */
    function MessagesOf(id: string): seq<Message>
      reads this
    {
      if id in messages then messages[id] else []
    }

    /** `loadSessions`. */
    method LoadSessions(response: Result<seq<Session>, string>)
      modifies this
      ensures !isLoading
      ensures response.Ok? ==> sessions == response.value && error.None?
      ensures response.Err? ==> sessions == old(sessions) && error == Some(Reported(response.error, "Failed to load sessions"))
      ensures currentSessionId == old(currentSessionId) && messages == old(messages) && models == old(models)
      ensures settings == old(settings) && sidebarOpen == old(sidebarOpen) && isStreaming == old(isStreaming)
      ensures settingsOpen == old(settingsOpen)
    {
      isLoading, error := true, None;
      match response {
      case Ok(list) => sessions := list;
      case Err(msg) => error := Some(Reported(msg, "Failed to load sessions"));
      }
      isLoading := false;
    }

    /**
     * `createSession`: the request carries the chosen model; the created
     * session goes first, becomes current and gets an empty message list.
     * A failure is recorded and passed on.
     */
    method CreateSession(data: CreateSessionData, server: CreateSessionData -> Result<Session, string>)
      returns (r: Result<Session, string>)
      modifies this
      ensures r == server(data.(model := Some(ChooseModel(data.model, old(settings), old(models)))))
      ensures r.Ok? ==>
        && sessions == [r.value] + old(sessions) && currentSessionId == Some(r.value.id)
        && messages == old(messages)[r.value.id := []] && error.None?
      ensures r.Err? ==>
        && sessions == old(sessions) && currentSessionId == old(currentSessionId) && messages == old(messages)
        && error == Some(Reported(r.error, "Failed to create session"))
      ensures !isLoading
      ensures models == old(models) && settings == old(settings) && sidebarOpen == old(sidebarOpen)
      ensures isStreaming == old(isStreaming) && settingsOpen == old(settingsOpen)
    {
      isLoading, error := true, None;
      var modelToUse := ChooseModel(data.model, settings, models);
      r := server(data.(model := Some(modelToUse)));
      match r {
      case Ok(s) =>
        sessions := [s] + sessions;
        currentSessionId := Some(s.id);
        messages := messages[s.id := []];
      case Err(msg) =>
        error := Some(Reported(msg, "Failed to create session"));
      }
      isLoading := false;
    }

    /** `selectSession`: the session becomes current and its messages are loaded. */
    method SelectSession(id: string, response: Result<seq<Message>, string>)
      modifies this
      ensures currentSessionId == Some(id)
      ensures response.Ok? ==> messages == old(messages)[id := response.value] && error == old(error)
      ensures response.Err? ==> messages == old(messages) && error == Some(Reported(response.error, "Failed to load messages"))
      ensures sessions == old(sessions) && models == old(models) && settings == old(settings)
      ensures sidebarOpen == old(sidebarOpen) && isLoading == old(isLoading) && isStreaming == old(isStreaming)
      ensures settingsOpen == old(settingsOpen)
    {
      currentSessionId := Some(id);
      LoadMessages(id, response);
    }

    /**
     * `deleteSession`: once the server has deleted it, the session and its
     * messages go, and it stops being current if it was.
     */
    method DeleteSession(id: string, failure: Option<string>)
      modifies this
      ensures failure.None? ==>
        && sessions == WithoutId(old(sessions), id) && messages == old(messages) - {id}
        && currentSessionId == (if old(currentSessionId) == Some(id) then None else old(currentSessionId))
        && error.None?
      ensures failure.Some? ==>
        && sessions == old(sessions) && messages == old(messages) && currentSessionId == old(currentSessionId)
        && error == Some(Reported(failure.value, "Failed to delete session"))
      ensures !isLoading
      ensures models == old(models) && settings == old(settings) && sidebarOpen == old(sidebarOpen)
      ensures isStreaming == old(isStreaming) && settingsOpen == old(settingsOpen)
    {
      isLoading, error := true, None;
      if failure.Some? {
        error := Some(Reported(failure.value, "Failed to delete session"));
      } else {
        messages := messages - {id};
        sessions := WithoutId(sessions, id);
        currentSessionId := if currentSessionId == Some(id) then None else currentSessionId;
      }
      isLoading := false;
    }

    /** `updateSession`: the server's version replaces every entry with the id. */
    method UpdateSession(id: string, response: Result<Session, string>)
      modifies this
      ensures response.Ok? ==> sessions == ReplaceById(old(sessions), id, response.value) && error.None?
      ensures response.Err? ==> sessions == old(sessions) && error == Some(Reported(response.error, "Failed to update session"))
      ensures !isLoading
      ensures currentSessionId == old(currentSessionId) && messages == old(messages) && models == old(models)
      ensures settings == old(settings) && sidebarOpen == old(sidebarOpen) && isStreaming == old(isStreaming)
      ensures settingsOpen == old(settingsOpen)
    {
      isLoading, error := true, None;
      match response {
      case Ok(s) => sessions := ReplaceById(sessions, id, s);
      case Err(msg) => error := Some(Reported(msg, "Failed to update session"));
      }
      isLoading := false;
    }

    /** `updateSessionTitle`: as `updateSession`, without touching the loading flag or clearing the error. */
    method UpdateSessionTitle(id: string, response: Result<Session, string>)
      modifies this
      ensures response.Ok? ==> sessions == ReplaceById(old(sessions), id, response.value) && error == old(error)
      ensures response.Err? ==> sessions == old(sessions) && error == Some(Reported(response.error, "Failed to update session title"))
      ensures currentSessionId == old(currentSessionId) && messages == old(messages) && models == old(models)
      ensures settings == old(settings) && sidebarOpen == old(sidebarOpen) && isStreaming == old(isStreaming)
      ensures settingsOpen == old(settingsOpen) && isLoading == old(isLoading)
    {
      match response {
      case Ok(s) => sessions := ReplaceById(sessions, id, s);
      case Err(msg) => error := Some(Reported(msg, "Failed to update session title"));
      }
    }

    /**
     * `changeSessionModel`: an `updateSession` whose request body is `{ model }`,
     * the new model and nothing else. The request is not modelled; `response`
     * is the server's answer to it.
     */
    method ChangeSessionModel(id: string, response: Result<Session, string>)
      modifies this
      ensures response.Ok? ==> sessions == ReplaceById(old(sessions), id, response.value) && error.None?
      ensures response.Err? ==> sessions == old(sessions) && error == Some(Reported(response.error, "Failed to update session"))
      ensures !isLoading
      ensures currentSessionId == old(currentSessionId) && messages == old(messages) && models == old(models)
      ensures settings == old(settings) && sidebarOpen == old(sidebarOpen) && isStreaming == old(isStreaming)
      ensures settingsOpen == old(settingsOpen)
    {
      UpdateSession(id, response);
    }

    /** `loadMessages`: the server's list replaces the session's entry. */
    method LoadMessages(id: string, response: Result<seq<Message>, string>)
      modifies this
      ensures response.Ok? ==> messages == old(messages)[id := response.value] && error == old(error)
      ensures response.Err? ==> messages == old(messages) && error == Some(Reported(response.error, "Failed to load messages"))
      ensures sessions == old(sessions) && currentSessionId == old(currentSessionId) && models == old(models)
      ensures settings == old(settings) && sidebarOpen == old(sidebarOpen) && isLoading == old(isLoading)
      ensures isStreaming == old(isStreaming) && settingsOpen == old(settingsOpen)
    {
      match response {
      case Ok(list) => messages := messages[id := list];
      case Err(msg) => error := Some(Reported(msg, "Failed to load messages"));
      }
    }

    /**
     * `sendMessage`: the user message is shown at once (its id is the
     * clock's decimal text); when the server answers, it is replaced by the
     * stored user message and the reply. A first message, one sent while the
     * session held no user message, reloads the session list for its title.
     */
    method SendMessage(sessionId: string, data: SendMessageData, nowMs: nat,
                       reply: Result<SendReply, string>, reload: Result<seq<Session>, string>)
      returns (isFirstMessage: bool)
      modifies this
      ensures isFirstMessage <==> forall k :: 0 <= k < |old(MessagesOf(sessionId))| ==> old(MessagesOf(sessionId))[k].role != User
      ensures reply.Ok? ==>
        messages == old(messages)[sessionId := old(MessagesOf(sessionId)) + [reply.value.userMessage, reply.value.aiMessage]]
      ensures reply.Err? ==>
        && messages == old(messages)[sessionId := old(MessagesOf(sessionId))
             + [Message(NatToString(nowMs), sessionId, data.role.GetOr(User), data.content, nowMs, None)]]
        && error == Some(Reported(reply.error, "Failed to send message"))
      ensures reply.Ok? ==>
        error == (if isFirstMessage && reload.Err? then Some(Reported(reload.error, "Failed to load sessions")) else None)
      ensures reply.Ok? && isFirstMessage && reload.Ok? ==> sessions == reload.value
      ensures !(reply.Ok? && isFirstMessage && reload.Ok?) ==> sessions == old(sessions)
      ensures !isLoading
      ensures currentSessionId == old(currentSessionId) && models == old(models) && settings == old(settings)
      ensures sidebarOpen == old(sidebarOpen) && isStreaming == old(isStreaming) && settingsOpen == old(settingsOpen)
    {
      var currentMessages := MessagesOf(sessionId);
      ghost var start := messages;
      isLoading, error := true, None;
      UserCountZero(currentMessages);
      isFirstMessage := UserCount(currentMessages) == 0;
      var userMessage := Message(NatToString(nowMs), sessionId, data.role.GetOr(User), data.content, nowMs, None);
      ShowMessage(sessionId, userMessage);
      assert MessagesOf(sessionId) == currentMessages + [userMessage];
      assert DropLast(currentMessages + [userMessage]) == currentMessages;
      ReceiveReply(sessionId, reply, isFirstMessage, reload);
    }

    /** The rest of `sendMessage` once the server has answered, up to the final `isLoading: false`. */
    method ReceiveReply(sessionId: string, reply: Result<SendReply, string>, isFirstMessage: bool,
                        reload: Result<seq<Session>, string>)
      modifies this
      ensures reply.Ok? ==>
        messages == old(messages)[sessionId := DropLast(old(MessagesOf(sessionId))) + [reply.value.userMessage, reply.value.aiMessage]]
      ensures reply.Err? ==> messages == old(messages) && error == Some(Reported(reply.error, "Failed to send message"))
      ensures reply.Ok? && !isFirstMessage ==> error == old(error)
      ensures reply.Ok? && isFirstMessage ==>
        error == (if reload.Err? then Some(Reported(reload.error, "Failed to load sessions")) else None)
      ensures reply.Ok? && isFirstMessage && reload.Ok? ==> sessions == reload.value
      ensures !(reply.Ok? && isFirstMessage && reload.Ok?) ==> sessions == old(sessions)
      ensures !isLoading
      ensures currentSessionId == old(currentSessionId) && models == old(models) && settings == old(settings)
      ensures sidebarOpen == old(sidebarOpen) && isStreaming == old(isStreaming) && settingsOpen == old(settingsOpen)
    {
      match reply {
      case Ok(answer) =>
        ReplaceLast(sessionId, answer.userMessage, answer.aiMessage);
        if isFirstMessage {
          LoadSessions(reload);
        }
      case Err(msg) =>
        error := Some(Reported(msg, "Failed to send message"));
      }
      isLoading := false;
    }

    /** The user's message shown at once at the end of the session's list. */
    method ShowMessage(sessionId: string, m: Message)
      modifies this`messages
      ensures messages == old(messages)[sessionId := old(MessagesOf(sessionId)) + [m]]
    {
      messages := messages[sessionId := MessagesOf(sessionId) + [m]];
    }

    /** `[...list.slice(0, -1), u, a]`: the last message of the list replaced by the server's two. */
    method ReplaceLast(sessionId: string, u: Message, a: Message)
      modifies this`messages
      ensures messages == old(messages)[sessionId := DropLast(old(MessagesOf(sessionId))) + [u, a]]
    {
      messages := messages[sessionId := DropLast(MessagesOf(sessionId)) + [u, a]];
    }

    /** The chunk handler of `sendStreamMessage`, applied to one session's list when it has one. */
    method AppendChunk(sessionId: string, chunk: string)
      modifies this`messages
      ensures sessionId in old(messages) ==> messages == old(messages)[sessionId := AppendedToLast(old(messages)[sessionId], chunk)]
      ensures sessionId !in old(messages) ==> messages == old(messages)
    {
      var sessionMessages := MessagesOf(sessionId);
      if |sessionMessages| > 0 && sessionMessages[|sessionMessages| - 1].role == Assistant {
        var last := sessionMessages[|sessionMessages| - 1];
        messages := messages[sessionId := sessionMessages[..|sessionMessages| - 1] + [last.(content := last.content + chunk)]];
      }
    }

    /** The chunk handler applied to each chunk in turn, while the session's list ends with an assistant message. */
    method DeliverChunks(sessionId: string, chunks: seq<string>)
      requires sessionId in messages && |messages[sessionId]| > 0
      requires messages[sessionId][|messages[sessionId]| - 1].role == Assistant
      modifies this`messages
      ensures var list := old(messages[sessionId]);
        var last := list[|list| - 1];
        messages == old(messages)[sessionId := list[..|list| - 1] + [last.(content := last.content + Concat(chunks))]]
    {
      var list := messages[sessionId];
      var init, last := list[..|list| - 1], list[|list| - 1];
      assert Concat(chunks[..0]) == "" && last.content + "" == last.content;
      assert last.(content := last.content) == last;
      assert init + [last] == list;
      var i := 0;
      while i < |chunks|
        invariant 0 <= i <= |chunks|
        invariant messages == old(messages)[sessionId := init + [last.(content := last.content + Concat(chunks[..i]))]]
      {
        ConcatSnoc(chunks[..i], chunks[i]);
        assert chunks[..i + 1] == chunks[..i] + [chunks[i]];
        ghost var current := init + [last.(content := last.content + Concat(chunks[..i]))];
        assert current[|current| - 1].role == Assistant && current[..|current| - 1] == init;
        AppendChunk(sessionId, chunks[i]);
        assert last.content + Concat(chunks[..i]) + chunks[i] == last.content + Concat(chunks[..i + 1]);
        i := i + 1;
      }
      assert chunks[..i] == chunks;
    }

    /**
     * `sendStreamMessage`: the user message and an empty assistant
     * placeholder are shown at once; every chunk delivered before the stream
     * ended or failed is appended to the placeholder, which therefore ends
     * as their concatenation. The answer says whether the delayed session
     * reload was scheduled (a first message whose stream did not fail).
     */
    method SendStreamMessage(sessionId: string, data: SendMessageData, nowMs: nat,
                             chunks: seq<string>, failure: Option<string>)
      returns (reloadScheduled: bool)
      modifies this
      ensures messages == old(messages)[sessionId := old(MessagesOf(sessionId)) + [
        Message(NatToString(nowMs), sessionId, data.role.GetOr(User), data.content, nowMs, None),
        Message(NatToString(nowMs + 1), sessionId, Assistant, Concat(chunks), nowMs, None)]]
      ensures reloadScheduled <==> failure.None? && UserCount(old(MessagesOf(sessionId))) == 0
      ensures failure.Some? ==> error == Some(Reported(failure.value, "Failed to send message"))
      ensures failure.None? ==> error.None?
      ensures !isStreaming
      ensures sessions == old(sessions) && currentSessionId == old(currentSessionId) && models == old(models)
      ensures settings == old(settings) && sidebarOpen == old(sidebarOpen) && isLoading == old(isLoading)
      ensures settingsOpen == old(settingsOpen)
    {
      var currentMessages := MessagesOf(sessionId);
      isStreaming, error := true, None;
      var isFirstMessage := UserCount(currentMessages) == 0;
      var userMessage := Message(NatToString(nowMs), sessionId, data.role.GetOr(User), data.content, nowMs, None);
      var aiMessage := Message(NatToString(nowMs + 1), sessionId, Assistant, "", nowMs, None);
      StreamInto(sessionId, userMessage, aiMessage, chunks);
      reloadScheduled := false;
      if failure.Some? {
        error := Some(Reported(failure.value, "Failed to send message"));
      } else {
        reloadScheduled := isFirstMessage;
      }
      isStreaming := false;
    }

    /** The user message and the empty placeholder shown, then every chunk appended to the placeholder. */
    method StreamInto(sessionId: string, userMessage: Message, aiMessage: Message, chunks: seq<string>)
      requires aiMessage.role == Assistant && aiMessage.content == ""
      modifies this`messages
      ensures messages == old(messages)[sessionId := old(MessagesOf(sessionId)) + [userMessage, aiMessage.(content := Concat(chunks))]]
    {
      var currentMessages := MessagesOf(sessionId);
      ghost var start := messages;
      messages := messages[sessionId := currentMessages + [userMessage, aiMessage]];
      ghost var pending := currentMessages + [userMessage, aiMessage];
      assert pending[..|pending| - 1] == currentMessages + [userMessage] && pending[|pending| - 1] == aiMessage;
      DeliverChunks(sessionId, chunks);
      assert "" + Concat(chunks) == Concat(chunks);
      assert currentMessages + [userMessage] + [aiMessage.(content := Concat(chunks))]
          == currentMessages + [userMessage, aiMessage.(content := Concat(chunks))];
    }

    /** `loadModels`: a failure changes nothing, not even the error. */
    method LoadModels(response: Result<seq<ModelInfo>, string>)
      modifies this`models
      ensures models == (if response.Ok? then response.value else old(models))
    {
      if response.Ok? {
        models := response.value;
      }
    }

    /** `loadSettings`: the server's settings, or the fixed fallback when they cannot be had. */
    method LoadSettings(response: Result<Settings, string>)
      modifies this`settings
      ensures settings == Some(if response.Ok? then response.value else FallbackSettings(models))
    {
      match response {
      case Ok(s) => settings := Some(s);
      case Err(_) => settings := Some(FallbackSettings(models));
      }
    }

    /** `updateSettings`. */
    method UpdateSettings(response: Result<Settings, string>)
      modifies this`settings, this`error
      ensures response.Ok? ==> settings == Some(response.value) && error == old(error)
      ensures response.Err? ==> settings == old(settings) && error == Some(Reported(response.error, "Failed to update settings"))
    {
      match response {
      case Ok(s) => settings := Some(s);
      case Err(msg) => error := Some(Reported(msg, "Failed to update settings"));
      }
    }

    /**
     * `generateApiKey` and `refreshApiKey`: a successful answer with data
     * installs its settings and hands back the key fields; an answer without
     * data gives nothing; a failure is recorded.
     */
    method ReceiveKey(response: Result<Option<SettingsRoutes.IssuedKey>, string>, fallback: string)
      returns (r: Option<(string, string, string)>)
      modifies this`settings, this`error
      ensures response.Ok? && response.value.Some? ==>
        var k := response.value.value;
        settings == Some(k.settings) && r == Some((k.apiKey, k.maskedApiKey, k.createdAt)) && error == old(error)
      ensures response.Ok? && response.value.None? ==> r.None? && settings == old(settings) && error == old(error)
      ensures response.Err? ==> r.None? && settings == old(settings) && error == Some(Reported(response.error, fallback))
    {
      match response {
      case Ok(data) =>
        if data.Some? {
          settings := Some(data.value.settings);
          return Some((data.value.apiKey, data.value.maskedApiKey, data.value.createdAt));
        }
        return None;
      case Err(msg) =>
        error := Some(Reported(msg, fallback));
        return None;
      }
    }

    method GenerateApiKey(response: Result<Option<SettingsRoutes.IssuedKey>, string>)
      returns (r: Option<(string, string, string)>)
      modifies this`settings, this`error
      ensures response.Ok? && response.value.Some? ==>
        var k := response.value.value;
        settings == Some(k.settings) && r == Some((k.apiKey, k.maskedApiKey, k.createdAt)) && error == old(error)
      ensures response.Ok? && response.value.None? ==> r.None? && settings == old(settings) && error == old(error)
      ensures response.Err? ==> r.None? && settings == old(settings) && error == Some(Reported(response.error, "Failed to generate API key"))
    {
      r := ReceiveKey(response, "Failed to generate API key");
    }

    method RefreshApiKey(response: Result<Option<SettingsRoutes.IssuedKey>, string>)
      returns (r: Option<(string, string, string)>)
      modifies this`settings, this`error
      ensures response.Ok? && response.value.Some? ==>
        var k := response.value.value;
        settings == Some(k.settings) && r == Some((k.apiKey, k.maskedApiKey, k.createdAt)) && error == old(error)
      ensures response.Ok? && response.value.None? ==> r.None? && settings == old(settings) && error == old(error)
      ensures response.Err? ==> r.None? && settings == old(settings) && error == Some(Reported(response.error, "Failed to refresh API key"))
    {
      r := ReceiveKey(response, "Failed to refresh API key");
    }

    /** `revokeApiKey`: true exactly when the server answered with the new settings. */
    method RevokeApiKey(response: Result<Option<Settings>, string>) returns (r: bool)
      modifies this`settings, this`error
      ensures r <==> response.Ok? && response.value.Some?
      ensures r ==> settings == Some(response.value.value) && error == old(error)
      ensures response.Ok? && response.value.None? ==> settings == old(settings) && error == old(error)
      ensures response.Err? ==> settings == old(settings) && error == Some(Reported(response.error, "Failed to revoke API key"))
    {
      match response {
      case Ok(data) =>
        if data.Some? {
          settings := Some(data.value);
          return true;
        }
        return false;
      case Err(msg) =>
        error := Some(Reported(msg, "Failed to revoke API key"));
        return false;
      }
    }

    /** `toggleSidebar`: flips the flag, so two toggles restore it. */
    method ToggleSidebar()
      modifies this`sidebarOpen
      ensures sidebarOpen == !old(sidebarOpen)
    {
      sidebarOpen := !sidebarOpen;
    }

    method SetSidebarOpen(open: bool)
      modifies this`sidebarOpen
      ensures sidebarOpen == open
    {
      sidebarOpen := open;
    }

    method SetLoading(loading: bool)
      modifies this`isLoading
      ensures isLoading == loading
    {
      isLoading := loading;
    }

    method SetError(e: Option<string>)
      modifies this`error
      ensures error == e
    {
      error := e;
    }

    method ClearError()
      modifies this`error
      ensures error.None?
    {
      error := None;
    }

    method SetSettingsOpen(open: bool)
      modifies this`settingsOpen
      ensures settingsOpen == open
    {
      settingsOpen := open;
    }
  }
}
