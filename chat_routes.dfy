/**
 * The chat endpoints of one session: send a message and get the reply
 * (whole or streamed), read the history a page at a time, and regenerate
 * the last reply. The storage is the `JsonStorage` object; the model
 * backend, the model listing, fresh ids and the clock are parameters.
 */
module ChatRoutes {
  import opened Wrappers
  import opened Text
  import opened Types
  import opened Storage
  import opened OllamaService
  import opened TitleGenerator
  import opened ErrorHandler

  function NotFound(sessionId: string): AppError {
    CreateError("Session " + sessionId + " not found", Some(404), Some("SESSION_NOT_FOUND"), None)
  }

  const ContentRequired: AppError := CreateError("Message content is required", Some(400), Some("INVALID_REQUEST"), None)

  function ModelUnavailable(model: string): AppError {
    CreateError("Model \"" + model + "\" is not available. Please ensure it's downloaded.", Some(400), Some("MODEL_NOT_AVAILABLE"), None)
  }

  /** The completion options built from the stored settings. */
  function OptionsOf(s: Settings): ChatOptions {
    ChatOptions(Some(s.temperature), Some(s.maxTokens), None, None, None, None)
  }

  /** A title is generated only while the conversation holds exactly one user message. */
  predicate IsFirstUserMessage(messages: seq<Message>) {
    UserCount(messages) == 1
  }

  /**
   * The session list after the title step: the first session with the id,
   * if any, gets the title generated from `content` with its own model.
   */
  function AutoTitled(ss: seq<Session>, id: string, content: string, backend: Backend, now: int): (r: seq<Session>)
    ensures |r| == |ss|
    ensures forall j :: 0 <= j < |ss| && ss[j].id != id ==> r[j] == ss[j]
    ensures var k := FindIndex(ss, id);
      k != -1 ==> && r[k].id == id && r[k].model == ss[k].model && r[k].messageCount == ss[k].messageCount
                  && r[k].createdAt == ss[k].createdAt && r[k].updatedAt == now && 0 < |r[k].title| <= 30
  {
    var k := FindIndex(ss, id);
    if k == -1 then ss else ss[k := Merge(ss[k], TitlePatch(TitleWithAI(content, ss[k].model, backend, now)), now)]
  }

  /**
   * The session list once the user message is stored and the title step has
   * run: the session's count and `updatedAt` follow the stored message, and
   * a first user message retitles it.
   */
  function AfterUserMessage(ss: seq<Session>, id: string, history: seq<Message>, content: string,
                            backend: Backend, now: int): seq<Session> {
    var counted := Recounted(ss, id, |history|, now);
    if IsFirstUserMessage(history) then AutoTitled(counted, id, content, backend, now) else counted
  }

  /**
   * `autoGenerateTitle`: if the session now holds exactly one user message,
   * replace its title by the one the model suggests (or the heuristic one).
   */
  method AutoGenerateTitle(store: JsonStorage, sessionId: string, userContent: string, backend: Backend, now: int)
    modifies store
    ensures IsFirstUserMessage(old(store.MessagesOf(sessionId))) ==>
      store.Sessions() == AutoTitled(old(store.Sessions()), sessionId, userContent, backend, now)
    ensures !IsFirstUserMessage(old(store.MessagesOf(sessionId))) ==> store.Sessions() == old(store.Sessions())
    ensures store.messageDocs == old(store.messageDocs)[sessionId := Stored(old(store.MessagesOf(sessionId)))]
    ensures store.CurrentSettings() == old(store.CurrentSettings())
    ensures old(store.Valid()) ==> store.Valid()
  {
    var _ := store.GetSettings();
    var messages := store.GetMessages(sessionId);
    if UserCount(messages) == 1 {
      Retitle(store, sessionId, userContent, backend, now);
    }
  }

  /** The title step of `autoGenerateTitle`, once the session is known to hold one user message. */
  method Retitle(store: JsonStorage, sessionId: string, userContent: string, backend: Backend, now: int)
    modifies store
    ensures store.Sessions() == AutoTitled(old(store.Sessions()), sessionId, userContent, backend, now)
    ensures store.messageDocs == old(store.messageDocs) && store.settingsDoc == old(store.settingsDoc)
    ensures old(store.Valid()) ==> store.Valid()
  {
    var session := store.GetSession(sessionId);
    if session.None? {
      return;
    }
    var newTitle := GenerateTitleWithAI(userContent, session.value.model, backend, now);
    var _ := store.UpdateSession(sessionId, TitlePatch(newTitle), now);
  }

  /**
   * The checks shared by both send endpoints, in order: non-blank content,
   * a known session, an available model. Nothing is stored before they pass.
   */
  method Admit(store: JsonStorage, sessionId: string, content: Option<string>,
               listing: Result<seq<BackendModel>, string>) returns (rejection: Option<AppError>, session: Session)
    modifies store
    ensures store.Sessions() == old(store.Sessions()) && store.messageDocs == old(store.messageDocs)
    ensures store.CurrentSettings() == old(store.CurrentSettings())
    ensures var k := FindIndex(old(store.Sessions()), sessionId);
      && (content.None? || AllSpace(content.value) ==> rejection == Some(ContentRequired))
      && (content.Some? && !AllSpace(content.value) && k == -1 ==> rejection == Some(NotFound(sessionId)))
      && (content.Some? && !AllSpace(content.value) && k != -1 ==>
            session == old(store.Sessions())[k]
            && (IsModelAvailable(session.model, listing) <==> rejection.None?)
            && (rejection.Some? ==> rejection == Some(ModelUnavailable(session.model))))
  {
    var _ := store.GetSettings();
    session := Session("", "", "", 0, 0, 0);
    if content.None? || Trim(content.value) == [] {
      return Some(ContentRequired), session;
    }
    var found := store.GetSession(sessionId);
    if found.None? {
      return Some(NotFound(sessionId)), session;
    }
    session := found.value;
    if !IsModelAvailable(session.model, listing) {
      return Some(ModelUnavailable(session.model)), session;
    }
    rejection := None;
  }

  /**
   * The steps both send endpoints take once a message is admitted: store the
   * user message, run the title step, and read the conversation back.
   */
  method StoreUserTurn(store: JsonStorage, sessionId: string, role: Role, content: string,
                       backend: Backend, userId: string, now: int) returns (user: Message, history: seq<Message>)
    requires store.Valid()
    modifies store
    ensures store.Valid()
    ensures user == Message(userId, sessionId, role, content, now, None)
    ensures history == old(store.MessagesOf(sessionId)) + [user] && store.MessagesOf(sessionId) == history
    ensures store.messageDocs == old(store.messageDocs)[sessionId := Stored(history)]
    ensures store.Sessions() == AfterUserMessage(old(store.Sessions()), sessionId, history, content, backend, now)
    ensures store.CurrentSettings() == old(store.CurrentSettings())
  {
    user := store.AddMessage(sessionId, role, content, None, userId, now);
    AutoGenerateTitle(store, sessionId, content, backend, now);
    history := store.GetMessages(sessionId);
  }

  datatype SendReply = SendFailed(error: AppError) | Sent(userMessage: Message, aiMessage: Message)

  /** The end of a send: store the backend's answer and reply with both messages, or fail with its error. */
  method FinishAnswer(store: JsonStorage, sessionId: string, user: Message, answer: Result<string, string>,
                      aiId: string, now: int) returns (reply: SendReply)
    requires store.Valid()
    modifies store
    ensures store.Valid()
    ensures store.CurrentSettings() == old(store.CurrentSettings())
    ensures answer.Ok? ==>
      && reply == Sent(user, Message(aiId, sessionId, Assistant, answer.value, now, Some(EstimateTokens(answer.value))))
      && store.MessagesOf(sessionId) == old(store.MessagesOf(sessionId)) + [reply.aiMessage]
      && store.messageDocs == old(store.messageDocs)[sessionId := Stored(store.MessagesOf(sessionId))]
      && store.Sessions() == Recounted(old(store.Sessions()), sessionId, |old(store.MessagesOf(sessionId))| + 1, now)
    ensures answer.Err? ==>
      && reply == SendFailed(CreateError("Failed to generate AI response: " + answer.error, Some(500), Some("AI_GENERATION_FAILED"), None))
      && store.messageDocs == old(store.messageDocs) && store.Sessions() == old(store.Sessions())
  {
    if answer.Err? {
      return SendFailed(CreateError("Failed to generate AI response: " + answer.error, Some(500), Some("AI_GENERATION_FAILED"), None));
    }
    var aiMessage := store.AddMessage(sessionId, Assistant, answer.value, Some(EstimateTokens(answer.value)), aiId, now);
    reply := Sent(user, aiMessage);
  }

  /** The admitted part of a send: store the turn, ask the backend, store its answer if it gives one. */
  method AnswerTurn(store: JsonStorage, sessionId: string, model: string, role: Role, content: string,
                    backend: Backend, userId: string, aiId: string, now: int) returns (reply: SendReply)
    requires store.Valid()
    modifies store
    ensures store.Valid()
    ensures store.CurrentSettings() == old(store.CurrentSettings())
    ensures var user := Message(userId, sessionId, role, content, now, None);
      var history := old(store.MessagesOf(sessionId)) + [user];
      var answer := GenerateCompletion(model, history, OptionsOf(old(store.CurrentSettings())), backend);
      var titled := AfterUserMessage(old(store.Sessions()), sessionId, history, content, backend, now);
      && store.messageDocs == old(store.messageDocs)[sessionId := Stored(store.MessagesOf(sessionId))]
      && store.Sessions() == (if answer.Ok? then Recounted(titled, sessionId, |history| + 1, now) else titled)
      && (answer.Ok? ==>
            && reply == Sent(user, Message(aiId, sessionId, Assistant, answer.value, now, Some(EstimateTokens(answer.value))))
            && store.MessagesOf(sessionId) == history + [reply.aiMessage])
      && (answer.Err? ==>
            && reply == SendFailed(CreateError("Failed to generate AI response: " + answer.error, Some(500), Some("AI_GENERATION_FAILED"), None))
            && store.MessagesOf(sessionId) == history)
  {
    ghost var before := store.Sessions();
    var userMessage, messages := StoreUserTurn(store, sessionId, role, content, backend, userId, now);
    ghost var titled := store.Sessions();
    assert titled == AfterUserMessage(before, sessionId, messages, content, backend, now);
    var settings := store.GetSettings();
    var answer := GenerateCompletion(model, messages, OptionsOf(settings), backend);
    reply := FinishAnswer(store, sessionId, userMessage, answer, aiId, now);
  }

  /**
   * POST `/:sessionId/messages`. `userId` and `aiId` are the fresh ids of the
   * two messages; the reply is stored only if the backend answers.
   */
  method SendMessage(store: JsonStorage, sessionId: string, content: Option<string>, role: Option<Role>,
                     listing: Result<seq<BackendModel>, string>, backend: Backend,
                     userId: string, aiId: string, now: int) returns (reply: SendReply)
    requires store.Valid()
    modifies store
    ensures store.Valid()
    ensures store.CurrentSettings() == old(store.CurrentSettings())
    ensures var k := FindIndex(old(store.Sessions()), sessionId);
      var admitted := content.Some? && !AllSpace(content.value) && k != -1
                      && IsModelAvailable(old(store.Sessions())[k].model, listing);
      && (!admitted ==> reply.SendFailed? && store.messageDocs == old(store.messageDocs)
                        && store.Sessions() == old(store.Sessions()))
      && (content.None? || AllSpace(content.value) ==> reply == SendFailed(ContentRequired))
      && (content.Some? && !AllSpace(content.value) && k == -1 ==> reply == SendFailed(NotFound(sessionId)))
      && (content.Some? && !AllSpace(content.value) && k != -1 && !admitted ==>
            reply == SendFailed(ModelUnavailable(old(store.Sessions())[k].model)))
      && (admitted ==>
            var user := Message(userId, sessionId, role.GetOr(User), Trim(content.value), now, None);
            var history := old(store.MessagesOf(sessionId)) + [user];
            var answer := GenerateCompletion(old(store.Sessions())[k].model, history, OptionsOf(old(store.CurrentSettings())), backend);
            var titled := AfterUserMessage(old(store.Sessions()), sessionId, history, Trim(content.value), backend, now);
            && store.messageDocs == old(store.messageDocs)[sessionId := Stored(store.MessagesOf(sessionId))]
            && store.Sessions() == (if answer.Ok? then Recounted(titled, sessionId, |history| + 1, now) else titled)
            && (answer.Ok? ==>
                  && reply == Sent(user, Message(aiId, sessionId, Assistant, answer.value, now, Some(EstimateTokens(answer.value))))
                  && store.MessagesOf(sessionId) == history + [reply.aiMessage])
            && (answer.Err? ==>
                  && reply == SendFailed(CreateError("Failed to generate AI response: " + answer.error, Some(500), Some("AI_GENERATION_FAILED"), None))
                  && store.MessagesOf(sessionId) == history))
  {
    ghost var sessions, docs, settings := store.Sessions(), store.messageDocs, store.CurrentSettings();
    var rejection, session := Admit(store, sessionId, content, listing);
    if rejection.Some? {
      return SendFailed(rejection.value);
    }
    assert store.Sessions() == sessions && store.messageDocs == docs && store.CurrentSettings() == settings;
    reply := AnswerTurn(store, sessionId, session.model, role.GetOr(User), Trim(content.value), backend, userId, aiId, now);
  }

  /** What the streaming endpoint sends: a rejection before any output, or a status and the written pieces. */
  datatype StreamReply = StreamRejected(error: AppError) | StreamWritten(status: int, written: seq<string>)

  /** The body of the streaming loop: every chunk is written and added to the full answer. */
  method RelayChunks(chunks: seq<string>) returns (written: seq<string>, fullResponse: string)
    ensures written == chunks
    ensures fullResponse == Concat(chunks)
  {
    written := [];
    fullResponse := "";
    var i := 0;
    while i < |chunks|
      invariant 0 <= i <= |chunks|
      invariant written == chunks[..i]
      invariant fullResponse == Concat(chunks[..i])
    {
      ConcatSnoc(chunks[..i], chunks[i]);
      assert chunks[..i + 1] == chunks[..i] + [chunks[i]];
      fullResponse := fullResponse + chunks[i];
      written := written + [chunks[i]];
      i := i + 1;
    }
    assert chunks[..i] == chunks;
  }

  /** The end of a streamed send: relay an opened stream and store its full text, or write the error. */
  method FinishStream(store: JsonStorage, sessionId: string, stream: Result<StreamOutcome, string>, aiId: string, now: int)
    returns (written: seq<string>)
    requires store.Valid()
    modifies store
    ensures store.Valid()
    ensures store.CurrentSettings() == old(store.CurrentSettings())
    ensures stream.Ok? ==>
      && written == stream.value.emitted
      && store.MessagesOf(sessionId) == old(store.MessagesOf(sessionId)) +
           [Message(aiId, sessionId, Assistant, Concat(written), now, Some(EstimateTokens(Concat(written))))]
      && store.messageDocs == old(store.messageDocs)[sessionId := Stored(store.MessagesOf(sessionId))]
      && store.Sessions() == Recounted(old(store.Sessions()), sessionId, |old(store.MessagesOf(sessionId))| + 1, now)
    ensures stream.Err? ==>
      && written == ["Error: " + stream.error]
      && store.messageDocs == old(store.messageDocs) && store.Sessions() == old(store.Sessions())
  {
    if stream.Err? {
      return ["Error: " + stream.error];
    }
    var fullResponse;
    written, fullResponse := RelayChunks(stream.value.emitted);
    var _ := store.AddMessage(sessionId, Assistant, fullResponse, Some(EstimateTokens(fullResponse)), aiId, now);
  }

  /** The admitted part of a streamed send: store the turn, relay the stream, store the full answer if it completes. */
  method StreamTurn(store: JsonStorage, sessionId: string, model: string, role: Role, content: string,
                    backend: Backend, streamBackend: StreamBackend, parse: LineParser,
                    userId: string, aiId: string, now: int) returns (written: seq<string>)
    requires store.Valid()
    modifies store
    ensures store.Valid()
    ensures store.CurrentSettings() == old(store.CurrentSettings())
    ensures var user := Message(userId, sessionId, role, content, now, None);
      var history := old(store.MessagesOf(sessionId)) + [user];
      var stream := GenerateStream(model, history, OptionsOf(old(store.CurrentSettings())), streamBackend, parse);
      var titled := AfterUserMessage(old(store.Sessions()), sessionId, history, content, backend, now);
      && store.messageDocs == old(store.messageDocs)[sessionId := Stored(store.MessagesOf(sessionId))]
      && store.Sessions() == (if stream.Ok? then Recounted(titled, sessionId, |history| + 1, now) else titled)
      && (stream.Ok? ==>
            && written == stream.value.emitted
            && store.MessagesOf(sessionId) == history +
                 [Message(aiId, sessionId, Assistant, Concat(written), now, Some(EstimateTokens(Concat(written))))])
      && (stream.Err? ==>
            && written == ["Error: " + stream.error]
            && store.MessagesOf(sessionId) == history)
  {
    ghost var before := store.Sessions();
    var _, messages := StoreUserTurn(store, sessionId, role, content, backend, userId, now);
    ghost var titled := store.Sessions();
    assert titled == AfterUserMessage(before, sessionId, messages, content, backend, now);
    var settings := store.GetSettings();
    var stream := GenerateStream(model, messages, OptionsOf(settings), streamBackend, parse);
    written := FinishStream(store, sessionId, stream, aiId, now);
  }

  /**
   * POST `/:sessionId/stream`. The status line is sent before the backend is
   * asked, so a failure to open the stream still answers 200, with the body
   * `Error: <message>`; the answer is stored only when the stream completes.
   */
  method SendStreamMessage(store: JsonStorage, sessionId: string, content: Option<string>, role: Option<Role>,
                           listing: Result<seq<BackendModel>, string>, backend: Backend,
                           streamBackend: StreamBackend, parse: LineParser,
                           userId: string, aiId: string, now: int) returns (reply: StreamReply)
    requires store.Valid()
    modifies store
    ensures store.Valid()
    ensures store.CurrentSettings() == old(store.CurrentSettings())
    ensures var k := FindIndex(old(store.Sessions()), sessionId);
      var admitted := content.Some? && !AllSpace(content.value) && k != -1
                      && IsModelAvailable(old(store.Sessions())[k].model, listing);
      && (!admitted ==> reply.StreamRejected? && store.messageDocs == old(store.messageDocs)
                        && store.Sessions() == old(store.Sessions()))
      && (content.None? || AllSpace(content.value) ==> reply == StreamRejected(ContentRequired))
      && (content.Some? && !AllSpace(content.value) && k == -1 ==> reply == StreamRejected(NotFound(sessionId)))
      && (content.Some? && !AllSpace(content.value) && k != -1 && !admitted ==>
            reply == StreamRejected(ModelUnavailable(old(store.Sessions())[k].model)))
      && (admitted ==>
            var user := Message(userId, sessionId, role.GetOr(User), Trim(content.value), now, None);
            var history := old(store.MessagesOf(sessionId)) + [user];
            var stream := GenerateStream(old(store.Sessions())[k].model, history, OptionsOf(old(store.CurrentSettings())),
                                         streamBackend, parse);
            var titled := AfterUserMessage(old(store.Sessions()), sessionId, history, Trim(content.value), backend, now);
            && store.messageDocs == old(store.messageDocs)[sessionId := Stored(store.MessagesOf(sessionId))]
            && store.Sessions() == (if stream.Ok? then Recounted(titled, sessionId, |history| + 1, now) else titled)
            && reply.StreamWritten? && reply.status == 200
            && (stream.Ok? ==>
                  && reply.written == stream.value.emitted
                  && store.MessagesOf(sessionId) == history +
                       [Message(aiId, sessionId, Assistant, Concat(reply.written), now, Some(EstimateTokens(Concat(reply.written))))])
            && (stream.Err? ==>
                  && reply.written == ["Error: " + stream.error]
                  && store.MessagesOf(sessionId) == history))
  {
    ghost var sessions, docs, settings := store.Sessions(), store.messageDocs, store.CurrentSettings();
    var rejection, session := Admit(store, sessionId, content, listing);
    if rejection.Some? {
      return StreamRejected(rejection.value);
    }
    assert store.Sessions() == sessions && store.messageDocs == docs && store.CurrentSettings() == settings;
    var written := StreamTurn(store, sessionId, session.model, role.GetOr(User), Trim(content.value),
                              backend, streamBackend, parse, userId, aiId, now);
    reply := StreamWritten(200, written);
  }

  /** `Array.prototype.slice(start, end)` on whole-number arguments: negatives count from the end. */
  function JsSlice<T>(s: seq<T>, start: int, end: int): (r: seq<T>)
    ensures |r| <= |s|
    ensures 0 <= start <= |s| && start <= end ==> r == s[start..if end <= |s| then end else |s|]
  {
    var from := if start < 0 then (if |s| + start < 0 then 0 else |s| + start) else if start > |s| then |s| else start;
    var to := if end < 0 then (if |s| + end < 0 then 0 else |s| + end) else if end > |s| then |s| else end;
    if from < to then s[from..to] else []
  }

  datatype HistoryPage = HistoryPage(sessionId: string, messages: seq<Message>, total: nat, limit: int, offset: int)

  /** GET `/:sessionId/history`: `limit` and `offset` are the parsed query values, 50 and 0 when absent. */
  method GetHistory(store: JsonStorage, sessionId: string, limit: Option<int>, offset: Option<int>)
    returns (r: Result<HistoryPage, AppError>)
    modifies store
    ensures store.Sessions() == old(store.Sessions()) && store.CurrentSettings() == old(store.CurrentSettings())
    ensures r.Err? ==> store.messageDocs == old(store.messageDocs)
    ensures r.Ok? ==> store.messageDocs == old(store.messageDocs)[sessionId := Stored(old(store.MessagesOf(sessionId)))]
    ensures forall id :: store.MessagesOf(id) == old(store.MessagesOf(id))
    ensures FindIndex(old(store.Sessions()), sessionId) == -1 <==> r.Err?
    ensures r.Err? ==> r.error == NotFound(sessionId)
    ensures r.Ok? ==>
      var all := old(store.MessagesOf(sessionId));
      var l := limit.GetOr(50);
      var o := offset.GetOr(0);
      && r.value == HistoryPage(sessionId, JsSlice(all, o, o + l), |all|, l, o)
      && (0 <= o <= |all| && 0 <= l ==> r.value.messages == all[o..if o + l <= |all| then o + l else |all|])
  {
    var session := store.GetSession(sessionId);
    if session.None? {
      return Err(NotFound(sessionId));
    }
    var all := store.GetMessages(sessionId);
    var l := limit.GetOr(50);
    var o := offset.GetOr(0);
    r := Ok(HistoryPage(sessionId, JsSlice(all, o, o + l), |all|, l, o));
  }

  /** The index of the last assistant message, or -1 when there is none. */
  function LastAssistant(messages: seq<Message>): (k: int)
    ensures -1 <= k < |messages|
    ensures k >= 0 ==> messages[k].role == Assistant
    ensures forall j :: k < j < |messages| ==> messages[j].role != Assistant
  {
    if |messages| == 0 then -1
    else if messages[|messages| - 1].role == Assistant then |messages| - 1
    else LastAssistant(messages[..|messages| - 1])
  }

  /** The backwards scan of regenerate, stopping at the first assistant message it meets. */
  method LastAssistantIndex(messages: seq<Message>) returns (k: int)
    ensures k == LastAssistant(messages)
  {
    var i := |messages| - 1;
    while i >= 0
      invariant -1 <= i < |messages|
      invariant LastAssistant(messages) == LastAssistant(messages[..i + 1])
    {
      if messages[i].role == Assistant {
        return i;
      }
      assert messages[..i + 1][..i] == messages[..i];
      i := i - 1;
    }
    return -1;
  }

  datatype RegenerateReply = RegenerateFailed(error: AppError) | Regenerated(message: Message)

  /** The end of regenerate: ask the backend again with the context and append its answer. */
  method AnswerAgain(store: JsonStorage, sessionId: string, model: string, context: seq<Message>,
                     backend: Backend, aiId: string, now: int) returns (reply: RegenerateReply)
    requires store.Valid()
    modifies store
    ensures store.Valid()
    ensures store.CurrentSettings() == old(store.CurrentSettings())
    ensures var answer := GenerateCompletion(model, context, OptionsOf(old(store.CurrentSettings())), backend);
      && (answer.Ok? ==>
            && reply == Regenerated(Message(aiId, sessionId, Assistant, answer.value, now, Some(EstimateTokens(answer.value))))
            && store.MessagesOf(sessionId) == old(store.MessagesOf(sessionId)) + [reply.message]
            && store.messageDocs == old(store.messageDocs)[sessionId := Stored(store.MessagesOf(sessionId))]
            && store.Sessions() == Recounted(old(store.Sessions()), sessionId, |old(store.MessagesOf(sessionId))| + 1, now))
      && (answer.Err? ==>
            && reply == RegenerateFailed(CreateError("Failed to regenerate AI response: " + answer.error, Some(500), Some("AI_GENERATION_FAILED"), None))
            && store.messageDocs == old(store.messageDocs) && store.Sessions() == old(store.Sessions()))
  {
    var settings := store.GetSettings();
    var answer := GenerateCompletion(model, context, OptionsOf(settings), backend);
    if answer.Err? {
      return RegenerateFailed(CreateError("Failed to regenerate AI response: " + answer.error, Some(500), Some("AI_GENERATION_FAILED"), None));
    }
    var message := store.AddMessage(sessionId, Assistant, answer.value, Some(EstimateTokens(answer.value)), aiId, now);
    reply := Regenerated(message);
  }

  /**
   * POST `/:sessionId/regenerate`: answer again the conversation that
   * preceded the last assistant message. The new answer is appended; the
   * old one stays where it is.
   */
  method Regenerate(store: JsonStorage, sessionId: string, backend: Backend, aiId: string, now: int)
    returns (reply: RegenerateReply)
    requires store.Valid()
    modifies store
    ensures store.Valid()
    ensures store.CurrentSettings() == old(store.CurrentSettings())
    ensures reply.RegenerateFailed? ==> store.Sessions() == old(store.Sessions())
    ensures reply.Regenerated? ==>
      store.Sessions() == Recounted(old(store.Sessions()), sessionId, |old(store.MessagesOf(sessionId))| + 1, now)
    ensures FindIndex(old(store.Sessions()), sessionId) == -1 ==> store.messageDocs == old(store.messageDocs)
    ensures FindIndex(old(store.Sessions()), sessionId) != -1 ==>
      store.messageDocs == old(store.messageDocs)[sessionId := Stored(store.MessagesOf(sessionId))]
    ensures var k := FindIndex(old(store.Sessions()), sessionId);
      var all := old(store.MessagesOf(sessionId));
      && (k == -1 ==> reply == RegenerateFailed(NotFound(sessionId)))
      && (k != -1 && all == [] ==>
            reply == RegenerateFailed(CreateError("No messages in session to regenerate", Some(400), Some("NO_MESSAGES"), None)))
      && (k != -1 && all != [] && LastAssistant(all) == -1 ==>
            reply == RegenerateFailed(CreateError("No AI message found to regenerate", Some(400), Some("NO_AI_MESSAGE"), None)))
      && (reply.RegenerateFailed? ==> store.MessagesOf(sessionId) == all)
      && (k != -1 && LastAssistant(all) != -1 ==>
            var answer := GenerateCompletion(old(store.Sessions())[k].model, all[..LastAssistant(all)],
                                             OptionsOf(old(store.CurrentSettings())), backend);
            && (answer.Ok? ==>
                  && reply == Regenerated(Message(aiId, sessionId, Assistant, answer.value, now, Some(EstimateTokens(answer.value))))
                  && store.MessagesOf(sessionId) == all + [reply.message])
            && (answer.Err? ==>
                  reply == RegenerateFailed(CreateError("Failed to regenerate AI response: " + answer.error, Some(500), Some("AI_GENERATION_FAILED"), None))))
  {
    var session := store.GetSession(sessionId);
    if session.None? {
      return RegenerateFailed(NotFound(sessionId));
    }
    var messages := store.GetMessages(sessionId);
    if |messages| == 0 {
      return RegenerateFailed(CreateError("No messages in session to regenerate", Some(400), Some("NO_MESSAGES"), None));
    }
    var last := LastAssistantIndex(messages);
    if last == -1 {
      return RegenerateFailed(CreateError("No AI message found to regenerate", Some(400), Some("NO_AI_MESSAGE"), None));
    }
    var conversationHistory := messages[..last];
    reply := AnswerAgain(store, sessionId, session.value.model, conversationHistory, backend, aiId, now);
  }
}
