/**
 * The OpenAI-compatible endpoints: `POST /chat/completions` (plain or as a
 * server-sent event stream), `GET /models` and `GET /models/:modelId`. The
 * request is checked, translated for the local runtime, and the runtime's
 * answer is put into OpenAI's response shapes.
 */
module OpenAIRoutes {
  import opened Wrappers
  import opened Text
  import opened Types
  import opened OllamaService
  import opened JsonText

  // ---------------------------------------------------------------------------
  // Requests and answers

  /** One entry of the request's `messages`. */
  datatype OpenAIMessage = OpenAIMessage(role: Role, content: string)

  /** The `messages` field as it arrives: absent or null, something other than an array, or an array. */
  datatype MessagesField = NoMessages | NotAnArray | Items(items: seq<OpenAIMessage>)

  datatype CompletionRequest = CompletionRequest(
    model: Option<string>,
    messages: MessagesField,
    temperature: Option<real>,
    maxTokens: Option<real>,
    topP: Option<real>,
    stream: bool)

  /** The body `{ error: { message, type, param?, code? } }`. */
  datatype ApiError = ApiError(message: string, errorType: string, param: Option<string>, code: Option<string>)

  datatype Usage = Usage(promptTokens: nat, completionTokens: nat, totalTokens: nat)

  /** A `chat.completion` object with its single `stop` choice. */
  datatype ChatCompletion = ChatCompletion(id: string, created: nat, model: string, content: string, usage: Usage)

  /** What the completions endpoint answers. */
  datatype CompletionReply =
    | Refused(status: int, error: ApiError)
    | Completed(completion: ChatCompletion)
    | Streamed(events: seq<string>)   // status 200, `text/event-stream`; the text of each `write`, in order

  const ModelRequired := ApiError("Model is required", "invalid_request_error", Some("model"), Some("missing_required_parameter"))
  const MessagesRequired := ApiError("Messages array is required and must not be empty", "invalid_request_error", Some("messages"), None)

  function UnknownModel(model: string): ApiError {
    ApiError("The model \"" + model + "\" does not exist", "invalid_request_error", Some("model"), Some("model_not_found"))
  }

  /** `error.message || 'Internal server error'`. */
  function MessageOr(message: string): string {
    if message != "" then message else "Internal server error"
  }

  /**
   * `convertOpenAIMessages`: each message becomes a message of the temporary
   * session `temp`, with the `index`-th fresh identifier and the current time.
   */
  function ConvertOpenAIMessages(items: seq<OpenAIMessage>, uuid: nat -> string, now: int): (r: seq<Message>)
    ensures |r| == |items|
    ensures forall i :: 0 <= i < |r| ==>
      r[i] == Message(uuid(i), "temp", items[i].role, items[i].content, now, None)
  {
    seq(|items|, i requires 0 <= i < |items| => Message(uuid(i), "temp", items[i].role, items[i].content, now, None))
  }

  /** The runtime is sent exactly the conversation of the request: every role and content, in order. */
  lemma ConversationReachesBackend(items: seq<OpenAIMessage>, uuid: nat -> string, now: int)
    ensures var sent := MessagesToOllamaFormat(ConvertOpenAIMessages(items, uuid, now));
      |sent| == |items| && forall i :: 0 <= i < |sent| ==> sent[i] == ChatMessage(items[i].role, items[i].content)
  {
  }

  /** The options taken over from the request; the others stay unset. */
  function RequestOptions(req: CompletionRequest): ChatOptions {
    ChatOptions(req.temperature, req.maxTokens, req.topP, None, None, None)
  }

  /** The checks before the runtime is asked anything, in order: model, messages, availability. */
  function CheckRequest(req: CompletionRequest, listing: Result<seq<BackendModel>, string>): (r: Result<seq<OpenAIMessage>, CompletionReply>)
    ensures r.Ok? <==>
      Truthy(req.model) && req.messages.Items? && |req.messages.items| > 0 && IsModelAvailable(req.model.value, listing)
    ensures r.Ok? ==> r.value == req.messages.items
    ensures !Truthy(req.model) ==> r == Err(Refused(400, ModelRequired))
    ensures Truthy(req.model) && !(req.messages.Items? && |req.messages.items| > 0) ==> r == Err(Refused(400, MessagesRequired))
    ensures Truthy(req.model) && req.messages.Items? && |req.messages.items| > 0 && !IsModelAvailable(req.model.value, listing) ==>
      r == Err(Refused(404, UnknownModel(req.model.value)))
  {
    if !Truthy(req.model) then Err(Refused(400, ModelRequired))
    else if !req.messages.Items? || |req.messages.items| == 0 then Err(Refused(400, MessagesRequired))
    else if !IsModelAvailable(req.model.value, listing) then Err(Refused(404, UnknownModel(req.model.value)))
    else Ok(req.messages.items)
  }

  // ---------------------------------------------------------------------------
  // The plain answer

  /** `messages.map(m => m.content).join(' ')`. */
  function PromptText(items: seq<OpenAIMessage>): string {
    Join(seq(|items|, i requires 0 <= i < |items| => items[i].content), " ")
  }

  /** The usage block: the prompt, the reply, and the two texts joined, each estimated on its own. */
  function UsageOf(items: seq<OpenAIMessage>, reply: string): Usage {
    Usage(EstimateTokens(PromptText(items)), EstimateTokens(reply), EstimateTokens(PromptText(items) + reply))
  }

  /**
   * The total is estimated from the joined text rather than summed, so it can
   * fall below the sum by rounding, but never by more than one token and never
   * below either part.
   */
  lemma UsageBounds(items: seq<OpenAIMessage>, reply: string)
    ensures var u := UsageOf(items, reply);
      && u.promptTokens <= u.totalTokens && u.completionTokens <= u.totalTokens
      && u.promptTokens + u.completionTokens - 1 <= u.totalTokens <= u.promptTokens + u.completionTokens
  {
    var p := PromptText(items);
    EstimateMonotone(p, p + reply);
    EstimateMonotone(reply, p + reply);
  }

  /** The non-streaming answer once the request has passed its checks. */
  function CompleteOnce(model: string, items: seq<OpenAIMessage>, opts: ChatOptions, backend: Backend,
                        uuid: nat -> string, nowMs: nat): (r: CompletionReply)
    ensures var g := GenerateCompletion(model, ConvertOpenAIMessages(items, uuid, nowMs), opts, backend);
      && (g.Ok? ==> r == Completed(ChatCompletion(uuid(|items|), nowMs / 1000, model, g.value, UsageOf(items, g.value))))
      && (g.Err? ==> r == Refused(500, ApiError(MessageOr(g.error), "server_error", None, Some("internal_error"))))
  {
    match GenerateCompletion(model, ConvertOpenAIMessages(items, uuid, nowMs), opts, backend)
    case Ok(reply) => Completed(ChatCompletion(uuid(|items|), nowMs / 1000, model, reply, UsageOf(items, reply)))
    case Err(msg) => Refused(500, ApiError(MessageOr(msg), "server_error", None, Some("internal_error")))
  }

  // ---------------------------------------------------------------------------
  // The event stream

  /** The `delta` of a chunk: `{ role?, content? }`. */
  datatype Delta = Delta(role: Option<string>, content: Option<string>)

  /** A `chat.completion.chunk` object with its single choice. */
  datatype StreamChunk = StreamChunk(id: string, created: nat, model: string, delta: Delta, finishReason: Option<string>)

  /** The chunk carrying the `index`-th piece of the reply: only the first names the role. */
  function PieceChunk(id: string, created: nat, model: string, index: nat, piece: string): StreamChunk {
    StreamChunk(id, created, model, Delta(if index == 0 then Some("assistant") else None, Some(piece)), None)
  }

  /** The closing chunk: an empty delta and the `stop` reason. */
  function FinalChunk(id: string, created: nat, model: string): StreamChunk {
    StreamChunk(id, created, model, Delta(None, None), Some("stop"))
  }

  const ChunkHead := "{\"id\":"
  const ChunkObject := ",\"object\":\"chat.completion.chunk\",\"created\":"
  const ChunkModel := ",\"model\":"
  const ChunkChoices := ",\"choices\":[{\"index\":0,\"delta\":"
  const ChunkFinish := ",\"finish_reason\":"
  const ChunkTail := "}]}"
  const DeltaRole := "\"role\":"
  const DeltaContent := "\"content\":"
  const ErrorHead := "{\"error\":{\"message\":"
  const ErrorTail := ",\"type\":\"server_error\"}}"
  const Done := "[DONE]"

  function DeltaJson(d: Delta): string {
    var role := if d.role.Some? then DeltaRole + Quote(d.role.value) else "";
    var sep := if d.role.Some? && d.content.Some? then "," else "";
    var content := if d.content.Some? then DeltaContent + Quote(d.content.value) else "";
    "{" + role + sep + content + "}"
  }

  /** The pieces of `JSON.stringify` of a chunk, keys in the order the object literal gives them. */
  function ChunkParts(c: StreamChunk): seq<string> {
    [ChunkHead, Quote(c.id), ChunkObject, NatToString(c.created), ChunkModel, Quote(c.model),
     ChunkChoices, DeltaJson(c.delta),
     ChunkFinish, if c.finishReason.Some? then Quote(c.finishReason.value) else "null", ChunkTail]
  }

  function ChunkJson(c: StreamChunk): string {
    Concat(ChunkParts(c))
  }

  /** `JSON.stringify` of the error event's object. */
  function ErrorJson(message: string): string {
    ErrorHead + Quote(message) + ErrorTail
  }

  /** One server-sent event with a single `data` line. */
  function Frame(payload: string): string {
    "data: " + payload + "\n\n"
  }

  /**
   * The payloads of the events written for a stream: one chunk per piece the
   * runtime produced, the closing chunk and `[DONE]`; or, when the stream
   * could not be produced, the single error event and nothing after it.
   */
  function StreamPayloads(id: string, created: nat, model: string, outcome: Result<StreamOutcome, string>): seq<string> {
    match outcome
    case Ok(o) =>
      seq(|o.emitted|, i requires 0 <= i < |o.emitted| => ChunkJson(PieceChunk(id, created, model, i, o.emitted[i])))
        + [ChunkJson(FinalChunk(id, created, model)), Done]
    case Err(msg) => [ErrorJson(MessageOr(msg))]
  }

  function Frames(payloads: seq<string>): (r: seq<string>)
    ensures |r| == |payloads| && forall i :: 0 <= i < |r| ==> r[i] == Frame(payloads[i])
  {
    seq(|payloads|, i requires 0 <= i < |payloads| => Frame(payloads[i]))
  }

  /** The write loop with its `isFirstChunk` flag: one event per piece, the role on the first only. */
  method WritePieces(id: string, created: nat, model: string, pieces: seq<string>) returns (written: seq<string>)
    ensures |written| == |pieces|
    ensures forall k :: 0 <= k < |pieces| ==> written[k] == Frame(ChunkJson(PieceChunk(id, created, model, k, pieces[k])))
  {
    written := [];
    var isFirstChunk := true;
    var i := 0;
    while i < |pieces|
      invariant 0 <= i <= |pieces|
      invariant isFirstChunk <==> i == 0
      invariant |written| == i
      invariant forall k :: 0 <= k < i ==> written[k] == Frame(ChunkJson(PieceChunk(id, created, model, k, pieces[k])))
    {
      var delta := if isFirstChunk then Delta(Some("assistant"), Some(pieces[i])) else Delta(None, Some(pieces[i]));
      var chunk := StreamChunk(id, created, model, delta, None);
      assert chunk == PieceChunk(id, created, model, i, pieces[i]);
      written := written + [Frame(ChunkJson(chunk))];
      isFirstChunk := false;
      i := i + 1;
    }
  }

  /** A produced stream: the pieces' events, then the closing chunk and `[DONE]`. */
  method WriteChunks(id: string, created: nat, model: string, o: StreamOutcome) returns (written: seq<string>)
    ensures written == Frames(StreamPayloads(id, created, model, Ok(o)))
  {
    var events := WritePieces(id, created, model, o.emitted);
    written := events + [Frame(ChunkJson(FinalChunk(id, created, model))), Frame(Done)];
    PayloadsOfPieces(id, created, model, o);
  }

  /** A failed stream is one error event. */
  lemma ErrorFrames(id: string, created: nat, model: string, e: string)
    ensures Frames(StreamPayloads(id, created, model, Err(e))) == [Frame(ErrorJson(MessageOr(e)))]
  {
  }

  /** The payloads of a produced stream, position by position. */
  lemma PayloadsOfPieces(id: string, created: nat, model: string, o: StreamOutcome)
    ensures var payloads := StreamPayloads(id, created, model, Ok(o));
      && |payloads| == |o.emitted| + 2
      && (forall k :: 0 <= k < |o.emitted| ==> payloads[k] == ChunkJson(PieceChunk(id, created, model, k, o.emitted[k])))
      && payloads[|o.emitted|] == ChunkJson(FinalChunk(id, created, model))
      && payloads[|o.emitted| + 1] == Done
  {
  }

  /**
   * The streaming answer once the request has passed its checks: the
   * response is already open with status 200, so a failure becomes an event.
   */
  method StreamCompletion(model: string, items: seq<OpenAIMessage>, opts: ChatOptions, backend: StreamBackend,
                          parse: LineParser, uuid: nat -> string, nowMs: nat) returns (r: CompletionReply)
    ensures r == Streamed(Frames(StreamPayloads(uuid(|items|), nowMs / 1000, model,
      GenerateStream(model, ConvertOpenAIMessages(items, uuid, nowMs), opts, backend, parse))))
  {
    var chatId := uuid(|items|);
    var created := nowMs / 1000;
    var outcome := GenerateStream(model, ConvertOpenAIMessages(items, uuid, nowMs), opts, backend, parse);
    if outcome.Err? {
      ErrorFrames(chatId, created, model, outcome.error);
      return Streamed([Frame(ErrorJson(MessageOr(outcome.error)))]);
    }
    var written := WriteChunks(chatId, created, model, outcome.value);
    r := Streamed(written);
  }

  /**
   * POST `/chat/completions`. `listing` is the runtime's model list as the
   * availability check sees it, `uuid(i)` the `i`-th identifier drawn
   * (one per message, then the answer's), `nowMs` the clock.
   */
  method ChatCompletions(req: CompletionRequest, listing: Result<seq<BackendModel>, string>, backend: Backend,
                         streamBackend: StreamBackend, parse: LineParser, uuid: nat -> string, nowMs: nat)
    returns (r: CompletionReply)
    ensures CheckRequest(req, listing).Err? ==> r == CheckRequest(req, listing).error
    ensures CheckRequest(req, listing).Ok? && !req.stream ==>
      r == CompleteOnce(req.model.value, req.messages.items, RequestOptions(req), backend, uuid, nowMs)
    ensures CheckRequest(req, listing).Ok? && req.stream ==>
      r == Streamed(Frames(StreamPayloads(uuid(|req.messages.items|), nowMs / 1000, req.model.value,
        GenerateStream(req.model.value, ConvertOpenAIMessages(req.messages.items, uuid, nowMs), RequestOptions(req), streamBackend, parse))))
  {
    var checked := CheckRequest(req, listing);
    if checked.Err? {
      return checked.error;
    }
    if req.stream {
      r := StreamCompletion(req.model.value, checked.value, RequestOptions(req), streamBackend, parse, uuid, nowMs);
    } else {
      r := CompleteOnce(req.model.value, checked.value, RequestOptions(req), backend, uuid, nowMs);
    }
  }

  // ---------------------------------------------------------------------------
  // Reading the event stream back

  /** The first index `>= from` holding a line break, or -1. */
  function LineBreakAt(s: string, from: nat): (r: int)
    ensures r == -1 || (from <= r < |s| && (s[r] == '\n' || s[r] == '\r'))
    ensures forall k :: from <= k < |s| && (r == -1 || k < r) ==> s[k] != '\n' && s[k] != '\r'
    decreases |s| - from
  {
    if from >= |s| then -1 else if s[from] == '\n' || s[from] == '\r' then from else LineBreakAt(s, from + 1)
  }

  /**
   * The data of each event of a stream made of `data: ` lines each followed by
   * a blank line (the event-stream format of the HTML Living Standard, section
   * 9.2, restricted to one data line per event), or `None` if the text is not
   * made of such events.
   */
  function Unframe(s: string): Option<seq<string>>
    decreases |s|
  {
    if s == "" then Some([])
    else if |s| < 6 || s[..6] != "data: " then None
    else
      var i := LineBreakAt(s, 6);
      if i == -1 || s[i] != '\n' || i + 1 >= |s| || s[i + 1] != '\n' then None
      else match Unframe(s[i + 2..])
        case None => None
        case Some(rest) => Some([s[6..i]] + rest)
  }

  lemma UnframeStep(p: string, rest: string)
    requires OneLine(p)
    ensures Unframe(Frame(p) + rest) ==
      (if Unframe(rest).None? then None else Some([p] + Unframe(rest).value))
  {
    var s := Frame(p) + rest;
    assert s[..6] == "data: ";
    assert s[6..6 + |p|] == p;
    assert s[6 + |p|] == '\n' && s[6 + |p| + 1] == '\n';
    assert LineBreakAt(s, 6) == 6 + |p|;
    assert s[6 + |p| + 2..] == rest;
  }

  /** A reader of the stream recovers every payload, in order, when none of them spans lines. */
  lemma {:induction false} UnframeFrames(payloads: seq<string>)
    requires forall k :: 0 <= k < |payloads| ==> OneLine(payloads[k])
    ensures Unframe(Concat(Frames(payloads))) == Some(payloads)
  {
    if payloads != [] {
      assert Frames(payloads)[1..] == Frames(payloads[1..]);
      UnframeFrames(payloads[1..]);
      UnframeStep(payloads[0], Concat(Frames(payloads[1..])));
      assert [payloads[0]] + payloads[1..] == payloads;
    }
  }

  lemma DigitsOneLine(n: nat)
    ensures OneLine(NatToString(n))
  {
  }

  lemma DeltaOneLine(d: Delta)
    ensures OneLine(DeltaJson(d))
  {
    var role := if d.role.Some? then DeltaRole + Quote(d.role.value) else "";
    var sep := if d.role.Some? && d.content.Some? then "," else "";
    var content := if d.content.Some? then DeltaContent + Quote(d.content.value) else "";
    if d.role.Some? { QuoteOneLine(d.role.value); OneLineAppend(DeltaRole, Quote(d.role.value)); }
    if d.content.Some? { QuoteOneLine(d.content.value); OneLineAppend(DeltaContent, Quote(d.content.value)); }
    OneLineAppend("{", role);
    OneLineAppend("{" + role, sep);
    OneLineAppend("{" + role + sep, content);
    OneLineAppend("{" + role + sep + content, "}");
  }

  lemma {:induction false} ConcatOneLine(parts: seq<string>)
    requires forall k :: 0 <= k < |parts| ==> OneLine(parts[k])
    ensures OneLine(Concat(parts))
  {
    if parts != [] {
      ConcatOneLine(parts[1..]);
      OneLineAppend(parts[0], Concat(parts[1..]));
    }
  }

  lemma FixedPartsOneLine()
    ensures OneLine(ChunkHead) && OneLine(ChunkObject) && OneLine(ChunkModel) && OneLine(ChunkChoices)
    ensures OneLine(ChunkFinish) && OneLine(ChunkTail) && OneLine("null")
  {
  }

  /** A serialised chunk is one line, whatever its strings hold. */
  lemma ChunkOneLine(c: StreamChunk)
    ensures OneLine(ChunkJson(c))
  {
    FixedPartsOneLine();
    QuoteOneLine(c.id);
    QuoteOneLine(c.model);
    DigitsOneLine(c.created);
    DeltaOneLine(c.delta);
    if c.finishReason.Some? { QuoteOneLine(c.finishReason.value); }
    ConcatOneLine(ChunkParts(c));
  }

  lemma ErrorOneLine(message: string)
    ensures OneLine(ErrorJson(message))
  {
    QuoteOneLine(message);
    OneLineAppend(ErrorHead, Quote(message));
    OneLineAppend(ErrorHead + Quote(message), ErrorTail);
  }

  /** A client that splits the stream into events reads back exactly the payloads written. */
  lemma StreamIsReadable(id: string, created: nat, model: string, outcome: Result<StreamOutcome, string>)
    ensures var payloads := StreamPayloads(id, created, model, outcome);
      Unframe(Concat(Frames(payloads))) == Some(payloads)
  {
    PayloadsOneLine(id, created, model, outcome);
    UnframeFrames(StreamPayloads(id, created, model, outcome));
  }

  /**
   * What those payloads are: after a produced stream, one chunk per piece
   * with the role on the first only, the closing `stop` chunk and `[DONE]`;
   * after a failure, the one error object and no `[DONE]`.
   */
  lemma StreamShape(id: string, created: nat, model: string, outcome: Result<StreamOutcome, string>)
    ensures var payloads := StreamPayloads(id, created, model, outcome);
      && (outcome.Ok? ==>
            && |payloads| == |outcome.value.emitted| + 2
            && payloads[|payloads| - 1] == Done
            && payloads[|payloads| - 2] == ChunkJson(FinalChunk(id, created, model))
            && forall i :: 0 <= i < |outcome.value.emitted| ==>
                 payloads[i] == ChunkJson(StreamChunk(id, created, model,
                   Delta(if i == 0 then Some("assistant") else None, Some(outcome.value.emitted[i])), None)))
      && (outcome.Err? ==> payloads == [ErrorJson(MessageOr(outcome.error))] && Done !in payloads)
  {
    if outcome.Ok? {
      PayloadsOfPieces(id, created, model, outcome.value);
    } else {
      assert ErrorJson(MessageOr(outcome.error))[0] == '{';
    }
  }

  /** No payload of a stream spans lines. */
  lemma PayloadsOneLine(id: string, created: nat, model: string, outcome: Result<StreamOutcome, string>)
    ensures var payloads := StreamPayloads(id, created, model, outcome);
      forall k :: 0 <= k < |payloads| ==> OneLine(payloads[k])
  {
    var payloads := StreamPayloads(id, created, model, outcome);
    if outcome.Err? {
      ErrorOneLine(MessageOr(outcome.error));
    } else {
      var o := outcome.value;
      PayloadsOfPieces(id, created, model, o);
      forall k | 0 <= k < |payloads|
        ensures OneLine(payloads[k])
      {
        if k < |o.emitted| {
          ChunkOneLine(PieceChunk(id, created, model, k, o.emitted[k]));
        } else if k == |o.emitted| {
          ChunkOneLine(FinalChunk(id, created, model));
        } else {
          assert payloads[k] == Done;
        }
      }
    }
  }

  // ---------------------------------------------------------------------------
  // Models

  /** An entry of the model list in OpenAI's shape. */
  datatype OpenAIModel = OpenAIModel(id: string, kind: string, created: int, ownedBy: string)

  /** `created` is the modification time in whole seconds, rounded down. */
  function ToOpenAIModel(m: ModelInfo): (r: OpenAIModel)
    ensures r.id == m.id && r.kind == "model" && r.ownedBy == "ollama"
    ensures r.created * 1000 <= m.modified < r.created * 1000 + 1000
  {
    OpenAIModel(m.id, "model", m.modified / 1000, "ollama")
  }

  /** An endpoint's answer: the body, or a status with an error. */
  datatype Answer<T> = Answered(body: T) | Failed(status: int, error: ApiError)

  /** GET `/models`: the runtime's models, in its order; 503 when they cannot be listed. */
  function ListModels(listing: Result<seq<BackendModel>, string>): (r: Answer<seq<OpenAIModel>>)
    ensures listing.Err? ==> r == Failed(503, ApiError("Failed to fetch models", "server_error", None, Some("service_unavailable")))
    ensures listing.Ok? ==> r.Answered? && |r.body| == |listing.value|
    ensures listing.Ok? ==> forall i :: 0 <= i < |r.body| ==>
      r.body[i].id == listing.value[i].name && r.body[i].kind == "model" && r.body[i].ownedBy == "ollama"
      && r.body[i].created * 1000 <= listing.value[i].modifiedAt < r.body[i].created * 1000 + 1000
  {
    match GetModels(listing)
    case Err(_) => Failed(503, ApiError("Failed to fetch models", "server_error", None, Some("service_unavailable")))
    case Ok(models) => Answered(seq(|models|, i requires 0 <= i < |models| => ToOpenAIModel(models[i])))
  }

  /** The first model with this id, or -1. */
  function FindModel(models: seq<ModelInfo>, id: string): (r: int)
    ensures -1 <= r < |models|
    ensures r >= 0 ==> models[r].id == id && forall k :: 0 <= k < r ==> models[k].id != id
    ensures r == -1 ==> forall k :: 0 <= k < |models| ==> models[k].id != id
  {
    if models == [] then -1
    else if models[0].id == id then 0
    else var k := FindModel(models[1..], id); if k == -1 then -1 else k + 1
  }

  /** GET `/models/:modelId`: exactly the listed models are found. */
  function GetModel(modelId: string, listing: Result<seq<BackendModel>, string>): (r: Answer<OpenAIModel>)
    ensures listing.Err? ==> r == Failed(503, ApiError("Failed to fetch model information", "server_error", None, Some("service_unavailable")))
    ensures r.Answered? <==> IsModelAvailable(modelId, listing)
    ensures r.Answered? ==> r.body.id == modelId && r.body.kind == "model" && r.body.ownedBy == "ollama"
    ensures listing.Ok? && !r.Answered? ==> r == Failed(404, UnknownModel(modelId))
  {
    match GetModels(listing)
    case Err(_) => Failed(503, ApiError("Failed to fetch model information", "server_error", None, Some("service_unavailable")))
    case Ok(models) =>
      var k := FindModel(models, modelId);
      if k == -1 then Failed(404, UnknownModel(modelId)) else Answered(ToOpenAIModel(models[k]))
  }
}
