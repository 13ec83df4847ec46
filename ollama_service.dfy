/**
 * The client of the local model runtime: request building, the classification
 * of failed completions, model lookup, token estimation, the line-buffering
 * parser of the runtime's streamed NDJSON replies, and the process-wide
 * service instance whose endpoint can be replaced.
 */
module OllamaService {
  import opened Wrappers
  import opened Text
  import opened Types

  /** The generation options a caller may set; an absent field is left out of the request. */
  datatype ChatOptions = ChatOptions(
    temperature: Option<real>,
    maxTokens: Option<real>,
    topP: Option<real>,
    topK: Option<real>,
    repeatPenalty: Option<real>,
    seed: Option<real>)

  const NoOptions: ChatOptions := ChatOptions(None, None, None, None, None, None)

  /** The body posted to the runtime's `/api/chat`. */
  datatype ChatRequest = ChatRequest(
    model: string,
    messages: seq<ChatMessage>,
    stream: bool,
    options: ChatOptions)

  /** How a non-streaming `/api/chat` call ends, as the HTTP client reports it. */
  datatype BackendReply =
    | Replied(content: Option<string>)            // 2xx; `message.content` if the body has one
    | HttpFailure(status: int, message: string)   // a non-2xx answer
    | NetworkFailure(code: string, message: string) // no answer; `code` such as "ECONNREFUSED"

  /** The runtime itself: what it answers to a request. */
  type Backend = ChatRequest -> BackendReply

  /** A model as the runtime lists it. */
  datatype BackendModel = BackendModel(name: string, size: nat, modifiedAt: int)

  datatype ModelInfo = ModelInfo(id: string, name: string, size: nat, modified: int, available: bool)

  /** `messagesToOllamaFormat`: keep role and content of every message, in order. */
  function MessagesToOllamaFormat(messages: seq<Message>): (r: seq<ChatMessage>)
    ensures |r| == |messages|
    ensures forall i :: 0 <= i < |r| ==>
      r[i].role == messages[i].role && r[i].content == messages[i].content
  {
    if messages == [] then []
    else [ChatMessage(messages[0].role, messages[0].content)] + MessagesToOllamaFormat(messages[1..])
  }

  function BuildRequest(model: string, messages: seq<Message>, options: ChatOptions, stream: bool): ChatRequest {
    ChatRequest(model, MessagesToOllamaFormat(messages), stream, options)
  }

  /** The error text `generateCompletion` throws for a failed call. */
  function CompletionFailure(model: string, status: Option<int>, code: Option<string>, message: string): string {
    if status == Some(404) then ModelNotFound(model)
    else if status == Some(400) then "Invalid request to Ollama API"
    else if code == Some("ECONNREFUSED") then CannotConnect
    else "Failed to generate completion: " + message
  }

  function ModelNotFound(model: string): string {
    "Model \"" + model + "\" not found. Please ensure it's downloaded."
  }

  const CannotConnect: string := "Cannot connect to Ollama service. Please ensure it's running."


  /**
   * `generateCompletion`: post the conversation without streaming; the reply's
   * content, or the classified error. A reply without content is an error
   * raised inside the same `try`, so it lands in the generic branch.
   */
  function GenerateCompletion(model: string, messages: seq<Message>, options: ChatOptions, backend: Backend): (r: Result<string, string>)
    ensures r.Ok? ==> r.value != ""
    ensures r.Ok? <==> (var reply := backend(BuildRequest(model, messages, options, false));
                        reply.Replied? && reply.content.Some? && reply.content.value != "")
    ensures var reply := backend(BuildRequest(model, messages, options, false));
      && (reply.HttpFailure? && reply.status == 404 ==> r == Err(ModelNotFound(model)))
      && (reply.HttpFailure? && reply.status == 400 ==> r == Err("Invalid request to Ollama API"))
      && (reply.NetworkFailure? && reply.code == "ECONNREFUSED" ==> r == Err(CannotConnect))
      && (reply.Replied? && (reply.content == None || reply.content == Some("")) ==>
            r == Err("Failed to generate completion: " + "Empty response from Ollama"))
      && (reply.HttpFailure? && reply.status != 404 && reply.status != 400 ==>
            r == Err("Failed to generate completion: " + reply.message))
      && (reply.NetworkFailure? && reply.code != "ECONNREFUSED" ==>
            r == Err("Failed to generate completion: " + reply.message))
  {
    match backend(BuildRequest(model, messages, options, false))
    case Replied(c) =>
      if c.Some? && c.value != "" then Ok(c.value)
      else Err(CompletionFailure(model, None, None, "Empty response from Ollama"))
    case HttpFailure(status, msg) => Err(CompletionFailure(model, Some(status), None, msg))
    case NetworkFailure(code, msg) => Err(CompletionFailure(model, None, Some(code), msg))
  }

  /** `getModels`: the runtime's list mapped to model records, or the fixed error. */
  function GetModels(listing: Result<seq<BackendModel>, string>): (r: Result<seq<ModelInfo>, string>)
    ensures listing.Err? ==> r == Err("Failed to fetch available models from Ollama")
    ensures listing.Ok? ==> r.Ok? && |r.value| == |listing.value|
    ensures listing.Ok? ==> forall i :: 0 <= i < |r.value| ==>
      r.value[i].id == listing.value[i].name && r.value[i].name == listing.value[i].name && r.value[i].available
  {
    match listing
    case Err(_) => Err("Failed to fetch available models from Ollama")
    case Ok(ms) => Ok(seq(|ms|, i requires 0 <= i < |ms| =>
      ModelInfo(ms[i].name, ms[i].name, ms[i].size, ms[i].modifiedAt, true)))
  }

  /** `isModelAvailable`: some listed model has exactly this id; a failed listing means "no". */
  function IsModelAvailable(name: string, listing: Result<seq<BackendModel>, string>): (r: bool)
    ensures r <==> listing.Ok? && exists i :: 0 <= i < |listing.value| && listing.value[i].name == name
  {
    match GetModels(listing)
    case Err(_) => false
    case Ok(models) => exists i :: 0 <= i < |models| && models[i].id == name
  }

  /** `estimateTokens`: about four characters per token, rounded up. */
  function EstimateTokens(text: string): (r: nat)
    ensures 4 * r >= |text| && 4 * r < |text| + 4
    ensures r == 0 <==> text == ""
  {
    (|text| + 3) / 4
  }

  /** A longer text never gets a smaller estimate. */
  lemma EstimateMonotone(a: string, b: string)
    requires |a| <= |b|
    ensures EstimateTokens(a) <= EstimateTokens(b)
  {
  }

  // ---------------------------------------------------------------------------
  // Streaming

  /** How a streaming `/api/chat` call opens: the body's chunks, or the failure. */
  datatype StreamReply =
    | Opened(chunks: seq<string>)
    | StreamHttpFailure(status: int, message: string)
    | StreamNetworkFailure(code: string, message: string)

  type StreamBackend = ChatRequest -> StreamReply

  /** What `JSON.parse` makes of one line: nothing usable, or its `message.content` and `done`. */
  datatype ParsedLine = Malformed | Parsed(content: Option<string>, done: bool)

  type LineParser = string -> ParsedLine

  /** What the parser has produced: the contents yielded, in order, and whether a `done` line ended it. */
  datatype StreamOutcome = StreamOutcome(emitted: seq<string>, stopped: bool)

  /** `s.split('\n')`: the pieces between newlines, always at least one. */
  function SplitLines(s: string): (r: seq<string>)
    ensures |r| >= 1
    ensures '\n' !in r[|r| - 1]
  {
    if s == [] then [""]
    else if s[0] == '\n' then [""] + SplitLines(s[1..])
    else Prepend(s[0], SplitLines(s[1..]))
  }

  /** A character added in front of the first piece. */
  function Prepend(c: char, parts: seq<string>): (r: seq<string>)
    requires |parts| >= 1
    ensures |r| == |parts| && r[|r| - 1] == (if |parts| == 1 then [c] + parts[0] else parts[|parts| - 1])
  {
    [[c] + parts[0]] + parts[1..]
  }

  /** Two runs of pieces where the last of the first and the first of the second are one piece. */
  function Seam(p: seq<string>, q: seq<string>): seq<string>
    requires |p| >= 1 && |q| >= 1
  {
    p[..|p| - 1] + [p[|p| - 1] + q[0]] + q[1..]
  }

  /** The newline-terminated lines of `s`. */
  function CompleteLines(s: string): seq<string> {
    var parts := SplitLines(s);
    parts[..|parts| - 1]
  }

  /** The unterminated tail of `s`, which `lines.pop()` keeps in the buffer. */
  function Remainder(s: string): (r: string)
    ensures '\n' !in r
  {
    var parts := SplitLines(s);
    parts[|parts| - 1]
  }

  /** Splitting and re-joining with newlines gives the text back. */
  lemma {:induction false} SplitJoin(s: string)
    ensures Join(SplitLines(s), "\n") == s
  {
    if s != [] {
      SplitJoin(s[1..]);
      var rest := SplitLines(s[1..]);
      if s[0] == '\n' {
        assert ([""] + rest)[1..] == rest;
      } else {
        JoinPrepend(s[0], rest);
      }
      assert [s[0]] + s[1..] == s;
    }
  }

  /** A character put in front of the first piece comes first in the joined text. */
  lemma JoinPrepend(c: char, parts: seq<string>)
    requires |parts| >= 1
    ensures Join(Prepend(c, parts), "\n") == [c] + Join(parts, "\n")
  {
    var p0, tail := parts[0], parts[1..];
    assert parts == [p0] + tail;
    assert Prepend(c, parts) == [[c] + p0] + tail;
    if tail == [] {
      assert Prepend(c, parts) == [[c] + p0];
    } else {
      JoinConsChar(c, p0, tail);
    }
  }

  lemma JoinConsChar(c: char, first: string, tail: seq<string>)
    requires |tail| >= 1
    ensures Join([[c] + first] + tail, "\n") == [c] + Join([first] + tail, "\n")
  {
    JoinConsSep(c, first, tail, "\n");
  }

  lemma JoinConsSep(c: char, first: string, tail: seq<string>, sep: string)
    requires |tail| >= 1
    ensures Join([[c] + first] + tail, sep) == [c] + Join([first] + tail, sep)
  {
    JoinFront([c] + first, tail, sep);
    JoinFront(first, tail, sep);
    var j := Join(tail, sep);
    assert ([c] + first) + sep + j == [c] + (first + sep + j);
  }

  lemma JoinFront(first: string, rest: seq<string>, sep: string)
    requires |rest| >= 1
    ensures Join([first] + rest, sep) == first + sep + Join(rest, sep)
  {
    assert ([first] + rest)[1..] == rest;
  }

  lemma {:induction false} SplitNoNewline(s: string)
    requires '\n' !in s
    ensures SplitLines(s) == [s]
  {
    if s != [] {
      assert s[0] in s;
      assert forall c :: c in s[1..] ==> c in s;
      SplitNoNewline(s[1..]);
      assert [s[0]] + s[1..] == s;
    }
  }

  lemma SeamEmptyFront(p: seq<string>, q: seq<string>)
    requires |p| >= 1 && |q| >= 1
    ensures Seam([""] + p, q) == [""] + Seam(p, q)
  {
    assert ([""] + p)[..|p|] == [""] + p[..|p| - 1];
  }

  lemma SeamPrepend(c: char, p: seq<string>, q: seq<string>)
    requires |p| >= 1 && |q| >= 1
    ensures Seam(Prepend(c, p), q) == Prepend(c, Seam(p, q))
  {
    if |p| == 1 {
      assert [c] + (p[0] + q[0]) == ([c] + p[0]) + q[0];
    } else {
      assert Seam(p, q)[0] == p[0];
      assert Seam(p, q)[1..] == p[1..|p| - 1] + [p[|p| - 1] + q[0]] + q[1..];
      assert Prepend(c, p)[..|p| - 1] == [[c] + p[0]] + p[1..|p| - 1];
    }
  }

  /** Splitting distributes over concatenation, joining the pieces at the seam. */
  lemma {:induction false} SplitAppend(a: string, b: string)
    ensures SplitLines(a + b) == Seam(SplitLines(a), SplitLines(b))
  {
    if a != [] {
      assert (a + b)[0] == a[0] && (a + b)[1..] == a[1..] + b;
      SplitAppend(a[1..], b);
      if a[0] == '\n' {
        SeamEmptyFront(SplitLines(a[1..]), SplitLines(b));
      } else {
        SeamPrepend(a[0], SplitLines(a[1..]), SplitLines(b));
      }
    } else {
      var sb := SplitLines(b);
      assert a + b == b;
      assert "" + sb[0] == sb[0];
      assert sb == [sb[0]] + sb[1..];
    }
  }

  /**
   * Appending a chunk to a text completes exactly the lines that the text's
   * remainder followed by the chunk completes, and leaves their remainder.
   */
  lemma BufferStep(t: string, c: string)
    ensures CompleteLines(t + c) == CompleteLines(t) + CompleteLines(Remainder(t) + c)
    ensures Remainder(t + c) == Remainder(Remainder(t) + c)
  {
    var tp, cp, r := SplitLines(t), SplitLines(c), Remainder(t);
    SplitAppend(t, c);
    SplitNoNewline(r);
    SplitAppend(r, c);
    SeamSplit(tp, cp);
  }

  /** A seam keeps all but the last piece of its first run and then seams that piece. */
  lemma SeamSplit(p: seq<string>, q: seq<string>)
    requires |p| >= 1 && |q| >= 1
    ensures var s, t := Seam(p, q), Seam([p[|p| - 1]], q);
      s[..|s| - 1] == p[..|p| - 1] + t[..|t| - 1] && s[|s| - 1] == t[|t| - 1]
  {
    var s, t := Seam(p, q), Seam([p[|p| - 1]], q);
    assert t == [p[|p| - 1] + q[0]] + q[1..];
    assert s == p[..|p| - 1] + t;
  }

  /**
   * The effect of one complete line in front of the outcome of the lines
   * after it: a blank or unparseable line is skipped, a parsed line yields its
   * content when that is non-empty, and a `done` line ends the pass after its
   * own content.
   */
  function LineStep(line: string, parse: LineParser, rest: StreamOutcome): (r: StreamOutcome)
    ensures (forall k :: 0 <= k < |rest.emitted| ==> rest.emitted[k] != "") ==>
      forall k :: 0 <= k < |r.emitted| ==> r.emitted[k] != ""
  {
    if Trim(line) == "" then rest
    else match parse(line)
      case Malformed => rest
      case Parsed(content, done) =>
        var y := if Truthy(content) then [content.value] else [];
        if done then StreamOutcome(y, true) else StreamOutcome(y + rest.emitted, rest.stopped)
  }

  /** One pass over complete lines; only non-empty contents are yielded. */
  function ProcessLines(lines: seq<string>, parse: LineParser): (r: StreamOutcome)
    ensures forall k :: 0 <= k < |r.emitted| ==> r.emitted[k] != ""
  {
    if lines == [] then StreamOutcome([], false)
    else LineStep(lines[0], parse, ProcessLines(lines[1..], parse))
  }

  /** The outcome of a pass that continues with a second one. */
  function Followed(first: StreamOutcome, second: StreamOutcome): StreamOutcome {
    if first.stopped then first else StreamOutcome(first.emitted + second.emitted, second.stopped)
  }

  lemma StepFollowed(line: string, parse: LineParser, a: StreamOutcome, b: StreamOutcome)
    ensures LineStep(line, parse, Followed(a, b)) == Followed(LineStep(line, parse, a), b)
  {
    if Trim(line) != "" && parse(line).Parsed? && !parse(line).done {
      var c := parse(line).content;
      var y := if Truthy(c) then [c.value] else [];
      if !a.stopped {
        assert (y + a.emitted) + b.emitted == y + (a.emitted + b.emitted);
      }
    }
  }

  /** Processing is sequential: two runs of lines are processed one after the other. */
  lemma {:induction false} ProcessAppend(l1: seq<string>, l2: seq<string>, parse: LineParser)
    ensures ProcessLines(l1 + l2, parse) == Followed(ProcessLines(l1, parse), ProcessLines(l2, parse))
  {
    if l1 != [] {
      assert (l1 + l2)[0] == l1[0] && (l1 + l2)[1..] == l1[1..] + l2;
      ProcessAppend(l1[1..], l2, parse);
      StepFollowed(l1[0], parse, ProcessLines(l1[1..], parse), ProcessLines(l2, parse));
    } else {
      assert l1 + l2 == l2;
    }
  }

  /** Nothing after the first `done` line matters. */
  lemma StoppedPrefix(p: seq<string>, l: seq<string>, parse: LineParser)
    requires p <= l && ProcessLines(p, parse).stopped
    ensures ProcessLines(l, parse) == ProcessLines(p, parse)
  {
    assert l == p + l[|p|..];
    ProcessAppend(p, l[|p|..], parse);
  }

  /** What `parseStreamResponse` emitted for a body: a function of its text alone. */
  function StreamResult(chunks: seq<string>, parse: LineParser): StreamOutcome {
    ProcessLines(CompleteLines(Concat(chunks)), parse)
  }

  lemma ConcatAppend(a: seq<string>, b: seq<string>)
    ensures Concat(a + b) == Concat(a) + Concat(b)
  {
    if a != [] {
      assert (a + b)[0] == a[0] && (a + b)[1..] == a[1..] + b;
      ConcatAppend(a[1..], b);
    } else {
      assert a + b == b;
    }
  }

  /** The lines complete after the first `k` chunks are the first lines of the whole body. */
  lemma LinesOfPrefix(chunks: seq<string>, k: nat)
    requires k <= |chunks|
    ensures CompleteLines(Concat(chunks[..k])) <= CompleteLines(Concat(chunks))
  {
    assert chunks == chunks[..k] + chunks[k..];
    ConcatAppend(chunks[..k], chunks[k..]);
    BufferStep(Concat(chunks[..k]), Concat(chunks[k..]));
  }

  /** A stream is consumed incrementally: a prefix of the body emitted a prefix of the output. */
  lemma StreamIsIncremental(chunks: seq<string>, k: nat, parse: LineParser)
    requires k <= |chunks|
    ensures StreamResult(chunks[..k], parse).emitted <= StreamResult(chunks, parse).emitted
    ensures StreamResult(chunks[..k], parse).stopped ==> StreamResult(chunks, parse) == StreamResult(chunks[..k], parse)
  {
    LinesOfPrefix(chunks, k);
    var p := CompleteLines(Concat(chunks[..k]));
    var l := CompleteLines(Concat(chunks));
    assert l == p + l[|p|..];
    ProcessAppend(p, l[|p|..], parse);
  }

  /** A last chunk without a newline is never parsed: it stays in the buffer and is dropped. */
  lemma UnterminatedTailIgnored(chunks: seq<string>, tail: string, parse: LineParser)
    requires '\n' !in tail
    ensures StreamResult(chunks + [tail], parse) == StreamResult(chunks, parse)
  {
    ConcatSnoc(chunks, tail);
    var text := Concat(chunks);
    BufferStep(text, tail);
    var rem := Remainder(text);
    var rt := rem + tail;
    assert '\n' !in rt by {
      forall k | 0 <= k < |rt| ensures rt[k] != '\n' {
        if k >= |rem| {
          assert rt[k] == tail[k - |rem|] && tail[k - |rem|] in tail;
        } else {
          assert rt[k] == rem[k] && rem[k] in rem;
        }
      }
    }
    SplitNoNewline(rt);
    assert CompleteLines(rt) == [];
    assert CompleteLines(text + tail) == CompleteLines(text) + [];
    assert CompleteLines(text + tail) == CompleteLines(text);
    assert Concat(chunks + [tail]) == text + tail;
  }

  /** Processing one more line. */
  lemma ProcessSnoc(prefix: seq<string>, line: string, parse: LineParser)
    ensures ProcessLines(prefix + [line], parse)
         == Followed(ProcessLines(prefix, parse), LineStep(line, parse, StreamOutcome([], false)))
  {
    ProcessAppend(prefix, [line], parse);
    assert [line][1..] == [];
  }

  /** The body of the inner loop: what one complete line yields and whether it ends the stream. */
  method HandleLine(line: string, parse: LineParser) returns (emitted: seq<string>, done: bool)
    ensures StreamOutcome(emitted, done) == LineStep(line, parse, StreamOutcome([], false))
  {
    emitted, done := [], false;
    if Trim(line) != "" {
      var data := parse(line);
      if data.Parsed? {
        if Truthy(data.content) {
          emitted := [data.content.value];
        }
        done := data.done;
      }
    }
  }

  /** The inner loop of `parseStreamResponse`: process complete lines until one says `done`. */
  method ProcessCompleteLines(lines: seq<string>, parse: LineParser) returns (emitted: seq<string>, stopped: bool)
    ensures StreamOutcome(emitted, stopped) == ProcessLines(lines, parse)
  {
    emitted := [];
    var j := 0;
    while j < |lines|
      invariant 0 <= j <= |lines|
      invariant StreamOutcome(emitted, false) == ProcessLines(lines[..j], parse)
    {
      assert lines[..j + 1] == lines[..j] + [lines[j]];
      ProcessSnoc(lines[..j], lines[j], parse);
      var out, done := HandleLine(lines[j], parse);
      emitted := emitted + out;
      if done {
        StoppedPrefix(lines[..j + 1], lines, parse);
        return emitted, true;
      }
      j := j + 1;
    }
    assert lines[..j] == lines;
    stopped := false;
  }

  /**
   * `parseStreamResponse`: append each chunk to the buffer, process the lines
   * it completes and keep the unterminated rest; return at the first `done`.
   */
  method ParseStreamResponse(chunks: seq<string>, parse: LineParser) returns (emitted: seq<string>, stopped: bool)
    ensures StreamOutcome(emitted, stopped) == StreamResult(chunks, parse)
  {
    var buffer := "";
    emitted := [];
    var i := 0;
    while i < |chunks|
      invariant 0 <= i <= |chunks|
      invariant buffer == Remainder(Concat(chunks[..i]))
      invariant StreamOutcome(emitted, false) == ProcessLines(CompleteLines(Concat(chunks[..i])), parse)
    {
      ghost var before := CompleteLines(Concat(chunks[..i]));
      buffer := buffer + chunks[i];
      var lines := CompleteLines(buffer);
      buffer := Remainder(buffer);
      assert chunks[..i + 1] == chunks[..i] + [chunks[i]];
      ConcatSnoc(chunks[..i], chunks[i]);
      BufferStep(Concat(chunks[..i]), chunks[i]);
      ProcessAppend(before, lines, parse);
      var out, done := ProcessCompleteLines(lines, parse);
      emitted := emitted + out;
      if done {
        LinesOfPrefix(chunks, i + 1);
        StoppedPrefix(before + lines, CompleteLines(Concat(chunks)), parse);
        return emitted, true;
      }
      i := i + 1;
    }
    assert chunks[..i] == chunks;
    stopped := false;
  }

  /** The error text `generateStream` throws when the streaming call cannot be opened. */
  function StreamFailure(model: string, status: Option<int>, code: Option<string>, message: string): string {
    if status == Some(404) then ModelNotFound(model)
    else if code == Some("ECONNREFUSED") then CannotConnect
    else "Failed to generate stream: " + message
  }

  /**
   * `generateStream` followed by consuming its generator: the parsed output of
   * the opened body, or the classified error (no 400 case here).
   */
  function GenerateStream(model: string, messages: seq<Message>, options: ChatOptions,
                          backend: StreamBackend, parse: LineParser): (r: Result<StreamOutcome, string>)
    ensures var reply := backend(BuildRequest(model, messages, options, true));
      && (reply.Opened? <==> r.Ok?)
      && (reply.Opened? ==> r.value == StreamResult(reply.chunks, parse))
      && (reply.StreamHttpFailure? && reply.status == 404 ==> r == Err(ModelNotFound(model)))
      && (reply.StreamHttpFailure? && reply.status != 404 ==> r == Err("Failed to generate stream: " + reply.message))
      && (reply.StreamNetworkFailure? && reply.code == "ECONNREFUSED" ==> r == Err(CannotConnect))
      && (reply.StreamNetworkFailure? && reply.code != "ECONNREFUSED" ==> r == Err("Failed to generate stream: " + reply.message))
  {
    match backend(BuildRequest(model, messages, options, true))
    case Opened(chunks) => Ok(StreamResult(chunks, parse))
    case StreamHttpFailure(status, msg) => Err(StreamFailure(model, Some(status), None, msg))
    case StreamNetworkFailure(code, msg) => Err(StreamFailure(model, None, Some(code), msg))
  }

  // ---------------------------------------------------------------------------
  // The service object and the process-wide instance

  const DefaultBaseUrl: string := "http://localhost:11434"

  /** The endpoint a new service uses: the argument, else the environment's, else the default. */
  function InitialBaseUrl(baseUrl: Option<string>, env: Option<string>): (r: string)
    ensures Truthy(baseUrl) ==> r == baseUrl.value
    ensures !Truthy(baseUrl) && Truthy(env) ==> r == env.value
    ensures !Truthy(baseUrl) && !Truthy(env) ==> r == DefaultBaseUrl
    ensures r != ""
  {
    if Truthy(baseUrl) then baseUrl.value else if Truthy(env) then env.value else DefaultBaseUrl
  }

  /** The client of one runtime endpoint. */
  class Service {
    var baseUrl: string

    constructor (baseUrl: Option<string>, env: Option<string>)
      ensures this.baseUrl == InitialBaseUrl(baseUrl, env)
    {
      this.baseUrl := InitialBaseUrl(baseUrl, env);
    }

    method UpdateBaseUrl(newBaseUrl: string)
      modifies this
      ensures baseUrl == newBaseUrl
    {
      baseUrl := newBaseUrl;
    }

    method GetBaseUrl() returns (url: string)
      ensures url == baseUrl
    {
      url := baseUrl;
    }
  }

  /** The module-level `ollamaServiceInstance` and the functions that manage it. */
  class Registry {
    var instance: Service?

    constructor ()
      ensures instance == null
    {
      instance := null;
    }

    /**
     * `getOllamaService`: create the instance on first use; afterwards the
     * same instance, re-pointed only by a non-empty, different endpoint.
     */
    method GetOllamaService(baseUrl: Option<string>, env: Option<string>) returns (s: Service)
      modifies this, instance
      ensures instance == s
      ensures old(instance) == null ==> fresh(s) && s.baseUrl == InitialBaseUrl(baseUrl, env)
      ensures old(instance) != null ==> s == old(instance)
      ensures old(instance) != null && Truthy(baseUrl) ==> s.baseUrl == baseUrl.value
      ensures old(instance) != null && !Truthy(baseUrl) ==> s.baseUrl == old(instance.baseUrl)
    {
      if instance == null {
        instance := new Service(baseUrl, env);
      } else {
        var current := instance.GetBaseUrl();
        if Truthy(baseUrl) && baseUrl.value != current {
          instance.UpdateBaseUrl(baseUrl.value);
        }
      }
      s := instance;
    }

    /** `createOllamaService`: always a new instance, which replaces the old one. */
    method CreateOllamaService(baseUrl: Option<string>, env: Option<string>) returns (s: Service)
      modifies this
      ensures fresh(s) && instance == s && s.baseUrl == InitialBaseUrl(baseUrl, env)
    {
      s := new Service(baseUrl, env);
      instance := s;
    }

    /**
     * `getOllamaServiceWithSettings`: the instance pointed at the stored
     * endpoint, or left as it is when the settings cannot be read.
     */
    method GetOllamaServiceWithSettings(settings: Result<Settings, string>, env: Option<string>) returns (s: Service)
      modifies this, instance
      ensures instance == s
      ensures old(instance) != null ==> s == old(instance)
      ensures settings.Ok? && settings.value.ollamaEndpoint != "" ==> s.baseUrl == settings.value.ollamaEndpoint
      ensures settings.Err? && old(instance) == null ==> s.baseUrl == DefaultOr(env)
      ensures settings.Err? && old(instance) != null ==> s.baseUrl == old(instance.baseUrl)
    {
      if settings.Ok? {
        s := GetOllamaService(Some(settings.value.ollamaEndpoint), env);
      } else {
        s := GetOllamaService(None, env);
      }
    }
  }

  function DefaultOr(env: Option<string>): string {
    InitialBaseUrl(None, env)
  }
}
