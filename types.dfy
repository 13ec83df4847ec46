/**
 * The records the server stores and exchanges: sessions, messages and the
 * settings document. Timestamps are milliseconds since the epoch.
 */
module Types {
  import opened Wrappers

  datatype Role = User | Assistant | System

  datatype Session = Session(
    id: string,
    title: string,
    model: string,
    createdAt: int,
    updatedAt: int,
    messageCount: nat)

  datatype Message = Message(
    id: string,
    sessionId: string,
    role: Role,
    content: string,
    timestamp: int,
    tokens: Option<nat>)

  datatype Theme = Light | Dark | Auto

  /** The settings document; `maxTokens` is a JSON number and need not be whole. */
  datatype Settings = Settings(
    defaultModel: string,
    temperature: real,
    maxTokens: real,
    ollamaEndpoint: string,
    theme: Theme,
    apiKey: Option<string>,
    apiKeyCreatedAt: Option<string>)

  /** A message as the model backend receives it: role and content only. */
  datatype ChatMessage = ChatMessage(role: Role, content: string)

  /** A JSON value as it arrives in a request body, for the fields that are type-checked. */
  datatype Json = JNull | JBool(b: bool) | JNum(n: real) | JStr(s: string) | JArray(items: seq<Json>) | JObject

  /** JavaScript truthiness of an optional string field: present and non-empty. */
  predicate Truthy(s: Option<string>) {
    s.Some? && s.value != ""
  }

  /** JavaScript truthiness of a JSON value (NaN is not representable here). */
  predicate JsonTruthy(v: Json) {
    match v
    case JNull => false
    case JBool(b) => b
    case JNum(n) => n != 0.0
    case JStr(s) => s != ""
    case _ => true
  }

  /** The number of user-role messages. */
  function UserCount(messages: seq<Message>): (r: nat)
    ensures r <= |messages|
  {
    if |messages| == 0 then 0
    else UserCount(messages[..|messages| - 1]) + (if messages[|messages| - 1].role == User then 1 else 0)
  }

  /** Appending a message adds one to the count exactly when it is a user message. */
  lemma UserCountSnoc(messages: seq<Message>, m: Message)
    ensures UserCount(messages + [m]) == UserCount(messages) + (if m.role == User then 1 else 0)
  {
    assert (messages + [m])[..|messages|] == messages;
  }

  /** No user-role message at all exactly when the count is zero. */
  lemma {:induction false} UserCountZero(messages: seq<Message>)
    ensures UserCount(messages) == 0 <==> forall i :: 0 <= i < |messages| ==> messages[i].role != User
  {
    if |messages| > 0 {
      var init := messages[..|messages| - 1];
      UserCountZero(init);
      assert forall i :: 0 <= i < |init| ==> init[i] == messages[i];
    }
  }
}
