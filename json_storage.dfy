/**
 * The file-backed store: a sessions document, one messages document per
 * session and a settings document. Each operation reads a whole document,
 * changes it and writes it back; the documents are held here as fields.
 */
module Storage {
  import opened Wrappers
  import opened Types

  /** A stored JSON document: absent, present but not parseable, or holding a value. */
  datatype Doc<T> = Missing | Unparseable | Stored(value: T)

  /** What reading a document gives: its value, or the default when it is absent or unparseable. */
  function ReadOr<T>(d: Doc<T>, default: T): (r: T)
    ensures d.Stored? ==> r == d.value
    ensures !d.Stored? ==> r == default
  {
    if d.Stored? then d.value else default
  }

  /** The environment variables behind the default settings, already parsed. */
  datatype StorageEnv = StorageEnv(
    defaultModel: Option<string>,
    temperature: Option<real>,
    maxTokens: Option<real>,
    baseUrl: Option<string>)

  /** The settings used when the settings document is absent or unparseable. */
  function DefaultSettings(env: StorageEnv): (r: Settings)
    ensures r.defaultModel == (if Truthy(env.defaultModel) then env.defaultModel.value else "llama3.2")
    ensures r.temperature == env.temperature.GetOr(0.7) && r.maxTokens == env.maxTokens.GetOr(2048.0)
    ensures r.ollamaEndpoint == (if Truthy(env.baseUrl) then env.baseUrl.value else "http://localhost:11434")
    ensures r.theme == Auto && r.apiKey.None? && r.apiKeyCreatedAt.None?
  {
    Settings(
      if Truthy(env.defaultModel) then env.defaultModel.value else "llama3.2",
      env.temperature.GetOr(0.7),
      env.maxTokens.GetOr(2048.0),
      if Truthy(env.baseUrl) then env.baseUrl.value else "http://localhost:11434",
      Auto, None, None)
  }

  /**
   * The fields a session update may carry. `updatedAt` is left out because
   * the update always replaces it with the current time.
   */
  datatype SessionPatch = SessionPatch(
    id: Option<string>,
    title: Option<string>,
    model: Option<string>,
    createdAt: Option<int>,
    messageCount: Option<nat>)

  /** `{ ...s, ...patch, updatedAt: now }`. */
  function Merge(s: Session, p: SessionPatch, now: int): (r: Session)
    ensures r.updatedAt == now
    ensures r.id == p.id.GetOr(s.id) && r.title == p.title.GetOr(s.title) && r.model == p.model.GetOr(s.model)
    ensures r.createdAt == p.createdAt.GetOr(s.createdAt) && r.messageCount == p.messageCount.GetOr(s.messageCount)
  {
    Session(p.id.GetOr(s.id), p.title.GetOr(s.title), p.model.GetOr(s.model),
            p.createdAt.GetOr(s.createdAt), now, p.messageCount.GetOr(s.messageCount))
  }

  /** The update that sets only the title. */
  function TitlePatch(title: string): (p: SessionPatch)
    ensures p.title == Some(title) && p.id.None? && p.messageCount.None?
  {
    SessionPatch(None, Some(title), None, None, None)
  }

  /**
   * A settings update: a missing key leaves the field alone. For the two
   * optional fields, `Some(None)` is a key present with value `undefined`,
   * which removes the field.
   */
  datatype SettingsPatch = SettingsPatch(
    defaultModel: Option<string>,
    temperature: Option<real>,
    maxTokens: Option<real>,
    ollamaEndpoint: Option<string>,
    theme: Option<Theme>,
    apiKey: Option<Option<string>>,
    apiKeyCreatedAt: Option<Option<string>>)

  const NoSettingsChange := SettingsPatch(None, None, None, None, None, None, None)

  /** `{ ...current, ...update }`. */
  function Override(s: Settings, p: SettingsPatch): (r: Settings)
    ensures p.defaultModel.Some? ==> r.defaultModel == p.defaultModel.value
    ensures p.defaultModel.None? ==> r.defaultModel == s.defaultModel
    ensures p.temperature.Some? ==> r.temperature == p.temperature.value
    ensures p.temperature.None? ==> r.temperature == s.temperature
    ensures p.maxTokens.Some? ==> r.maxTokens == p.maxTokens.value
    ensures p.maxTokens.None? ==> r.maxTokens == s.maxTokens
    ensures p.ollamaEndpoint.Some? ==> r.ollamaEndpoint == p.ollamaEndpoint.value
    ensures p.ollamaEndpoint.None? ==> r.ollamaEndpoint == s.ollamaEndpoint
    ensures p.theme.Some? ==> r.theme == p.theme.value
    ensures p.theme.None? ==> r.theme == s.theme
    ensures p.apiKey.Some? ==> r.apiKey == p.apiKey.value
    ensures p.apiKey.None? ==> r.apiKey == s.apiKey
    ensures p.apiKeyCreatedAt.Some? ==> r.apiKeyCreatedAt == p.apiKeyCreatedAt.value
    ensures p.apiKeyCreatedAt.None? ==> r.apiKeyCreatedAt == s.apiKeyCreatedAt
  {
    Settings(
      p.defaultModel.GetOr(s.defaultModel),
      p.temperature.GetOr(s.temperature),
      p.maxTokens.GetOr(s.maxTokens),
      p.ollamaEndpoint.GetOr(s.ollamaEndpoint),
      p.theme.GetOr(s.theme),
      p.apiKey.GetOr(s.apiKey),
      p.apiKeyCreatedAt.GetOr(s.apiKeyCreatedAt))
  }

  /** Applying the same settings update twice is applying it once. */
  lemma OverrideIdempotent(s: Settings, p: SettingsPatch)
    ensures Override(Override(s, p), p) == Override(s, p)
  {
  }

  /** An update with no keys changes nothing. */
  lemma OverrideNothing(s: Settings)
    ensures Override(s, NoSettingsChange) == s
  {
  }

  /** `findIndex(s => s.id === id)`: the first position holding `id`, or -1. */
  function FindIndex(ss: seq<Session>, id: string): (r: int)
    ensures -1 <= r < |ss|
    ensures r == -1 <==> forall k :: 0 <= k < |ss| ==> ss[k].id != id
    ensures r >= 0 ==> ss[r].id == id && forall k :: 0 <= k < r ==> ss[k].id != id
  {
    if |ss| == 0 then -1
    else if ss[0].id == id then 0
    else
      var k := FindIndex(ss[1..], id);
      if k == -1 then -1 else k + 1
  }

  /**
   * The session list after `addMessage`'s second write: the first session
   * with the id, if any, gets the new message count and `updatedAt`.
   */
  function Recounted(ss: seq<Session>, id: string, count: nat, now: int): seq<Session> {
    var k := FindIndex(ss, id);
    if k == -1 then ss else ss[k := ss[k].(messageCount := count, updatedAt := now)]
  }

  /** `splice(i, 1)`. */
  function RemoveAt<T>(s: seq<T>, i: nat): (r: seq<T>)
    requires i < |s|
    ensures |r| == |s| - 1
    ensures forall k :: 0 <= k < i ==> r[k] == s[k]
    ensures forall k :: i <= k < |r| ==> r[k] == s[k + 1]
  {
    s[..i] + s[i + 1..]
  }

  /** No two sessions share an id. */
  predicate UniqueIds(ss: seq<Session>) {
    forall i, j :: 0 <= i < j < |ss| ==> ss[i].id != ss[j].id
  }

  /** What `getMessages(id)` reads from the message documents. */
  function MessagesIn(docs: map<string, Doc<seq<Message>>>, id: string): seq<Message> {
    if id in docs then ReadOr(docs[id], []) else []
  }

  /** Every session's `messageCount` is the length of its message list. */
  predicate CountsMatch(ss: seq<Session>, docs: map<string, Doc<seq<Message>>>) {
    forall i :: 0 <= i < |ss| ==> ss[i].messageCount == |MessagesIn(docs, ss[i].id)|
  }

  /** With unique ids, the position `FindIndex` gives is the only one holding the id. */
  lemma OnlyIndex(ss: seq<Session>, id: string, i: int)
    requires UniqueIds(ss) && 0 <= i < |ss| && ss[i].id == id
    ensures FindIndex(ss, id) == i
  {
  }

  /** Appending a session with a fresh id whose message list it counts keeps the store consistent. */
  lemma AppendKeepsValid(ss: seq<Session>, docs: map<string, Doc<seq<Message>>>, s: Session)
    requires UniqueIds(ss) && CountsMatch(ss, docs)
    requires forall k :: 0 <= k < |ss| ==> ss[k].id != s.id
    requires s.messageCount == |MessagesIn(docs, s.id)|
    ensures UniqueIds(ss + [s]) && CountsMatch(ss + [s], docs)
  {
  }

  /** Removing a session together with its message document keeps the store consistent. */
  lemma {:induction false} RemoveKeepsValid(ss: seq<Session>, docs: map<string, Doc<seq<Message>>>, i: nat)
    requires i < |ss| && UniqueIds(ss) && CountsMatch(ss, docs)
    ensures UniqueIds(RemoveAt(ss, i)) && CountsMatch(RemoveAt(ss, i), docs - {ss[i].id})
    ensures forall k :: 0 <= k < |RemoveAt(ss, i)| ==> RemoveAt(ss, i)[k].id != ss[i].id
  {
    var r := RemoveAt(ss, i);
    forall k | 0 <= k < |r| ensures r[k].messageCount == |MessagesIn(docs - {ss[i].id}, r[k].id)| {
      if k < i {
        assert r[k] == ss[k];
        assert CountsMatch(ss, docs) ==> ss[k].messageCount == |MessagesIn(docs, ss[k].id)|;
      } else {
        assert r[k] == ss[k + 1];
        assert CountsMatch(ss, docs) ==> ss[k + 1].messageCount == |MessagesIn(docs, ss[k + 1].id)|;
      }
    }
  }

  /** Writing back what was read for one id leaves every count matching. */
  lemma ReadBackKeepsCounts(ss: seq<Session>, docs: map<string, Doc<seq<Message>>>, id: string)
    requires CountsMatch(ss, docs)
    ensures CountsMatch(ss, docs[id := Stored(MessagesIn(docs, id))])
  {
    var docs' := docs[id := Stored(MessagesIn(docs, id))];
    forall k | 0 <= k < |ss| ensures ss[k].messageCount == |MessagesIn(docs', ss[k].id)| {
      assert MessagesIn(docs', ss[k].id) == MessagesIn(docs, ss[k].id);
    }
  }

  /**
   * Storing a longer message list for `id` and setting the count of the
   * session holding `id` (if any) to its length keeps the store consistent.
   */
  lemma {:induction false} RecountKeepsValid(ss: seq<Session>, docs: map<string, Doc<seq<Message>>>, id: string,
                                            msgs: seq<Message>, ss': seq<Session>)
    requires UniqueIds(ss) && CountsMatch(ss, docs)
    requires |ss'| == |ss|
    requires forall k :: 0 <= k < |ss| && ss[k].id != id ==> ss'[k] == ss[k]
    requires forall k :: 0 <= k < |ss| && ss[k].id == id ==> ss'[k].id == id && ss'[k].messageCount == |msgs|
    ensures UniqueIds(ss') && CountsMatch(ss', docs[id := Stored(msgs)])
  {
    var docs' := docs[id := Stored(msgs)];
    forall i, j | 0 <= i < j < |ss'| ensures ss'[i].id != ss'[j].id {
      assert ss[i].id != ss[j].id;
    }
    forall k | 0 <= k < |ss'| ensures ss'[k].messageCount == |MessagesIn(docs', ss'[k].id)| {
      if ss[k].id != id {
        assert CountsMatch(ss, docs) ==> ss[k].messageCount == |MessagesIn(docs, ss[k].id)|;
        assert MessagesIn(docs', ss[k].id) == MessagesIn(docs, ss[k].id);
      }
    }
  }

  /** Replacing a session by one with the same id and count keeps the store consistent. */
  lemma ReplaceKeepsValid(ss: seq<Session>, docs: map<string, Doc<seq<Message>>>, i: nat, s: Session)
    requires i < |ss| && UniqueIds(ss) && CountsMatch(ss, docs)
    requires s.id == ss[i].id && s.messageCount == ss[i].messageCount
    ensures UniqueIds(ss[i := s]) && CountsMatch(ss[i := s], docs)
  {
  }

  class JsonStorage {
    var sessionsDoc: Doc<seq<Session>>
    var messageDocs: map<string, Doc<seq<Message>>>
    var settingsDoc: Doc<Settings>
    const env: StorageEnv

    /** A store over a data directory that already holds these documents. */
    constructor (sessions: Doc<seq<Session>>, messages: map<string, Doc<seq<Message>>>,
                 settings: Doc<Settings>, env: StorageEnv)
      ensures sessionsDoc == sessions && messageDocs == messages && settingsDoc == settings && this.env == env
    {
      sessionsDoc := sessions;
      messageDocs := messages;
      settingsDoc := settings;
      this.env := env;
    }

    function Sessions(): seq<Session>
      reads this
    {
      ReadOr(sessionsDoc, [])
    }

    function MessagesOf(id: string): seq<Message>
      reads this
    {
      MessagesIn(messageDocs, id)
    }

    function CurrentSettings(): Settings
      reads this
    {
      ReadOr(settingsDoc, DefaultSettings(env))
    }

    /** Session ids are unique and every `messageCount` is its session's message total. */
    predicate Valid()
      reads this
    {
      UniqueIds(Sessions()) && CountsMatch(Sessions(), messageDocs)
    }

    /** `getSessions`: a missing or unparseable document reads as `[]`, which is written back. */
    method GetSessions() returns (r: seq<Session>)
      modifies this
      ensures r == old(Sessions()) && sessionsDoc == Stored(r)
      ensures messageDocs == old(messageDocs) && settingsDoc == old(settingsDoc)
    {
      r := ReadOr(sessionsDoc, []);
      sessionsDoc := Stored(r);
    }

    /** `getSession`: the first session with the id, or none. */
    method GetSession(id: string) returns (r: Option<Session>)
      modifies this
      ensures Sessions() == old(Sessions()) && sessionsDoc.Stored?
      ensures messageDocs == old(messageDocs) && settingsDoc == old(settingsDoc)
      ensures r.None? <==> FindIndex(Sessions(), id) == -1
      ensures r.Some? ==> r.value == Sessions()[FindIndex(Sessions(), id)]
    {
      var sessions := GetSessions();
      var k := FindIndex(sessions, id);
      if k == -1 {
        r := None;
      } else {
        r := Some(sessions[k]);
      }
    }

    /** `createSession`: appends a new session with no messages, created and updated at `now`. */
    method CreateSession(title: string, model: string, id: string, now: int) returns (s: Session)
      modifies this
      ensures s == Session(id, title, model, now, now, 0)
      ensures Sessions() == old(Sessions()) + [s] && sessionsDoc.Stored?
      ensures messageDocs == old(messageDocs) && settingsDoc == old(settingsDoc)
      ensures (old(Valid()) && (forall k :: 0 <= k < |old(Sessions())| ==> old(Sessions())[k].id != id)
               && id !in old(messageDocs)) ==> Valid()
    {
      var sessions := GetSessions();
      s := Session(id, title, model, now, now, 0);
      sessions := sessions + [s];
      sessionsDoc := Stored(sessions);
      if UniqueIds(old(Sessions())) && CountsMatch(old(Sessions()), messageDocs)
         && (forall k :: 0 <= k < |old(Sessions())| ==> old(Sessions())[k].id != id) && id !in messageDocs {
        AppendKeepsValid(old(Sessions()), messageDocs, s);
      }
    }

    /**
     * `updateSession`: merges the patch into the first session with the id,
     * in place, stamping `updatedAt`; an unknown id leaves the list as it was.
     */
    method UpdateSession(id: string, patch: SessionPatch, now: int) returns (r: Option<Session>)
      modifies this
      ensures var k := FindIndex(old(Sessions()), id);
        && (k == -1 ==> r.None? && Sessions() == old(Sessions()))
        && (k != -1 ==> r == Some(Merge(old(Sessions())[k], patch, now))
                        && Sessions() == old(Sessions())[k := r.value])
      ensures sessionsDoc.Stored? && messageDocs == old(messageDocs) && settingsDoc == old(settingsDoc)
      ensures old(Valid()) && patch.id.None? && patch.messageCount.None? ==> Valid()
    {
      var sessions := GetSessions();
      var k := FindIndex(sessions, id);
      if k == -1 {
        r := None;
        return;
      }
      var updated := Merge(sessions[k], patch, now);
      sessions := sessions[k := updated];
      sessionsDoc := Stored(sessions);
      r := Some(updated);
      if old(Valid()) && patch.id.None? && patch.messageCount.None? {
        ReplaceKeepsValid(old(Sessions()), messageDocs, k, updated);
      }
    }

    /** `deleteSession`: removes the session with the id and then its messages; false when there is none. */
    method DeleteSession(id: string) returns (b: bool)
      modifies this
      ensures var k := FindIndex(old(Sessions()), id);
        && (b <==> k != -1)
        && (!b ==> Sessions() == old(Sessions()) && messageDocs == old(messageDocs))
        && (b ==> Sessions() == RemoveAt(old(Sessions()), k) && messageDocs == old(messageDocs) - {id})
      ensures sessionsDoc.Stored? && settingsDoc == old(settingsDoc)
      ensures b ==> MessagesOf(id) == []
      ensures old(Valid()) ==> Valid()
      ensures old(Valid()) ==> forall k :: 0 <= k < |Sessions()| ==> Sessions()[k].id != id
    {
      var sessions := GetSessions();
      var k := FindIndex(sessions, id);
      if k == -1 {
        return false;
      }
      sessions := RemoveAt(sessions, k);
      sessionsDoc := Stored(sessions);
      var _ := DeleteMessages(id);
      if old(Valid()) {
        RemoveKeepsValid(old(Sessions()), old(messageDocs), k);
      }
      b := true;
    }

    /** `getMessages`: a session's messages; a missing or unparseable document reads as `[]` and is written back. */
    method GetMessages(sessionId: string) returns (r: seq<Message>)
      modifies this
      ensures r == old(MessagesOf(sessionId))
      ensures messageDocs == old(messageDocs)[sessionId := Stored(r)]
      ensures sessionsDoc == old(sessionsDoc) && settingsDoc == old(settingsDoc)
      ensures old(Valid()) ==> Valid()
    {
      r := MessagesOf(sessionId);
      if Valid() {
        ReadBackKeepsCounts(Sessions(), messageDocs, sessionId);
      }
      messageDocs := messageDocs[sessionId := Stored(r)];
    }

    /** `deleteMessages`: removes the document, whether or not it existed, and reports success. */
    method DeleteMessages(sessionId: string) returns (b: bool)
      modifies this
      ensures b
      ensures messageDocs == old(messageDocs) - {sessionId} && MessagesOf(sessionId) == []
      ensures sessionsDoc == old(sessionsDoc) && settingsDoc == old(settingsDoc)
    {
      messageDocs := messageDocs - {sessionId};
      b := true;
    }

    /**
     * `addMessage`: appends the message to its session's list, then sets the
     * count of the session with that id, if there is one, to the new length.
     */
    method AddMessage(sessionId: string, role: Role, content: string, tokens: Option<nat>, id: string, now: int)
      returns (m: Message)
      modifies this
      ensures m == Message(id, sessionId, role, content, now, tokens)
      ensures MessagesOf(sessionId) == old(MessagesOf(sessionId)) + [m]
      ensures messageDocs == old(messageDocs)[sessionId := Stored(MessagesOf(sessionId))]
      ensures Sessions() == Recounted(old(Sessions()), sessionId, |MessagesOf(sessionId)|, now)
      ensures settingsDoc == old(settingsDoc)
      ensures old(Valid()) ==> Valid()
    {
      m := Message(id, sessionId, role, content, now, tokens);
      var messages := GetMessages(sessionId);
      messages := messages + [m];
      messageDocs := messageDocs[sessionId := Stored(messages)];
      ghost var before := Sessions();
      var _ := UpdateSession(sessionId, SessionPatch(None, None, None, None, Some(|messages|)), now);
      if old(Valid()) {
        var k := FindIndex(before, sessionId);
        forall j | 0 <= j < |before| && before[j].id == sessionId
          ensures Sessions()[j].id == sessionId && Sessions()[j].messageCount == |messages|
        {
          OnlyIndex(before, sessionId, j);
        }
        assert forall j :: 0 <= j < |before| && before[j].id != sessionId ==> Sessions()[j] == before[j];
        RecountKeepsValid(old(Sessions()), old(messageDocs), sessionId, messages, Sessions());
      }
    }

    /** `getSettings`: missing or unparseable settings read as the defaults, which are written back. */
    method GetSettings() returns (r: Settings)
      modifies this
      ensures r == old(CurrentSettings()) && settingsDoc == Stored(r)
      ensures !old(settingsDoc).Stored? ==> r == DefaultSettings(env)
      ensures sessionsDoc == old(sessionsDoc) && messageDocs == old(messageDocs)
    {
      r := ReadOr(settingsDoc, DefaultSettings(env));
      settingsDoc := Stored(r);
    }

    /** `updateSettings`: the current settings overridden key by key, stored and returned. */
    method UpdateSettings(patch: SettingsPatch) returns (r: Settings)
      modifies this
      ensures r == Override(old(CurrentSettings()), patch) && settingsDoc == Stored(r)
      ensures sessionsDoc == old(sessionsDoc) && messageDocs == old(messageDocs)
    {
      var current := GetSettings();
      r := Override(current, patch);
      settingsDoc := Stored(r);
    }
}
}
