/**
 * The session endpoints: list (most recently updated first), create, read,
 * update, delete, list a session's messages, and set a title.
 */
module SessionRoutes {
  import opened Wrappers
  import opened Text
  import opened Types
  import opened Storage
  import opened TitleGenerator
  import opened ErrorHandler

  function NotFound(id: string): AppError {
    CreateError("Session " + id + " not found", Some(404), Some("SESSION_NOT_FOUND"), None)
  }

  /** Most recently updated first. */
  predicate ByRecency(ss: seq<Session>) {
    forall p, q :: 0 <= p < q < |ss| ==> ss[p].updatedAt >= ss[q].updatedAt
  }

  /**
   * `sessions.sort((a, b) => b.updatedAt - a.updatedAt)`, in place: an
   * insertion sort that moves each session left past older ones.
   */
  method SortByRecency(a: array<Session>)
    modifies a
    ensures ByRecency(a[..])
    ensures multiset(a[..]) == multiset(old(a[..]))
  {
    for i := 0 to a.Length
      invariant ByRecency(a[..i])
      invariant multiset(a[..]) == multiset(old(a[..]))
    {
      InsertLeft(a, i);
    }
    assert a[..a.Length] == a[..];
  }

  /** One insertion step: `a[i]` moves left until the prefix up to it is in order. */
  method InsertLeft(a: array<Session>, i: nat)
    requires i < a.Length && ByRecency(a[..i])
    modifies a
    ensures ByRecency(a[..i + 1])
    ensures multiset(a[..]) == multiset(old(a[..]))
  {
    var j := i;
    while j > 0 && a[j - 1].updatedAt < a[j].updatedAt
      invariant 0 <= j <= i
      invariant forall p, q :: 0 <= p < q <= i && p != j && q != j ==> a[p].updatedAt >= a[q].updatedAt
      invariant forall q :: j < q <= i ==> a[j].updatedAt >= a[q].updatedAt
      invariant multiset(a[..]) == multiset(old(a[..]))
    {
      Swap(a, j);
      j := j - 1;
    }
  }

  /** Exchanges `a[j - 1]` and `a[j]`. */
  method Swap(a: array<Session>, j: nat)
    requires 0 < j < a.Length
    modifies a
    ensures a[..] == old(a[..])[j - 1 := old(a[j])][j := old(a[j - 1])]
    ensures multiset(a[..]) == multiset(old(a[..]))
  {
    a[j - 1], a[j] := a[j], a[j - 1];
  }

  /** GET `/`: every stored session, most recently updated first, and how many there are. */
  method ListSessions(store: JsonStorage) returns (sessions: seq<Session>, total: nat)
    modifies store
    ensures ByRecency(sessions)
    ensures multiset(sessions) == multiset(old(store.Sessions()))
    ensures total == |sessions| == |old(store.Sessions())|
    ensures store.Sessions() == old(store.Sessions()) && store.messageDocs == old(store.messageDocs)
    ensures store.settingsDoc == old(store.settingsDoc)
  {
    var stored := store.GetSessions();
    var a := new Session[|stored|](i requires 0 <= i < |stored| => stored[i]);
    assert a[..] == stored;
    SortByRecency(a);
    sessions := a[..];
    total := a.Length;
  }

  /**
   * POST `/`: a new session; the model defaults to the settings' default
   * model and the title to `New Chat <date>`, `today` being the formatted date.
   */
  method CreateSession(store: JsonStorage, title: Option<string>, model: Option<string>, today: string,
                       id: string, now: int) returns (s: Session)
    modifies store
    ensures s.id == id && s.messageCount == 0 && s.createdAt == now && s.updatedAt == now
    ensures s.model == (if Truthy(model) then model.value else old(store.CurrentSettings()).defaultModel)
    ensures s.title == (if Truthy(title) then title.value else "New Chat " + today)
    ensures store.Sessions() == old(store.Sessions()) + [s]
    ensures store.messageDocs == old(store.messageDocs) && store.CurrentSettings() == old(store.CurrentSettings())
    ensures (old(store.Valid()) && (forall k :: 0 <= k < |old(store.Sessions())| ==> old(store.Sessions())[k].id != id)
             && id !in old(store.messageDocs)) ==> store.Valid()
  {
    var settings := store.GetSettings();
    var sessionModel := if Truthy(model) then model.value else settings.defaultModel;
    var sessionTitle := if Truthy(title) then title.value else "New Chat " + today;
    s := store.CreateSession(sessionTitle, sessionModel, id, now);
  }

  /** GET `/:id`. */
  method GetSession(store: JsonStorage, id: string) returns (r: Result<Session, AppError>)
    modifies store
    ensures store.Sessions() == old(store.Sessions()) && store.messageDocs == old(store.messageDocs)
    ensures store.settingsDoc == old(store.settingsDoc)
    ensures var k := FindIndex(old(store.Sessions()), id);
      && (k == -1 ==> r == Err(NotFound(id)))
      && (k != -1 ==> r == Ok(old(store.Sessions())[k]))
  {
    var session := store.GetSession(id);
    if session.None? {
      return Err(NotFound(id));
    }
    r := Ok(session.value);
  }

  /**
   * PUT `/:id`: the body is merged into the session as it is, once it is
   * known to carry a title or a model; the check happens before any storage access.
   */
  method UpdateSession(store: JsonStorage, id: string, body: SessionPatch, now: int) returns (r: Result<Session, AppError>)
    modifies store
    ensures !Truthy(body.title) && !Truthy(body.model) ==>
      r == Err(CreateError("No updates provided", Some(400), Some("INVALID_REQUEST"), None)) && unchanged(store)
    ensures Truthy(body.title) || Truthy(body.model) ==>
      var k := FindIndex(old(store.Sessions()), id);
      && (k == -1 ==> r == Err(NotFound(id)) && store.Sessions() == old(store.Sessions()))
      && (k != -1 ==> r == Ok(Merge(old(store.Sessions())[k], body, now))
                      && store.Sessions() == old(store.Sessions())[k := r.value])
    ensures store.messageDocs == old(store.messageDocs) && store.settingsDoc == old(store.settingsDoc)
    ensures old(store.Valid()) && body.id.None? && body.messageCount.None? ==> store.Valid()
  {
    if !Truthy(body.title) && !Truthy(body.model) {
      return Err(CreateError("No updates provided", Some(400), Some("INVALID_REQUEST"), None));
    }
    var session := store.UpdateSession(id, body, now);
    if session.None? {
      return Err(NotFound(id));
    }
    r := Ok(session.value);
  }

  /** DELETE `/:id`: removes the session and its messages. */
  method DeleteSession(store: JsonStorage, id: string) returns (r: Result<string, AppError>)
    modifies store
    ensures var k := FindIndex(old(store.Sessions()), id);
      && (k == -1 ==> r == Err(NotFound(id)) && store.Sessions() == old(store.Sessions())
                      && store.messageDocs == old(store.messageDocs))
      && (k != -1 ==> r == Ok(id) && store.Sessions() == RemoveAt(old(store.Sessions()), k)
                      && store.MessagesOf(id) == [])
    ensures store.settingsDoc == old(store.settingsDoc)
    ensures old(store.Valid()) ==> store.Valid()
  {
    var deleted := store.DeleteSession(id);
    if !deleted {
      return Err(NotFound(id));
    }
    r := Ok(id);
  }

  /** GET `/:id/messages`: unlike the storage, an unknown session is an error rather than an empty list. */
  method GetSessionMessages(store: JsonStorage, id: string) returns (r: Result<seq<Message>, AppError>)
    modifies store
    ensures store.Sessions() == old(store.Sessions()) && store.settingsDoc == old(store.settingsDoc)
    ensures FindIndex(old(store.Sessions()), id) == -1 ==> r == Err(NotFound(id)) && store.messageDocs == old(store.messageDocs)
    ensures FindIndex(old(store.Sessions()), id) != -1 ==> r == Ok(old(store.MessagesOf(id)))
    ensures old(store.Valid()) ==> store.Valid()
  {
    var session := store.GetSession(id);
    if session.None? {
      return Err(NotFound(id));
    }
    var messages := store.GetMessages(id);
    r := Ok(messages);
  }

  const TitleRequired: AppError := CreateError("Title is required and must be a string", Some(400), Some("INVALID_REQUEST"), None)

  /** The `title` of the body when it is a non-empty string. */
  function TitleText(title: Option<Json>): Option<string> {
    if title.Some? && title.value.JStr? && title.value.s != "" then Some(title.value.s) else None
  }

  /**
   * PATCH `/:id/title`: the title must be a non-empty string and pass
   * `validateTitle`, both checked before the session is looked up; the
   * normalised title is stored.
   */
  method SetTitle(store: JsonStorage, id: string, title: Option<Json>, now: int) returns (r: Result<Session, AppError>)
    modifies store
    ensures TitleText(title).None? ==> r == Err(TitleRequired) && unchanged(store)
    ensures TitleText(title).Some? && ValidateTitle(TitleText(title).value).Rejected? ==>
      r == Err(CreateError(ValidateTitle(TitleText(title).value).message, Some(400), Some("INVALID_TITLE"), None))
      && unchanged(store)
    ensures TitleText(title).Some? && ValidateTitle(TitleText(title).value).Accepted? ==>
      var k := FindIndex(old(store.Sessions()), id);
      && (k == -1 ==> r == Err(NotFound(id)) && store.Sessions() == old(store.Sessions()))
      && (k != -1 ==> r.Ok? && r.value.title == NormalizeTitle(TitleText(title).value)
                      && r.value == Merge(old(store.Sessions())[k], TitlePatch(r.value.title), now)
                      && store.Sessions() == old(store.Sessions())[k := r.value])
    ensures store.messageDocs == old(store.messageDocs) && store.settingsDoc == old(store.settingsDoc)
    ensures old(store.Valid()) ==> store.Valid()
  {
    if title.None? || !title.value.JStr? || title.value.s == "" {
      return Err(TitleRequired);
    }
    var text := title.value.s;
    var validation := ValidateTitle(text);
    if validation.Rejected? {
      var message := if validation.message != "" then validation.message else "Invalid title";
      return Err(CreateError(message, Some(400), Some("INVALID_TITLE"), None));
    }
    var session := store.GetSession(id);
    if session.None? {
      return Err(NotFound(id));
    }
    var normalized := NormalizeTitle(text);
    var updated := store.UpdateSession(id, TitlePatch(normalized), now);
    if updated.None? {
      return Err(CreateError("Failed to update session " + id, Some(500), Some("UPDATE_FAILED"), None));
    }
    r := Ok(updated.value);
  }
}
