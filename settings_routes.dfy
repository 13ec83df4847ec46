/**
 * The settings endpoints: read, a checked partial update, and the API-key
 * lifecycle (generate, refresh, revoke).
 */
module SettingsRoutes {
  import opened Wrappers
  import opened Text
  import opened Types
  import opened Storage
  import opened ApiKey

  /** A direct 400 answer of these endpoints: `{ success: false, error: { message, code } }`. */
  datatype Rejection = Rejection(message: string, code: string)

  /**
   * The PATCH body. The four checked fields arrive as raw JSON; the others
   * are passed to the storage unchecked.
   */
  datatype SettingsBody = SettingsBody(
    temperature: Option<Json>,
    maxTokens: Option<Json>,
    theme: Option<Json>,
    ollamaEndpoint: Option<Json>,
    defaultModel: Option<string>,
    apiKey: Option<string>,
    apiKeyCreatedAt: Option<string>)

  const BadTemperature := Rejection("Temperature must be a number between 0 and 1", "INVALID_TEMPERATURE")
  const BadMaxTokens := Rejection("Max tokens must be a number between 1 and 8192", "INVALID_MAX_TOKENS")
  const BadTheme := Rejection("Theme must be one of: light, dark, auto", "INVALID_THEME")
  const BadEndpoint := Rejection("Ollama endpoint must be a valid URL string", "INVALID_ENDPOINT")

  predicate TemperatureOk(v: Json) {
    v.JNum? && 0.0 <= v.n <= 1.0
  }

  predicate MaxTokensOk(v: Json) {
    v.JNum? && 1.0 <= v.n <= 8192.0
  }

  function ThemeOf(v: Json): Option<Theme> {
    if v == JStr("light") then Some(Light)
    else if v == JStr("dark") then Some(Dark)
    else if v == JStr("auto") then Some(Auto)
    else None
  }

  predicate EndpointOk(v: Json) {
    v.JStr? && !AllSpace(v.s)
  }

  /**
   * The PATCH checks in order (temperature, max tokens, theme, endpoint):
   * the first failing one is reported; otherwise the body becomes the update
   * the storage applies, every present field included.
   */
  function CheckSettingsBody(b: SettingsBody): (r: Result<SettingsPatch, Rejection>)
    ensures r.Ok? <==>
      && (b.temperature.Some? ==> TemperatureOk(b.temperature.value))
      && (b.maxTokens.Some? ==> MaxTokensOk(b.maxTokens.value))
      && (b.theme.Some? ==> ThemeOf(b.theme.value).Some?)
      && (b.ollamaEndpoint.Some? ==> EndpointOk(b.ollamaEndpoint.value))
    ensures b.temperature.Some? && !TemperatureOk(b.temperature.value) ==> r == Err(BadTemperature)
    ensures ((b.temperature.None? || TemperatureOk(b.temperature.value))
             && b.maxTokens.Some? && !MaxTokensOk(b.maxTokens.value))
      ==> r == Err(BadMaxTokens)
    ensures ((b.temperature.None? || TemperatureOk(b.temperature.value))
             && (b.maxTokens.None? || MaxTokensOk(b.maxTokens.value))
             && b.theme.Some? && ThemeOf(b.theme.value).None?)
      ==> r == Err(BadTheme)
    ensures ((b.temperature.None? || TemperatureOk(b.temperature.value))
             && (b.maxTokens.None? || MaxTokensOk(b.maxTokens.value))
             && (b.theme.None? || ThemeOf(b.theme.value).Some?)
             && b.ollamaEndpoint.Some? && !EndpointOk(b.ollamaEndpoint.value))
      ==> r == Err(BadEndpoint)
    ensures r.Err? && r.error != BadTemperature ==>
      b.temperature.None? || TemperatureOk(b.temperature.value)
    ensures r.Err? && r.error == BadTheme ==>
      (b.maxTokens.None? || MaxTokensOk(b.maxTokens.value)) && b.theme.Some? && ThemeOf(b.theme.value).None?
    ensures r.Err? && r.error == BadEndpoint ==>
      (b.maxTokens.None? || MaxTokensOk(b.maxTokens.value)) && (b.theme.None? || ThemeOf(b.theme.value).Some?) && b.ollamaEndpoint.Some? && !EndpointOk(b.ollamaEndpoint.value)
    ensures r.Ok? ==>
      && (b.temperature.Some? <==> r.value.temperature.Some?)
      && (b.temperature.Some? ==> r.value.temperature.value == b.temperature.value.n)
      && (b.maxTokens.Some? <==> r.value.maxTokens.Some?)
      && (b.maxTokens.Some? ==> r.value.maxTokens.value == b.maxTokens.value.n)
      && (b.theme.Some? ==> r.value.theme == ThemeOf(b.theme.value))
      && (b.theme.None? ==> r.value.theme.None?)
      && (b.ollamaEndpoint.Some? <==> r.value.ollamaEndpoint.Some?)
      && (b.ollamaEndpoint.Some? ==> r.value.ollamaEndpoint.value == b.ollamaEndpoint.value.s)
      && r.value.defaultModel == b.defaultModel
      && (b.apiKey.Some? ==> r.value.apiKey == Some(b.apiKey))
      && (b.apiKey.None? ==> r.value.apiKey.None?)
      && (b.apiKeyCreatedAt.Some? ==> r.value.apiKeyCreatedAt == Some(b.apiKeyCreatedAt))
      && (b.apiKeyCreatedAt.None? ==> r.value.apiKeyCreatedAt.None?)
  {
    if b.temperature.Some? && !TemperatureOk(b.temperature.value) then Err(BadTemperature)
    else if b.maxTokens.Some? && !MaxTokensOk(b.maxTokens.value) then Err(BadMaxTokens)
    else if b.theme.Some? && ThemeOf(b.theme.value).None? then Err(BadTheme)
    else if b.ollamaEndpoint.Some? && !EndpointOk(b.ollamaEndpoint.value) then Err(BadEndpoint)
    else Ok(SettingsPatch(
      b.defaultModel,
      if b.temperature.Some? then Some(b.temperature.value.n) else None,
      if b.maxTokens.Some? then Some(b.maxTokens.value.n) else None,
      if b.ollamaEndpoint.Some? then Some(b.ollamaEndpoint.value.s) else None,
      if b.theme.Some? then ThemeOf(b.theme.value) else None,
      if b.apiKey.Some? then Some(b.apiKey) else None,
      if b.apiKeyCreatedAt.Some? then Some(b.apiKeyCreatedAt) else None))
  }

  /** After an accepted PATCH the stored temperature and token limit are within their bounds, if they were sent. */
  lemma AcceptedBodyInBounds(current: Settings, b: SettingsBody)
    requires CheckSettingsBody(b).Ok?
    ensures var s := Override(current, CheckSettingsBody(b).value);
      && (b.temperature.Some? ==> 0.0 <= s.temperature <= 1.0)
      && (b.maxTokens.Some? ==> 1.0 <= s.maxTokens <= 8192.0)
      && (b.ollamaEndpoint.Some? ==> !AllSpace(s.ollamaEndpoint))
  {
  }

  /** GET `/`. */
  method GetSettings(store: JsonStorage) returns (r: Settings)
    modifies store
    ensures r == old(store.CurrentSettings()) && store.CurrentSettings() == r
    ensures store.sessionsDoc == old(store.sessionsDoc) && store.messageDocs == old(store.messageDocs)
  {
    r := store.GetSettings();
  }

  /** PATCH `/`: a rejected body writes nothing. */
  method PatchSettings(store: JsonStorage, body: SettingsBody) returns (r: Result<Settings, Rejection>)
    modifies store
    ensures CheckSettingsBody(body).Err? ==> r == Err(CheckSettingsBody(body).error) && unchanged(store)
    ensures CheckSettingsBody(body).Ok? ==>
      r == Ok(Override(old(store.CurrentSettings()), CheckSettingsBody(body).value)) && store.CurrentSettings() == r.value
    ensures store.sessionsDoc == old(store.sessionsDoc) && store.messageDocs == old(store.messageDocs)
  {
    var patch := CheckSettingsBody(body);
    if patch.Err? {
      return Err(patch.error);
    }
    var updated := store.UpdateSettings(patch.value);
    r := Ok(updated);
  }

  /** The answer to a generate or refresh: the raw key once, its masked form, and the settings with the key masked. */
  datatype IssuedKey = IssuedKey(apiKey: string, maskedApiKey: string, createdAt: string, settings: Settings)

  /** The update that installs a new key. */
  function InstallKey(key: string, createdAt: string): SettingsPatch {
    SettingsPatch(None, None, None, None, None, Some(Some(key)), Some(Some(createdAt)))
  }

  /** Store `random`'s key and answer with it. */
  method Issue(store: JsonStorage, random: seq<byte>, createdAt: string) returns (r: IssuedKey)
    modifies store
    ensures var key := GenerateApiKey(random);
      && r.apiKey == key && r.maskedApiKey == MaskApiKey(key) && r.createdAt == createdAt
      && store.CurrentSettings() == Override(old(store.CurrentSettings()), InstallKey(key, createdAt))
      && r.settings == store.CurrentSettings().(apiKey := Some(MaskApiKey(key)))
    ensures store.sessionsDoc == old(store.sessionsDoc) && store.messageDocs == old(store.messageDocs)
  {
    var key := GenerateApiKey(random);
    var updated := store.UpdateSettings(InstallKey(key, createdAt));
    var shown := MaskApiKey(updated.apiKey.GetOr(""));
    r := IssuedKey(key, MaskApiKey(key), createdAt, updated.(apiKey := Some(shown)));
  }

  /**
   * POST `/api-key/generate`: a new key from 16 random bytes; `createdAt` is
   * the current time as an ISO string.
   */
  method GenerateKey(store: JsonStorage, random: seq<byte>, createdAt: string) returns (r: IssuedKey)
    modifies store
    ensures r.apiKey == GenerateApiKey(random) && store.CurrentSettings().apiKey == Some(r.apiKey)
    ensures store.CurrentSettings().apiKeyCreatedAt == Some(createdAt)
    ensures |random| == 16 ==> IsValidApiKeyFormat(r.apiKey) && r.settings.apiKey == Some(MaskApiKey(r.apiKey))
    ensures |random| == 16 ==> !IsValidApiKeyFormat(r.settings.apiKey.value)
    ensures store.CurrentSettings() == Override(old(store.CurrentSettings()), InstallKey(r.apiKey, createdAt))
    ensures store.sessionsDoc == old(store.sessionsDoc) && store.messageDocs == old(store.messageDocs)
  {
    r := Issue(store, random, createdAt);
    if |random| == 16 {
      GeneratedKeyIsValid(random);
      MaskedKeyIsNotValid(r.apiKey);
    }
  }

  /** POST `/api-key/refresh`: like generate, but only when a key is already stored. */
  method RefreshKey(store: JsonStorage, random: seq<byte>, createdAt: string) returns (r: Result<IssuedKey, Rejection>)
    modifies store
    ensures !Truthy(old(store.CurrentSettings()).apiKey) ==>
      r == Err(Rejection("No existing API key to refresh", "NO_API_KEY"))
      && store.CurrentSettings() == old(store.CurrentSettings())
    ensures Truthy(old(store.CurrentSettings()).apiKey) ==>
      && r.Ok? && r.value.apiKey == GenerateApiKey(random)
      && store.CurrentSettings() == Override(old(store.CurrentSettings()), InstallKey(r.value.apiKey, createdAt))
    ensures store.sessionsDoc == old(store.sessionsDoc) && store.messageDocs == old(store.messageDocs)
  {
    var current := store.GetSettings();
    if !Truthy(current.apiKey) {
      return Err(Rejection("No existing API key to refresh", "NO_API_KEY"));
    }
    var issued := Issue(store, random, createdAt);
    r := Ok(issued);
  }

  /** DELETE `/api-key`: both key fields are removed; everything else stays. */
  method RevokeKey(store: JsonStorage) returns (r: Settings)
    modifies store
    ensures r == store.CurrentSettings()
    ensures r == old(store.CurrentSettings()).(apiKey := None, apiKeyCreatedAt := None)
    ensures store.sessionsDoc == old(store.sessionsDoc) && store.messageDocs == old(store.messageDocs)
  {
    r := store.UpdateSettings(SettingsPatch(None, None, None, None, None, Some(None), Some(None)));
  }
}
