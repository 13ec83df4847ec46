/**
 * The middleware guarding the OpenAI-compatible endpoints: a bearer key that
 * must be well formed and equal to the key stored in the settings.
 */
module Auth {
  import opened Wrappers
  import opened Types
  import opened Text
  import opened ApiKey

  /** What the middleware does with a request: pass it on (with the key it accepted, if any) or answer it. */
  datatype AuthOutcome =
    | Proceed(apiKey: Option<string>)
    | Deny(status: int, message: string, errorType: string, code: string)

  const MissingKey: AuthOutcome := Deny(401,
    "Missing API key. Please provide your API key in the Authorization header: Bearer YOUR_API_KEY",
    "authentication_error", "missing_api_key")
  const BadFormat: AuthOutcome := Deny(401, "Invalid API key format", "authentication_error", "invalid_api_key")
  const NotConfigured: AuthOutcome := Deny(401,
    "No API key configured. Please generate an API key in the settings.",
    "authentication_error", "no_api_key_configured")
  const WrongKey: AuthOutcome := Deny(401, "Invalid API key", "authentication_error", "invalid_api_key")
  const AuthFailure: AuthOutcome := Deny(500, "Internal server error during authentication", "server_error", "auth_error")

  /**
   * `authenticateApiKey`. `settings` is what reading the settings gives, or
   * the exception it throws; it is consulted only after the token's format
   * has been checked.
   */
  function AuthenticateApiKey(authorization: Option<string>, settings: Result<Settings, string>): (r: AuthOutcome)
    ensures r.Proceed? <==>
      && ExtractBearerToken(authorization).Some?
      && IsValidApiKeyFormat(ExtractBearerToken(authorization).value)
      && settings.Ok? && settings.value.apiKey == Some(ExtractBearerToken(authorization).value)
    ensures r.Proceed? ==> r.apiKey == ExtractBearerToken(authorization)
    ensures ExtractBearerToken(authorization).None? ==> r == MissingKey
    ensures var token := ExtractBearerToken(authorization);
      token.Some? && !IsValidApiKeyFormat(token.value) ==> r == BadFormat
    ensures var token := ExtractBearerToken(authorization);
      token.Some? && IsValidApiKeyFormat(token.value) && settings.Err? ==> r == AuthFailure
    ensures var token := ExtractBearerToken(authorization);
      token.Some? && IsValidApiKeyFormat(token.value) && settings.Ok? && !Truthy(settings.value.apiKey)
      ==> r == NotConfigured
    ensures var token := ExtractBearerToken(authorization);
      && token.Some? && IsValidApiKeyFormat(token.value) && settings.Ok? && Truthy(settings.value.apiKey)
      && token.value != settings.value.apiKey.value
      ==> r == WrongKey
    ensures r.Deny? && r.status == 401 && r.code == "invalid_api_key" ==> r == BadFormat || r == WrongKey
  {
    match ExtractBearerToken(authorization)
    case None => MissingKey
    case Some(token) =>
      if !IsValidApiKeyFormat(token) then BadFormat
      else match settings
        case Err(_) => AuthFailure
        case Ok(s) =>
          if !Truthy(s.apiKey) then NotConfigured
          else if token != s.apiKey.value then WrongKey
          else Proceed(Some(token))
  }

  /** A request is let through only with the stored key, and only when that key is well formed. */
  lemma OnlyStoredKeyPasses(authorization: Option<string>, settings: Result<Settings, string>)
    requires AuthenticateApiKey(authorization, settings).Proceed?
    ensures settings.Ok? && settings.value.apiKey.Some?
    ensures IsValidApiKeyFormat(settings.value.apiKey.value)
    ensures BearerForm(authorization.value, settings.value.apiKey.value)
  {
    ExtractBearerTokenCorrect(authorization);
  }

  /** `Bearer <stored key>` is accepted whenever a well-formed key is stored. */
  lemma StoredKeyAccepted(key: string, settings: Settings)
    requires IsValidApiKeyFormat(key) && settings.apiKey == Some(key)
    ensures AuthenticateApiKey(Some("Bearer " + key), Ok(settings)) == Proceed(Some(key))
  {
    assert !IsSpace(key[0]);
    assert NoLineTerminator(key);
    BearerTokenExtracted(key);
  }

  /** `optionalApiKeyAuth`: without an `Authorization` header the request passes unchecked. */
  function OptionalApiKeyAuth(authorization: Option<string>, settings: Result<Settings, string>): (r: AuthOutcome)
    ensures !Truthy(authorization) ==> r == Proceed(None)
    ensures Truthy(authorization) ==> r == AuthenticateApiKey(authorization, settings)
  {
    if !Truthy(authorization) then Proceed(None) else AuthenticateApiKey(authorization, settings)
  }
}
