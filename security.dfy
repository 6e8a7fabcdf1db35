/**
 * `get_current_username`: HTTP Basic authentication of the web UI against
 * the configured username and password (the Basic scheme of RFC 7617; the
 * framework has already decoded the credentials).
 */
module Security {
  import opened Wrappers

  datatype Credentials = Credentials(username: string, password: string)

  /** `WEB_UI_USERNAME` and `WEB_UI_PASSWORD`; None when the setting does not exist. */
  datatype WebUiConfig = WebUiConfig(username: Option<string>, password: Option<string>)

  const DefaultWebUi: WebUiConfig := WebUiConfig(Some("admin"), Some("password"))

  /** An `HTTPException` with its headers. */
  datatype Rejection = Rejection(status: int, detail: string, headers: map<string, string>)

  /** The challenge both rejections carry. */
  const Challenge: map<string, string> := map["WWW-Authenticate" := "Basic"]

  const ConfigError: Rejection := Rejection(500, "Server authentication configuration error.", Challenge)
  const BadCredentials: Rejection := Rejection(401, "Incorrect username or password.", Challenge)

  /** A setting that exists and is not empty. */
  predicate Configured(setting: Option<string>) {
    setting.Some? && setting.value != ""
  }

  /** How the dependency fails: an `HTTPException`, or the `TypeError` of `compare_digest` that escapes it. */
  datatype Failure = Rejected(rejection: Rejection) | CompareTypeError

  /** Every character is ASCII, which `compare_digest` demands of both strings it compares. */
  predicate IsAscii(s: string) {
    forall k :: 0 <= k < |s| ==> s[k] < 128 as char
  }

  /** `secrets.compare_digest(a, b)` on two strings: whether they are equal, or a `TypeError` when either holds a non-ASCII character. */
  function CompareDigest(a: string, b: string): (r: Result<bool, Failure>)
    ensures r.Err? <==> !IsAscii(a) || !IsAscii(b)
    ensures r.Err? ==> r.error == CompareTypeError
    ensures r.Ok? ==> (r.value <==> a == b)
  {
    if !IsAscii(a) || !IsAscii(b) then Err(CompareTypeError) else Ok(a == b)
  }

  /** The four strings `compare_digest` is given are all ASCII. */
  predicate AllAscii(given: Credentials, config: WebUiConfig)
    requires Configured(config.username) && Configured(config.password)
  {
    IsAscii(given.username) && IsAscii(config.username.value) && IsAscii(given.password) && IsAscii(config.password.value)
  }

  /** The dependency: the authenticated username, or the exception raised. */
  function GetCurrentUsername(given: Credentials, config: WebUiConfig): (r: Result<string, Failure>)
    ensures r.Ok? <==> (Configured(config.username) && Configured(config.password) && AllAscii(given, config) &&
                        given.username == config.username.value && given.password == config.password.value)
    ensures r.Ok? ==> r.value == given.username
    ensures r == Err(CompareTypeError) <==>
      Configured(config.username) && Configured(config.password) && !AllAscii(given, config)
    ensures r.Err? && r.error.Rejected? ==>
      r.error.rejection.headers == Challenge && (r.error.rejection.status == 500 || r.error.rejection.status == 401)
    ensures r == Err(Rejected(ConfigError)) <==> !Configured(config.username) || !Configured(config.password)
  {
    if !Configured(config.username) || !Configured(config.password) then Err(Rejected(ConfigError))
    else
      var correctUsername :- CompareDigest(given.username, config.username.value);
      var correctPassword :- CompareDigest(given.password, config.password.value);
      if !(correctUsername && correctPassword) then Err(Rejected(BadCredentials))
      else Ok(given.username)
  }

  /** The configuration is checked before the credentials: without it every request gets the 500, whatever it sends. */
  lemma ConfigurationFirst(a: Credentials, b: Credentials, config: WebUiConfig)
    requires !Configured(config.username) || !Configured(config.password)
    ensures GetCurrentUsername(a, config) == GetCurrentUsername(b, config) == Err(Rejected(ConfigError))
  {
  }

  /**
   * A wrong password, or a wrong username, is answered with 401 whatever the
   * other half is; when a string compared is not ASCII, `compare_digest`
   * raises instead.
   */
  lemma WrongHalfRejected(given: Credentials, config: WebUiConfig)
    requires Configured(config.username) && Configured(config.password)
    requires given.username != config.username.value || given.password != config.password.value
    ensures AllAscii(given, config) ==> GetCurrentUsername(given, config) == Err(Rejected(BadCredentials))
    ensures !AllAscii(given, config) ==> GetCurrentUsername(given, config) == Err(CompareTypeError)
  {
  }

  /** A configured username or password with a non-ASCII character makes every request raise `TypeError`, whatever it sends, so no request gets in and none gets the Basic challenge. */
  lemma NonAsciiSettingRaises(given: Credentials, config: WebUiConfig)
    requires Configured(config.username) && Configured(config.password)
    requires !IsAscii(config.username.value) || !IsAscii(config.password.value)
    ensures GetCurrentUsername(given, config) == Err(CompareTypeError)
  {
  }

  /** With the default settings, exactly `admin` / `password` is let in. */
  lemma DefaultLogin(given: Credentials)
    ensures GetCurrentUsername(given, DefaultWebUi).Ok? <==> given == Credentials("admin", "password")
  {
  }
}
