/** The API's Basic authentication filter (the "Basic" scheme of section 2
    of RFC 7617): the decision over the Authorization header and the
    configuration, and the challenge it answers a refused request with. */
module BasicAuthFilter {
  import opened Wrappers
  import opened Strings
  import Utf8
  import Base64

  /** The `PaymentBasicAuth` configuration section; a missing key is None. */
  datatype AuthConfig = AuthConfig(username: Option<string>, password: Option<string>, token: Option<string>)

  /** `UnauthorizedResult`, whose status code is 401. */
  datatype ActionResult = Unauthorized

  function StatusCode(r: ActionResult): int {
    401
  }

  const ChallengeHeaderName := "WWW-Authenticate"
  const ChallengeHeaderValue := "Basic realm=\"TingoAI\""
  const Scheme := "Basic "

  /** The token a request must present: the Base64 of the UTF-8 bytes of
      "user:pass" when a username and a password are configured, otherwise
      the configured token. */
  function ExpectedToken(cfg: AuthConfig): Option<string> {
    if !IsNullOrEmpty(cfg.username) && cfg.password.Some? then
      Some(Base64.Encode(Utf8.Encode(cfg.username.value + ":" + cfg.password.value)))
    else cfg.token
  }

  /** The first value of the Authorization header, or None when the header
      is absent or has no value. */
  function FirstValue(authValues: Option<seq<string>>): Option<string> {
    if authValues.Some? && |authValues.value| > 0 then Some(authValues.value[0]) else None
  }

  /** Whether the filter lets the request through to the action. */
  predicate Authorized(authValues: Option<seq<string>>, cfg: AuthConfig) {
    var header := FirstValue(authValues);
    && !IsNullOrEmpty(header)
    && StartsWithIgnoreCase(header.value, Scheme)
    && !IsNullOrEmpty(ExpectedToken(cfg))
    && Trim(header.value[6..]) == ExpectedToken(cfg).value
  }

  /** The parts of the request context the filter writes. */
  class ActionContext {
    var responseHeaders: map<string, string>
    var result: Option<ActionResult>

    constructor (responseHeaders: map<string, string>)
      ensures this.responseHeaders == responseHeaders && result == None
    {
      this.responseHeaders := responseHeaders;
      result := None;
    }
  }

  /** `Challenge`: the `WWW-Authenticate` header is set (replacing any
      earlier value) and the result becomes 401. */
  method Challenge(context: ActionContext)
    modifies context
    ensures context.responseHeaders == old(context.responseHeaders)[ChallengeHeaderName := ChallengeHeaderValue]
    ensures context.result == Some(Unauthorized)
  {
    context.responseHeaders := context.responseHeaders[ChallengeHeaderName := ChallengeHeaderValue];
    context.result := Some(Unauthorized);
  }

  /** `OnActionExecutionAsync`: `next` is called exactly when the request is
      authorised, and otherwise the request is challenged. */
  method OnActionExecution(context: ActionContext, authValues: Option<seq<string>>, cfg: AuthConfig)
    returns (nextCalled: bool)
    modifies context
    ensures nextCalled == Authorized(authValues, cfg)
    ensures nextCalled ==> context.responseHeaders == old(context.responseHeaders) && context.result == old(context.result)
    ensures !nextCalled ==>
      && context.responseHeaders == old(context.responseHeaders)[ChallengeHeaderName := ChallengeHeaderValue]
      && context.result == Some(Unauthorized)
  {
    if authValues.None? {
      Challenge(context);
      return false;
    }
    var authHeader := FirstValue(authValues);
    if IsNullOrEmpty(authHeader) || !StartsWithIgnoreCase(authHeader.value, Scheme) {
      Challenge(context);
      return false;
    }
    var token := Trim(authHeader.value[6..]);
    var expectedToken: Option<string> := None;
    var user := cfg.username;
    var pass := cfg.password;
    if !IsNullOrEmpty(user) && pass.Some? {
      expectedToken := Some(Base64.Encode(Utf8.Encode(user.value + ":" + pass.value)));
    } else {
      expectedToken := cfg.token;
    }
    if IsNullOrEmpty(expectedToken) || token != expectedToken.value {
      Challenge(context);
      return false;
    }
    return true;
  }

  /** A request without an Authorization header is refused. */
  lemma MissingHeaderRefused(cfg: AuthConfig)
    ensures !Authorized(None, cfg) && !Authorized(Some([]), cfg)
  {
  }

  /** With nothing to compare against, every request is refused, even one
      presenting an empty token. */
  lemma EmptyExpectedTokenRefusesAll(authValues: Option<seq<string>>, cfg: AuthConfig)
    requires IsNullOrEmpty(ExpectedToken(cfg))
    ensures !Authorized(authValues, cfg)
  {
  }

  /** A header whose scheme is not "Basic " (in any case) is refused. */
  lemma OtherSchemeRefused(header: string, rest: seq<string>, cfg: AuthConfig)
    requires !StartsWithIgnoreCase(header, Scheme)
    ensures !Authorized(Some([header] + rest), cfg)
  {
  }

  /** The token of a configured username and password is never empty and
      is made of Base64 characters only. */
  lemma CredentialTokenShape(cfg: AuthConfig)
    requires !IsNullOrEmpty(cfg.username) && cfg.password.Some?
    ensures var t := ExpectedToken(cfg).value;
            && |t| >= 4
            && forall i :: 0 <= i < |t| ==> Base64.IsAlphabetChar(t[i]) || t[i] == '='
  {
    var s := cfg.username.value + ":" + cfg.password.value;
    assert |s| >= 1;
  }

  /** A client sending "Basic " (in any case) followed by the expected
      credential token is let through. */
  lemma CredentialHeaderAccepted(cfg: AuthConfig, scheme: string, rest: seq<string>)
    requires !IsNullOrEmpty(cfg.username) && cfg.password.Some?
    requires |scheme| == 6 && ToUpper(scheme) == ToUpper(Scheme)
    ensures Authorized(Some([scheme + ExpectedToken(cfg).value] + rest), cfg)
  {
    var t := ExpectedToken(cfg).value;
    CredentialTokenShape(cfg);
    var header := scheme + t;
    assert header[..6] == scheme && header[6..] == t;
    assert !IsWhiteSpace(t[0]) && !IsWhiteSpace(t[|t| - 1]) by {
      assert Base64.IsAlphabetChar(t[0]) || t[0] == '=';
      assert Base64.IsAlphabetChar(t[|t| - 1]) || t[|t| - 1] == '=';
    }
  }

  /** Equal credential tokens come from equal "user:pass" texts. */
  lemma CredentialTokenDeterminesCredentials(a: AuthConfig, b: AuthConfig)
    requires !IsNullOrEmpty(a.username) && a.password.Some?
    requires !IsNullOrEmpty(b.username) && b.password.Some?
    requires ExpectedToken(a) == ExpectedToken(b)
    ensures a.username.value + ":" + a.password.value == b.username.value + ":" + b.password.value
  {
    var sa := a.username.value + ":" + a.password.value;
    var sb := b.username.value + ":" + b.password.value;
    Base64.EncodeInjective(Utf8.Encode(sa), Utf8.Encode(sb));
    Utf8.EncodeInjective(sa, sb);
  }

  /** A configured token with white space at either end can never be
      presented, because the presented token is trimmed. */
  lemma PaddedConfiguredTokenUnreachable(authValues: Option<seq<string>>, cfg: AuthConfig)
    requires IsNullOrEmpty(cfg.username) || cfg.password.None?
    requires cfg.token.Some? && cfg.token.value != []
    requires IsWhiteSpace(cfg.token.value[0]) || IsWhiteSpace(cfg.token.value[|cfg.token.value| - 1])
    ensures !Authorized(authValues, cfg)
  {
    TokenUsedWithoutCredentials(cfg);
    var header := FirstValue(authValues);
    if header.Some? && |header.value| >= 6 {
      TrimNeverPadded(header.value[6..], cfg.token.value);
    }
  }

  /** Nothing `Trim` returns starts or ends with white space. */
  lemma TrimNeverPadded(s: string, p: string)
    requires p != [] && (IsWhiteSpace(p[0]) || IsWhiteSpace(p[|p| - 1]))
    ensures Trim(s) != p
  {
    var t := Trim(s);
    assert t != [] ==> !IsWhiteSpace(t[0]) && !IsWhiteSpace(t[|t| - 1]);
  }

  /** Without a username (or without a password) the configured token is the one expected. */
  lemma TokenUsedWithoutCredentials(cfg: AuthConfig)
    requires IsNullOrEmpty(cfg.username) || cfg.password.None?
    ensures ExpectedToken(cfg) == cfg.token
  {
  }
}
