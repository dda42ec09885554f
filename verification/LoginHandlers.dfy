/** One login request and one callback request (redirectToProvider, doubleRedirectToProvider, handleCallback,
    establishSession and handleUnauthorized in src/main.go; the login CSRF cookies of src/cookie.go;
    exchangeAuthCodeContext and the nonce check of src/oidc.go).

    What the identity provider answers, the random draws and the clock are inputs. */
module LoginHandlers {
  import opened Common
  import opened Sealing
  import opened LoginState

  // ---------------------------------------------------------------------------
  // Requests, answers, replies
  // ---------------------------------------------------------------------------

  datatype TokenValidation = Locally | Introspection

  datatype Behavior = ChallengeAgain | Refuse | ForwardAnyway

  datatype Config = Config(
    secret: string,
    prefix: string,             // cookie_name_prefix
    usePkce: bool,
    validation: TokenValidation,
    validateNonce: bool,
    useUserInfo: bool,          // use_claims_from_user_info
    endpointParses: bool,       // the discovered authorization endpoint is a URL
    unauthorized: Behavior,
    postLogin: string,          // post_login_redirect_uri
    hasAllowList: bool)         // valid_post_login_redirect_uris is not empty

  /** The PKCE challenge of a verifier (section 4.2 of RFC 7636), as a term. */
  datatype Challenge = S256(verifier: Plaintext)

  /** What reaches the authorization endpoint. */
  datatype AuthorizationRequest = AuthorizationRequest(state: Ciphertext, nonce: string, challenge: Option<Challenge>)

  datatype Location = Nowhere | ToProvider(request: AuthorizationRequest) | ToCallback(state: Ciphertext) | ToUrl(url: string)

  datatype SetCookie =
    | CsrfCookie(name: string, value: string, maxAge: nat)
    | ExpireCookie(name: string)
    | SessionCookie(session: NewSession)
    | ClearSession

  datatype NewSession = NewSession(challengeAttempted: bool, isAuthorized: bool)

  /** A POST to the token endpoint. */
  datatype Exchange = Exchange(code: string, verifier: Option<Plaintext>)

  datatype Reply = Reply(cookies: seq<SetCookie>, status: nat, location: Location, exchange: Option<Exchange>)

  function Page(status: nat): Reply {
    Reply([], status, Nowhere, None)
  }

  /** Random values, None where the source of randomness fails, and whether encrypting and sealing work. */
  datatype Draws = Draws(csrf: Option<string>, nonce: Option<string>, verifier: Option<string>, seals: bool)

  datatype CallbackRequest = CallbackRequest(
    state: Option<Ciphertext>,
    code: string,
    cookies: map<string, string>,
    html: bool,                 // Accept asks for a page
    host: string,
    relay: bool,                // needsDoubleRedirect
    now: Time)

  /** The token endpoint's answer, the checks on the token other than its nonce, and what follows. */
  datatype Answer = Answer(
    token: Option<Token>,
    valid: bool,
    userInfo: bool,             // the token has a subject and its user info arrives
    authTimeFresh: bool,
    authorized: bool,
    fits: bool,                 // the sealed session fits the cookie budget
    redirectAllowed: bool)      // ValidateRedirectUri accepts the target

  datatype Token = Token(nonce: string)

  const FOUND := 302
  const CSRF_MAX_AGE := 600

  function CsrfCookieName(prefix: string, csrf: string): string {
    prefix + ".LoginCsrf." + csrf
  }

  lemma CsrfCookieNameInjective(prefix: string, a: string, b: string)
    requires CsrfCookieName(prefix, a) == CsrfCookieName(prefix, b)
    ensures a == b
  {
    var start := prefix + ".LoginCsrf.";
    assert a == (start + a)[|start|..] && b == (start + b)[|start|..];
  }

  /** ensureAbsoluteUrl. */
  function Absolute(host: string, url: string): (r: string)
    ensures r != ""
  {
    if HasPrefix(url, "http://") || HasPrefix(url, "https://") then url
    else host + (if HasPrefix(url, "/") then url else "/" + url)
  }

  // ---------------------------------------------------------------------------
  // The start of a flow
  // ---------------------------------------------------------------------------

  /** The state redirectToProvider seals. */
  function LoginStateOf(cfg: Config, url: string, isChallenge: bool, csrf: string, nonce: string, verifier: Option<string>): OidcState {
    var cve := if verifier.Some? then Some(Encrypt(Text(verifier.value), cfg.secret, NoPurpose)) else None;
    OidcState("Login", url, cve, csrf, nonce, isChallenge, "", 0, 0)
  }

  function RelayStateOf(url: string, isChallenge: bool): OidcState {
    OidcState("RedirectThenLogin", url, None, "", "", isChallenge, "", 0, 0)
  }

  function ProviderReply(cfg: Config, url: string, isChallenge: bool, d: Draws, now: Time): Reply {
    if d.csrf.None? then Page(500)
    else
      var cookies := [CsrfCookie(CsrfCookieName(cfg.prefix, d.csrf.value), d.csrf.value, CSRF_MAX_AGE)];
      if d.nonce.None? || !cfg.endpointParses || (cfg.usePkce && d.verifier.None?) || !d.seals
      then Page(500).(cookies := cookies)
      else
        var verifier := if cfg.usePkce then d.verifier else None;
        var state := SealState(LoginStateOf(cfg, url, isChallenge, d.csrf.value, d.nonce.value, verifier), cfg.secret, now);
        var challenge := if verifier.Some? then Some(S256(Text(verifier.value))) else None;
        Reply(cookies, FOUND, ToProvider(AuthorizationRequest(state, d.nonce.value, challenge)), None)
  }

  function RelayReply(cfg: Config, url: string, isChallenge: bool, d: Draws, now: Time): Reply {
    if !d.seals then Page(500)
    else Reply([], FOUND, ToCallback(SealState(RelayStateOf(url, isChallenge), cfg.secret, now)), None)
  }

  /** The last step of handleLogin. */
  function LoginReply(cfg: Config, url: string, isChallenge: bool, relay: bool, d: Draws, now: Time): Reply {
    if relay then RelayReply(cfg, url, isChallenge, d, now) else ProviderReply(cfg, url, isChallenge, d, now)
  }

  // ---------------------------------------------------------------------------
  // The callback
  // ---------------------------------------------------------------------------

  predicate CsrfHolds(cfg: Config, cookies: map<string, string>, csrf: string) {
    csrf != "" && CsrfCookieName(cfg.prefix, csrf) in cookies && cookies[CsrfCookieName(cfg.prefix, csrf)] == csrf
  }

  /** The verifier exchangeAuthCodeContext presents, None when it gives up first. */
  function Presented(cfg: Config, s: OidcState): Option<Option<Plaintext>> {
    if !cfg.usePkce then Some(None)
    else if s.codeVerifierEnc.None? then None
    else match Decrypt(s.codeVerifierEnc.value, cfg.secret, NoPurpose)
      case None => None
      case Some(v) => Some(Some(v))
  }

  predicate TokenAccepted(cfg: Config, s: OidcState, a: Answer)
    requires a.token.Some?
  {
    a.valid && (cfg.validation.Locally? && s.nonce != "" && cfg.validateNonce ==> a.token.value.nonce == s.nonce)
  }

  /** Everything handleCallback asks before it makes a session. */
  predicate MakesSession(cfg: Config, req: CallbackRequest, s: OidcState, a: Answer) {
    && CsrfHolds(cfg, req.cookies, s.csrf) && req.code != "" && Presented(cfg, s).Some?
    && a.token.Some? && TokenAccepted(cfg, s, a) && (cfg.useUserInfo ==> a.userInfo)
    && (s.isChallenge ==> a.authTimeFresh) && a.fits
  }

  /** The reply of an action "Login" callback once the CSRF cookie is dealt with. */
  function LoginCallbackReply(cfg: Config, req: CallbackRequest, s: OidcState, a: Answer, d: Draws): Reply {
    if !CsrfHolds(cfg, req.cookies, s.csrf) then Page(403)
    else if req.code == "" then Page(400)
    else if Presented(cfg, s).None? then Page(500)
    else
      var failed := Page(500).(exchange := Some(Exchange(req.code, Presented(cfg, s).value)));
      if a.token.None? then failed
      else if !TokenAccepted(cfg, s, a) then failed.(status := 401)
      else if cfg.useUserInfo && !a.userInfo then failed
      else if s.isChallenge && !a.authTimeFresh then failed.(status := 403)
      else if !a.fits then failed
      else
        var sess := NewSession(s.isChallenge, a.authorized);
        var done := failed.(cookies := [SessionCookie(sess)]);
        if s.redirectUrl != "" && cfg.hasAllowList && !a.redirectAllowed then done.(status := 400)
        else
          var target := Absolute(req.host, if s.redirectUrl != "" then s.redirectUrl else cfg.postLogin);
          if a.authorized || cfg.unauthorized.ForwardAnyway? then done.(status := FOUND, location := ToUrl(target))
          else if cfg.unauthorized.ChallengeAgain? && !sess.challengeAttempted && req.html then
            var again := LoginReply(cfg, target, true, req.relay, d, req.now);
            done.(cookies := done.cookies + again.cookies, status := again.status, location := again.location)
          else done.(status := 403)
  }

  function CsrfExpiry(cfg: Config, csrf: string): seq<SetCookie> {
    if csrf == "" then [] else [ExpireCookie(CsrfCookieName(cfg.prefix, csrf))]
  }

  function CallbackReply(cfg: Config, req: CallbackRequest, a: Answer, d: Draws): Reply {
    if req.state.None? then Page(400)
    else match UnsealState(req.state.value, cfg.secret, req.now)
      case Err(e) => Page(if e.StateExpired? then 401 else 400)
      case Ok(s) =>
        if s.action == "Login" then
          var reply := LoginCallbackReply(cfg, req, s, a, d);
          reply.(cookies := CsrfExpiry(cfg, s.csrf) + reply.cookies)
        else if s.action == "RedirectThenLogin" then ProviderReply(cfg, s.redirectUrl, s.isChallenge, d, req.now)
        else Reply(if s.action == "Logout" then [ClearSession] else [], FOUND, ToUrl(s.redirectUrl), None)
  }

  // ---------------------------------------------------------------------------
  // The handlers
  // ---------------------------------------------------------------------------

  class ResponseWriter {
    var cookies: seq<SetCookie>
    var status: nat
    var location: Location
    var exchange: Option<Exchange>   // the POST made on the way

    function Value(): Reply
      reads this
    {
      Reply(cookies, status, location, exchange)
    }

    constructor ()
      ensures Value() == Page(0)
    {
      cookies, status, location, exchange := [], 0, Nowhere, None;
    }

    method Set(cookie: SetCookie)
      modifies this
      ensures Value() == old(Value()).(cookies := old(cookies) + [cookie])
    {
      cookies := cookies + [cookie];
    }

    method Error(code: nat)
      modifies this
      ensures Value() == old(Value()).(status := code)
    {
      status := code;
    }

    method Redirect(target: Location)
      modifies this
      ensures Value() == old(Value()).(status := FOUND, location := target)
    {
      status, location := FOUND, target;
    }
  }

  /** A reply continued on a response that already carries cookies. */
  function Continued(before: Reply, after: Reply): Reply {
    before.(cookies := before.cookies + after.cookies, status := after.status, location := after.location)
  }

  method RedirectToProvider(rw: ResponseWriter, cfg: Config, url: string, isChallenge: bool, d: Draws, now: Time)
    requires rw.location == Nowhere
    modifies rw
    ensures rw.Value() == Continued(old(rw.Value()), ProviderReply(cfg, url, isChallenge, d, now))
  {
    var state := OidcState("Login", url, None, "", "", isChallenge, "", 0, 0);
    if d.csrf.None? { rw.Error(500); return; }
    state := state.(csrf := d.csrf.value);
    rw.Set(CsrfCookie(CsrfCookieName(cfg.prefix, d.csrf.value), d.csrf.value, CSRF_MAX_AGE));
    if d.nonce.None? { rw.Error(500); return; }
    state := state.(nonce := d.nonce.value);
    if !cfg.endpointParses { rw.Error(500); return; }
    var challenge := None;
    if cfg.usePkce {
      if d.verifier.None? { rw.Error(500); return; }
      challenge := Some(S256(Text(d.verifier.value)));
      if !d.seals { rw.Error(500); return; }
      state := state.(codeVerifierEnc := Some(Encrypt(Text(d.verifier.value), cfg.secret, NoPurpose)));
    }
    if !d.seals { rw.Error(500); return; }
    rw.Redirect(ToProvider(AuthorizationRequest(SealState(state, cfg.secret, now), d.nonce.value, challenge)));
  }

  method HandleLogin(rw: ResponseWriter, cfg: Config, url: string, isChallenge: bool, relay: bool, d: Draws, now: Time)
    requires rw.location == Nowhere
    modifies rw
    ensures rw.Value() == Continued(old(rw.Value()), LoginReply(cfg, url, isChallenge, relay, d, now))
  {
    if relay {
      if !d.seals {
        rw.Error(500);
        assert rw.cookies == old(rw.cookies) + [];
        return;
      }
      var state := OidcState("RedirectThenLogin", url, None, "", "", isChallenge, "", 0, 0);
      rw.Redirect(ToCallback(SealState(state, cfg.secret, now)));
      assert rw.cookies == old(rw.cookies) + [];
    } else {
      RedirectToProvider(rw, cfg, url, isChallenge, d, now);
    }
  }

  method HandleCallback(rw: ResponseWriter, cfg: Config, req: CallbackRequest, a: Answer, d: Draws)
    requires rw.Value() == Page(0)
    modifies rw
    ensures rw.Value() == CallbackReply(cfg, req, a, d)
  {
    hide UnsealState;
    if req.state.None? { rw.Error(400); return; }
    var unsealed := UnsealState(req.state.value, cfg.secret, req.now);
    if unsealed.Err? {
      rw.Error(if unsealed.error.StateExpired? then 401 else 400);
      return;
    }
    var state := unsealed.value;
    if state.action == "Login" {
      LoginCallback(rw, cfg, req, state, a, d);
    } else if state.action == "Logout" {
      rw.Set(ClearSession);
      rw.Redirect(ToUrl(state.redirectUrl));
    } else if state.action == "RedirectThenLogin" {
      RedirectToProvider(rw, cfg, state.redirectUrl, state.isChallenge, d, req.now);
    } else {
      rw.Redirect(ToUrl(state.redirectUrl));
    }
  }

  method LoginCallback(rw: ResponseWriter, cfg: Config, req: CallbackRequest, state: OidcState, a: Answer, d: Draws)
    requires rw.Value() == Page(0)
    modifies rw
    ensures var reply := LoginCallbackReply(cfg, req, state, a, d);
      rw.Value() == reply.(cookies := CsrfExpiry(cfg, state.csrf) + reply.cookies)
  {
    hide ProviderReply, RelayReply, Absolute, CsrfCookieName, Presented, TokenAccepted;
    var csrfOk := CsrfHolds(cfg, req.cookies, state.csrf);
    if state.csrf != "" { rw.Set(ExpireCookie(CsrfCookieName(cfg.prefix, state.csrf))); }
    if !csrfOk { rw.Error(403); return; }
    if req.code == "" { rw.Error(400); return; }
    var verifier := Presented(cfg, state);
    if verifier.None? { rw.Error(500); return; }
    rw.exchange := Some(Exchange(req.code, verifier.value));
    if a.token.None? { rw.Error(500); return; }
    if !TokenAccepted(cfg, state, a) { rw.Error(401); return; }
    if cfg.useUserInfo && !a.userInfo { rw.Error(500); return; }
    if state.isChallenge && !a.authTimeFresh { rw.Error(403); return; }
    if !a.fits { rw.Error(500); return; }
    var sess := NewSession(state.isChallenge, a.authorized);
    rw.Set(SessionCookie(sess));
    var target := cfg.postLogin;
    if state.redirectUrl != "" {
      if cfg.hasAllowList && !a.redirectAllowed { rw.Error(400); return; }
      target := state.redirectUrl;
    }
    target := Absolute(req.host, target);
    if !sess.isAuthorized {
      HandleUnauthorized(rw, cfg, req, sess, target, d);
      return;
    }
    rw.Redirect(ToUrl(target));
  }

  /** handleUnauthorized as the callback calls it: the destination is absolute, so never empty. */
  method HandleUnauthorized(rw: ResponseWriter, cfg: Config, req: CallbackRequest, sess: NewSession, target: string, d: Draws)
    requires target != "" && rw.location == Nowhere
    modifies rw
    ensures rw.Value() == Continued(old(rw.Value()),
      if cfg.unauthorized.ForwardAnyway? then Reply([], FOUND, ToUrl(target), None)
      else if cfg.unauthorized.ChallengeAgain? && !sess.challengeAttempted && req.html
      then LoginReply(cfg, target, true, req.relay, d, req.now)
      else Page(403))
  {
    if cfg.unauthorized.ChallengeAgain? {
      if !sess.challengeAttempted && req.html {
        HandleLogin(rw, cfg, target, true, req.relay, d, req.now);
      } else {
        rw.Error(403);
        assert rw.cookies == old(rw.cookies) + [];
      }
    } else if cfg.unauthorized.ForwardAnyway? {
      rw.Redirect(ToUrl(target));
      assert rw.cookies == old(rw.cookies) + [];
    } else {
      rw.Error(403);
      assert rw.cookies == old(rw.cookies) + [];
    }
  }
}
