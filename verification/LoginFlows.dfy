/** Any number of login flows in any number of browsers, completed in any order, against a provider that
    binds a code to the request it was issued for. The handlers are those of LoginHandlers; whoever holds
    a browser may send it to the callback with any state and any code it has ever seen. */
module LoginFlows {
  import opened Common
  import opened Sealing
  import opened LoginState
  import opened LoginHandlers

  // ---------------------------------------------------------------------------
  // State
  // ---------------------------------------------------------------------------

  datatype CookieId = CookieId(browser: nat, name: string)

  datatype Cookie = Cookie(value: string, expires: Time)

  /** A started flow: its browser, the state as it unseals, what was sent to the provider, and when. */
  datatype Flow = Flow(browser: nat, state: OidcState, request: AuthorizationRequest, startedAt: Time)

  /** What the provider keeps about a code it issued. */
  datatype Grant = Grant(nonce: string, challenge: Option<Challenge>, redeemed: bool)

  datatype SessionRecord = SessionRecord(flow: Ciphertext, browser: nat, code: string)

  datatype ExchangeRecord = ExchangeRecord(flow: Ciphertext, exchange: Exchange)

  datatype State = State(
    now: Time,
    jar: map<CookieId, Cookie>,          // the login CSRF cookies of all browsers
    drawn: set<string>,                  // random values ever drawn
    flows: map<Ciphertext, Flow>,        // by sealed state
    others: set<Ciphertext>,             // sealed relay and logout states
    consumed: set<Ciphertext>,           // flows whose browser presented them at the callback
    codes: map<string, Grant>,
    exchanges: seq<ExchangeRecord>,
    sessions: seq<SessionRecord>)

  datatype Event =
    | Tick(later: Time)
    | Login(browser: nat, url: string, isChallenge: bool, relay: bool, draws: Draws)
    | Logout(url: string)
    | Authorize(request: AuthorizationRequest, code: string)
    | Callback(browser: nat, req: CallbackRequest, answer: Answer, draws: Draws)

  // ---------------------------------------------------------------------------
  // What a browser does with a reply
  // ---------------------------------------------------------------------------

  function AdoptOne(jar: map<CookieId, Cookie>, browser: nat, c: SetCookie, now: Time): map<CookieId, Cookie> {
    match c
    case CsrfCookie(name, value, maxAge) => jar[CookieId(browser, name) := Cookie(value, now + maxAge * SECOND)]
    case ExpireCookie(name) => jar - {CookieId(browser, name)}
    case _ => jar
  }

  function Adopt(jar: map<CookieId, Cookie>, browser: nat, cookies: seq<SetCookie>, now: Time): map<CookieId, Cookie> {
    if cookies == [] then jar
    else AdoptOne(Adopt(jar, browser, cookies[..|cookies| - 1], now), browser, cookies[|cookies| - 1], now)
  }

  /** The cookies a request from the browser carries. */
  ghost predicate Sends(s: State, browser: nat, cookies: map<string, string>) {
    forall name ::
      && (name in cookies <==>
            CookieId(browser, name) in s.jar && s.now <= s.jar[CookieId(browser, name)].expires)
      && (name in cookies ==> cookies[name] == s.jar[CookieId(browser, name)].value)
  }

  function DrawnBy(d: Draws): seq<string> {
    (if d.csrf.Some? then [d.csrf.value] else []) + (if d.nonce.Some? then [d.nonce.value] else [])
    + (if d.verifier.Some? then [d.verifier.value] else [])
  }

  /** Random values never repeat and are never empty. */
  predicate Fresh(s: State, d: Draws) {
    && (forall x | x in DrawnBy(d) :: x != "" && x !in s.drawn)
    && (forall i, j | 0 <= i < j < |DrawnBy(d)| :: DrawnBy(d)[i] != DrawnBy(d)[j])
  }

  /** The state after a reply has reached the browser. */
  function Served(cfg: Config, s: State, browser: nat, reply: Reply, d: Draws): State {
    var t := s.(jar := Adopt(s.jar, browser, reply.cookies, s.now), drawn := s.drawn + set x | x in DrawnBy(d));
    match reply.location
    case ToProvider(request) =>
      var state := UnsealState(request.state, cfg.secret, s.now);
      if state.Err? then t
      else t.(flows := s.flows[request.state := Flow(browser, state.value, request, s.now)])
    case ToCallback(c) => t.(others := s.others + {c})
    case _ => t
  }

  predicate MadeSession(reply: Reply) {
    exists c | c in reply.cookies :: c.SessionCookie?
  }

  /** Anything can be sent to the callback except a state sealed with the secret that was never released;
      session tickets are sealed with it too. */
  predicate CanPresent(cfg: Config, s: State, state: Option<Ciphertext>) {
    state.Some? && state.value.Sealed? && state.value.key == cfg.secret && state.value.purpose != ForSession ==>
      state.value in s.flows || state.value in s.others
  }

  /** The provider answers with a token only for a code it issued and has not redeemed, to whoever holds
      the verifier of the code's challenge, and puts the nonce of the code's request into the token. */
  predicate ProviderAgrees(s: State, e: Exchange, token: Token) {
    && e.code in s.codes && !s.codes[e.code].redeemed
    && (s.codes[e.code].challenge.Some? ==> e.verifier.Some? && s.codes[e.code].challenge == Some(S256(e.verifier.value)))
    && token.nonce == s.codes[e.code].nonce
  }

  predicate Redeems(reply: Reply, a: Answer) {
    reply.exchange.Some? && a.token.Some?
  }

  /** The callback presents this flow in the flow's own browser while its state still unseals. */
  predicate Consumes(cfg: Config, s: State, browser: nat, req: CallbackRequest) {
    && req.state.Some? && req.state.value in s.flows && s.flows[req.state.value].browser == browser
    && UnsealState(req.state.value, cfg.secret, req.now).Ok?
  }

  function AfterCallback(cfg: Config, s: State, browser: nat, req: CallbackRequest, a: Answer, d: Draws): State {
    var reply := CallbackReply(cfg, req, a, d);
    var t := Served(cfg, s, browser, reply, d);
    t.(consumed := if Consumes(cfg, s, browser, req) then s.consumed + {req.state.value} else s.consumed,
       codes := if Redeems(reply, a) && req.code in s.codes then s.codes[req.code := s.codes[req.code].(redeemed := true)] else s.codes,
       exchanges := if req.state.Some? && reply.exchange.Some?
                    then s.exchanges + [ExchangeRecord(req.state.value, reply.exchange.value)] else s.exchanges,
       sessions := if req.state.Some? && MadeSession(reply)
                   then s.sessions + [SessionRecord(req.state.value, browser, req.code)] else s.sessions)
  }

  ghost predicate Step(cfg: Config, s: State, e: Event, t: State) {
    match e
    case Tick(later) => s.now <= later && t == s.(now := later)
    case Login(browser, url, isChallenge, relay, d) =>
      Fresh(s, d) && t == Served(cfg, s, browser, LoginReply(cfg, url, isChallenge, relay, d, s.now), d)
    case Logout(url) =>
      t == s.(others := s.others + {SealState(OidcState("Logout", url, None, "", "", false, "", 0, 0), cfg.secret, s.now)})
    case Authorize(request, code) =>
      code !in s.codes && t == s.(codes := s.codes[code := Grant(request.nonce, request.challenge, false)])
    case Callback(browser, req, a, d) =>
      && Fresh(s, d) && req.now == s.now && Sends(s, browser, req.cookies) && CanPresent(cfg, s, req.state)
      && var reply := CallbackReply(cfg, req, a, d);
         && (Redeems(reply, a) ==> ProviderAgrees(s, reply.exchange.value, a.token.value))
         && t == AfterCallback(cfg, s, browser, req, a, d)
  }

  const START := State(0, map[], {}, map[], {}, {}, map[], [], [])

  datatype Run = Run(states: seq<State>, events: seq<Event>) {
    ghost predicate Legal(cfg: Config) {
      && |states| == |events| + 1 && states[0] == START
      && forall i | 0 <= i < |events| :: Step(cfg, states[i], events[i], states[i + 1])
    }
  }

  // ---------------------------------------------------------------------------
  // Facts about single replies
  // ---------------------------------------------------------------------------

  /** The state of a flow opens to a login state for ten minutes, and carries the encrypted verifier of
      the challenge that went to the provider. */
  ghost predicate FlowOk(cfg: Config, c: Ciphertext, f: Flow) {
    && c == f.request.state && f.state.action == "Login" && f.state.csrf != ""
    && f.state.nonce == f.request.nonce && f.state.nonce != ""
    && c.Sealed? && c.key == cfg.secret
    && (forall now: Time :: UnsealState(c, cfg.secret, now) ==
          if now <= f.startedAt + STATE_LIFETIME then Ok(f.state) else Err(StateExpired))
    && (!cfg.usePkce ==> f.request.challenge.None?)
    && (cfg.usePkce ==>
          && f.request.challenge.Some?
          && f.state.codeVerifierEnc == Some(Encrypt(f.request.challenge.value.verifier, cfg.secret, NoPurpose)))
  }

  /** A sealed state that never opens as a login. */
  ghost predicate NeverLogin(cfg: Config, c: Ciphertext) {
    forall now: Time :: UnsealState(c, cfg.secret, now).Ok? ==> UnsealState(c, cfg.secret, now).value.action != "Login"
  }

  /** What starting a flow puts into the reply. */
  lemma ProviderReplyStarts(cfg: Config, browser: nat, url: string, isChallenge: bool, d: Draws, now: Time)
    requires ProviderReply(cfg, url, isChallenge, d, now).location.ToProvider?
    requires forall x | x in DrawnBy(d) :: x != ""
    ensures var reply := ProviderReply(cfg, url, isChallenge, d, now);
      var request := reply.location.request;
      && d.csrf.Some? && reply.cookies == [CsrfCookie(CsrfCookieName(cfg.prefix, d.csrf.value), d.csrf.value, CSRF_MAX_AGE)]
      && UnsealState(request.state, cfg.secret, now).Ok?
      && var f := Flow(browser, UnsealState(request.state, cfg.secret, now).value, request, now);
         FlowOk(cfg, request.state, f) && f.state.csrf == d.csrf.value
  {
    var verifier := if cfg.usePkce then d.verifier else None;
    var s := LoginStateOf(cfg, url, isChallenge, d.csrf.value, d.nonce.value, verifier);
    assert d.csrf.value == DrawnBy(d)[0] && d.nonce.value == DrawnBy(d)[1];
    assert d.csrf.value in DrawnBy(d) && d.nonce.value in DrawnBy(d);
    hide UnsealState;
    forall t: Time { SealRoundTrip(s, cfg.secret, now, t); }
    hide SealState;
  }

  lemma RelayNeverLogin(cfg: Config, s: OidcState, sealedAt: Time)
    requires s.action != "Login"
    ensures NeverLogin(cfg, SealState(s, cfg.secret, sealedAt))
  {
    hide UnsealState, SealState;
    forall t: Time { SealRoundTrip(s, cfg.secret, sealedAt, t); }
  }

  /** Where a callback sends the browser: to the provider only by way of ProviderReply, to the callback
      only by way of a relay state. */
  lemma CallbackLocation(cfg: Config, req: CallbackRequest, a: Answer, d: Draws) returns (url: string, isChallenge: bool)
    ensures var reply := CallbackReply(cfg, req, a, d);
      && (reply.location.ToProvider? ==> reply.location == ProviderReply(cfg, url, isChallenge, d, req.now).location)
      && (reply.location.ToCallback? ==> reply.location == RelayReply(cfg, url, isChallenge, d, req.now).location)
  {
    hide UnsealState, SealState, TokenAccepted, Presented, CsrfHolds, LoginStateOf, RelayStateOf;
    url, isChallenge := "", true;
    if req.state.Some? {
      var u := UnsealState(req.state.value, cfg.secret, req.now);
      if u.Ok? {
        if u.value.action == "Login" {
          url := Absolute(req.host, if u.value.redirectUrl != "" then u.value.redirectUrl else cfg.postLogin);
        } else {
          url, isChallenge := u.value.redirectUrl, u.value.isChallenge;
        }
      }
    }
  }

  /** A callback replies with a session, or talks to the token endpoint, only for an unsealed login state
      that passes every check. */
  lemma CallbackSession(cfg: Config, req: CallbackRequest, a: Answer, d: Draws)
    ensures var reply := CallbackReply(cfg, req, a, d);
      var u := if req.state.Some? then UnsealState(req.state.value, cfg.secret, req.now) else Err(NotOpened);
      && (MadeSession(reply) <==> u.Ok? && u.value.action == "Login" && MakesSession(cfg, req, u.value, a))
      && (reply.exchange.Some? ==>
            && u.Ok? && u.value.action == "Login" && CsrfHolds(cfg, req.cookies, u.value.csrf) && Presented(cfg, u.value).Some?
            && reply.exchange.value == Exchange(req.code, Presented(cfg, u.value).value))
      && (MadeSession(reply) ==> reply.exchange.Some?)
  {
    hide UnsealState, SealState, TokenAccepted, Presented, CsrfHolds, LoginStateOf, RelayStateOf;
    var reply := CallbackReply(cfg, req, a, d);
    if req.state.Some? {
      var u := UnsealState(req.state.value, cfg.secret, req.now);
      if u.Ok? && u.value.action == "Login" {
        var inner := LoginCallbackReply(cfg, req, u.value, a, d);
        var n := |CsrfExpiry(cfg, u.value.csrf)|;
        assert forall c | c in reply.cookies :: c in CsrfExpiry(cfg, u.value.csrf) || c in inner.cookies;
        if MakesSession(cfg, req, u.value, a) {
          assert inner.cookies[0].SessionCookie?;
          assert reply.cookies[n] == inner.cookies[0];
        }
      }
    }
  }

  // ---------------------------------------------------------------------------
  // What a reply does to the jar
  // ---------------------------------------------------------------------------

  predicate Touches(c: SetCookie, name: string) {
    match c
    case CsrfCookie(n, _, _) => n == name
    case ExpireCookie(n) => n == name
    case _ => false
  }

  lemma {:induction false} AdoptFrame(jar: map<CookieId, Cookie>, browser: nat, cookies: seq<SetCookie>, now: Time, id: CookieId)
    requires id.browser == browser ==> forall c | c in cookies :: !Touches(c, id.name)
    ensures var after := Adopt(jar, browser, cookies, now);
      (id in after <==> id in jar) && (id in jar ==> after[id] == jar[id])
  {
    if cookies != [] {
      var last := cookies[|cookies| - 1];
      assert last in cookies;
      AdoptFrame(jar, browser, cookies[..|cookies| - 1], now, id);
    }
  }

  lemma {:induction false} AdoptSplit(jar: map<CookieId, Cookie>, browser: nat, x: seq<SetCookie>, y: seq<SetCookie>, now: Time)
    ensures Adopt(jar, browser, x + y, now) == Adopt(Adopt(jar, browser, x, now), browser, y, now)
  {
    if y == [] {
      assert x + y == x;
    } else {
      AdoptSplit(jar, browser, x, y[..|y| - 1], now);
      assert (x + y)[..|x + y| - 1] == x + y[..|y| - 1];
    }
  }

  /** Only the new flow's CSRF cookie, and it is there when the browser goes on to the provider. */
  predicate StartCookies(cfg: Config, cookies: seq<SetCookie>, d: Draws, toProvider: bool) {
    && (cookies == [] || (d.csrf.Some? && cookies == [NewCsrfCookie(cfg, d.csrf.value)]))
    && (toProvider ==> cookies != [])
  }

  function NewCsrfCookie(cfg: Config, csrf: string): SetCookie {
    CsrfCookie(CsrfCookieName(cfg.prefix, csrf), csrf, CSRF_MAX_AGE)
  }

  lemma LoginCookies(cfg: Config, url: string, isChallenge: bool, relay: bool, d: Draws, now: Time)
    ensures var reply := LoginReply(cfg, url, isChallenge, relay, d, now);
      StartCookies(cfg, reply.cookies, d, reply.location.ToProvider?)
  {
  }

  /** The expiry a callback sends for the CSRF cookie of the flow it presents. */
  function OwnExpiry(cfg: Config, req: CallbackRequest): seq<SetCookie> {
    var u := if req.state.Some? then UnsealState(req.state.value, cfg.secret, req.now) else Err(NotOpened);
    if u.Ok? && u.value.action == "Login" then CsrfExpiry(cfg, u.value.csrf) else []
  }

  lemma InnerCookies(cfg: Config, req: CallbackRequest, s: OidcState, a: Answer, d: Draws) returns (sess: seq<SetCookie>, start: seq<SetCookie>)
    ensures var reply := LoginCallbackReply(cfg, req, s, a, d);
      && reply.cookies == sess + start && (forall c | c in sess :: c.SessionCookie?)
      && StartCookies(cfg, start, d, reply.location.ToProvider?)
  {
    hide TokenAccepted, Presented, CsrfHolds, LoginReply, NewCsrfCookie;
    var reply := LoginCallbackReply(cfg, req, s, a, d);
    var target := Absolute(req.host, if s.redirectUrl != "" then s.redirectUrl else cfg.postLogin);
    LoginCookies(cfg, target, true, req.relay, d, req.now);
    if |reply.cookies| <= 1 {
      sess, start := reply.cookies, [];
    } else {
      sess, start := reply.cookies[..1], reply.cookies[1..];
    }
  }

  /** The cookies of a callback: the expiry of its own CSRF cookie, session cookies, and the CSRF cookie
      of the flow it starts, if any, at the end. */
  lemma CallbackCookies(cfg: Config, req: CallbackRequest, a: Answer, d: Draws) returns (sess: seq<SetCookie>, start: seq<SetCookie>)
    ensures var reply := CallbackReply(cfg, req, a, d);
      && reply.cookies == OwnExpiry(cfg, req) + sess + start
      && (forall c | c in sess :: c.SessionCookie? || c.ClearSession?)
      && StartCookies(cfg, start, d, reply.location.ToProvider?)
  {
    hide UnsealState, LoginCallbackReply, NewCsrfCookie, CsrfExpiry;
    sess, start := [], [];
    if req.state.Some? {
      var u := UnsealState(req.state.value, cfg.secret, req.now);
      if u.Ok? {
        if u.value.action == "Login" {
          sess, start := InnerCookies(cfg, req, u.value, a, d);
          assert OwnExpiry(cfg, req) + (sess + start) == OwnExpiry(cfg, req) + sess + start;
        } else if u.value.action == "Logout" {
          sess := [ClearSession];
        } else if u.value.action == "RedirectThenLogin" {
          LoginCookies(cfg, u.value.redirectUrl, u.value.isChallenge, false, d, req.now);
          start := CallbackReply(cfg, req, a, d).cookies;
        }
      }
    }
  }

  // ---------------------------------------------------------------------------
  // Invariants
  // ---------------------------------------------------------------------------

  function IdOf(cfg: Config, f: Flow): CookieId {
    CookieId(f.browser, CsrfCookieName(cfg.prefix, f.state.csrf))
  }

  ghost predicate FlowsInv(cfg: Config, s: State) {
    && (forall c | c in s.flows :: FlowOk(cfg, c, s.flows[c]) && s.flows[c].state.csrf in s.drawn && s.flows[c].startedAt <= s.now)
    && (forall c, e | c in s.flows && e in s.flows && s.flows[c].state.csrf == s.flows[e].state.csrf :: c == e)
    && (forall c | c in s.others :: NeverLogin(cfg, c))
    && s.consumed <= s.flows.Keys
  }

  predicate CookieOk(cfg: Config, jar: map<CookieId, Cookie>, f: Flow, gone: bool) {
    if gone then IdOf(cfg, f) !in jar
    else IdOf(cfg, f) in jar && jar[IdOf(cfg, f)] == Cookie(f.state.csrf, f.startedAt + CSRF_MAX_AGE * SECOND)
  }

  /** A flow's cookie sits in its browser, untouched, until the flow is consumed; then it is gone. */
  predicate JarInv(cfg: Config, s: State) {
    forall c | c in s.flows :: CookieOk(cfg, s.jar, s.flows[c], c in s.consumed)
  }

  /** Every cookie holds a drawn value, and the value of a flow is only in that flow's own cookie. */
  predicate OwnersInv(cfg: Config, s: State) {
    forall id | id in s.jar ::
      && s.jar[id].value in s.drawn
      && forall c | c in s.flows && s.flows[c].state.csrf == s.jar[id].value :: IdOf(cfg, s.flows[c]) == id
  }

  /** The verifier of the challenge this flow sent to the provider. */
  function OwnVerifier(cfg: Config, f: Flow): Option<Plaintext> {
    if cfg.usePkce && f.request.challenge.Some? then Some(f.request.challenge.value.verifier) else None
  }

  predicate ExchangesInv(cfg: Config, s: State) {
    forall r | r in s.exchanges :: r.flow in s.flows && r.exchange.verifier == OwnVerifier(cfg, s.flows[r.flow])
  }

  /** The code was issued for this flow's request, as far as anything binds it. */
  predicate Bound(cfg: Config, g: Grant, f: Flow) {
    && (cfg.usePkce && g.challenge.Some? ==> g.challenge == f.request.challenge)
    && (cfg.validation.Locally? && cfg.validateNonce ==> g.nonce == f.request.nonce)
  }

  predicate SessionOk(cfg: Config, s: State, r: SessionRecord) {
    && r.flow in s.flows && r.flow in s.consumed && s.flows[r.flow].browser == r.browser
    && r.code in s.codes && s.codes[r.code].redeemed && Bound(cfg, s.codes[r.code], s.flows[r.flow])
  }

  predicate SessionsInv(cfg: Config, s: State) {
    && (forall r | r in s.sessions :: SessionOk(cfg, s, r))
    && (forall i, j | 0 <= i < j < |s.sessions| ::
          s.sessions[i].flow != s.sessions[j].flow && s.sessions[i].code != s.sessions[j].code)
  }

  ghost predicate Inv(cfg: Config, s: State) {
    FlowsInv(cfg, s) && JarInv(cfg, s) && OwnersInv(cfg, s) && ExchangesInv(cfg, s) && SessionsInv(cfg, s)
  }

  /** Flows are never changed or forgotten. */
  predicate Extends(s: State, t: State) {
    forall c | c in s.flows :: c in t.flows && t.flows[c] == s.flows[c]
  }

  /** What every reply guarantees about the flow or relay state it releases. */
  ghost predicate GoodReply(cfg: Config, s: State, browser: nat, reply: Reply, d: Draws) {
    match reply.location
    case ToProvider(request) =>
      && d.csrf.Some? && UnsealState(request.state, cfg.secret, s.now).Ok?
      && var f := Flow(browser, UnsealState(request.state, cfg.secret, s.now).value, request, s.now);
         FlowOk(cfg, request.state, f) && f.state.csrf == d.csrf.value
    case ToCallback(c) => NeverLogin(cfg, c)
    case _ => true
  }

  lemma LoginIsGood(cfg: Config, s: State, browser: nat, url: string, isChallenge: bool, relay: bool, d: Draws)
    requires Fresh(s, d)
    ensures GoodReply(cfg, s, browser, LoginReply(cfg, url, isChallenge, relay, d, s.now), d)
  {
    if relay && d.seals {
      RelayNeverLogin(cfg, RelayStateOf(url, isChallenge), s.now);
    } else if !relay && ProviderReply(cfg, url, isChallenge, d, s.now).location.ToProvider? {
      ProviderReplyStarts(cfg, browser, url, isChallenge, d, s.now);
    }
  }

  lemma CallbackIsGood(cfg: Config, s: State, browser: nat, req: CallbackRequest, a: Answer, d: Draws)
    requires Fresh(s, d) && req.now == s.now
    ensures GoodReply(cfg, s, browser, CallbackReply(cfg, req, a, d), d)
  {
    var url, isChallenge := CallbackLocation(cfg, req, a, d);
    var location := CallbackReply(cfg, req, a, d).location;
    hide CallbackReply, ProviderReply, FlowOk, NeverLogin, UnsealState, SealState;
    if location.ToProvider? {
      ProviderReplyStarts(cfg, browser, url, isChallenge, d, s.now);
    } else if location.ToCallback? {
      RelayNeverLogin(cfg, RelayStateOf(url, isChallenge), s.now);
    }
  }

  /** A released flow is new: its state and its CSRF token have never been seen. */
  lemma NewFlowIsNew(cfg: Config, s: State, browser: nat, reply: Reply, d: Draws)
    requires FlowsInv(cfg, s) && Fresh(s, d) && GoodReply(cfg, s, browser, reply, d) && reply.location.ToProvider?
    ensures reply.location.request.state !in s.flows
    ensures d.csrf.value !in s.drawn && d.csrf.value in DrawnBy(d)
  {
    hide UnsealState;
    assert DrawnBy(d)[0] == d.csrf.value;
    var c := reply.location.request.state;
    assert forall e | e in s.flows :: FlowOk(cfg, e, s.flows[e]) && s.flows[e].startedAt <= s.now;
  }

  lemma ServedKeepsFlows(cfg: Config, s: State, browser: nat, reply: Reply, d: Draws)
    requires FlowsInv(cfg, s) && Fresh(s, d) && GoodReply(cfg, s, browser, reply, d)
    ensures FlowsInv(cfg, Served(cfg, s, browser, reply, d)) && Extends(s, Served(cfg, s, browser, reply, d))
  {
    hide UnsealState, FlowOk, NeverLogin, Adopt, Fresh;
    if reply.location.ToProvider? { NewFlowIsNew(cfg, s, browser, reply, d); }
  }

  predicate Same(jar: map<CookieId, Cookie>, after: map<CookieId, Cookie>, id: CookieId) {
    (id in after <==> id in jar) && (id in jar ==> after[id] == jar[id])
  }

  /** The CSRF cookie of a new flow disturbs no other cookie. */
  lemma StartAdopted(cfg: Config, jar: map<CookieId, Cookie>, browser: nat, start: seq<SetCookie>, d: Draws, now: Time, id: CookieId)
    requires StartCookies(cfg, start, d, false)
    ensures var after := Adopt(jar, browser, start, now);
      && (d.csrf.None? || id != CookieId(browser, CsrfCookieName(cfg.prefix, d.csrf.value)) ==> Same(jar, after, id))
      && (start != [] && id == CookieId(browser, CsrfCookieName(cfg.prefix, d.csrf.value)) ==>
            id in after && after[id] == Cookie(d.csrf.value, now + CSRF_MAX_AGE * SECOND))
  {
    hide CsrfCookieName;
    if start != [] {
      assert start[..0] == [];
      assert Adopt(jar, browser, start[..0], now) == jar;
    }
  }

  /** Cookie names of different CSRF tokens differ. */
  lemma NamesDiffer(cfg: Config, f: Flow, browser: nat, csrf: string)
    requires f.state.csrf != csrf
    ensures IdOf(cfg, f) != CookieId(browser, CsrfCookieName(cfg.prefix, csrf))
  {
    if CsrfCookieName(cfg.prefix, f.state.csrf) == CsrfCookieName(cfg.prefix, csrf) {
      CsrfCookieNameInjective(cfg.prefix, f.state.csrf, csrf);
    }
  }

  /** Serving a reply whose earlier cookies left the jar in order, and which may start a flow, leaves it in
      order; `consumed` may already count the flow the request presented. */
  lemma ServedKeepsJar(cfg: Config, s: State, browser: nat, reply: Reply, d: Draws, earlier: seq<SetCookie>,
                       start: seq<SetCookie>, consumed: set<Ciphertext>)
    requires FlowsInv(cfg, s) && Fresh(s, d) && GoodReply(cfg, s, browser, reply, d) && consumed <= s.flows.Keys
    requires reply.cookies == earlier + start && StartCookies(cfg, start, d, reply.location.ToProvider?)
    requires forall c | c in s.flows ::
      CookieOk(cfg, Adopt(s.jar, browser, earlier, s.now), s.flows[c], c in consumed)
    ensures JarInv(cfg, Served(cfg, s, browser, reply, d).(consumed := consumed))
  {
    hide UnsealState, FlowOk, NeverLogin, Adopt, CsrfCookieName, NewCsrfCookie;
    var mid := Adopt(s.jar, browser, earlier, s.now);
    var t := Served(cfg, s, browser, reply, d);
    AdoptSplit(s.jar, browser, earlier, start, s.now);
    assert t.jar == Adopt(mid, browser, start, s.now);
    if d.csrf.Some? { assert DrawnBy(d)[0] == d.csrf.value; }
    forall c | c in t.flows ensures CookieOk(cfg, t.jar, t.flows[c], c in consumed) {
      StartAdopted(cfg, mid, browser, start, d, s.now, IdOf(cfg, t.flows[c]));
      if reply.location.ToProvider? { NewFlowIsNew(cfg, s, browser, reply, d); }
      if c in s.flows {
        assert t.flows[c] == s.flows[c];
        if d.csrf.Some? { NamesDiffer(cfg, s.flows[c], browser, d.csrf.value); }
      }
    }
  }

  lemma {:induction false} AdoptValues(jar: map<CookieId, Cookie>, browser: nat, cookies: seq<SetCookie>, now: Time, id: CookieId)
    requires id in Adopt(jar, browser, cookies, now)
    ensures var after := Adopt(jar, browser, cookies, now);
      || (id in jar && after[id] == jar[id])
      || exists c | c in cookies :: c.CsrfCookie? && id == CookieId(browser, c.name) && after[id].value == c.value
  {
    if cookies != [] {
      var last := cookies[|cookies| - 1];
      assert last in cookies;
      if id in Adopt(jar, browser, cookies[..|cookies| - 1], now) {
        AdoptValues(jar, browser, cookies[..|cookies| - 1], now, id);
      }
    }
  }

  lemma ServedKeepsOwners(cfg: Config, s: State, browser: nat, reply: Reply, d: Draws)
    requires FlowsInv(cfg, s) && OwnersInv(cfg, s) && Fresh(s, d) && GoodReply(cfg, s, browser, reply, d)
    requires forall c | c in reply.cookies && c.CsrfCookie? :: d.csrf.Some? && c == NewCsrfCookie(cfg, d.csrf.value)
    ensures OwnersInv(cfg, Served(cfg, s, browser, reply, d))
  {
    hide UnsealState, FlowOk, NeverLogin, Adopt, CsrfCookieName;
    var t := Served(cfg, s, browser, reply, d);
    if d.csrf.Some? { assert DrawnBy(d)[0] == d.csrf.value; }
    if reply.location.ToProvider? { NewFlowIsNew(cfg, s, browser, reply, d); }
    forall id | id in t.jar
      ensures t.jar[id].value in t.drawn
      ensures forall c | c in t.flows && t.flows[c].state.csrf == t.jar[id].value :: IdOf(cfg, t.flows[c]) == id
    {
      AdoptValues(s.jar, browser, reply.cookies, s.now, id);
    }
  }

  // ---------------------------------------------------------------------------
  // The callback step
  // ---------------------------------------------------------------------------

  /** Only the sealed state of a flow opens as a login, to the state of that flow, within ten minutes. */
  lemma PresentedFlow(cfg: Config, s: State, c: Ciphertext)
    requires FlowsInv(cfg, s) && CanPresent(cfg, s, Some(c))
    requires UnsealState(c, cfg.secret, s.now).Ok? && UnsealState(c, cfg.secret, s.now).value.action == "Login"
    ensures c in s.flows && UnsealState(c, cfg.secret, s.now).value == s.flows[c].state
    ensures s.now <= s.flows[c].startedAt + STATE_LIFETIME
  {
    OnlySealedHereUnseals(c, cfg.secret, s.now);
    hide UnsealState;
    assert forall e | e in s.others :: NeverLogin(cfg, e);
    assert forall e | e in s.flows :: FlowOk(cfg, e, s.flows[e]);
  }

  /** A callback expires the cookie of the flow it presents and no other flow's. */
  lemma ExpiryIsOwn(cfg: Config, s: State, browser: nat, req: CallbackRequest, sess: seq<SetCookie>, c: Ciphertext)
    requires FlowsInv(cfg, s) && JarInv(cfg, s) && req.now == s.now && CanPresent(cfg, s, req.state) && c in s.flows
    requires forall x | x in sess :: x.SessionCookie? || x.ClearSession?
    ensures CookieOk(cfg, Adopt(s.jar, browser, OwnExpiry(cfg, req) + sess, s.now), s.flows[c],
      c in s.consumed || (Consumes(cfg, s, browser, req) && Some(c) == req.state))
  {
    hide UnsealState, CsrfCookieName;
    var own, f := OwnExpiry(cfg, req), s.flows[c];
    var id := IdOf(cfg, f);
    AdoptSplit(s.jar, browser, own, sess, s.now);
    AdoptFrame(Adopt(s.jar, browser, own, s.now), browser, sess, s.now, id);
    assert FlowOk(cfg, c, f);
    if own == [] {
      if Some(c) == req.state { assert !Consumes(cfg, s, browser, req); }
    } else {
      var p := req.state.value;
      PresentedFlow(cfg, s, p);
      var name := CsrfCookieName(cfg.prefix, s.flows[p].state.csrf);
      assert own == [ExpireCookie(name)];
      assert own[..0] == [];
      assert Adopt(s.jar, browser, own[..0], s.now) == s.jar;
      assert Adopt(s.jar, browser, own, s.now) == s.jar - {CookieId(browser, name)};
      if p != c { NamesDiffer(cfg, f, browser, s.flows[p].state.csrf); }
    }
  }

  lemma CallbackKeepsFlows(cfg: Config, s: State, browser: nat, req: CallbackRequest, a: Answer, d: Draws)
    requires FlowsInv(cfg, s) && Fresh(s, d) && req.now == s.now
    ensures var t := AfterCallback(cfg, s, browser, req, a, d);
      FlowsInv(cfg, t) && Extends(s, t) && s.consumed <= t.consumed
  {
    hide CallbackReply, UnsealState, FlowOk, NeverLogin, Adopt, GoodReply, Fresh, Served;
    CallbackIsGood(cfg, s, browser, req, a, d);
    ServedKeepsFlows(cfg, s, browser, CallbackReply(cfg, req, a, d), d);
    ServedKeepsRest(cfg, s, browser, CallbackReply(cfg, req, a, d), d);
  }

  /** Serving a reply only touches the jar, the flows, the draws and the relays. */
  lemma ServedKeepsRest(cfg: Config, s: State, browser: nat, reply: Reply, d: Draws)
    ensures var t := Served(cfg, s, browser, reply, d);
      && t.now == s.now && t.consumed == s.consumed && t.codes == s.codes
      && t.exchanges == s.exchanges && t.sessions == s.sessions
  {
  }

  lemma CallbackKeepsJar(cfg: Config, s: State, browser: nat, req: CallbackRequest, a: Answer, d: Draws)
    requires FlowsInv(cfg, s) && JarInv(cfg, s) && Fresh(s, d) && req.now == s.now && CanPresent(cfg, s, req.state)
    ensures JarInv(cfg, AfterCallback(cfg, s, browser, req, a, d))
  {
    hide CallbackReply, UnsealState, FlowOk, NeverLogin, Adopt, GoodReply, StartCookies, Fresh, Served, CookieOk;
    var reply := CallbackReply(cfg, req, a, d);
    CallbackIsGood(cfg, s, browser, req, a, d);
    var sess, start := CallbackCookies(cfg, req, a, d);
    forall c | c in s.flows { ExpiryIsOwn(cfg, s, browser, req, sess, c); }
    ServedKeepsJar(cfg, s, browser, reply, d, OwnExpiry(cfg, req) + sess, start,
                   AfterCallback(cfg, s, browser, req, a, d).consumed);
    ServedKeepsRest(cfg, s, browser, reply, d);
  }

  lemma CallbackKeepsOwners(cfg: Config, s: State, browser: nat, req: CallbackRequest, a: Answer, d: Draws)
    requires FlowsInv(cfg, s) && OwnersInv(cfg, s) && Fresh(s, d) && req.now == s.now
    ensures OwnersInv(cfg, AfterCallback(cfg, s, browser, req, a, d))
  {
    hide CallbackReply, UnsealState, FlowOk, NeverLogin, Adopt, GoodReply, Fresh, Served;
    var reply := CallbackReply(cfg, req, a, d);
    CallbackIsGood(cfg, s, browser, req, a, d);
    var sess, start := CallbackCookies(cfg, req, a, d);
    ServedKeepsOwners(cfg, s, browser, reply, d);
  }

  /** A token request presents the verifier of the flow whose state the callback carries, and a session is
      made only in that flow's browser, not yet consumed, for a code bound to it. */
  lemma CallbackIsOwn(cfg: Config, s: State, browser: nat, req: CallbackRequest, a: Answer, d: Draws)
    requires Inv(cfg, s) && Step(cfg, s, Callback(browser, req, a, d), AfterCallback(cfg, s, browser, req, a, d))
    ensures var reply := CallbackReply(cfg, req, a, d);
      && (reply.exchange.Some? ==>
            && req.state.Some? && req.state.value in s.flows
            && reply.exchange.value == Exchange(req.code, OwnVerifier(cfg, s.flows[req.state.value]))
            && Consumes(cfg, s, browser, req) && req.state.value !in s.consumed)
      && (MadeSession(reply) ==>
            && reply.exchange.Some? && Redeems(reply, a) && req.code in s.codes && !s.codes[req.code].redeemed
            && Bound(cfg, s.codes[req.code], s.flows[req.state.value]))
  {
    var reply := CallbackReply(cfg, req, a, d);
    CallbackSession(cfg, req, a, d);
    hide CallbackReply, UnsealState, NeverLogin, Adopt, GoodReply, StartCookies, Fresh, CsrfCookieName, AfterCallback, ExchangesInv, SessionsInv;
    if reply.exchange.Some? {
      var c := req.state.value;
      PresentedFlow(cfg, s, c);
      var f := s.flows[c];
      assert FlowOk(cfg, c, f) && CookieOk(cfg, s.jar, f, c in s.consumed);
      CookieFromOwnBrowser(cfg, s, browser, req.cookies, c);
    }
  }

  /** A flow's CSRF cookie reaches the callback only from the flow's own browser, and only once. */
  lemma CookieFromOwnBrowser(cfg: Config, s: State, browser: nat, cookies: map<string, string>, c: Ciphertext)
    requires JarInv(cfg, s) && OwnersInv(cfg, s) && c in s.flows && Sends(s, browser, cookies)
    requires CsrfHolds(cfg, cookies, s.flows[c].state.csrf)
    ensures browser == s.flows[c].browser && c !in s.consumed
  {
    var id := CookieId(browser, CsrfCookieName(cfg.prefix, s.flows[c].state.csrf));
    assert id in s.jar;
  }

  lemma CallbackKeepsExchanges(cfg: Config, s: State, browser: nat, req: CallbackRequest, a: Answer, d: Draws)
    requires Inv(cfg, s) && Step(cfg, s, Callback(browser, req, a, d), AfterCallback(cfg, s, browser, req, a, d))
    ensures ExchangesInv(cfg, AfterCallback(cfg, s, browser, req, a, d))
  {
    CallbackIsOwn(cfg, s, browser, req, a, d);
    CallbackKeepsFlows(cfg, s, browser, req, a, d);
    hide CallbackReply, UnsealState, FlowsInv, JarInv, OwnersInv, SessionsInv, Served, Fresh;
    ServedKeepsRest(cfg, s, browser, CallbackReply(cfg, req, a, d), d);
  }

  /** The provider forgets no code and takes back no redemption. */
  predicate CodesGrow(s: State, t: State) {
    forall code | code in s.codes ::
      code in t.codes && t.codes[code] in {s.codes[code], s.codes[code].(redeemed := true)}
  }

  lemma SessionStays(cfg: Config, s: State, t: State, r: SessionRecord)
    requires SessionOk(cfg, s, r) && Extends(s, t) && s.consumed <= t.consumed && CodesGrow(s, t)
    ensures SessionOk(cfg, t, r)
  {
    assert t.codes[r.code] in {s.codes[r.code], s.codes[r.code].(redeemed := true)};
  }

  lemma CallbackKeepsSessions(cfg: Config, s: State, browser: nat, req: CallbackRequest, a: Answer, d: Draws)
    requires Inv(cfg, s) && Step(cfg, s, Callback(browser, req, a, d), AfterCallback(cfg, s, browser, req, a, d))
    ensures SessionsInv(cfg, AfterCallback(cfg, s, browser, req, a, d))
  {
    hide CallbackReply, UnsealState, FlowsInv, JarInv, OwnersInv, ExchangesInv, Served, Fresh, Bound, MadeSession, SessionOk;
    CallbackIsOwn(cfg, s, browser, req, a, d);
    CallbackKeepsFlows(cfg, s, browser, req, a, d);
    var t := AfterCallback(cfg, s, browser, req, a, d);
    ServedKeepsRest(cfg, s, browser, CallbackReply(cfg, req, a, d), d);
    forall r | r in s.sessions ensures SessionOk(cfg, t, r) { SessionStays(cfg, s, t, r); }
    if MadeSession(CallbackReply(cfg, req, a, d)) {
      var last := SessionRecord(req.state.value, browser, req.code);
      assert t.sessions == s.sessions + [last];
      NewSessionOk(cfg, s, t, last);
      forall r | r in s.sessions ensures r.flow != last.flow && r.code != last.code {
        OldSessionDiffers(cfg, s, r, last);
      }
    }
  }

  lemma NewSessionOk(cfg: Config, s: State, t: State, r: SessionRecord)
    requires r.flow in s.flows && Extends(s, t) && r.flow in t.consumed && s.flows[r.flow].browser == r.browser
    requires r.code in s.codes && t.codes == s.codes[r.code := s.codes[r.code].(redeemed := true)]
    requires Bound(cfg, s.codes[r.code], s.flows[r.flow])
    ensures SessionOk(cfg, t, r)
  {
  }

  lemma OldSessionDiffers(cfg: Config, s: State, earlier: SessionRecord, later: SessionRecord)
    requires SessionOk(cfg, s, earlier)
    requires later.flow !in s.consumed && later.code in s.codes && !s.codes[later.code].redeemed
    ensures earlier.flow != later.flow && earlier.code != later.code
  {
  }

  lemma LoginKeepsInv(cfg: Config, s: State, browser: nat, url: string, isChallenge: bool, relay: bool, d: Draws)
    requires Inv(cfg, s) && Fresh(s, d)
    ensures var t := Served(cfg, s, browser, LoginReply(cfg, url, isChallenge, relay, d, s.now), d);
      Inv(cfg, t) && Extends(s, t)
  {
    var reply := LoginReply(cfg, url, isChallenge, relay, d, s.now);
    LoginIsGood(cfg, s, browser, url, isChallenge, relay, d);
    LoginCookies(cfg, url, isChallenge, relay, d, s.now);
    hide LoginReply, UnsealState, FlowOk, NeverLogin, Fresh, GoodReply, Served, CookieOk, FlowsInv, Bound;
    ServedKeepsFlows(cfg, s, browser, reply, d);
    ServedKeepsRest(cfg, s, browser, reply, d);
    ServedKeepsOwners(cfg, s, browser, reply, d);
    assert [] + reply.cookies == reply.cookies;
    assert s.consumed <= s.flows.Keys by { ConsumedAreFlows(cfg, s); }
    ServedKeepsJar(cfg, s, browser, reply, d, [], reply.cookies, s.consumed);
    var t := Served(cfg, s, browser, reply, d);
    assert t.(consumed := s.consumed) == t;
    forall r | r in s.sessions ensures SessionOk(cfg, t, r) { SessionStays(cfg, s, t, r); }
  }

  lemma ConsumedAreFlows(cfg: Config, s: State)
    requires FlowsInv(cfg, s)
    ensures s.consumed <= s.flows.Keys
  {
  }

  // ---------------------------------------------------------------------------
  // Whole runs
  // ---------------------------------------------------------------------------

  lemma StepKeepsInv(cfg: Config, s: State, e: Event, t: State)
    requires Inv(cfg, s) && Step(cfg, s, e, t)
    ensures Inv(cfg, t) && Extends(s, t) && s.now <= t.now
  {
    hide UnsealState, SealState, FlowOk, NeverLogin, Fresh, GoodReply, Served, CookieOk, Bound, LoginReply, CallbackReply, SessionOk;
    match e
    case Tick(_) =>
      forall r | r in s.sessions ensures SessionOk(cfg, t, r) { SessionStays(cfg, s, t, r); }
    case Login(browser, url, isChallenge, relay, d) =>
      LoginKeepsInv(cfg, s, browser, url, isChallenge, relay, d);
      ServedKeepsRest(cfg, s, browser, LoginReply(cfg, url, isChallenge, relay, d, s.now), d);
    case Logout(url) =>
      RelayNeverLogin(cfg, OidcState("Logout", url, None, "", "", false, "", 0, 0), s.now);
      forall r | r in s.sessions ensures SessionOk(cfg, t, r) { SessionStays(cfg, s, t, r); }
    case Authorize(_, _) =>
      forall r | r in s.sessions ensures SessionOk(cfg, t, r) { SessionStays(cfg, s, t, r); }
    case Callback(browser, req, a, d) =>
      CallbackKeepsInv(cfg, s, browser, req, a, d);
  }

  lemma CallbackKeepsInv(cfg: Config, s: State, browser: nat, req: CallbackRequest, a: Answer, d: Draws)
    requires Inv(cfg, s) && Step(cfg, s, Callback(browser, req, a, d), AfterCallback(cfg, s, browser, req, a, d))
    ensures var t := AfterCallback(cfg, s, browser, req, a, d); Inv(cfg, t) && Extends(s, t) && s.now <= t.now
  {
    CallbackKeepsFlows(cfg, s, browser, req, a, d);
    CallbackKeepsJar(cfg, s, browser, req, a, d);
    CallbackKeepsOwners(cfg, s, browser, req, a, d);
    CallbackKeepsExchanges(cfg, s, browser, req, a, d);
    CallbackKeepsSessions(cfg, s, browser, req, a, d);
    ServedKeepsRest(cfg, s, browser, CallbackReply(cfg, req, a, d), d);
    hide FlowsInv, JarInv, OwnersInv, ExchangesInv, SessionsInv, Served, CallbackReply, Extends;
  }

  lemma {:induction false} RunInv(cfg: Config, run: Run, i: nat)
    requires run.Legal(cfg) && i < |run.states|
    ensures Inv(cfg, run.states[i])
  {
    if i > 0 {
      RunInv(cfg, run, i - 1);
      hide Inv;
      StepKeepsInv(cfg, run.states[i - 1], run.events[i - 1], run.states[i]);
    }
  }

  /** Every token request ever made for a flow presents exactly the verifier whose S256 went to the provider
      as that flow's challenge, whatever else ran in parallel. */
  lemma ExchangesPresentOwnVerifier(cfg: Config, run: Run, i: nat, r: ExchangeRecord)
    requires run.Legal(cfg) && i < |run.states| && r in run.states[i].exchanges
    ensures r.flow in run.states[i].flows
    ensures var f := run.states[i].flows[r.flow];
      if cfg.usePkce then r.exchange.verifier.Some? && f.request.challenge == Some(S256(r.exchange.verifier.value))
      else r.exchange.verifier == None
  {
    RunInv(cfg, run, i);
    hide UnsealState;
    assert FlowOk(cfg, r.flow, run.states[i].flows[r.flow]);
  }

  /** No flow and no code yields two sessions. */
  lemma OneSessionPerFlow(cfg: Config, run: Run, i: nat, j: nat, k: nat)
    requires run.Legal(cfg) && i < |run.states| && j < k < |run.states[i].sessions|
    ensures run.states[i].sessions[j].flow != run.states[i].sessions[k].flow
    ensures run.states[i].sessions[j].code != run.states[i].sessions[k].code
  {
    RunInv(cfg, run, i);
    assert SessionsInv(cfg, run.states[i]);
  }

  /** Every session was made in the browser that started its flow, for a code issued for its own request as
      far as challenge and nonce bind them. */
  lemma SessionsAreOwn(cfg: Config, run: Run, i: nat, r: SessionRecord)
    requires run.Legal(cfg) && i < |run.states| && r in run.states[i].sessions
    ensures var s := run.states[i];
      && r.flow in s.flows && r.browser == s.flows[r.flow].browser
      && r.code in s.codes && s.codes[r.code].redeemed && Bound(cfg, s.codes[r.code], s.flows[r.flow])
  {
    RunInv(cfg, run, i);
    assert SessionOk(cfg, run.states[i], r);
  }

  /** A started flow that can still be completed. */
  predicate Open(s: State, c: Ciphertext) {
    c in s.flows && c !in s.consumed && s.now <= s.flows[c].startedAt + STATE_LIFETIME
  }

  /** The event is a callback for this flow from its own browser. */
  predicate Presents(s: State, e: Event, c: Ciphertext) {
    e.Callback? && e.req.state == Some(c) && c in s.flows && s.flows[c].browser == e.browser
  }

  /** A step that is not the flow's own callback neither consumes the flow nor touches its cookie. */
  lemma OthersLeaveItAlone(cfg: Config, s: State, e: Event, t: State, c: Ciphertext)
    requires Inv(cfg, s) && Step(cfg, s, e, t) && c in s.flows && !Presents(s, e, c)
    ensures c in t.flows && t.flows[c] == s.flows[c] && (c in t.consumed <==> c in s.consumed)
    ensures Same(s.jar, t.jar, IdOf(cfg, s.flows[c]))
  {
    hide UnsealState, SealState, FlowOk, NeverLogin, Fresh, GoodReply, Served, LoginReply, CallbackReply;
    StepKeepsInv(cfg, s, e, t);
    if e.Login? {
      ServedKeepsRest(cfg, s, e.browser, LoginReply(cfg, e.url, e.isChallenge, e.relay, e.draws, s.now), e.draws);
    } else if e.Callback? {
      ServedKeepsRest(cfg, s, e.browser, CallbackReply(cfg, e.req, e.answer, e.draws), e.draws);
    }
    assert CookieOk(cfg, s.jar, s.flows[c], c in s.consumed) && CookieOk(cfg, t.jar, t.flows[c], c in t.consumed);
  }

  /** So a flow stays open, whatever the other flows do in between, for its ten minutes. */
  lemma {:induction false} StaysOpen(cfg: Config, run: Run, i: nat, j: nat, c: Ciphertext)
    requires run.Legal(cfg) && i <= j < |run.states| && Open(run.states[i], c)
    requires forall k | i <= k < j :: !Presents(run.states[k], run.events[k], c)
    requires run.states[j].now <= run.states[i].flows[c].startedAt + STATE_LIFETIME
    ensures Open(run.states[j], c) && run.states[j].flows[c] == run.states[i].flows[c]
    decreases j - i
  {
    if i < j {
      RunInv(cfg, run, i);
      NowGrows(cfg, run, i + 1, j);
      hide Inv, Step;
      assert Step(cfg, run.states[i], run.events[i], run.states[i + 1]);
      OthersLeaveItAlone(cfg, run.states[i], run.events[i], run.states[i + 1], c);
      StaysOpen(cfg, run, i + 1, j, c);
    }
  }

  lemma {:induction false} NowGrows(cfg: Config, run: Run, i: nat, j: nat)
    requires run.Legal(cfg) && i <= j < |run.states|
    ensures run.states[i].now <= run.states[j].now
    decreases j - i
  {
    if i < j {
      RunInv(cfg, run, i);
      hide Inv, Step;
      StepKeepsInv(cfg, run.states[i], run.events[i], run.states[i + 1]);
      NowGrows(cfg, run, i + 1, j);
    }
  }

  /** The provider issued this code for the flow's request, and it is unused. */
  predicate GrantedFor(s: State, code: string, f: Flow) {
    code in s.codes && s.codes[code] == Grant(f.request.nonce, f.request.challenge, false)
  }

  lemma OpenReply(cfg: Config, s: State, c: Ciphertext, req: CallbackRequest, a: Answer, d: Draws)
    requires FlowsInv(cfg, s) && JarInv(cfg, s) && Open(s, c)
    requires req.state == Some(c) && req.now == s.now && Sends(s, s.flows[c].browser, req.cookies) && req.code != ""
    requires a.token == Some(Token(s.flows[c].request.nonce)) && a.valid && a.userInfo && a.authTimeFresh && a.fits
    ensures MadeSession(CallbackReply(cfg, req, a, d)) && Consumes(cfg, s, s.flows[c].browser, req)
    ensures CallbackReply(cfg, req, a, d).exchange == Some(Exchange(req.code, OwnVerifier(cfg, s.flows[c])))
  {
    var f := s.flows[c];
    hide UnsealState, NeverLogin, CallbackReply, CsrfCookieName, FlowsInv, JarInv;
    assert FlowOk(cfg, c, f) && CookieOk(cfg, s.jar, f, false) by { FlowFacts(cfg, s, c); }
    assert UnsealState(c, cfg.secret, s.now) == Ok(f.state);
    assert CsrfHolds(cfg, req.cookies, f.state.csrf) by { assert IdOf(cfg, f) in s.jar; }
    hide Sends;
    CallbackSession(cfg, req, a, d);
  }

  lemma FlowFacts(cfg: Config, s: State, c: Ciphertext)
    requires FlowsInv(cfg, s) && JarInv(cfg, s) && c in s.flows
    ensures FlowOk(cfg, c, s.flows[c]) && CookieOk(cfg, s.jar, s.flows[c], c in s.consumed)
  {
  }

  /** An open flow completes: its browser, its state and a code of its own make a session as soon as the
      provider answers with a good token, and the token request carries the flow's verifier. */
  lemma OpenFlowCompletes(cfg: Config, s: State, c: Ciphertext, req: CallbackRequest, a: Answer, d: Draws)
    requires Inv(cfg, s) && Open(s, c) && Fresh(s, d)
    requires req.state == Some(c) && req.now == s.now && Sends(s, s.flows[c].browser, req.cookies)
    requires req.code != "" && GrantedFor(s, req.code, s.flows[c])
    requires a.token == Some(Token(s.flows[c].request.nonce)) && a.valid && a.userInfo && a.authTimeFresh && a.fits
    ensures var browser := s.flows[c].browser;
      var t := AfterCallback(cfg, s, browser, req, a, d);
      && Step(cfg, s, Callback(browser, req, a, d), t)
      && t.sessions == s.sessions + [SessionRecord(c, browser, req.code)]
      && t.exchanges == s.exchanges + [ExchangeRecord(c, Exchange(req.code, OwnVerifier(cfg, s.flows[c])))]
  {
    hide UnsealState, NeverLogin, Fresh, Sends, Served, CallbackReply, CookieOk, MadeSession;
    FlowFacts(cfg, s, c);
    OpenReply(cfg, s, c, req, a, d);
    hide FlowsInv, JarInv, OwnersInv, ExchangesInv, SessionsInv;
    OwnCodeAgrees(cfg, s, c, req.code);
    ServedKeepsRest(cfg, s, s.flows[c].browser, CallbackReply(cfg, req, a, d), d);
  }

  lemma OwnCodeAgrees(cfg: Config, s: State, c: Ciphertext, code: string)
    requires c in s.flows && FlowOk(cfg, c, s.flows[c]) && GrantedFor(s, code, s.flows[c])
    ensures ProviderAgrees(s, Exchange(code, OwnVerifier(cfg, s.flows[c])), Token(s.flows[c].request.nonce))
  {
    hide UnsealState;
  }

  /** In any legal run, a flow open at i is completed by its own callback at any later j within its ten
      minutes, whatever flows were started or completed, successfully or not, in between. */
  lemma StartedFlowCompletes(cfg: Config, run: Run, i: nat, j: nat, c: Ciphertext, req: CallbackRequest, a: Answer, d: Draws)
    requires run.Legal(cfg) && i <= j < |run.states| && Open(run.states[i], c)
    requires forall k | i <= k < j :: !Presents(run.states[k], run.events[k], c)
    requires var s, f := run.states[j], run.states[i].flows[c];
      && s.now <= f.startedAt + STATE_LIFETIME && Fresh(s, d)
      && req.state == Some(c) && req.now == s.now && Sends(s, f.browser, req.cookies)
      && req.code != "" && GrantedFor(s, req.code, f)
      && a.token == Some(Token(f.request.nonce)) && a.valid && a.userInfo && a.authTimeFresh && a.fits
    ensures var s, f := run.states[j], run.states[i].flows[c];
      var t := AfterCallback(cfg, s, f.browser, req, a, d);
      && Step(cfg, s, Callback(f.browser, req, a, d), t)
      && t.sessions == s.sessions + [SessionRecord(c, f.browser, req.code)]
      && t.exchanges == s.exchanges + [ExchangeRecord(c, Exchange(req.code, OwnVerifier(cfg, f)))]
  {
    StaysOpen(cfg, run, i, j, c);
    RunInv(cfg, run, j);
    hide Inv, Step, AfterCallback, Sends, Fresh, Open, Presents, OwnVerifier;
    var s := run.states[j];
    assert s.flows[c] == run.states[i].flows[c];
    OpenFlowCompletes(cfg, s, c, req, a, d);
  }
}
