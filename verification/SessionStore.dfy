/** One session and everything a request does to it: sealing and opening the ticket
    (src/session/cookieSessionStorage.go), validation (src/session.go), and the decision to re-seal
    (sessionWriteTracker, sessionStoreDue and the authenticated path of ServeHTTP in src/main.go).

    Every time.Now and time.Since of one request is the one reading `now`. What the identity provider
    answers is an input. */
module SessionStore {
  import opened Common
  import opened Sealing
  import LoginState

  // ---------------------------------------------------------------------------
  // The session and its ticket
  // ---------------------------------------------------------------------------

  datatype Session = Session(
    id: string,
    refreshedAt: Time,
    accessToken: string,
    idToken: string,
    refreshToken: string,
    isAuthorized: bool,
    tokenExpiresIn: int,
    challengeAttempted: bool,
    createdAt: Time,   // 0: sealed before the bounds existed
    lastUsedAt: Time)

  /** json.Marshal; no field is omitted when empty. */
  function Marshal(s: Session): JsonObject {
    map[Id := JString(s.id), RefreshedAt := JTime(s.refreshedAt), AccessToken := JString(s.accessToken),
        IdToken := JString(s.idToken), RefreshToken := JString(s.refreshToken), IsAuthorized := JBool(s.isAuthorized),
        TokenExpiresIn := JInt(s.tokenExpiresIn), ChallengeAttempted := JBool(s.challengeAttempted),
        CreatedAt := JTime(s.createdAt), LastUsedAt := JTime(s.lastUsedAt)]
  }

  function Unmarshal(f: JsonObject): Option<Session> {
    var id, refreshed, access, idTok := GetString(f, Id), GetTime(f, RefreshedAt), GetString(f, AccessToken), GetString(f, IdToken);
    var refresh, authorized, expiresIn := GetString(f, RefreshToken), GetBool(f, IsAuthorized), GetInt(f, TokenExpiresIn);
    var challenged, created, used := GetBool(f, ChallengeAttempted), GetTime(f, CreatedAt), GetTime(f, LastUsedAt);
    if id.Some? && refreshed.Some? && access.Some? && idTok.Some? && refresh.Some? && authorized.Some? && expiresIn.Some?
       && challenged.Some? && created.Some? && used.Some?
    then Some(Session(id.value, refreshed.value, access.value, idTok.value, refresh.value, authorized.value,
                      expiresIn.value, challenged.value, created.value, used.value))
    else None
  }

  lemma MarshalRoundTrip(s: Session)
    ensures Unmarshal(Marshal(s)) == Some(s)
  {
  }

  /** A ticket of this version. */
  function Ticket(s: Session, secret: string): Ciphertext {
    Encrypt(Object(Marshal(s)), secret, ForSession)
  }

  /** A ticket sealed before purposes existed. */
  function LegacyTicket(s: Session, secret: string): Ciphertext {
    Encrypt(Object(Marshal(s)), secret, NoPurpose)
  }

  /** The session a ticket carries, before any backfill. */
  function SealedSession(ticket: Ciphertext, secret: string): Option<Session> {
    var plain := match Decrypt(ticket, secret, ForSession)
                 case Some(p) => Some(p)
                 case None => Decrypt(ticket, secret, NoPurpose);
    if plain.Some? && plain.value.Object? then Unmarshal(plain.value.fields) else None
  }

  /** The stamps StoreSession sets: the creation time once, the last use always. */
  function Stamped(s: Session, now: Time): Session {
    s.(createdAt := if s.createdAt == 0 then now else s.createdAt, lastUsedAt := now)
  }

  /** The in-memory backfill of TryGetSession. */
  function Backfilled(s: Session, now: Time): Session {
    var created := if s.createdAt != 0 then s.createdAt else if s.lastUsedAt != 0 then s.lastUsedAt else now;
    s.(createdAt := created, lastUsedAt := if s.lastUsedAt == 0 then created else s.lastUsedAt)
  }

  /** What TryGetSession yields. */
  function Opened(ticket: Ciphertext, secret: string, now: Time): Option<Session> {
    match SealedSession(ticket, secret)
    case None => None
    case Some(s) => Some(Backfilled(s, now))
  }

  /** A ticket opens to the session that was sealed. */
  lemma TicketRoundTrip(s: Session, secret: string)
    ensures SealedSession(Ticket(s, secret), secret) == Some(s)
    ensures SealedSession(LegacyTicket(s, secret), secret) == Some(s)
  {
    hide Marshal, Unmarshal;
    MarshalRoundTrip(s);
  }

  /** No session ticket, of this version or legacy, opens as a login state. */
  lemma SessionNeverOpensAsState(s: Session, secret: string, now: Time)
    ensures LoginState.UnsealState(Ticket(s, secret), secret, now) == Err(LoginState.NotOpened)
    ensures LoginState.UnsealState(LegacyTicket(s, secret), secret, now) == Err(LoginState.NotOpened)
  {
    assert Action !in Marshal(s);
  }

  /** No sealed state and no encrypted PKCE verifier ever opens as a session. */
  lemma StateNeverOpensAsSession(s: LoginState.OidcState, verifier: string, secret: string, sealedAt: Time, now: Time)
    ensures Opened(LoginState.SealState(s, secret, sealedAt), secret, now) == None
    ensures Opened(Encrypt(Text(verifier), secret, NoPurpose), secret, now) == None
  {
  }

  /** A state sealed by a version without purposes is the one thing that crosses over: read as a session it
      is all zero, tokens and id included. */
  lemma LegacyStateOpensEmpty(s: LoginState.OidcState, secret: string, now: Time)
    ensures Opened(Encrypt(Object(LoginState.Marshal(s)), secret, NoPurpose), secret, now)
         == Some(Session("", 0, "", "", "", false, 0, false, now, now))
  {
    var f := LoginState.Marshal(s);
    assert Id !in f && RefreshedAt !in f && AccessToken !in f && IdToken !in f && RefreshToken !in f;
    assert IsAuthorized !in f && TokenExpiresIn !in f && ChallengeAttempted !in f && CreatedAt !in f && LastUsedAt !in f;
    hide LoginState.Marshal;
  }

  // ---------------------------------------------------------------------------
  // The mutable session object
  // ---------------------------------------------------------------------------

  class SessionState {
    var id: string
    var refreshedAt: Time
    var accessToken: string
    var idToken: string
    var refreshToken: string
    var isAuthorized: bool
    var tokenExpiresIn: int
    var challengeAttempted: bool
    var createdAt: Time
    var lastUsedAt: Time

    function Value(): Session
      reads this
    {
      Session(id, refreshedAt, accessToken, idToken, refreshToken, isAuthorized, tokenExpiresIn, challengeAttempted,
              createdAt, lastUsedAt)
    }

    constructor (s: Session)
      ensures Value() == s
    {
      id, refreshedAt, accessToken, idToken := s.id, s.refreshedAt, s.accessToken, s.idToken;
      refreshToken, isAuthorized, tokenExpiresIn := s.refreshToken, s.isAuthorized, s.tokenExpiresIn;
      challengeAttempted, createdAt, lastUsedAt := s.challengeAttempted, s.createdAt, s.lastUsedAt;
    }
  }

  /** StoreSession. `fits`: the sealed ticket is within the cookie budget. The stamps stay on the passed
      object even when the ticket is refused. */
  method StoreSession(state: SessionState, secret: string, now: Time, fits: bool) returns (ticket: Option<Ciphertext>)
    modifies state
    ensures state.Value() == Stamped(old(state.Value()), now)
    ensures ticket == if fits then Some(Ticket(state.Value(), secret)) else None
  {
    if state.createdAt == 0 {
      state.createdAt := now;
    }
    state.lastUsedAt := now;
    var sealed := Ticket(state.Value(), secret);
    return if fits then Some(sealed) else None;
  }

  /** TryGetSession. */
  method TryGetSession(ticket: Ciphertext, secret: string, now: Time) returns (state: SessionState?)
    ensures (state == null) <==> Opened(ticket, secret, now).None?
    ensures state != null ==> fresh(state) && Some(state.Value()) == Opened(ticket, secret, now)
  {
    hide Unmarshal;
    var plain := Decrypt(ticket, secret, ForSession);
    if plain.None? {
      plain := Decrypt(ticket, secret, NoPurpose);
    }
    if plain.None? || !plain.value.Object? { return null; }
    var decoded := Unmarshal(plain.value.fields);
    if decoded.None? { return null; }
    state := new SessionState(decoded.value);
    if state.createdAt == 0 {
      state.createdAt := state.lastUsedAt;
      if state.createdAt == 0 {
        state.createdAt := now;
      }
    }
    if state.lastUsedAt == 0 {
      state.lastUsedAt := state.createdAt;
    }
  }

  // ---------------------------------------------------------------------------
  // Validation
  // ---------------------------------------------------------------------------

  /** The configured bounds, in seconds; 0 or less disables a bound. */
  datatype Bounds = Bounds(maxLifetime: int, idle: int)

  predicate WithinLifetime(b: Bounds, s: Session, now: Time) {
    b.maxLifetime > 0 && s.createdAt != 0 ==> now - s.createdAt <= b.maxLifetime * SECOND
  }

  predicate WithinIdle(b: Bounds, s: Session, now: Time) {
    b.idle > 0 && s.lastUsedAt != 0 ==> now - s.lastUsedAt <= b.idle * SECOND
  }

  /** What validateToken returns: its bool, and whether its error is non-nil. */
  datatype TokenCheck = TokenCheck(ok: bool, failed: bool)

  datatype NewTokens = NewTokens(accessToken: string, refreshToken: string, idToken: string, expiresIn: int)

  /** The provider's answers during one validation: the first check, whether the renewal threshold has
      passed, the refresh grant, and the check of the renewed tokens. */
  datatype Answers = Answers(check: TokenCheck, pastThreshold: bool, renewal: Option<NewTokens>, recheck: TokenCheck)

  datatype Validation =
    | Refused                          // a non-nil error
    | NeitherSessionNorError           // nil session, nil error
    | Accepted(session: Session)
    | Renewed(session: Session)

  function WithTokens(s: Session, t: NewTokens): Session {
    s.(accessToken := t.accessToken,
       refreshToken := if t.refreshToken != "" then t.refreshToken else s.refreshToken,
       idToken := if t.idToken != "" then t.idToken else s.idToken)
  }

  predicate RenewalWanted(s: Session, a: Answers) {
    !a.check.ok || a.check.failed || (s.tokenExpiresIn > 0 && a.pastThreshold)
  }

  /** The outcome of validating an opened session. */
  function Validated(s: Session, b: Bounds, now: Time, a: Answers): Validation {
    if !WithinLifetime(b, s, now) || !WithinIdle(b, s, now) then Refused
    else if !RenewalWanted(s, a) then Accepted(s.(lastUsedAt := now))
    else if s.refreshToken == "" || a.renewal.None? then Refused
    else if a.recheck.failed then Refused
    else if !a.recheck.ok then NeitherSessionNorError
    else Renewed(WithTokens(s, a.renewal.value).(refreshedAt := now, tokenExpiresIn := a.renewal.value.expiresIn))
  }

  function ValidatedTicket(ticket: Ciphertext, secret: string, b: Bounds, now: Time, a: Answers): Validation {
    match Opened(ticket, secret, now)
    case None => Refused
    case Some(s) => Validated(s, b, now, a)
  }

  /** The results of validateSessionTicket: session, updated session, and whether the error is non-nil. */
  method ValidateSessionTicket(ticket: Ciphertext, secret: string, b: Bounds, now: Time, a: Answers)
    returns (sess: SessionState?, updated: SessionState?, failed: bool)
    ensures var v := ValidatedTicket(ticket, secret, b, now, a);
      && failed == v.Refused?
      && (sess != null <==> v.Accepted? || v.Renewed?)
      && (v.Renewed? || v.NeitherSessionNorError? ==> updated != null) && (v.Accepted? ==> updated == null)
      && (sess != null ==> fresh(sess) && sess.Value() == v.session)
  {
    hide SealedSession;
    var state := TryGetSession(ticket, secret, now);
    if state == null { return null, null, true; }
    if !WithinLifetime(b, state.Value(), now) || !WithinIdle(b, state.Value(), now) { return null, null, true; }
    var expiresSoon := false;
    if a.check.ok {
      expiresSoon := state.tokenExpiresIn > 0 && a.pastThreshold;
    }
    if !a.check.ok || a.check.failed || expiresSoon {
      if state.refreshToken != "" {
        if a.renewal.None? { return null, null, true; }
        var t := a.renewal.value;
        state.accessToken := t.accessToken;
        if t.refreshToken != "" { state.refreshToken := t.refreshToken; }
        if t.idToken != "" { state.idToken := t.idToken; }
        if !a.recheck.ok || a.recheck.failed { return null, state, a.recheck.failed; }
        state.refreshedAt := now;
        state.tokenExpiresIn := t.expiresIn;
        return state, state, false;
      }
      return null, null, true;
    }
    state.lastUsedAt := now;
    return state, null, false;
  }

  /** The empty session of a state sealed without purpose: nothing can renew it, so it is accepted exactly when
      the provider's check passes an empty token, and refused otherwise. */
  lemma LegacyStateNeedsTheProvider(s: LoginState.OidcState, secret: string, b: Bounds, now: Time, a: Answers)
    ensures ValidatedTicket(Encrypt(Object(LoginState.Marshal(s)), secret, NoPurpose), secret, b, now, a)
         == if a.check == TokenCheck(true, false) then Accepted(Session("", 0, "", "", "", false, 0, false, now, now))
            else Refused
  {
    LegacyStateOpensEmpty(s, secret, now);
    hide Opened;
    assert b.maxLifetime > 0 ==> b.maxLifetime * SECOND >= 0;
    assert b.idle > 0 ==> b.idle * SECOND >= 0;
  }

  /** What ServeHTTP does once validation has answered, on a route that is not login or callback.
      Logging calls Error() on the error, which is nil when there is neither session nor error. */
  datatype Dispatch = Serve(session: Session, renewed: bool) | ForwardPublic | LoggedOutPage | ClearAndAskLogin | NilDereference

  function Dispatched(v: Validation, isPublic: bool, frontChannelRoute: bool): Dispatch {
    if v.Accepted? || v.Renewed? then Serve(v.session, v.Renewed?)
    else if isPublic then ForwardPublic
    else if frontChannelRoute then LoggedOutPage
    else if v.Refused? then ClearAndAskLogin
    else NilDereference
  }

  /** A request with a session ticket makes ServeHTTP dereference a nil error exactly when an otherwise
      valid session had to be renewed, the renewal succeeded, and the provider then reported the renewed
      token inactive without an error; the route being neither public nor the front-channel one. */
  lemma NilDereferenceExactly(ticket: Ciphertext, secret: string, b: Bounds, now: Time, a: Answers,
                              isPublic: bool, frontChannelRoute: bool)
    ensures Dispatched(ValidatedTicket(ticket, secret, b, now, a), isPublic, frontChannelRoute) == NilDereference
       <==> && !isPublic && !frontChannelRoute
            && Opened(ticket, secret, now).Some?
            && var s := Opened(ticket, secret, now).value;
               && WithinLifetime(b, s, now) && WithinIdle(b, s, now)
               && RenewalWanted(s, a) && s.refreshToken != "" && a.renewal.Some?
               && a.recheck == TokenCheck(false, false)
  {
    hide Opened;
  }

  /** One such request: a session whose token has expired, renewed, and the new token introspected as
      inactive. */
  lemma NilDereferenceReachable(secret: string, now: Time)
    ensures var s := Session("id", 1, "old", "", "refresh", true, 0, false, 1, 1);
      var a := Answers(TokenCheck(false, false), false, Some(NewTokens("new", "", "", 60)), TokenCheck(false, false));
      Dispatched(ValidatedTicket(Ticket(s, secret), secret, Bounds(0, 0), now, a), false, false) == NilDereference
  {
    var s := Session("id", 1, "old", "", "refresh", true, 0, false, 1, 1);
    TicketRoundTrip(s, secret);
    hide SealedSession, Ticket;
    assert "refresh" != "" by { assert |"refresh"| > 0; }
  }

  // ---------------------------------------------------------------------------
  // When to write the ticket again
  // ---------------------------------------------------------------------------

  const MAX_TRACKED_SESSIONS: nat := 20000

  datatype Tracker = Tracker(last: map<string, Time>, count: nat)

  const EMPTY_TRACKER := Tracker(map[], 0)

  /** mark: the map is dropped wholesale when it is full. */
  function Marked(t: Tracker, id: string, now: Time): Tracker {
    if t.count >= MAX_TRACKED_SESSIONS then Tracker(map[id := now], 1)
    else Tracker(t.last[id := now], t.count + 1)
  }

  class SessionWriteTracker {
    var last: map<string, Time>
    var count: nat

    function Value(): Tracker reads this { Tracker(last, count) }

    constructor () ensures Value() == EMPTY_TRACKER { last, count := map[], 0; }

    method Mark(id: string, now: Time)
      modifies this
      ensures Value() == Marked(old(Value()), id, now)
    {
      if count >= MAX_TRACKED_SESSIONS {
        last := map[];
        count := 0;
      }
      last := last[id := now];
      count := count + 1;
    }
  }

  /** The pseudo-sessions of custom headers and cookies are never stored. */
  predicate Storable(id: string) {
    id != "" && id != "AuthorizationHeader" && id != "AuthorizationCookie"
  }

  /** The refresh interval in seconds: a quarter of the idle bound, kept in 1..60. */
  function Interval(idle: nat): (i: nat)
    ensures 1 <= i <= 60 && (idle > 0 ==> i <= idle)
  {
    if idle / 4 > 60 then 60 else if idle / 4 <= 0 then 1 else idle / 4
  }

  /** sessionIdleRefreshDue. */
  predicate IdleRefreshDue(t: Tracker, b: Bounds, id: string, now: Time) {
    && Storable(id) && b.idle > 0
    && (id in t.last ==> now - t.last[id] >= Interval(b.idle) * SECOND)
  }

  /** sessionLifetimeStampDue. */
  predicate LifetimeStampDue(t: Tracker, b: Bounds, id: string) {
    b.maxLifetime > 0 && Storable(id) && id !in t.last
  }

  /** sessionStoreDue. */
  predicate StoreDue(t: Tracker, b: Bounds, id: string, renewed: bool, now: Time) {
    renewed || IdleRefreshDue(t, b, id, now) || LifetimeStampDue(t, b, id)
  }

  /** What the authenticated path of ServeHTTP does with an accepted session: whether the request is
      forwarded, the ticket it sets if any, and the tracker afterwards. */
  datatype Forwarding = Forwarding(forwarded: bool, ticket: Option<Session>, tracker: Tracker)

  function Forwarded(t: Tracker, b: Bounds, s: Session, renewed: bool, now: Time, fits: bool): Forwarding {
    if !StoreDue(t, b, s.id, renewed, now) then Forwarding(true, None, t)
    else if !fits then Forwarding(false, None, t)
    else Forwarding(true, Some(Stamped(s, now)), Marked(t, s.id, now))
  }

  /** The end of ServeHTTP (src/main.go:443-455) on the real objects: a ticket that cannot be sealed ends
      the request with a 500 before it is forwarded or marked. */
  method ForwardAuthenticated(tracker: SessionWriteTracker, sess: SessionState, secret: string, b: Bounds,
                              renewed: bool, now: Time, fits: bool)
    returns (forwarded: bool, cookie: Option<Ciphertext>)
    modifies tracker, sess
    ensures var f := Forwarded(old(tracker.Value()), b, old(sess.Value()), renewed, now, fits);
      && forwarded == f.forwarded && tracker.Value() == f.tracker
      && cookie == (if f.ticket.Some? then Some(Ticket(f.ticket.value, secret)) else None)
  {
    cookie := None;
    if StoreDue(tracker.Value(), b, sess.id, renewed, now) {
      cookie := StoreSession(sess, secret, now, fits);
      if cookie.None? { return false, None; }
      tracker.Mark(sess.id, now);
    }
    forwarded := true;
  }
}
