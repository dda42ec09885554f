/** Where a browser ends up when it follows every redirect: the authenticated path of ServeHTTP, handleLogin,
    handleUnauthenticated, handleUnauthorized and handleCallback (src/main.go) as one chain of hops.

    A hop that fails only ends the chain earlier. A session made during the chain is accepted on its later
    requests; one the browser already had may be accepted or not. */
module ChallengeRedirects {
  import opened Common
  import opened LoginHandlers
  import Sealing
  import LoginState

  // ---------------------------------------------------------------------------
  // The site and the chain
  // ---------------------------------------------------------------------------

  /** What a URL is to this middleware. */
  datatype Kind = Protected | Public | Elsewhere | LoginRoute | LogoutRoute

  datatype Unauthenticated = AskLogin | AskLoginIfHtml | NoLogin

  datatype Site = Site(
    kind: string -> Kind,
    redirectUri: string -> Option<string>,   // an allowed redirect_uri in the query of a URL
    postLogin: Option<string>,               // post_login_redirect_uri, made absolute
    afterLogout: string -> string,           // where a logout request leads: its redirect_uri or the configured one
    root: string,
    unauthenticated: Unauthenticated,
    unauthorized: Behavior,
    checkOnEveryRequest: bool,
    html: bool)                              // the browser asks for pages

  datatype Session =
    | NoSession
    | Earlier(attempted: bool, authorized: bool)   // from before the chain
    | Made(attempted: bool, authorized: bool)      // by a callback of the chain

  datatype Position =
    | AtPage(url: string)
    | AtRelay(target: string, isChallenge: bool)
    | AtProvider(target: string, isChallenge: bool)
    | AtCallback(target: string, isChallenge: bool)
    | AtEndSession(url: string)
    | AtLogoutCallback(url: string)
    | Ended

  datatype Chain = Chain(at: Position, session: Session, trips: nat)

  /** What a hop leaves open: whether an earlier session is accepted, what the claim assertions say now,
      and whether the host needs the double redirect. */
  datatype Choice = Choice(accepted: bool, authorized: bool, relay: bool)

  /** The post-login target handleLogin computes on a page. */
  function Target(site: Site, url: string): string {
    if site.kind(url).LoginRoute? && site.redirectUri(url).Some? then site.redirectUri(url).value
    else if site.postLogin.Some? then site.postLogin.value
    else if site.kind(url).LoginRoute? then site.root
    else url
  }

  /** redirectToProvider or doubleRedirectToProvider. */
  function ToLogin(c: Chain, target: string, isChallenge: bool, relay: bool): Chain {
    if relay then c.(at := AtRelay(target, isChallenge))
    else c.(at := AtProvider(target, isChallenge), trips := c.trips + 1)
  }

  function End(c: Chain): Chain {
    c.(at := Ended)
  }

  predicate Accepted(session: Session, choice: Choice) {
    session.Made? || (session.Earlier? && choice.accepted)
  }

  /** handleUnauthorized: challenge once. */
  function Challenged(site: Site, c: Chain, attempted: bool, target: string, relay: bool): Chain {
    if site.unauthorized.ChallengeAgain? && !attempted && site.html then ToLogin(c, target, true, relay) else End(c)
  }

  function PageHop(site: Site, c: Chain, url: string, choice: Choice): Chain {
    if site.kind(url).Elsewhere? then End(c)
    else if site.kind(url).LoginRoute? then ToLogin(c, Target(site, url), false, choice.relay)
    else if Accepted(c.session, choice) then
      if site.kind(url).LogoutRoute? then c.(at := AtEndSession(site.afterLogout(url)))
      else
        var authorized := if site.checkOnEveryRequest then choice.authorized else c.session.authorized;
        if authorized || site.unauthorized.ForwardAnyway? then End(c)
        else Challenged(site, c, c.session.attempted, Target(site, url), choice.relay)
    else if site.kind(url).Public? then End(c)
    else
      var cleared := c.(session := NoSession);
      if site.unauthenticated.AskLogin? || (site.unauthenticated.AskLoginIfHtml? && site.html)
      then ToLogin(cleared, Target(site, url), false, choice.relay)
      else End(cleared)
  }

  function CallbackHop(site: Site, c: Chain, target: string, isChallenge: bool, choice: Choice): Chain {
    var made := c.(session := Made(isChallenge, choice.authorized));
    if choice.authorized || site.unauthorized.ForwardAnyway? then made.(at := AtPage(target))
    else Challenged(site, made, isChallenge, target, choice.relay)
  }

  function Hop(site: Site, c: Chain, choice: Choice): Chain {
    match c.at
    case AtPage(url) => PageHop(site, c, url, choice)
    case AtRelay(target, isChallenge) => ToLogin(c, target, isChallenge, false)
    case AtProvider(target, isChallenge) => c.(at := AtCallback(target, isChallenge))
    case AtCallback(target, isChallenge) => CallbackHop(site, c, target, isChallenge, choice)
    case AtEndSession(url) => c.(at := AtLogoutCallback(url))
    case AtLogoutCallback(url) => Chain(AtPage(url), NoSession, c.trips)
    case Ended => c
  }

  function Follow(site: Site, c: Chain, choices: seq<Choice>): Chain
    decreases |choices|
  {
    if choices == [] then c else Follow(site, Hop(site, c, choices[0]), choices[1..])
  }

  // ---------------------------------------------------------------------------
  // The hops are the handlers'
  // ---------------------------------------------------------------------------

  /** The callback hop is what handleCallback answers once it makes a session. */
  lemma CallbackHopIsReply(site: Site, cfg: Config, req: CallbackRequest, s: LoginState.OidcState, a: Answer, d: Draws, c: Chain, accepted: bool)
    requires site.unauthorized == cfg.unauthorized && site.html == req.html
    requires MakesSession(cfg, req, s, a) && cfg.endpointParses && d.csrf.Some? && d.nonce.Some? && d.verifier.Some? && d.seals
    requires s.redirectUrl != "" && cfg.hasAllowList ==> a.redirectAllowed
    ensures var reply := LoginCallbackReply(cfg, req, s, a, d);
      var target := Absolute(req.host, if s.redirectUrl != "" then s.redirectUrl else cfg.postLogin);
      var next := CallbackHop(site, c, target, s.isChallenge, Choice(accepted, a.authorized, req.relay));
      && SessionCookie(NewSession(next.session.attempted, next.session.authorized)) in reply.cookies
      && match next.at
         case AtPage(url) => reply.location == ToUrl(url)
         case AtProvider(url, isChallenge) =>
           reply.location == ProviderReply(cfg, url, isChallenge, d, req.now).location && reply.location.ToProvider?
         case AtRelay(url, isChallenge) => reply.location == RelayReply(cfg, url, isChallenge, d, req.now).location
         case Ended => reply.location == Nowhere && reply.status == 403
         case _ => false
  {
    hide LoginStateOf, RelayStateOf, CsrfHolds, Presented, Absolute, CsrfCookieName;
    assert LoginCallbackReply(cfg, req, s, a, d).cookies[0].SessionCookie?;
  }

  // ---------------------------------------------------------------------------
  // Exactly how many trips a chain can take
  // ---------------------------------------------------------------------------

  /** A request without a session is sent to the provider. */
  predicate Asks(site: Site) {
    site.unauthenticated.AskLogin? || (site.unauthenticated.AskLoginIfHtml? && site.html)
  }

  /** An unauthorized session is challenged. */
  predicate Challenges(site: Site) {
    site.unauthorized.ChallengeAgain? && site.html
  }

  /** The session may be found unauthorized on a page and challenged there. */
  predicate Challengeable(site: Site, attempted: bool, authorized: bool) {
    Challenges(site) && !attempted && (site.checkOnEveryRequest || !authorized)
  }

  /** Without a session the chain ends on this page. */
  predicate Calm(site: Site, url: string) {
    match site.kind(url)
    case Elsewhere => true
    case Public => true
    case LoginRoute => false
    case _ => !Asks(site)
  }

  /** At most k trips follow on a page visited without a session. */
  predicate AnonymousAllows(site: Site, url: string, k: nat)
    decreases k, 1
  {
    Calm(site, url) || (k > 0 && CallbackAllows(site, Target(site, url), false, k - 1))
  }

  /** At most k trips follow on a page visited with an accepted session. */
  predicate SessionAllows(site: Site, url: string, attempted: bool, authorized: bool, k: nat)
    decreases k, 2
  {
    match site.kind(url)
    case Elsewhere => true
    case LoginRoute => k > 0 && CallbackAllows(site, Target(site, url), false, k - 1)
    case LogoutRoute => AnonymousAllows(site, site.afterLogout(url), k)
    case _ =>
      Challengeable(site, attempted, authorized) ==> k > 0 && CallbackAllows(site, Target(site, url), true, k - 1)
  }

  /** At most k trips follow on the callback. */
  predicate CallbackAllows(site: Site, target: string, isChallenge: bool, k: nat)
    decreases k, 3
  {
    && SessionAllows(site, target, isChallenge, true, k)
    && (Challenges(site) && !isChallenge ==> k > 0 && CallbackAllows(site, target, true, k - 1))
  }

  /** At most k trips follow. */
  predicate Allows(site: Site, c: Chain, k: nat) {
    match c.at
    case AtPage(url) =>
      && (!c.session.Made? ==> AnonymousAllows(site, url, k))
      && (!c.session.NoSession? ==> SessionAllows(site, url, c.session.attempted, c.session.authorized, k))
    case AtRelay(target, isChallenge) => k > 0 && CallbackAllows(site, target, isChallenge, k - 1)
    case AtProvider(target, isChallenge) => CallbackAllows(site, target, isChallenge, k)
    case AtCallback(target, isChallenge) => CallbackAllows(site, target, isChallenge, k)
    case AtEndSession(url) => AnonymousAllows(site, url, k)
    case AtLogoutCallback(url) => AnonymousAllows(site, url, k)
    case Ended => true
  }

  /** Progress between two trips. */
  function Rank(c: Chain): (r: nat)
    ensures r < 8
  {
    match c.at
    case Ended => 0
    case AtRelay(_, _) => 1
    case AtPage(_) => if c.session.NoSession? then 2 else 5
    case AtLogoutCallback(_) => 3
    case AtEndSession(_) => 4
    case AtCallback(_, _) => 6
    case AtProvider(_, _) => 7
  }

  /** A hop takes no trip and lowers the rank, or takes one trip out of the k allowed. */
  lemma HopSpends(site: Site, c: Chain, choice: Choice, k: nat)
    requires Allows(site, c, k)
    ensures var next := Hop(site, c, choice);
      || (c.at.Ended? && next == c)
      || (next.trips == c.trips && Allows(site, next, k) && Rank(next) < Rank(c))
      || (next.trips == c.trips + 1 && k > 0 && Allows(site, next, k - 1))
  {
    if c.at.AtCallback? {
      var target, isChallenge := c.at.target, c.at.isChallenge;
      assert SessionAllows(site, target, isChallenge, true, k);
      assert !Challenges(site) ==> SessionAllows(site, target, isChallenge, false, k);
    }
  }

  lemma {:induction false} EndedStays(site: Site, c: Chain, choices: seq<Choice>)
    requires c.at.Ended?
    ensures Follow(site, c, choices) == c
    decreases |choices|
  {
    if choices != [] { EndedStays(site, c, choices[1..]); }
  }

  /** A chain that may take at most k more trips takes no more, and has ended after 8k + 7 hops. */
  lemma {:induction false} BoundedChainsEnd(site: Site, c: Chain, choices: seq<Choice>, k: nat)
    requires Allows(site, c, k)
    ensures Follow(site, c, choices).trips <= c.trips + k
    ensures |choices| >= 8 * k + Rank(c) ==> Follow(site, c, choices).at.Ended?
    decreases |choices|
  {
    hide Allows;
    if c.at.Ended? {
      EndedStays(site, c, choices);
    } else if choices != [] {
      hide Hop;
      HopSpends(site, c, choices[0], k);
      var next := Hop(site, c, choices[0]);
      if next.trips == c.trips {
        BoundedChainsEnd(site, next, choices[1..], k);
      } else {
        BoundedChainsEnd(site, next, choices[1..], k - 1);
      }
    }
  }

  /** Where more than k trips are possible, some hop keeps them possible. */
  lemma HopOverspends(site: Site, c: Chain, k: nat) returns (choice: Choice)
    requires !Allows(site, c, k)
    ensures var next := Hop(site, c, choice);
      || (next.trips == c.trips && !Allows(site, next, k) && Rank(next) < Rank(c))
      || (next.trips == c.trips + 1 && (k == 0 || !Allows(site, next, k - 1)))
  {
    match c.at
    case AtPage(url) =>
      choice := Choice(!c.session.NoSession? && !SessionAllows(site, url, c.session.attempted, c.session.authorized, k), false, false);
    case AtCallback(target, isChallenge) =>
      choice := Choice(true, !SessionAllows(site, target, isChallenge, true, k), false);
    case _ =>
      choice := Choice(true, true, false);
  }

  lemma {:induction false} ChainExceeds(site: Site, c: Chain, k: nat) returns (choices: seq<Choice>)
    requires !Allows(site, c, k)
    ensures Follow(site, c, choices).trips > c.trips + k
    decreases k, Rank(c)
  {
    hide Allows, Hop;
    var choice := HopOverspends(site, c, k);
    var next := Hop(site, c, choice);
    var rest: seq<Choice> := [];
    if next.trips == c.trips {
      rest := ChainExceeds(site, next, k);
    } else if k > 0 {
      rest := ChainExceeds(site, next, k - 1);
    }
    choices := [choice] + rest;
    assert choices[1..] == rest;
  }

  /** For every site, every place in a chain and every k: k more trips always suffice exactly when the
      site allows it. */
  lemma TripsExactly(site: Site, c: Chain, k: nat)
    ensures (forall choices :: Follow(site, c, choices).trips <= c.trips + k) <==> Allows(site, c, k)
  {
    if Allows(site, c, k) {
      forall choices { BoundedChainsEnd(site, c, choices, k); }
    } else {
      var choices := ChainExceeds(site, c, k);
      assert Follow(site, c, choices).trips > c.trips + k;
    }
  }

  // ---------------------------------------------------------------------------
  // Two trips
  // ---------------------------------------------------------------------------

  /** A target that settles once its challenge is behind it: not the login route, and the logout route only
      if what follows the logout asks for no login. */
  predicate Settles(site: Site, url: string) {
    match site.kind(url)
    case LoginRoute => false
    case LogoutRoute => Calm(site, site.afterLogout(url))
    case _ => true
  }

  /** A login with this target takes at most one further trip. With challenges the target has to settle, and
      so does the target of a challenge on it; without, one more login is affordable. */
  predicate ShortLogin(site: Site, target: string) {
    match site.kind(target)
    case Elsewhere => true
    case LoginRoute => !Challenges(site) && Settles(site, Target(site, target))
    case LogoutRoute =>
      var next := site.afterLogout(target);
      Calm(site, next) || (!Challenges(site) && Settles(site, Target(site, next)))
    case _ => Challenges(site) && site.checkOnEveryRequest ==> Settles(site, Target(site, target))
  }

  predicate ShortVisit(site: Site, url: string) {
    Calm(site, url) || ShortLogin(site, Target(site, url))
  }

  /** Two trips suffice from this page with this session, by the configuration alone. */
  predicate TwoTripsFit(site: Site, url: string, session: Session)
    requires !session.Made?
  {
    && ShortVisit(site, url)
    && (session.Earlier? ==>
          && (site.kind(url).LogoutRoute? ==> ShortVisit(site, site.afterLogout(url)))
          && (site.kind(url) in {Protected, Public} && Challengeable(site, session.attempted, session.authorized) ==>
                Settles(site, Target(site, url))))
  }

  lemma CallbackNone(site: Site, target: string, isChallenge: bool)
    ensures CallbackAllows(site, target, isChallenge, 0)
       <==> Settles(site, target) && (isChallenge || !Challenges(site))
  {
  }

  lemma CallbackOne(site: Site, target: string)
    ensures CallbackAllows(site, target, false, 1) <==> ShortLogin(site, target)
    ensures Challenges(site) ==> (CallbackAllows(site, target, true, 1) <==> Settles(site, target))
  {
    CallbackNone(site, target, true);
    CallbackNone(site, Target(site, target), true);
    CallbackNone(site, Target(site, target), false);
    CallbackNone(site, Target(site, site.afterLogout(target)), false);
  }

  /** From any page, with any earlier session or none, under any behaviours: two trips to the provider always
      suffice exactly when the configured targets fit, and then the chain has ended after 21 hops. */
  lemma TwoTripsExactly(site: Site, url: string, session: Session)
    requires !session.Made?
    ensures var start := Chain(AtPage(url), session, 0);
      && ((forall choices :: Follow(site, start, choices).trips <= 2) <==> TwoTripsFit(site, url, session))
      && (TwoTripsFit(site, url, session) ==>
            forall choices | |choices| >= 21 :: Follow(site, start, choices).at.Ended?)
  {
    var start := Chain(AtPage(url), session, 0);
    TripsExactly(site, start, 2);
    CallbackOne(site, Target(site, url));
    CallbackOne(site, Target(site, site.afterLogout(url)));
    assert Allows(site, start, 2) <==> TwoTripsFit(site, url, session);
    if TwoTripsFit(site, url, session) {
      forall choices | |choices| >= 21 ensures Follow(site, start, choices).at.Ended? {
        BoundedChainsEnd(site, start, choices, 2);
      }
    }
  }

  /** Where both behaviours challenge, a protected page or the logout route without a session: the target of
      the login has to settle, and the target of a challenge on it if assertions are checked on every request. */
  lemma ChallengingVisit(site: Site, url: string)
    requires Asks(site) && Challenges(site) && site.kind(url) in {Protected, LogoutRoute}
    ensures var target := Target(site, url);
      TwoTripsFit(site, url, NoSession) <==>
        && Settles(site, target)
        && (site.kind(target) in {Protected, Public} && site.checkOnEveryRequest ==> Settles(site, Target(site, target)))
  {
  }

  // ---------------------------------------------------------------------------
  // Chains that take more
  // ---------------------------------------------------------------------------

  lemma {:induction false} FollowSplit(site: Site, c: Chain, x: seq<Choice>, y: seq<Choice>)
    ensures Follow(site, c, x + y) == Follow(site, Follow(site, c, x), y)
    decreases |x|
  {
    if x == [] {
      assert x + y == y;
    } else {
      assert (x + y)[0] == x[0] && (x + y)[1..] == x[1..] + y;
      FollowSplit(site, Hop(site, c, x[0]), x[1..], y);
    }
  }

  const YES := Choice(true, true, false)
  const NO := Choice(true, false, false)
  const ROUND := [YES, YES, YES]
  const CHALLENGED := [YES, YES, NO]

  lemma ThreeHops(site: Site, c: Chain, last: Choice)
    ensures Follow(site, c, [YES, YES, last]) == Hop(site, Hop(site, Hop(site, c, YES), YES), last)
  {
    var two := Hop(site, Hop(site, c, YES), YES);
    assert [YES, YES, last][1..] == [YES, last] && [YES, last][1..] == [last] && [last][1..] == [];
    assert Follow(site, two, [last]) == Hop(site, two, last);
  }

  /** From a page that asks for a login to the provider and back, authorized: the browser is sent to the
      page's target with a session. Unauthorized, it is sent to the provider once more. */
  lemma LoginRound(site: Site, c: Chain, url: string)
    requires c.at == AtPage(url)
    requires || site.kind(url).LoginRoute?
             || (c.session.NoSession? && Asks(site) && site.kind(url) in {Protected, LogoutRoute})
    ensures Follow(site, c, ROUND) == Chain(AtPage(Target(site, url)), Made(false, true), c.trips + 1)
    ensures Challenges(site) ==> Follow(site, c, CHALLENGED).trips == c.trips + 2
  {
    ThreeHops(site, c, YES);
    ThreeHops(site, c, NO);
  }

  lemma LogoutRound(site: Site, c: Chain, url: string)
    requires c.at == AtPage(url) && c.session.Made? && site.kind(url).LogoutRoute?
    ensures Follow(site, c, ROUND) == Chain(AtPage(site.afterLogout(url)), NoSession, c.trips)
  {
    ThreeHops(site, c, YES);
  }

  function Rounds(n: nat): seq<Choice> {
    if n == 0 then [] else ROUND + Rounds(n - 1)
  }

  /** With post_login_redirect_uri on the login route there is no bound at all, under any behaviours: an
      authorized user is sent to the provider again and again. */
  lemma {:induction false} LoginTargetNeverEnds(site: Site, c: Chain, n: nat)
    requires site.postLogin.Some? && site.kind(site.postLogin.value).LoginRoute?
    requires site.redirectUri(site.postLogin.value).None? && c.at == AtPage(site.postLogin.value)
    ensures var end := Follow(site, c, Rounds(n));
      end.trips == c.trips + n && end.at == AtPage(site.postLogin.value)
    decreases n
  {
    if n > 0 {
      LoginRound(site, c, site.postLogin.value);
      FollowSplit(site, c, ROUND, Rounds(n - 1));
      LoginTargetNeverEnds(site, Follow(site, c, ROUND), n - 1);
    }
  }

  const LOGIN := "/login"
  const NESTED := "/login?redirect_uri=/login"
  const LOGOUT := "/logout"
  const HOME := "/"

  /** A site with default targets. */
  function Example(unauthorized: Behavior, postLogin: Option<string>): Site {
    Site(url => if url == LOGIN || url == NESTED then LoginRoute else if url == LOGOUT then LogoutRoute else Protected,
         url => if url == NESTED then Some(LOGIN) else None,
         postLogin, url => HOME, HOME, AskLogin, unauthorized, false, true)
  }

  lemma ExampleUrls()
    ensures LOGIN != NESTED && LOGOUT !in [LOGIN, NESTED] && HOME !in [LOGIN, NESTED, LOGOUT]
  {
    assert LOGIN[|LOGIN| - 1] == 'n' && NESTED[|LOGIN|] == '?' && LOGOUT[4] == 'o' && LOGIN[4] == 'i' && NESTED[4] == 'i';
  }

  /** Visiting the logout route without a session logs in, out, in again, and is challenged. */
  lemma LogoutVisitTakesThree()
    ensures exists choices :: Follow(Example(ChallengeAgain, None), Chain(AtPage(LOGOUT), NoSession, 0), choices).trips == 3
  {
    ExampleUrls();
    var site, start := Example(ChallengeAgain, None), Chain(AtPage(LOGOUT), NoSession, 0);
    LoginRound(site, start, LOGOUT);
    LogoutRound(site, Chain(AtPage(LOGOUT), Made(false, true), 1), LOGOUT);
    LoginRound(site, Chain(AtPage(HOME), NoSession, 1), HOME);
    FollowSplit(site, start, ROUND, ROUND);
    FollowSplit(site, start, ROUND + ROUND, CHALLENGED);
    assert Follow(site, start, ROUND + ROUND + CHALLENGED).trips == 3;
  }

  /** Visiting the login route with the login route as its redirect_uri: every level costs a login. */
  lemma NestedLoginTakesThree()
    ensures exists choices :: Follow(Example(ChallengeAgain, None), Chain(AtPage(NESTED), NoSession, 0), choices).trips == 3
  {
    ExampleUrls();
    var site, start := Example(ChallengeAgain, None), Chain(AtPage(NESTED), NoSession, 0);
    LoginRound(site, start, NESTED);
    LoginRound(site, Chain(AtPage(LOGIN), Made(false, true), 1), LOGIN);
    FollowSplit(site, start, ROUND, CHALLENGED);
    assert Follow(site, start, ROUND + CHALLENGED).trips == 3;
  }

  /** Refusing unauthorized sessions does not help: with the login route as the configured target an
      authorized user who visits a protected page takes any number of trips. */
  lemma RefusingSiteLoops(n: nat)
    ensures exists choices ::
      Follow(Example(Refuse, Some(LOGIN)), Chain(AtPage(HOME), NoSession, 0), choices).trips == n + 1
  {
    ExampleUrls();
    var site, start := Example(Refuse, Some(LOGIN)), Chain(AtPage(HOME), NoSession, 0);
    LoginRound(site, start, HOME);
    LoginTargetNeverEnds(site, Chain(AtPage(LOGIN), Made(false, true), 1), n);
    FollowSplit(site, start, ROUND, Rounds(n));
    assert Follow(site, start, ROUND + Rounds(n)).trips == n + 1;
  }
}
