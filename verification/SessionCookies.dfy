/** The session machine over the cookies it really uses: tickets are written with setChunkedCookies, read with
    readChunkedCookie and dropped with clearChunkedCookie (src/cookie.go), which do not always give back the
    last write or remove what is there. SessionLifetime has one ticket cell instead; this module says exactly
    which steps that cell describes, carries its bounds over to the runs made of such steps, and says what
    becomes of the bounds at the others. */
module SessionCookies {
  import opened Common
  import opened Sealing
  import opened SessionStore
  import opened SessionLifetime
  import C = ChunkedCookies

  // ---------------------------------------------------------------------------
  // The machine
  // ---------------------------------------------------------------------------

  /** Besides the configuration, the cookie name and how a ticket is spelled. */
  datatype Setup = Setup(cfg: Config, name: string, wire: Ciphertext -> string, unwire: string -> Ciphertext)

  /** A spelled ticket is not empty and can be read back. */
  ghost predicate WireOk(w: Setup) {
    forall c :: w.wire(c) != "" && w.unwire(w.wire(c)) == c
  }

  /** As SessionLifetime.State, with the browser's cookies in place of its ticket. */
  datatype World = World(jar: C.Jar, replicas: map<Replica, Tracker>, now: Time, used: set<string>, active: Option<Time>)

  /** The ticket a request from this jar shows. */
  function Shown(w: Setup, jar: C.Jar): Option<Ciphertext> {
    match C.Read(jar, w.name)
    case Ok(text) => Some(w.unwire(text))
    case Err(_) => None
  }

  function View(w: Setup, x: World): State {
    State(Shown(w, x.jar), x.replicas, x.now, x.used, x.active)
  }

  /** The ticket a step writes, and whether it clears the cookies. */
  function Written(cfg: Config, s: State, e: Event): Option<Ciphertext> {
    match e
    case Login(_, at, session) => Some(Ticket(Stamped(session, at), cfg.secret))
    case Request(_, _, _, forwards, _, _) =>
      if AcceptedBy(cfg, s, e) && forwards && Outcome(cfg, s, e).ticket.Some?
      then Some(Ticket(Outcome(cfg, s, e).ticket.value, cfg.secret)) else None
    case _ => None
  }

  predicate Clears(cfg: Config, s: State, e: Event) {
    e.Discard? || (e.Request? && !AcceptedBy(cfg, s, e) && Verdict(cfg, s, e).Refused? && e.clears)
  }

  /** Tickets over the cookie budget are not written. A discard is a logout. */
  predicate Possible(w: Setup, x: World, e: Event) {
    var written := Written(w.cfg, View(w, x), e);
    Enabled(View(w, x), e) && (written.Some? ==> |w.wire(written.value)| <= C.MAX_TICKET_SIZE)
  }

  function JarAfter(w: Setup, x: World, e: Event): C.Jar {
    var written := Written(w.cfg, View(w, x), e);
    if written.Some? then C.AfterSet(x.jar, w.name, w.wire(written.value))
    else if Clears(w.cfg, View(w, x), e) then C.AfterClear(x.jar, w.name)
    else x.jar
  }

  /** Everything but the cookies goes as in SessionLifetime. */
  function Next(w: Setup, x: World, e: Event): World {
    var t := After(w.cfg, View(w, x), e);
    World(JarAfter(w, x, e), t.replicas, t.now, t.used, t.active)
  }

  datatype JarRun = JarRun(states: seq<World>, events: seq<Event>) {
    predicate Legal(w: Setup) {
      && |states| == |events| + 1 && Init(w.cfg, View(w, states[0]))
      && forall i | 0 <= i < |events| :: Possible(w, states[i], events[i]) && states[i + 1] == Next(w, states[i], events[i])
    }
  }

  // ---------------------------------------------------------------------------
  // The steps one ticket cell describes
  // ---------------------------------------------------------------------------

  /** A write will be read back: it is chunked, or no count cookie is in force. */
  predicate Visible(w: Setup, jar: C.Jar, ticket: Ciphertext) {
    |w.wire(ticket)| > C.CHUNK_SIZE || C.ChunkCount(jar, w.name) == Ok(0)
  }

  /** A clear will leave nothing to read: not both forms are there. */
  predicate Thorough(w: Setup, jar: C.Jar) {
    var count := C.ChunkCount(jar, w.name);
    !(count.Ok? && count.value > 0 && w.name in jar)
  }

  /** The guard of a step, by the cookies before it. */
  predicate Sound(w: Setup, x: World, e: Event) {
    var s := View(w, x);
    var written := Written(w.cfg, s, e);
    if written.Some? then Visible(w, x.jar, written.value) else Clears(w.cfg, s, e) ==> Thorough(w, x.jar)
  }

  lemma CellAfter(cfg: Config, s: State, e: Event)
    ensures After(cfg, s, e).browser ==
      if Written(cfg, s, e).Some? then Written(cfg, s, e) else if Clears(cfg, s, e) then None else s.browser
  {
    hide AcceptedBy, Verdict, Outcome;
  }

  lemma ShownAfterWrite(w: Setup, jar: C.Jar, ticket: Ciphertext)
    requires WireOk(w) && |w.wire(ticket)| <= C.MAX_TICKET_SIZE
    ensures Shown(w, C.AfterSet(jar, w.name, w.wire(ticket))) ==
      if Visible(w, jar, ticket) then Some(ticket) else Shown(w, jar)
  {
    hide C.AfterSet;
    var text := w.wire(ticket);
    assert text != "" && w.unwire(text) == ticket;
    if |text| > C.CHUNK_SIZE {
      C.ChunkedRoundTrip(jar, w.name, text);
    } else {
      C.PlainRoundTrip(jar, w.name, text);
    }
  }

  lemma ShownAfterClear(w: Setup, jar: C.Jar)
    ensures Shown(w, C.AfterClear(jar, w.name)) == if Thorough(w, jar) then None else Some(w.unwire(jar[w.name]))
  {
    C.AfterClearFacts(jar, w.name);
    hide C.AfterClear;
    C.ClearThenRead(jar, w.name);
  }

  /** The cell describes a step exactly when its guard holds, or the ticket it writes is already shown. */
  lemma StepSimulates(w: Setup, x: World, e: Event)
    requires WireOk(w) && Possible(w, x, e)
    ensures var s := View(w, x);
      View(w, Next(w, x, e)) == After(w.cfg, s, e)
      <==> Sound(w, x, e) || (Written(w.cfg, s, e).Some? && Shown(w, x.jar) == Written(w.cfg, s, e))
  {
    var s := View(w, x);
    CellAfter(w.cfg, s, e);
    var written := Written(w.cfg, s, e);
    if written.Some? { ShownAfterWrite(w, x.jar, written.value); }
    ShownAfterClear(w, x.jar);
    hide Shown, Written, Clears, After, Enabled, Visible, Thorough, C.AfterSet, C.AfterClear;
  }

  predicate SoundUpTo(w: Setup, run: JarRun, n: nat)
    requires n <= |run.events| && |run.states| == |run.events| + 1
  {
    forall i | 0 <= i < n :: Sound(w, run.states[i], run.events[i])
  }

  /** The first n steps as a run of SessionLifetime. */
  function Viewed(w: Setup, run: JarRun, n: nat): Run
    requires n <= |run.events| && |run.states| == |run.events| + 1
  {
    Run(seq(n + 1, i requires 0 <= i <= n => View(w, run.states[i])), run.events[..n])
  }

  lemma Simulates(w: Setup, run: JarRun, n: nat)
    requires WireOk(w) && run.Legal(w) && n <= |run.events| && SoundUpTo(w, run, n)
    ensures Viewed(w, run, n).Legal(w.cfg)
  {
    hide WireOk, Possible, Next, Enabled, After, Sound, View;
    var v := Viewed(w, run, n);
    forall i | 0 <= i < n ensures Enabled(v.states[i], v.events[i]) && v.states[i + 1] == After(w.cfg, v.states[i], v.events[i]) {
      assert Possible(w, run.states[i], run.events[i]) && run.states[i + 1] == Next(w, run.states[i], run.events[i]);
      StepSimulates(w, run.states[i], run.events[i]);
      PossibleIsEnabled(w, run.states[i], run.events[i]);
    }
  }

  lemma PossibleIsEnabled(w: Setup, x: World, e: Event)
    requires Possible(w, x, e)
    ensures Enabled(View(w, x), e)
  {
  }

  /** The step does not switch the form of the stored ticket. */
  predicate KeepsForm(w: Setup, x: World, e: Event) {
    var written := Written(w.cfg, View(w, x), e);
    written.Some? ==>
      if |w.wire(written.value)| <= C.CHUNK_SIZE then C.CountName(w.name) !in x.jar else w.name !in x.jar
  }

  lemma FormIsSound(w: Setup, x: World, e: Event)
    requires WireOk(w) && Possible(w, x, e) && C.OneForm(x.jar, w.name) && KeepsForm(w, x, e)
    ensures Sound(w, x, e) && C.OneForm(JarAfter(w, x, e), w.name)
  {
    var written := Written(w.cfg, View(w, x), e);
    hide Written, Clears, View, C.AfterSet, C.AfterClear;
    if written.Some? {
      assert w.wire(written.value) != "";
      C.SetKeepsInvariant(x.jar, w.name, w.wire(written.value));
    }
    C.ClearUnderInvariant(x.jar, w.name);
  }

  /** A run that starts with at most one form of cookie and never switches form is sound throughout. */
  lemma {:induction false} OneFormRunIsSound(w: Setup, run: JarRun, n: nat)
    requires WireOk(w) && run.Legal(w) && n <= |run.events| && C.OneForm(run.states[0].jar, w.name)
    requires forall i | 0 <= i < |run.events| :: KeepsForm(w, run.states[i], run.events[i])
    ensures SoundUpTo(w, run, n) && C.OneForm(run.states[n].jar, w.name)
  {
    if n > 0 {
      OneFormRunIsSound(w, run, n - 1);
      hide WireOk, Sound, KeepsForm, C.OneForm, Possible;
      FormIsSound(w, run.states[n - 1], run.events[n - 1]);
    }
  }

  // ---------------------------------------------------------------------------
  // The bounds, step by step
  // ---------------------------------------------------------------------------

  /** What is known after sound steps. */
  lemma SoundState(w: Setup, run: JarRun, n: nat)
    requires WireOk(w) && run.Legal(w) && n <= |run.events| && SoundUpTo(w, run, n)
    ensures Inv(w.cfg, View(w, run.states[n]))
  {
    hide Inv, WireOk, Run.Legal;
    Simulates(w, run, n);
    RunKeepsInv(w.cfg, Viewed(w, run, n), n);
  }

  /** A request is forwarded, after sound steps only. */
  predicate ForwardedAt(w: Setup, run: JarRun, i: nat) {
    && run.Legal(w) && i < |run.events| && SoundUpTo(w, run, i)
    && ForwardedBy(w.cfg, View(w, run.states[i]), run.events[i])
  }

  /** The session of the next request: the one that was to be written, or the one there was. */
  lemma NextSession(w: Setup, run: JarRun, i: nat)
    requires WireOk(w) && ForwardedAt(w, run, i)
    ensures Carried(w.cfg, View(w, run.states[i])).Some?
    ensures if Sound(w, run.states[i], run.events[i])
      then Viewed(w, run, i + 1).Legal(w.cfg)
      else Carried(w.cfg, View(w, run.states[i + 1])) == Carried(w.cfg, View(w, run.states[i]))
  {
    var x, e := run.states[i], run.events[i];
    VerdictKeeps(w.cfg, View(w, x), e);
    assert Possible(w, x, e) && run.states[i + 1] == Next(w, x, e);
    if Sound(w, x, e) {
      Simulates(w, run, i + 1);
    } else {
      ShownAfterWrite(w, x.jar, Written(w.cfg, View(w, x), e).value);
    }
  }

  function SessionAt(w: Setup, x: World): Session
    requires Carried(w.cfg, View(w, x)).Some?
  {
    Carried(w.cfg, View(w, x)).value
  }

  /** After a forwarded request the ticket in the browser was used less than one interval ago exactly when its
      re-sealing, if any, is visible, or the ticket it carried was used that recently already. */
  lemma DurableExactly(w: Setup, run: JarRun, i: nat)
    requires WireOk(w) && ForwardedAt(w, run, i) && w.cfg.bounds.idle > 0
    ensures var x, y, e := run.states[i], run.states[i + 1], run.events[i];
      var since := e.at - Interval(w.cfg.bounds.idle) * SECOND;
      && Carried(w.cfg, View(w, x)).Some? && Carried(w.cfg, View(w, y)).Some?
      && (SessionAt(w, y).lastUsedAt > since <==> Sound(w, x, e) || SessionAt(w, x).lastUsedAt > since)
  {
    hide WireOk, Interval, SealedSession, Run.Legal, Sound, ForwardedBy, Shown, Next, Possible, Init;
    NextSession(w, run, i);
    if Sound(w, run.states[i], run.events[i]) {
      DurableLastUse(w.cfg, Viewed(w, run, i + 1), i);
    }
  }

  lemma SessionFacts(cfg: Config, s: State)
    requires Inv(cfg, s) && Carried(cfg, s).Some?
    ensures var v := Carried(cfg, s).value; v.createdAt <= s.now && v.lastUsedAt <= s.now
  {
    hide SealedSession;
  }

  /** For the guaranteed gap after a forwarded request the session is never refused as idle exactly under the
      same condition. */
  lemma IdleExactly(w: Setup, run: JarRun, i: nat)
    requires WireOk(w) && ForwardedAt(w, run, i) && w.cfg.bounds.idle > 0
    ensures var x, y, e := run.states[i], run.states[i + 1], run.events[i];
      var interval := Interval(w.cfg.bounds.idle);
      && Carried(w.cfg, View(w, x)).Some? && Carried(w.cfg, View(w, y)).Some?
      && ((forall at: Time | e.at <= at <= e.at + (w.cfg.bounds.idle - interval) * SECOND + 1 :: !TooIdle(w.cfg, View(w, y), at))
          <==> Sound(w, x, e) || Backfilled(SessionAt(w, x), e.at).lastUsedAt > e.at - interval * SECOND)
  {
    var x, y, e := run.states[i], run.states[i + 1], run.events[i];
    NextSession(w, run, i);
    DurableExactly(w, run, i);
    SoundState(w, run, i);
    SessionFacts(w.cfg, View(w, x));
    assert x.now <= e.at by { assert Possible(w, x, e); }
    var interval := Interval(w.cfg.bounds.idle);
    assert interval <= w.cfg.bounds.idle;
    var last := e.at + (w.cfg.bounds.idle - interval) * SECOND + 1;
    assert (w.cfg.bounds.idle - interval) * SECOND == w.cfg.bounds.idle * SECOND - interval * SECOND;
    hide WireOk, Interval, SealedSession, Run.Legal, JarRun.Legal, Sound, ForwardedBy, Shown, Next, Possible, Init, Inv, View;
    var v, u := SessionAt(w, x), SessionAt(w, y);
    if Sound(w, x, e) {
      assert u.lastUsedAt > e.at - interval * SECOND;
    } else {
      assert u == v;
      assert TooIdle(w.cfg, View(w, y), last) <==> !WithinIdle(w.cfg.bounds, Backfilled(v, last), last);
    }
  }

  /** Every later request is refused as idle once the gap is over the bound exactly when the re-sealing, if any,
      is visible, or the ticket that stays is stamped at all. */
  lemma LateExactly(w: Setup, run: JarRun, i: nat)
    requires WireOk(w) && ForwardedAt(w, run, i) && w.cfg.bounds.idle > 0
    ensures var x, y, e := run.states[i], run.states[i + 1], run.events[i];
      && Carried(w.cfg, View(w, x)).Some?
      && ((forall at: Time | at > e.at + w.cfg.bounds.idle * SECOND :: TooIdle(w.cfg, View(w, y), at))
          <==> Sound(w, x, e) || SessionAt(w, x).createdAt != 0 || SessionAt(w, x).lastUsedAt != 0)
  {
    var x, y, e := run.states[i], run.states[i + 1], run.events[i];
    NextSession(w, run, i);
    DurableExactly(w, run, i);
    SoundState(w, run, i);
    SessionFacts(w.cfg, View(w, x));
    assert x.now <= e.at by { assert Possible(w, x, e); }
    var idle, v, u := w.cfg.bounds.idle, SessionAt(w, x), SessionAt(w, y);
    if Sound(w, x, e) {
      StampedBySound(w, run, i);
    } else if v.createdAt == 0 && v.lastUsedAt == 0 {
      hide WireOk, Interval, SealedSession, Run.Legal, JarRun.Legal, Sound, ForwardedBy, Shown, Next, Possible, Init, Inv, View;
      var at := e.at + idle * SECOND + 1;
      assert at > e.at + idle * SECOND && !TooIdle(w.cfg, View(w, y), at);
    }
    hide WireOk, Interval, SealedSession, Run.Legal, JarRun.Legal, Sound, ForwardedBy, Shown, Next, Possible, Init, Inv, View;
  }

  lemma StampedBySound(w: Setup, run: JarRun, i: nat)
    requires WireOk(w) && ForwardedAt(w, run, i) && Sound(w, run.states[i], run.events[i])
    requires w.cfg.bounds.idle > 0 || w.cfg.bounds.maxLifetime > 0
    ensures Carried(w.cfg, View(w, run.states[i + 1])).Some?
    ensures var u := SessionAt(w, run.states[i + 1]);
      u.createdAt != 0 && u.lastUsedAt != 0 && u.createdAt <= run.events[i].at && u.lastUsedAt <= run.events[i].at
  {
    hide WireOk, Interval, SealedSession, Run.Legal, Sound, ForwardedBy, Shown, Next, Possible, Init;
    NextSession(w, run, i);
    var v := Viewed(w, run, i + 1);
    RunKeepsInv(w.cfg, v, i + 1);
    ActiveIsLastUse(w.cfg, v, i);
    CarriedAfterForward(w.cfg, v, i);
  }

  lemma CarriedAfterForward(cfg: Config, run: Run, i: nat)
    requires run.Legal(cfg) && i < |run.events| && ForwardedBy(cfg, run.states[i], run.events[i])
    ensures Carried(cfg, run.states[i + 1]).Some? && run.states[i + 1].now == run.events[i].at
  {
    VerdictKeeps(cfg, run.states[i], run.events[i]);
    assert run.states[i + 1] == After(cfg, run.states[i], run.events[i]);
    var out := Outcome(cfg, run.states[i], run.events[i]);
    if out.ticket.Some? { TicketRoundTrip(out.ticket.value, cfg.secret); }
    hide SealedSession, Ticket;
  }

  /** A forwarded request leaves a stamped ticket exactly when its re-sealing, if any, is visible, or the ticket
      was stamped before. */
  lemma StampExactly(w: Setup, run: JarRun, i: nat)
    requires WireOk(w) && ForwardedAt(w, run, i) && w.cfg.bounds.maxLifetime > 0
    ensures var x, y, e := run.states[i], run.states[i + 1], run.events[i];
      && Carried(w.cfg, View(w, x)).Some? && Carried(w.cfg, View(w, y)).Some?
      && (SessionAt(w, y).createdAt != 0 <==> Sound(w, x, e) || SessionAt(w, x).createdAt != 0)
  {
    hide WireOk, Interval, SealedSession, Run.Legal, Sound, ForwardedBy, Shown, Next, Possible, Init;
    NextSession(w, run, i);
    if Sound(w, run.states[i], run.events[i]) { StampedBySound(w, run, i); }
  }

  /** A login is what the next request shows exactly when its ticket is visible. */
  lemma LoginExactly(w: Setup, run: JarRun, i: nat)
    requires WireOk(w) && run.Legal(w) && i < |run.events| && SoundUpTo(w, run, i) && run.events[i].Login?
    ensures var x, y, e := run.states[i], run.states[i + 1], run.events[i];
      Carried(w.cfg, View(w, y)) == Some(Stamped(e.session, e.at)) <==> Sound(w, x, e)
  {
    var x, y, e := run.states[i], run.states[i + 1], run.events[i];
    assert Possible(w, x, e) && y == Next(w, x, e);
    SoundState(w, run, i);
    var ticket := Ticket(Stamped(e.session, e.at), w.cfg.secret);
    ShownAfterWrite(w, x.jar, ticket);
    TicketRoundTrip(Stamped(e.session, e.at), w.cfg.secret);
    assert Carried(w.cfg, View(w, x)).Some? ==> SessionAt(w, x).id in x.used by { IdIsUsed(w.cfg, View(w, x)); }
    hide WireOk, SealedSession, Run.Legal, JarRun.Legal, Shown, Ticket, Inv, Visible;
  }

  lemma IdIsUsed(cfg: Config, s: State)
    requires Inv(cfg, s)
    ensures Carried(cfg, s).Some? ==> Carried(cfg, s).value.id in s.used
  {
    hide SealedSession;
  }

  // ---------------------------------------------------------------------------
  // The absolute bound
  // ---------------------------------------------------------------------------

  /** Along sound steps a stamped creation time never changes. */
  lemma CreatedAtKept(w: Setup, run: JarRun, i: nat, j: nat, id: string)
    requires WireOk(w) && run.Legal(w) && i <= j <= |run.events| && SoundUpTo(w, run, j)
    requires CarriesId(w.cfg, View(w, run.states[i]), id) && CarriesId(w.cfg, View(w, run.states[j]), id)
    requires SessionAt(w, run.states[i]).createdAt != 0
    ensures SessionAt(w, run.states[j]).createdAt == SessionAt(w, run.states[i]).createdAt
  {
    hide WireOk, SealedSession, Run.Legal, Shown, Next, Possible, Init, Sound;
    Simulates(w, run, j);
    CreatedAtNeverChanges(w.cfg, Viewed(w, run, j), i, j, id);
  }

  /** And no request is accepted past the maximum lifetime. */
  lemma NeverAcceptedLate(w: Setup, run: JarRun, i: nat, j: nat, id: string)
    requires WireOk(w) && run.Legal(w) && i <= j < |run.events| && SoundUpTo(w, run, j) && w.cfg.bounds.maxLifetime > 0
    requires CarriesId(w.cfg, View(w, run.states[i]), id) && SessionAt(w, run.states[i]).createdAt != 0
    requires CarriesId(w.cfg, View(w, run.states[j]), id) && AcceptedBy(w.cfg, View(w, run.states[j]), run.events[j])
    ensures run.events[j].at <= SessionAt(w, run.states[i]).createdAt + w.cfg.bounds.maxLifetime * SECOND
  {
    hide WireOk, SealedSession, SoundUpTo, Shown, Next, Possible, Init, AcceptedBy;
    CreatedAtKept(w, run, i, j, id);
    VerdictKeeps(w.cfg, View(w, run.states[j]), run.events[j]);
  }

  /** A clear uncovers a base cookie whose session is within the bounds. */
  predicate Resurfaces(w: Setup, jar: C.Jar, now: Time) {
    && !Thorough(w, jar)
    && var s := Opened(w.unwire(jar[w.name]), w.cfg.secret, now);
       s.Some? && WithinLifetime(w.cfg.bounds, s.value, now) && WithinIdle(w.cfg.bounds, s.value, now)
  }

  /** After the session has been cleared at `now`, refused or logged out, no request is ever accepted again
      exactly when the clear uncovers nothing. */
  lemma ClearExactly(w: Setup, x: World, y: World, now: Time)
    requires y.jar == C.AfterClear(x.jar, w.name)
    ensures (forall e: Event | e.Request? && e.at >= now :: !AcceptedBy(w.cfg, View(w, y), e)) <==> !Resurfaces(w, x.jar, now)
  {
    ShownAfterClear(w, x.jar);
    hide SealedSession, Shown, C.AfterClear, Thorough;
    if Resurfaces(w, x.jar, now) {
      assert AcceptedBy(w.cfg, View(w, y), Request(0, now, ALL_WELL, true, true, true));
    } else {
      forall e: Event | e.Request? && e.at >= now ensures !AcceptedBy(w.cfg, View(w, y), e) {
        if AcceptedBy(w.cfg, View(w, y), e) { VerdictKeeps(w.cfg, View(w, y), e); }
      }
    }
  }

  // ---------------------------------------------------------------------------
  // Runs in which the bounds fail
  // ---------------------------------------------------------------------------

  const EMPTY_WORLD := World(map[], map[], 0, {}, None)

  predicate Chunked(w: Setup, ticket: Ciphertext) {
    C.CHUNK_SIZE < |w.wire(ticket)| <= C.MAX_TICKET_SIZE
  }

  predicate Plain(w: Setup, ticket: Ciphertext) {
    |w.wire(ticket)| <= C.CHUNK_SIZE
  }

  function Plainly(at: Time): Event {
    Request(0, at, ALL_WELL, true, true, true)
  }

  lemma FirstLoginStep(w: Setup, v: Session)
    requires WireOk(w) && NewSession(v) && |w.wire(Ticket(Stamped(v, 1), w.cfg.secret))| <= C.MAX_TICKET_SIZE
    ensures var e, y := Login(0, 1, v), Next(w, EMPTY_WORLD, Login(0, 1, v));
      && View(w, EMPTY_WORLD) == NOTHING_YET && Possible(w, EMPTY_WORLD, e) && View(w, y) == After(w.cfg, NOTHING_YET, e)
      && JustSealed(w.cfg, View(w, y), v) && y.now == 1
      && y.jar == C.AfterSet(map[], w.name, w.wire(Ticket(Stamped(v, 1), w.cfg.secret)))
  {
    FirstLogin(w.cfg, v);
    assert Shown(w, map[]) == None;
    assert View(w, EMPTY_WORLD) == NOTHING_YET;
    StepSimulates(w, EMPTY_WORLD, Login(0, 1, v));
    hide WireOk, SealedSession, Ticket, Storable, JustSealed, C.AfterSet;
  }

  /** After one interval a request is forwarded with a new ticket. */
  lemma DueRequest(cfg: Config, s: State, v: Session)
    requires cfg.bounds.idle > 0 && RoomFor(cfg.bounds) && NewSession(v) && JustSealed(cfg, s, v) && s.now == 1
    ensures var at := 1 + Interval(cfg.bounds.idle) * SECOND;
      && Enabled(s, Plainly(at)) && ForwardedBy(cfg, s, Plainly(at)) && After(cfg, s, Plainly(at)).active == Some(at)
      && Written(cfg, s, Plainly(at)) == Some(Ticket(Stamped(v, 1).(lastUsedAt := at), cfg.secret))
  {
    hide SealedSession, Ticket, Interval, Storable;
    var at := 1 + Interval(cfg.bounds.idle) * SECOND;
    assert Verdict(cfg, s, Plainly(at)) == Accepted(Stamped(v, 1).(lastUsedAt := at));
  }

  /** A forwarded request at `at` whose new ticket the browser does not show. */
  predicate ShadowedRequest(w: Setup, x: World, v: Session, at: Time) {
    var y := Next(w, x, Plainly(at));
    && Possible(w, x, Plainly(at)) && ForwardedBy(w.cfg, View(w, x), Plainly(at))
    && y.active == Some(at) && y.now == at && Carried(w.cfg, View(w, y)) == Some(Stamped(v, 1))
  }

  lemma ShrunkRequest(w: Setup, x: World, v: Session, at: Time)
    requires WireOk(w) && w.cfg.bounds.idle > 0 && RoomFor(w.cfg.bounds) && NewSession(v)
    requires JustSealed(w.cfg, View(w, x), v) && x.now == 1 && at == 1 + Interval(w.cfg.bounds.idle) * SECOND
    requires Chunked(w, Ticket(Stamped(v, 1), w.cfg.secret))
    requires x.jar == C.AfterSet(map[], w.name, w.wire(Ticket(Stamped(v, 1), w.cfg.secret)))
    requires Plain(w, Ticket(Stamped(v, 1).(lastUsedAt := at), w.cfg.secret))
    ensures ShadowedRequest(w, x, v, at)
  {
    DueRequest(w.cfg, View(w, x), v);
    ShrunkIsShadowed(w, x, v, at);
    hide WireOk, SealedSession, Ticket, Interval, Storable, ForwardedBy, Enabled, Written, C.AfterSet, RoomFor;
  }

  /** A session whose ticket shrinks to one chunk when it is re-sealed at `at`: the browser keeps showing the old
      ticket, and the active session is refused as idle at `late`, after a gap of (idle - interval) s + 1 ns,
      which is within the gap otherwise guaranteed. */
  lemma ShrinkingTicketIsRefused(w: Setup, v: Session, at: Time, late: Time) returns (run: JarRun)
    requires WireOk(w) && w.cfg.bounds.idle > 0 && RoomFor(w.cfg.bounds) && NewSession(v)
    requires at == 1 + Interval(w.cfg.bounds.idle) * SECOND && late == 2 + w.cfg.bounds.idle * SECOND
    requires Chunked(w, Ticket(Stamped(v, 1), w.cfg.secret))
    requires Plain(w, Ticket(Stamped(v, 1).(lastUsedAt := at), w.cfg.secret))
    ensures at <= late && RefusedWithin(w, run, at, late - at)
  {
    var x1 := Next(w, EMPTY_WORLD, Login(0, 1, v));
    assert at <= late by { assert Interval(w.cfg.bounds.idle) <= w.cfg.bounds.idle; }
    FirstLoginStep(w, v);
    ShrunkRequest(w, x1, v, at);
    hide *;
    run := ShrinkingRun(w, v, x1, at, late);
  }

  /** The run forwards a request at `at` and refuses the next one as idle `gap` later, although the first was
      answered with a new ticket: the browser still shows the one sealed at 1. */
  predicate RefusedWithin(w: Setup, run: JarRun, at: Time, gap: nat) {
    && run.Legal(w) && |run.events| == 3 && run.events[1] == Plainly(at) && run.events[2] == Plainly(at + gap)
    && ForwardedBy(w.cfg, View(w, run.states[1]), Plainly(at)) && run.states[2].active == Some(at)
    && Carried(w.cfg, View(w, run.states[2])).Some? && SessionAt(w, run.states[2]).lastUsedAt == 1
    && TooIdle(w.cfg, View(w, run.states[2]), at + gap)
  }

  lemma ShrinkingRun(w: Setup, v: Session, x1: World, at: Time, late: Time) returns (run: JarRun)
    requires Possible(w, EMPTY_WORLD, Login(0, 1, v)) && x1 == Next(w, EMPTY_WORLD, Login(0, 1, v))
    requires View(w, EMPTY_WORLD) == NOTHING_YET && ShadowedRequest(w, x1, v, at)
    requires w.cfg.bounds.idle > 0 && at <= late && late > 1 + w.cfg.bounds.idle * SECOND
    ensures RefusedWithin(w, run, at, late - at)
  {
    var x2 := Next(w, x1, Plainly(at));
    ShadowedFacts(w, x1, v, at, late);
    InitNothing(w.cfg);
    hide *;
    run := JarRun([EMPTY_WORLD, x1, x2, Next(w, x2, Plainly(late))], [Login(0, 1, v), Plainly(at), Plainly(late)]);
    ThreeStepRun(w, run, at, late);
  }

  lemma InitNothing(cfg: Config)
    ensures Init(cfg, NOTHING_YET)
  {
  }

  lemma ShadowedFacts(w: Setup, x: World, v: Session, at: Time, late: Time)
    requires ShadowedRequest(w, x, v, at) && w.cfg.bounds.idle > 0 && at <= late && late > 1 + w.cfg.bounds.idle * SECOND
    ensures var y := Next(w, x, Plainly(at));
      && Possible(w, x, Plainly(at)) && ForwardedBy(w.cfg, View(w, x), Plainly(at)) && y.active == Some(at)
      && Carried(w.cfg, View(w, y)).Some? && SessionAt(w, y).lastUsedAt == 1
      && TooIdle(w.cfg, View(w, y), late) && Possible(w, y, Plainly(late))
  {
    hide SealedSession, Next, ForwardedBy;
  }

  lemma ThreeStepRun(w: Setup, run: JarRun, at: Time, late: Time)
    requires |run.events| == 3 && |run.states| == 4 && run.events[1] == Plainly(at) && run.events[2] == Plainly(late) && at <= late
    requires Init(w.cfg, View(w, run.states[0]))
    requires Possible(w, run.states[0], run.events[0]) && run.states[1] == Next(w, run.states[0], run.events[0])
    requires Possible(w, run.states[1], run.events[1]) && run.states[2] == Next(w, run.states[1], run.events[1])
    requires Possible(w, run.states[2], run.events[2]) && run.states[3] == Next(w, run.states[2], run.events[2])
    requires ForwardedBy(w.cfg, View(w, run.states[1]), Plainly(at)) && run.states[2].active == Some(at)
    requires Carried(w.cfg, View(w, run.states[2])).Some? && SessionAt(w, run.states[2]).lastUsedAt == 1
    requires TooIdle(w.cfg, View(w, run.states[2]), late)
    ensures RefusedWithin(w, run, at, late - at)
  {
    hide Possible, Next, Init, View, Carried, ForwardedBy, TooIdle, SessionAt;
    LegalInThree(w, run);
  }

  lemma LegalInThree(w: Setup, run: JarRun)
    requires |run.events| == 3 && |run.states| == 4 && Init(w.cfg, View(w, run.states[0]))
    requires Possible(w, run.states[0], run.events[0]) && run.states[1] == Next(w, run.states[0], run.events[0])
    requires Possible(w, run.states[1], run.events[1]) && run.states[2] == Next(w, run.states[1], run.events[1])
    requires Possible(w, run.states[2], run.events[2]) && run.states[3] == Next(w, run.states[2], run.events[2])
    ensures run.Legal(w)
  {
    hide Possible, Next, Init, View;
    forall i | 0 <= i < 3 ensures Possible(w, run.states[i], run.events[i]) && run.states[i + 1] == Next(w, run.states[i], run.events[i]) {
      if i == 0 {} else if i == 1 {} else {}
    }
  }

  lemma ShrunkIsShadowed(w: Setup, x: World, v: Session, at: Time)
    requires WireOk(w) && NewSession(v) && JustSealed(w.cfg, View(w, x), v)
    requires Chunked(w, Ticket(Stamped(v, 1), w.cfg.secret))
    requires x.jar == C.AfterSet(map[], w.name, w.wire(Ticket(Stamped(v, 1), w.cfg.secret)))
    requires Written(w.cfg, View(w, x), Plainly(at)) == Some(Ticket(Stamped(v, 1).(lastUsedAt := at), w.cfg.secret))
    requires Plain(w, Ticket(Stamped(v, 1).(lastUsedAt := at), w.cfg.secret))
    ensures Shown(w, Next(w, x, Plainly(at)).jar) == Shown(w, x.jar)
  {
    C.AfterChunkedSet(map[], w.name, w.wire(Ticket(Stamped(v, 1), w.cfg.secret)));
    ShownAfterWrite(w, x.jar, Ticket(Stamped(v, 1).(lastUsedAt := at), w.cfg.secret));
    hide WireOk, SealedSession, Ticket, C.AfterSet, Written;
  }

  /** A ticket from before the bounds, never stamped. */
  predicate Unstamped(u: Session) {
    Storable(u.id) && u.createdAt == 0 && u.lastUsedAt == 0
  }

  function StampedAt(u: Session, at: Time): Session {
    u.(createdAt := at, lastUsedAt := at)
  }

  /** The browser holds such a ticket in one cookie. */
  function LegacyWorld(w: Setup, u: Session): World {
    World(map[w.name := w.wire(LegacyTicket(u, w.cfg.secret))], map[], 0, {u.id}, None)
  }

  lemma LegacyShown(w: Setup, u: Session)
    requires WireOk(w) && Unstamped(u)
    ensures Shown(w, LegacyWorld(w, u).jar) == Some(LegacyTicket(u, w.cfg.secret))
    ensures Carried(w.cfg, View(w, LegacyWorld(w, u))) == Some(u) && Init(w.cfg, View(w, LegacyWorld(w, u)))
  {
    C.NamesDistinct(w.name, 0, 0);
    TicketRoundTrip(u, w.cfg.secret);
    hide SealedSession, LegacyTicket, Storable;
  }

  /** Its first request is forwarded and stamps it. */
  lemma LegacyRequest(cfg: Config, s: State, u: Session, at: Time)
    requires cfg.bounds.maxLifetime > 0 && Unstamped(u) && Carried(cfg, s) == Some(u) && TrackerOf(s, 0) == EMPTY_TRACKER
    requires s.now <= at && at > 0
    ensures Enabled(s, Plainly(at)) && ForwardedBy(cfg, s, Plainly(at)) && After(cfg, s, Plainly(at)).now == at
    ensures Written(cfg, s, Plainly(at)) == Some(Ticket(StampedAt(u, at), cfg.secret))
  {
    hide SealedSession, Ticket, Interval;
    assert Verdict(cfg, s, Plainly(at)) == Accepted(StampedAt(u, at));
  }

  /** The stamped ticket is refused after its lifetime, and the request clears the cookies. */
  lemma LateForLifetime(cfg: Config, s: State, u: Session, at: Time)
    requires cfg.bounds.maxLifetime > 0 && Unstamped(u) && Carried(cfg, s).Some?
    requires 0 < Carried(cfg, s).value.createdAt && at > Carried(cfg, s).value.createdAt + cfg.bounds.maxLifetime * SECOND
    ensures !AcceptedBy(cfg, s, Plainly(at)) && Clears(cfg, s, Plainly(at)) && Written(cfg, s, Plainly(at)) == None
    ensures After(cfg, s, Plainly(at)).now == at
  {
    hide SealedSession, Interval;
  }

  /** Writing the stamped ticket in chunks leaves the old one in place, and the clear uncovers it. */
  lemma OldTicketUncovered(w: Setup, u: Session, at: Time)
    requires WireOk(w) && Unstamped(u) && Chunked(w, Ticket(StampedAt(u, at), w.cfg.secret))
    ensures var jar := C.AfterSet(LegacyWorld(w, u).jar, w.name, w.wire(Ticket(StampedAt(u, at), w.cfg.secret)));
      && Shown(w, jar) == Some(Ticket(StampedAt(u, at), w.cfg.secret))
      && Shown(w, C.AfterClear(jar, w.name)) == Some(LegacyTicket(u, w.cfg.secret))
  {
    var before, text := LegacyWorld(w, u).jar, w.wire(Ticket(StampedAt(u, at), w.cfg.secret));
    ShownAfterWrite(w, before, Ticket(StampedAt(u, at), w.cfg.secret));
    C.AfterChunkedSet(before, w.name, text);
    C.ChunkedKeepsBase(before, w.name, text);
    ShownAfterClear(w, C.AfterSet(before, w.name, text));
    hide WireOk, Ticket, LegacyTicket, C.AfterSet, C.AfterClear;
    assert w.unwire(before[w.name]) == LegacyTicket(u, w.cfg.secret) by { WireBack(w, LegacyTicket(u, w.cfg.secret)); }
  }

  lemma WireBack(w: Setup, c: Ciphertext)
    requires WireOk(w)
    ensures w.unwire(w.wire(c)) == c
  {
  }

  /** An unstamped ticket is accepted at any time; if a new one is due it carries that time. */
  lemma UnstampedAccepted(cfg: Config, s: State, u: Session, at: Time)
    requires Unstamped(u) && Carried(cfg, s) == Some(u) && at > 0
    ensures AcceptedBy(cfg, s, Plainly(at))
    ensures Written(cfg, s, Plainly(at)) in {None, Some(Ticket(StampedAt(u, at), cfg.secret))}
  {
    hide SealedSession, Ticket, Interval, Storable;
    assert Verdict(cfg, s, Plainly(at)) == Accepted(StampedAt(u, at));
  }

  /** The states around the three requests: stamped at `at`, refused and cleared at `late`, accepted again. */
  predicate AcceptedAgain(w: Setup, run: JarRun, id: string, at: Time, late: Time) {
    && run.Legal(w) && run.events == [Plainly(at), Plainly(late), Plainly(late)]
    && CarriesId(w.cfg, View(w, run.states[1]), id) && SessionAt(w, run.states[1]).createdAt == at
    && !AcceptedBy(w.cfg, View(w, run.states[1]), Plainly(late))
    && CarriesId(w.cfg, View(w, run.states[2]), id) && SessionAt(w, run.states[2]).createdAt == 0
    && AcceptedBy(w.cfg, View(w, run.states[2]), Plainly(late))
  }

  /** An unstamped ticket of one cookie that is re-sealed in chunks: once the session is over its maximum
      lifetime it is refused and cleared, and the very next request is accepted with the old ticket. */
  lemma UnstampedTicketResurfaces(w: Setup, u: Session, at: Time, late: Time) returns (run: JarRun)
    requires WireOk(w) && w.cfg.bounds.maxLifetime > 0 && Unstamped(u) && at > 0
    requires late > at + w.cfg.bounds.maxLifetime * SECOND && Chunked(w, Ticket(StampedAt(u, at), w.cfg.secret))
    requires |w.wire(Ticket(StampedAt(u, late), w.cfg.secret))| <= C.MAX_TICKET_SIZE
    ensures AcceptedAgain(w, run, u.id, at, late)
  {
    var x0 := LegacyWorld(w, u);
    var x1 := Next(w, x0, Plainly(at));
    var x2 := Next(w, x1, Plainly(late));
    var x3 := Next(w, x2, Plainly(late));
    LegacySteps(w, u, at, late);
    hide *;
    run := JarRun([x0, x1, x2, x3], [Plainly(at), Plainly(late), Plainly(late)]);
    assert run.states[1] == x1 && run.states[2] == x2;
    LegalInThree(w, run);
    ResurfacedRun(w, run, u.id, at, late);
  }

  lemma ResurfacedRun(w: Setup, run: JarRun, id: string, at: Time, late: Time)
    requires run.Legal(w) && run.events == [Plainly(at), Plainly(late), Plainly(late)]
    requires CarriesId(w.cfg, View(w, run.states[1]), id) && SessionAt(w, run.states[1]).createdAt == at
    requires !AcceptedBy(w.cfg, View(w, run.states[1]), Plainly(late))
    requires CarriesId(w.cfg, View(w, run.states[2]), id) && SessionAt(w, run.states[2]).createdAt == 0
    requires AcceptedBy(w.cfg, View(w, run.states[2]), Plainly(late))
    ensures AcceptedAgain(w, run, id, at, late)
  {
  }

  lemma LegacySteps(w: Setup, u: Session, at: Time, late: Time)
    requires WireOk(w) && w.cfg.bounds.maxLifetime > 0 && Unstamped(u) && at > 0
    requires late > at + w.cfg.bounds.maxLifetime * SECOND && Chunked(w, Ticket(StampedAt(u, at), w.cfg.secret))
    requires |w.wire(Ticket(StampedAt(u, late), w.cfg.secret))| <= C.MAX_TICKET_SIZE
    ensures var x0 := LegacyWorld(w, u);
      var x1 := Next(w, x0, Plainly(at));
      var x2 := Next(w, x1, Plainly(late));
      && Init(w.cfg, View(w, x0)) && Possible(w, x0, Plainly(at))
      && CarriesId(w.cfg, View(w, x1), u.id) && SessionAt(w, x1).createdAt == at
      && Possible(w, x1, Plainly(late)) && !AcceptedBy(w.cfg, View(w, x1), Plainly(late))
      && CarriesId(w.cfg, View(w, x2), u.id) && SessionAt(w, x2).createdAt == 0
      && Possible(w, x2, Plainly(late)) && AcceptedBy(w.cfg, View(w, x2), Plainly(late))
  {
    var x0 := LegacyWorld(w, u);
    LegacyShown(w, u);
    LegacyRequest(w.cfg, View(w, x0), u, at);
    OldTicketUncovered(w, u, at);
    TicketRoundTrip(StampedAt(u, at), w.cfg.secret);
    TicketRoundTrip(u, w.cfg.secret);
    var x1 := Next(w, x0, Plainly(at));
    hide WireOk, SealedSession, Ticket, LegacyTicket, Interval, Storable, C.AfterSet, C.AfterClear, Init, Shown, After, Written, Clears, AcceptedBy, ForwardedBy, Enabled;
    assert Carried(w.cfg, View(w, x1)) == Some(StampedAt(u, at));
    LateForLifetime(w.cfg, View(w, x1), u, late);
    RequestEnabled(View(w, x1), Plainly(late));
    var x2 := Next(w, x1, Plainly(late));
    assert Carried(w.cfg, View(w, x2)) == Some(u);
    RequestEnabled(View(w, x2), Plainly(late));
    UnstampedAccepted(w.cfg, View(w, x2), u, late);
  }

  /** A login that follows a chunked one with a ticket of one chunk is never seen: the browser goes on showing
      the session of the first. */
  lemma LoginBehindOldChunks(w: Setup, v: Session, u: Session)
    requires WireOk(w) && NewSession(v) && NewSession(u) && v.id != u.id
    requires Chunked(w, Ticket(Stamped(v, 1), w.cfg.secret)) && Plain(w, Ticket(Stamped(u, 2), w.cfg.secret))
    ensures var x := Next(w, EMPTY_WORLD, Login(0, 1, v));
      && Possible(w, EMPTY_WORLD, Login(0, 1, v)) && Possible(w, x, Login(0, 2, u))
      && Carried(w.cfg, View(w, Next(w, x, Login(0, 2, u)))) == Some(Stamped(v, 1))
  {
    FirstLoginStep(w, v);
    var x := Next(w, EMPTY_WORLD, Login(0, 1, v));
    assert x.used == {v.id};
    C.AfterChunkedSet(map[], w.name, w.wire(Ticket(Stamped(v, 1), w.cfg.secret)));
    ShownAfterWrite(w, x.jar, Ticket(Stamped(u, 2), w.cfg.secret));
    hide WireOk, SealedSession, Ticket, Storable, C.AfterSet;
  }
}
