/** The lifetime bounds of a session over whole runs: one browser, any number of replicas, each with its own
    write tracker that may be wiped at any moment (src/main.go, src/session.go,
    src/session/cookieSessionStorage.go).

    The browser is one ticket cell here, replaced by every write and emptied by every clear. SessionCookies has
    the real cookies: it says for which steps the cell stands, and what holds at the others. */
module SessionLifetime {
  import opened Common
  import opened Sealing
  import opened SessionStore

  type Replica = nat

  datatype Config = Config(secret: string, bounds: Bounds)

  /** `used`: every session id given out so far. `active`: the time of the last login or forwarded
      request, history only. */
  datatype State = State(
    browser: Option<Ciphertext>,
    replicas: map<Replica, Tracker>,
    now: Time,
    used: set<string>,
    active: Option<Time>)

  datatype Event =
    | Login(r: Replica, at: Time, session: Session)            // establishSession, the ticket fits
    | Request(r: Replica, at: Time, answers: Answers, forwards: bool, fits: bool, clears: bool)
    | OtherSession(r: Replica, at: Time, id: string)           // another browser's session is written
    | Restart(r: Replica)                                      // the replica starts over, or joins
    | Discard                                                  // logout, or the user deletes the cookie

  function TrackerOf(s: State, r: Replica): Tracker {
    if r in s.replicas then s.replicas[r] else EMPTY_TRACKER
  }

  /** The session sealed in the browser's ticket. */
  function Carried(cfg: Config, s: State): Option<Session> {
    if s.browser.None? then None else SealedSession(s.browser.value, cfg.secret)
  }

  function Verdict(cfg: Config, s: State, e: Event): Validation
    requires e.Request?
  {
    if s.browser.None? then Refused
    else ValidatedTicket(s.browser.value, cfg.secret, cfg.bounds, e.at, e.answers)
  }

  predicate AcceptedBy(cfg: Config, s: State, e: Event) {
    e.Request? && (Verdict(cfg, s, e).Accepted? || Verdict(cfg, s, e).Renewed?)
  }

  function Outcome(cfg: Config, s: State, e: Event): Forwarding
    requires AcceptedBy(cfg, s, e)
  {
    var v := Verdict(cfg, s, e);
    Forwarded(TrackerOf(s, e.r), cfg.bounds, v.session, v.Renewed?, e.at, e.fits)
  }

  /** The request reached the backend with this session. `forwards` is false on logout routes and for
      sessions that fail authorization, which are answered before the ticket is written. A refused ticket
      is cleared unless the route is public or the front-channel one (`clears`). */
  predicate ForwardedBy(cfg: Config, s: State, e: Event) {
    AcceptedBy(cfg, s, e) && e.forwards && Outcome(cfg, s, e).forwarded
  }

  predicate Enabled(s: State, e: Event) {
    match e
    case Login(_, at, session) =>
      at >= s.now && at > 0 && session.id !in s.used && Storable(session.id) && session.createdAt == 0
    case Request(_, at, _, _, _, _) => at >= s.now && at > 0
    case OtherSession(_, at, id) => at >= s.now && id !in s.used
    case _ => true
  }

  function After(cfg: Config, s: State, e: Event): State {
    match e
    case Login(r, at, session) =>
      State(Some(Ticket(Stamped(session, at), cfg.secret)),
            s.replicas[r := Marked(TrackerOf(s, r), session.id, at)], at, s.used + {session.id}, Some(at))
    case Request(r, at, _, forwards, _, clears) =>
      if AcceptedBy(cfg, s, e) then
        if !forwards then s.(now := at)
        else
          var out := Outcome(cfg, s, e);
          State(if out.ticket.Some? then Some(Ticket(out.ticket.value, cfg.secret)) else s.browser,
                s.replicas[r := out.tracker], at, s.used, if out.forwarded then Some(at) else s.active)
      else if Verdict(cfg, s, e).Refused? && clears then s.(browser := None, now := at)
      else s.(now := at)
    case OtherSession(r, at, id) =>
      s.(replicas := s.replicas[r := Marked(TrackerOf(s, r), id, at)], now := at, used := s.used + {id})
    case Restart(r) => s.(replicas := s.replicas[r := EMPTY_TRACKER])
    case Discard => s.(browser := None)
  }

  /** Before the run: perhaps a ticket of an older version, stamped or not, and no tracker knows it. */
  predicate Init(cfg: Config, s: State) {
    && s.replicas == map[] && s.active == None
    && match Carried(cfg, s)
       case None => s.browser == None
       case Some(v) => Storable(v.id) && v.id in s.used && v.createdAt <= s.now && v.lastUsedAt <= s.now
  }

  datatype Run = Run(states: seq<State>, events: seq<Event>) {
    predicate Legal(cfg: Config) {
      && |states| == |events| + 1 && Init(cfg, states[0])
      && forall i | 0 <= i < |events| :: Enabled(states[i], events[i]) && states[i + 1] == After(cfg, states[i], events[i])
    }
  }

  // ---------------------------------------------------------------------------
  // The invariant
  // ---------------------------------------------------------------------------

  /** If a replica remembers writing this session, the browser has that write or a later one. */
  predicate TrackedBy(t: Tracker, v: Session) {
    v.id in t.last ==> 0 < t.last[v.id] <= v.lastUsedAt && v.createdAt != 0
  }

  /** The durable last use: never after the last activity, and less than one interval before it. */
  predicate FreshSince(b: Bounds, v: Session, active: Time) {
    v.lastUsedAt <= active && (b.idle > 0 ==> active < v.lastUsedAt + Interval(b.idle) * SECOND)
  }

  predicate SessionOk(cfg: Config, s: State, v: Session) {
    && Storable(v.id) && v.id in s.used && v.createdAt <= s.now && v.lastUsedAt <= s.now
    && (forall r | r in s.replicas :: TrackedBy(s.replicas[r], v))
    && (s.active.Some? ==> FreshSince(cfg.bounds, v, s.active.value))
    && (s.active.Some? && (cfg.bounds.maxLifetime > 0 || cfg.bounds.idle > 0) ==> v.createdAt != 0 && v.lastUsedAt != 0)
  }

  /** A tracker only knows ids given out before, written in the past. */
  predicate TrackerOk(t: Tracker, used: set<string>, now: Time) {
    forall id | id in t.last :: id in used && t.last[id] <= now
  }

  lemma MarkedOk(t: Tracker, used: set<string>, now: Time, id: string, at: Time)
    requires TrackerOk(t, used, now) && now <= at
    ensures TrackerOk(Marked(t, id, at), used + {id}, at) && TrackerOk(t, used, at) && TrackerOk(t, used + {id}, at)
  {
  }

  lemma TrackersAge(s: State, at: Time, more: set<string>)
    requires (forall r | r in s.replicas :: TrackerOk(s.replicas[r], s.used, s.now)) && s.now <= at && s.used <= more
    ensures forall r | r in s.replicas :: TrackerOk(s.replicas[r], more, at)
    ensures forall r :: TrackerOk(TrackerOf(s, r), s.used, s.now)
  {
  }

  predicate Inv(cfg: Config, s: State) {
    && (forall r | r in s.replicas :: TrackerOk(s.replicas[r], s.used, s.now))
    && (s.active.Some? ==> s.active.value <= s.now)
    && match Carried(cfg, s)
       case None => s.browser == None
       case Some(v) => SessionOk(cfg, s, v)
  }

  lemma LoginKeepsInv(cfg: Config, s: State, e: Event)
    requires Inv(cfg, s) && Enabled(s, e) && e.Login?
    ensures Inv(cfg, After(cfg, s, e))
  {
    hide SealedSession, Storable, TrackerOk;
    var v, s' := Stamped(e.session, e.at), After(cfg, s, e);
    TicketRoundTrip(v, cfg.secret);
    TrackersAge(s, e.at, s'.used);
    MarkedOk(TrackerOf(s, e.r), s.used, s.now, v.id, e.at);
    forall r | r in s'.replicas ensures TrackedBy(s'.replicas[r], v) {
      if r != e.r { UnknownId(s.replicas[r], s.used, s.now, v.id); }
    }
  }

  lemma UnknownId(t: Tracker, used: set<string>, now: Time, id: string)
    requires TrackerOk(t, used, now) && id !in used
    ensures id !in t.last
  {
  }

  /** Validation keeps identity and creation time, and only an accepted session moves its last use. */
  lemma VerdictKeeps(cfg: Config, s: State, e: Event)
    requires AcceptedBy(cfg, s, e)
    ensures Carried(cfg, s).Some?
    ensures
      var w := Verdict(cfg, s, e).session;
      var v := Backfilled(Carried(cfg, s).value, e.at);
      && w.id == v.id && w.createdAt == v.createdAt
      && WithinLifetime(cfg.bounds, v, e.at) && WithinIdle(cfg.bounds, v, e.at)
  {
    hide SealedSession;
  }

  lemma ForwardKeepsInv(cfg: Config, s: State, e: Event)
    requires Inv(cfg, s) && Enabled(s, e) && AcceptedBy(cfg, s, e) && e.forwards
    ensures Inv(cfg, After(cfg, s, e))
  {
    hide SealedSession, Storable, ValidatedTicket, Interval, TrackerOk;
    VerdictKeeps(cfg, s, e);
    var v, out := Carried(cfg, s).value, Outcome(cfg, s, e);
    var s' := After(cfg, s, e);
    TrackersAge(s, e.at, s'.used);
    MarkedOk(TrackerOf(s, e.r), s.used, s.now, v.id, e.at);
    assert s.used + {v.id} == s.used;
    if out.ticket.Some? {
      var w := out.ticket.value;
      TicketRoundTrip(w, cfg.secret);
      assert forall r | r in s'.replicas :: TrackedBy(s'.replicas[r], w) by {
        assert forall r | r in s.replicas :: TrackedBy(s.replicas[r], v);
      }
    } else {
      assert TrackedBy(TrackerOf(s, e.r), v);
      assert forall r | r in s'.replicas :: TrackedBy(s'.replicas[r], v);
    }
  }

  lemma OtherKeepsInv(cfg: Config, s: State, e: Event)
    requires Inv(cfg, s) && Enabled(s, e) && !e.Login? && !(AcceptedBy(cfg, s, e) && e.forwards)
    ensures Inv(cfg, After(cfg, s, e))
  {
    hide SealedSession, Storable, Interval, TrackerOk, Verdict;
    var s' := After(cfg, s, e);
    TrackersAge(s, s'.now, s'.used);
    if e.OtherSession? { MarkedOk(TrackerOf(s, e.r), s.used, s.now, e.id, e.at); }
    EmptyTrackerOk(s'.used, s'.now);
    if Carried(cfg, s').Some? {
      var v := Carried(cfg, s).value;
      forall r | r in s'.replicas ensures TrackedBy(s'.replicas[r], v) {
        if r in s.replicas { assert TrackedBy(s.replicas[r], v); }
      }
    }
  }

  lemma EmptyTrackerOk(used: set<string>, now: Time)
    ensures TrackerOk(EMPTY_TRACKER, used, now)
  {
  }

  lemma StepKeepsInv(cfg: Config, s: State, e: Event)
    requires Inv(cfg, s) && Enabled(s, e)
    ensures Inv(cfg, After(cfg, s, e))
  {
    hide Inv, Enabled, After, Verdict;
    if e.Login? {
      LoginKeepsInv(cfg, s, e);
    } else if AcceptedBy(cfg, s, e) && e.forwards {
      ForwardKeepsInv(cfg, s, e);
    } else {
      OtherKeepsInv(cfg, s, e);
    }
  }

  lemma {:induction false} RunKeepsInv(cfg: Config, run: Run, i: nat)
    requires run.Legal(cfg) && i < |run.states|
    ensures Inv(cfg, run.states[i])
  {
    hide After, Enabled, Inv;
    if i == 0 {
      InitInv(cfg, run.states[0]);
    } else {
      RunKeepsInv(cfg, run, i - 1);
      StepKeepsInv(cfg, run.states[i - 1], run.events[i - 1]);
    }
  }

  lemma InitInv(cfg: Config, s: State)
    requires Init(cfg, s)
    ensures Inv(cfg, s)
  {
    hide SealedSession;
  }

  // ---------------------------------------------------------------------------
  // The idle bound
  // ---------------------------------------------------------------------------

  /** After every forwarded request the ticket in the browser was used less than one interval ago. */
  lemma DurableLastUse(cfg: Config, run: Run, i: nat)
    requires run.Legal(cfg) && i < |run.events|
    requires ForwardedBy(cfg, run.states[i], run.events[i]) && cfg.bounds.idle > 0
    ensures Carried(cfg, run.states[i + 1]).Some?
    ensures Carried(cfg, run.states[i + 1]).value.lastUsedAt
          > run.events[i].at - Interval(cfg.bounds.idle) * SECOND
  {
    hide SealedSession, ValidatedTicket, Interval;
    RunKeepsInv(cfg, run, i + 1);
    VerdictKeeps(cfg, run.states[i], run.events[i]);
  }

  /** With `active` the time of the last login or forwarded request: a gap over the idle bound is always
      refused, and a gap of at most the bound less one interval (and a nanosecond more) is never refused as
      idle. */
  lemma IdleGap(cfg: Config, run: Run, i: nat)
    requires run.Legal(cfg) && i < |run.events| && run.events[i].Request?
    requires run.states[i].active.Some? && cfg.bounds.idle > 0
    ensures var gap := run.events[i].at - run.states[i].active.value;
      && (gap > cfg.bounds.idle * SECOND ==> !AcceptedBy(cfg, run.states[i], run.events[i]))
      && (gap <= (cfg.bounds.idle - Interval(cfg.bounds.idle)) * SECOND + 1 && Carried(cfg, run.states[i]).Some? ==>
            WithinIdle(cfg.bounds, Backfilled(Carried(cfg, run.states[i]).value, run.events[i].at), run.events[i].at))
  {
    hide SealedSession, ValidatedTicket, Interval;
    RunKeepsInv(cfg, run, i);
    var s, e := run.states[i], run.events[i];
    if AcceptedBy(cfg, s, e) {
      VerdictKeeps(cfg, s, e);
    }
  }

  /** The history field means what it says: it is the time of the last login or forwarded request. */
  lemma ActiveIsLastUse(cfg: Config, run: Run, i: nat)
    requires run.Legal(cfg) && i < |run.events|
    ensures run.states[i + 1].active ==
      if run.events[i].Login? || ForwardedBy(cfg, run.states[i], run.events[i]) then Some(run.events[i].at)
      else run.states[i].active
  {
    hide SealedSession, ValidatedTicket, StoreDue;
  }

  const ALL_WELL := Answers(TokenCheck(true, false), false, None, TokenCheck(true, false))

  const NOTHING_YET := State(None, map[], 0, {}, None)

  /** The browser carries this session as sealed at 1 by replica 0. */
  predicate JustSealed(cfg: Config, s: State, v: Session) {
    && Carried(cfg, s) == Some(Stamped(v, 1))
    && v.id in TrackerOf(s, 0).last && TrackerOf(s, 0).last[v.id] == 1
  }

  predicate NewSession(v: Session) {
    Storable(v.id) && v.createdAt == 0
  }

  lemma FirstLogin(cfg: Config, v: Session)
    requires NewSession(v)
    ensures Enabled(NOTHING_YET, Login(0, 1, v))
    ensures var s := After(cfg, NOTHING_YET, Login(0, 1, v)); JustSealed(cfg, s, v) && s.now == 1
  {
    TicketRoundTrip(Stamped(v, 1), cfg.secret);
    hide SealedSession, Ticket, Storable;
  }

  /** Before the refresh interval is over a request is forwarded and the ticket stays what it is. */
  lemma EarlyRequest(cfg: Config, s: State, v: Session, at: Time)
    requires cfg.bounds.idle > 0 && RoomFor(cfg.bounds) && NewSession(v) && JustSealed(cfg, s, v)
    requires s.now <= at && 1 <= at < 1 + Interval(cfg.bounds.idle) * SECOND
    ensures var e := Request(0, at, ALL_WELL, true, true, true);
      && Enabled(s, e) && ForwardedBy(cfg, s, e)
      && JustSealed(cfg, After(cfg, s, e), v) && After(cfg, s, e).now == at && After(cfg, s, e).active == Some(at)
  {
    hide SealedSession, Ticket, Interval, Storable;
    assert Verdict(cfg, s, Request(0, at, ALL_WELL, true, true, true)) == Accepted(Stamped(v, 1).(lastUsedAt := at));
  }

  /** The maximum lifetime, if any, leaves room for one refresh interval. */
  predicate RoomFor(b: Bounds)
    requires b.idle > 0
  {
    b.maxLifetime <= 0 || b.maxLifetime * SECOND >= Interval(b.idle) * SECOND
  }

  /** The browser's session is over the idle bound at this moment. */
  predicate TooIdle(cfg: Config, s: State, at: Time) {
    Carried(cfg, s).Some? && !WithinIdle(cfg.bounds, Backfilled(Carried(cfg, s).value, at), at)
  }

  /** The last event of the run is a request that is refused as idle, `gap` nanoseconds after the last login
      or forwarded request. */
  predicate RefusedAfter(cfg: Config, run: Run, gap: nat) {
    var n := |run.events| - 1;
    && run.Legal(cfg) && n >= 0 && run.events[n].Request? && run.states[n].active.Some?
    && run.events[n].at - run.states[n].active.value == gap && TooIdle(cfg, run.states[n], run.events[n].at)
  }

  lemma RefusedRun(cfg: Config, v: Session, last: Time, late: Time) returns (run: Run)
    requires cfg.bounds.idle > 0 && RoomFor(cfg.bounds) && NewSession(v)
    requires 1 <= last < 1 + Interval(cfg.bounds.idle) * SECOND && late > 1 + cfg.bounds.idle * SECOND && last <= late
    ensures RefusedAfter(cfg, run, late - last)
  {
    var e0, e1, e2 := Login(0, 1, v), Request(0, last, ALL_WELL, true, true, true), Request(0, late, ALL_WELL, true, true, true);
    var s1 := After(cfg, NOTHING_YET, e0);
    var s2 := After(cfg, s1, e1);
    hide Enabled, After, SealedSession, Ticket, Interval, ForwardedBy, NewSession, Storable, RoomFor;
    FirstLogin(cfg, v);
    EarlyRequest(cfg, s1, v, last);
    assert TooIdle(cfg, s2, late);
    hide JustSealed, TooIdle;
    assert Enabled(s2, e2) by { RequestEnabled(s2, e2); }
    run := Run([NOTHING_YET, s1, s2, After(cfg, s2, e2)], [e0, e1, e2]);
  }

  lemma RequestEnabled(s: State, e: Event)
    requires e.Request? && e.at >= s.now && e.at > 0
    ensures Enabled(s, e)
  {
  }

  function SomeNewSession(): (v: Session)
    ensures NewSession(v)
  {
    assert |"id"| == 2 && |"AuthorizationHeader"| == 19 && |"AuthorizationCookie"| == 19;
    Session("id", 0, "", "", "", false, 0, false, 0, 0)
  }

  /** The guarantee is exact: an active session can be refused as idle after a gap exactly when the gap is over
      the bound less one interval and a nanosecond. The refused session's last forwarded request came just
      before a new ticket was due. */
  lemma IdleRefusalExactly(cfg: Config, gap: nat)
    requires cfg.bounds.idle > 0 && RoomFor(cfg.bounds)
    ensures (exists run :: RefusedAfter(cfg, run, gap))
       <==> gap > (cfg.bounds.idle - Interval(cfg.bounds.idle)) * SECOND + 1
  {
    var interval := Interval(cfg.bounds.idle);
    hide NewSession, Interval, RoomFor, Run.Legal, SealedSession;
    assert interval <= cfg.bounds.idle && cfg.bounds.idle * SECOND - interval * SECOND == (cfg.bounds.idle - interval) * SECOND;
    if run :| RefusedAfter(cfg, run, gap) {
      IdleGap(cfg, run, |run.events| - 1);
    }
    if gap > (cfg.bounds.idle - interval) * SECOND + 1 {
      var run := RefusedRun(cfg, SomeNewSession(), interval * SECOND, interval * SECOND + gap);
    }
  }

  // ---------------------------------------------------------------------------
  // The absolute bound
  // ---------------------------------------------------------------------------

  predicate CarriesId(cfg: Config, s: State, id: string) {
    Carried(cfg, s).Some? && Carried(cfg, s).value.id == id
  }

  /** One step keeps a stamped creation time as long as the browser carries the same session. */
  lemma StepKeepsCreatedAt(cfg: Config, s: State, e: Event, id: string)
    requires Inv(cfg, s) && Enabled(s, e)
    requires CarriesId(cfg, After(cfg, s, e), id) && id in s.used
    ensures CarriesId(cfg, s, id)
    ensures Carried(cfg, s).value.createdAt != 0 ==>
      Carried(cfg, After(cfg, s, e)).value.createdAt == Carried(cfg, s).value.createdAt
  {
    hide SealedSession, Storable, ValidatedTicket, StoreDue;
    match e {
      case Login(_, _, session) =>
        TicketRoundTrip(Stamped(session, e.at), cfg.secret);
      case Request(_, _, _, forwards, _, _) =>
        if AcceptedBy(cfg, s, e) && forwards {
          VerdictKeeps(cfg, s, e);
          var out := Outcome(cfg, s, e);
          if out.ticket.Some? { TicketRoundTrip(out.ticket.value, cfg.secret); }
        }
      case _ =>
    }
  }

  lemma UsedGrows(cfg: Config, s: State, e: Event)
    ensures s.used <= After(cfg, s, e).used
  {
    hide SealedSession, ValidatedTicket, StoreDue;
  }

  lemma {:induction false} UsedKept(cfg: Config, run: Run, i: nat, j: nat)
    requires run.Legal(cfg) && i <= j < |run.states|
    ensures run.states[i].used <= run.states[j].used
  {
    hide After, Enabled;
    if i < j {
      UsedKept(cfg, run, i, j - 1);
      UsedGrows(cfg, run.states[j - 1], run.events[j - 1]);
    }
  }

  /** Along every run, through renewals, re-seals, wipes and replicas, the sealed creation time of a
      session never changes once it is set. */
  lemma {:induction false} CreatedAtNeverChanges(cfg: Config, run: Run, i: nat, j: nat, id: string)
    requires run.Legal(cfg) && i <= j < |run.states|
    requires CarriesId(cfg, run.states[i], id) && CarriesId(cfg, run.states[j], id)
    requires Carried(cfg, run.states[i]).value.createdAt != 0
    ensures Carried(cfg, run.states[j]).value.createdAt == Carried(cfg, run.states[i]).value.createdAt
  {
    hide After, Enabled, SealedSession;
    if i < j {
      RunKeepsInv(cfg, run, i);
      RunKeepsInv(cfg, run, j - 1);
      UsedKept(cfg, run, i, j - 1);
      StepKeepsCreatedAt(cfg, run.states[j - 1], run.events[j - 1], id);
      CreatedAtNeverChanges(cfg, run, i, j - 1, id);
    }
  }

  /** A login stamps its own time; a legacy ticket is stamped by its first forwarded request. */
  lemma StampedWhenForwarded(cfg: Config, run: Run, i: nat)
    requires run.Legal(cfg) && i < |run.events| && cfg.bounds.maxLifetime > 0
    requires run.events[i].Login? || ForwardedBy(cfg, run.states[i], run.events[i])
    ensures Carried(cfg, run.states[i + 1]).Some? && 0 < Carried(cfg, run.states[i + 1]).value.createdAt <= run.events[i].at
    ensures run.events[i].Login? ==> Carried(cfg, run.states[i + 1]).value.createdAt == run.events[i].at
  {
    hide SealedSession, ValidatedTicket, StoreDue;
    RunKeepsInv(cfg, run, i + 1);
    ActiveIsLastUse(cfg, run, i);
    if run.events[i].Login? {
      TicketRoundTrip(Stamped(run.events[i].session, run.events[i].at), cfg.secret);
    } else {
      VerdictKeeps(cfg, run.states[i], run.events[i]);
    }
  }

  /** No request is ever accepted later than the creation time plus the maximum lifetime, whatever
      happened in between. */
  lemma NeverAcceptedPastLifetime(cfg: Config, run: Run, i: nat, j: nat, id: string)
    requires run.Legal(cfg) && i <= j < |run.events| && cfg.bounds.maxLifetime > 0
    requires CarriesId(cfg, run.states[i], id) && Carried(cfg, run.states[i]).value.createdAt != 0
    requires CarriesId(cfg, run.states[j], id) && AcceptedBy(cfg, run.states[j], run.events[j])
    ensures run.events[j].at <= Carried(cfg, run.states[i]).value.createdAt + cfg.bounds.maxLifetime * SECOND
  {
    hide SealedSession, ValidatedTicket, After, Enabled;
    CreatedAtNeverChanges(cfg, run, i, j, id);
    VerdictKeeps(cfg, run.states[j], run.events[j]);
  }
}
