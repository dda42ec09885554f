/** Publication of the discovery document under concurrent first requests
    (EnsureOidcDiscovery in src/main.go).

    The write lock is held across the fetch and the six assignments that follow it. The assignments are
    separate steps, because some readers look at the document without taking the lock. */
module Discovery {
  import opened Common

  type Tid = nat

  datatype Document = Document(issuer: string, jwksUri: string, authorizationEndpoint: string)

  /** What the operator configured; empty means "take the default". */
  datatype Settings = Settings(issuer: string, audience: string, clientId: string)

  /** The fields EnsureOidcDiscovery writes. `handler` identifies the JwksHandler object, which every
      attempt replaces and which starts without a URL. */
  datatype Shared = Shared(
    document: Option<Document>,
    handler: nat,
    handlerUrl: string,
    validIssuer: string,
    validAudience: string,
    configIssuer: string,
    configAudience: string)

  function Default(value: string, fallback: string): string {
    if value == "" then fallback else value
  }

  /** Everything a reader of the document depends on, for one fetched document. */
  predicate Published(m: Shared, c: Settings, d: Document) {
    && m.document == Some(d) && m.handlerUrl == d.jwksUri
    && m.validIssuer == m.configIssuer == Default(c.issuer, d.issuer)
    && m.validAudience == m.configAudience == Default(c.audience, c.clientId)
  }

  // ---------------------------------------------------------------------------
  // One call, alone
  // ---------------------------------------------------------------------------

  class Middleware {
    const clientId: string
    var document: Option<Document>
    var handler: nat
    var handlerUrl: string
    var validIssuer: string
    var validAudience: string
    var configIssuer: string
    var configAudience: string

    function Value(): Shared
      reads this
    {
      Shared(document, handler, handlerUrl, validIssuer, validAudience, configIssuer, configAudience)
    }

    constructor (c: Settings)
      ensures clientId == c.clientId && Value() == Before(c)
    {
      clientId, document, handler, handlerUrl := c.clientId, None, 0, "";
      validIssuer, validAudience, configIssuer, configAudience := "", "", c.issuer, c.audience;
    }

    /** EnsureOidcDiscovery: a failed fetch publishes nothing and is not remembered. */
    method EnsureOidcDiscovery(fetched: Option<Document>) returns (ok: bool)
      modifies this
      ensures ok <==> old(document).Some? || fetched.Some?
      ensures old(document).Some? ==> Value() == old(Value())
      ensures old(document).None? && fetched.None? ==> Value() == old(Value()).(handler := handler, handlerUrl := "")
      ensures old(document).None? && fetched.Some? ==>
        Published(Value(), Settings(old(configIssuer), old(configAudience), clientId), fetched.value)
    {
      if document.Some? { return true; }
      handler := handler + 1;
      handlerUrl := "";
      if fetched.None? { return false; }
      var d := fetched.value;
      var issuer, audience := configIssuer, configAudience;
      if issuer == "" { issuer := d.issuer; }
      if audience == "" { audience := clientId; }
      handlerUrl := d.jwksUri;
      validIssuer := issuer;
      validAudience := audience;
      configIssuer := issuer;
      configAudience := audience;
      document := Some(d);
      return true;
    }
  }

  // ---------------------------------------------------------------------------
  // Any number of calls at once
  // ---------------------------------------------------------------------------

  datatype PC =
    | Start
    | Waiting
    | Locked
    | Fetching
    | Publishing(d: Document, issuer: string, audience: string, done: nat)  // `done` of six assignments made
    | Unlocking(ok: bool)
    | Done(ok: bool)

  /** `fetches`: the documents fetched so far, history only. */
  datatype State = State(shared: Shared, writer: Option<Tid>, threads: map<Tid, PC>, fetches: seq<Document>)

  datatype Event =
    | Call(t: Tid)
    | FastPath(t: Tid)
    | Lock(t: Tid)
    | Recheck(t: Tid)
    | EndFetch(t: Tid, result: Option<Document>)
    | Write(t: Tid)
    | Unlock(t: Tid)

  function Before(c: Settings): Shared {
    Shared(None, 0, "", "", "", c.issuer, c.audience)
  }

  predicate Init(c: Settings, s: State) {
    s == State(Before(c), None, map[], [])
  }

  function Goto(s: State, t: Tid, pc: PC): State {
    s.(threads := s.threads[t := pc])
  }

  /** The `k`-th of the six assignments, counted from 0. */
  function Assign(m: Shared, d: Document, issuer: string, audience: string, k: nat): Shared {
    if k == 0 then m.(handlerUrl := d.jwksUri)
    else if k == 1 then m.(validIssuer := issuer)
    else if k == 2 then m.(validAudience := audience)
    else if k == 3 then m.(configIssuer := issuer)
    else if k == 4 then m.(configAudience := audience)
    else m.(document := Some(d))
  }

  /** One step. The effective issuer and audience are computed between the fetch and the assignments. */
  predicate Step(c: Settings, s: State, e: Event, s': State) {
    match e
    case Call(t) => t !in s.threads && s' == Goto(s, t, Start)
    case FastPath(t) =>  // the read lock is free only while no writer holds the lock
      && t in s.threads && s.threads[t] == Start && s.writer == None
      && s' == Goto(s, t, if s.shared.document.Some? then Done(true) else Waiting)
    case Lock(t) =>
      t in s.threads && s.threads[t] == Waiting && s.writer == None && s' == Goto(s, t, Locked).(writer := Some(t))
    case Recheck(t) =>
      && t in s.threads && s.threads[t] == Locked
      && s' == if s.shared.document.Some? then Goto(s, t, Unlocking(true))
               else Goto(s, t, Fetching).(shared := s.shared.(handler := s.shared.handler + 1, handlerUrl := ""))
    case EndFetch(t, result) =>
      && t in s.threads && s.threads[t] == Fetching
      && s' == if result.None? then Goto(s, t, Unlocking(false))
               else Goto(s, t, Publishing(result.value, Default(s.shared.configIssuer, result.value.issuer),
                                          Default(s.shared.configAudience, c.clientId), 0)).(
                      fetches := s.fetches + [result.value])
    case Write(t) =>
      && t in s.threads && s.threads[t].Publishing?
      && var pc := s.threads[t];
         && pc.done < 6
         && s' == Goto(s, t, if pc.done == 5 then Unlocking(true) else pc.(done := pc.done + 1)).(
                    shared := Assign(s.shared, pc.d, pc.issuer, pc.audience, pc.done))
    case Unlock(t) =>
      && t in s.threads && s.threads[t].Unlocking? && s' == Goto(s, t, Done(s.threads[t].ok)).(writer := None)
  }

  datatype Run = Run(states: seq<State>, events: seq<Event>) {
    predicate Legal(c: Settings) {
      && |states| == |events| + 1 && Init(c, states[0])
      && forall i | 0 <= i < |events| :: Step(c, states[i], events[i], states[i + 1])
    }
  }

  // ---------------------------------------------------------------------------
  // The invariant
  // ---------------------------------------------------------------------------

  predicate Critical(pc: PC) {
    pc.Locked? || pc.Fetching? || pc.Publishing? || pc.Unlocking?
  }

  /** Nothing published: everything but the handler object is as configured. */
  predicate Untouched(m: Shared, c: Settings) {
    m == Before(c).(handler := m.handler)
  }

  predicate ThreadOk(c: Settings, s: State, pc: PC) {
    match pc
    case Fetching => s.fetches == []
    case Publishing(d, issuer, audience, n) =>
      && s.fetches == [d] && n < 6 && issuer == Default(c.issuer, d.issuer) && audience == Default(c.audience, c.clientId)
      && s.shared == Shared(None, s.shared.handler,
                            if n > 0 then d.jwksUri else "",
                            if n > 1 then issuer else "",
                            if n > 2 then audience else "",
                            if n > 3 then issuer else c.issuer,
                            if n > 4 then audience else c.audience)
    case Unlocking(ok) => ok ==> s.shared.document.Some?
    case Done(ok) => ok ==> s.shared.document.Some?
    case _ => true
  }

  predicate Inv(c: Settings, s: State) {
    && (s.writer.Some? ==> s.writer.value in s.threads)
    && (forall t | t in s.threads :: Critical(s.threads[t]) <==> s.writer == Some(t))
    && (forall t | t in s.threads :: ThreadOk(c, s, s.threads[t]))
    && (match s.shared.document
        case Some(d) => s.fetches == [d] && Published(s.shared, c, d)
        case None =>
          (s.writer == None || !s.threads[s.writer.value].Publishing?) ==> s.fetches == [] && Untouched(s.shared, c))
  }

  lemma StepKeepsInv(c: Settings, s: State, e: Event, s': State)
    requires Inv(c, s) && Step(c, s, e, s')
    ensures Inv(c, s')
  {
    hide Default;
    if e.t in s.threads { assert ThreadOk(c, s, s.threads[e.t]); }
    forall t | t in s'.threads && t != e.t ensures ThreadOk(c, s', s'.threads[t]) {
      assert ThreadOk(c, s, s.threads[t]);
    }
  }

  lemma {:induction false} RunKeepsInv(c: Settings, run: Run, i: nat)
    requires run.Legal(c) && i < |run.states|
    ensures Inv(c, run.states[i])
  {
    hide Inv, Step;
    if i == 0 {
      InitInv(c, run.states[0]);
    } else {
      RunKeepsInv(c, run, i - 1);
      StepKeepsInv(c, run.states[i - 1], run.events[i - 1], run.states[i]);
    }
  }

  lemma InitInv(c: Settings, s: State)
    requires Init(c, s)
    ensures Inv(c, s)
  {
  }

  // ---------------------------------------------------------------------------
  // What every interleaving guarantees
  // ---------------------------------------------------------------------------

  /** Discovery succeeds at most once, and whoever got nil sees that one document with the handler URL,
      issuer and audience that belong to it and to the configuration. */
  lemma NilSeesTheOneDocument(c: Settings, run: Run, i: nat, t: Tid)
    requires run.Legal(c) && i < |run.states|
    ensures |run.states[i].fetches| <= 1
    ensures t in run.states[i].threads && run.states[i].threads[t] == Done(true) ==>
      |run.states[i].fetches| == 1 && Published(run.states[i].shared, c, run.states[i].fetches[0])
  {
    hide Step, Default;
    RunKeepsInv(c, run, i);
    var s := run.states[i];
    if t in s.threads { assert ThreadOk(c, s, s.threads[t]); }
    if s.writer.Some? { assert ThreadOk(c, s, s.threads[s.writer.value]); }
  }

  /** Even a reader that takes no lock never sees the document before what it depends on. */
  lemma DocumentIsPublishedLast(c: Settings, run: Run, i: nat)
    requires run.Legal(c) && i < |run.states| && run.states[i].shared.document.Some?
    ensures Published(run.states[i].shared, c, run.states[i].shared.document.value)
  {
    hide Step;
    RunKeepsInv(c, run, i);
  }

  /** Once published, nothing changes any more. */
  lemma {:induction false} NeverChangesAgain(c: Settings, run: Run, i: nat, j: nat)
    requires run.Legal(c) && i <= j < |run.states| && run.states[i].shared.document.Some?
    ensures run.states[j].shared == run.states[i].shared && run.states[j].fetches == run.states[i].fetches
  {
    hide Default;
    if i < j {
      NeverChangesAgain(c, run, i, j - 1);
      RunKeepsInv(c, run, j - 1);
      var s, e := run.states[j - 1], run.events[j - 1];
      assert Step(c, s, e, run.states[j]);
      if e.t in s.threads { assert ThreadOk(c, s, s.threads[e.t]); }
    }
  }

  /** A failed attempt is not remembered: until a fetch succeeds the configuration is as it was. */
  lemma FailureLeavesNoTrace(c: Settings, run: Run, i: nat)
    requires run.Legal(c) && i < |run.states| && run.states[i].fetches == []
    ensures Untouched(run.states[i].shared, c)
  {
    hide Step, Default;
    RunKeepsInv(c, run, i);
    var s := run.states[i];
    if s.writer.Some? { assert ThreadOk(c, s, s.threads[s.writer.value]); }
  }
}
