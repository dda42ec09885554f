/** Any number of goroutines in EnsureLoadedContext and in the key lookups at once (src/oidc/jwks.go).

    Each lock region is one step, the fetch is a start step and an end step whose outcome the provider
    chooses, and the clock never goes back. */
module JwksProtocol {
  import opened Common
  import opened Sealing
  import opened Jwks

  type Tid = nat

  datatype PC =
    | Start(force: bool)                                   // before the read-locked fast path
    | Waiting(force: bool)                                 // before reloadLock.Lock
    | Holding(force: bool)                                 // holds reloadLock, before the recheck
    | Loading(force: bool, hasKeys: bool)                  // decided to fetch
    | Fetching(force: bool, hasKeys: bool, started: Time)
    | Storing(force: bool, started: Time, keys: KeySet)    // before the write region of loadKeysContext
    | Recording(force: bool, started: Time)                // failed with keys: before lastReloadError is set
    | Releasing(force: bool, ok: bool)                     // the deferred Unlock
    | Done(force: bool, ok: bool)

  /** History: one finished fetch. `hadKeys` is what the recheck saw. */
  datatype Entry = Entry(started: Time, ended: Time, hadKeys: bool, installed: Option<KeySet>)

  /** A lookup holds the slice it snapshot; `seen` is the number of fetches finished by then. */
  datatype Lookup =
    | Snapshot(family: Family, kid: string, keys: KeySet, seen: nat)
    | Answered(family: Family, kid: string, answer: Option<PublicKey>, seen: nat)

  datatype State = State(
    cache: Cache,
    lock: Option<Tid>,
    threads: map<Tid, PC>,
    lookups: map<nat, Lookup>,
    now: Time,
    log: seq<Entry>)

  datatype Event =
    | Call(t: Tid, force: bool)
    | FastPath(t: Tid)
    | Acquire(t: Tid)
    | Recheck(t: Tid)
    | BeginFetch(t: Tid)
    | EndFetch(t: Tid, result: Option<KeySet>)
    | Store(t: Tid)
    | RecordFailure(t: Tid)
    | Release(t: Tid)
    | TakeSnapshot(l: nat, family: Family, kid: string)
    | Answer(l: nat, answer: Option<PublicKey>)

  const EMPTY_CACHE := Cache(KeySet([], []), 0, 0)

  predicate Init(s: State) {
    s.cache == EMPTY_CACHE && s.lock == None && s.threads == map[] && s.lookups == map[] && s.now > 0 && s.log == []
  }

  function Goto(s: State, t: Tid, pc: PC): State {
    s.(threads := s.threads[t := pc])
  }

  /** Event `e` happens in `s`, whose clock already shows the time of the step. */
  predicate Does(s: State, e: Event, s': State) {
    match e
    case Call(t, force) => t !in s.threads && s' == Goto(s, t, Start(force))
    case FastPath(t) =>
      && t in s.threads && s.threads[t].Start?
      && var f := s.threads[t].force;
         s' == Goto(s, t, if NeedsReload(s.cache, s.now, f) then Waiting(f) else Done(f, true))
    case Acquire(t) =>
      && t in s.threads && s.threads[t].Waiting? && s.lock == None
      && s' == Goto(s, t, Holding(s.threads[t].force)).(lock := Some(t))
    case Recheck(t) =>
      && t in s.threads && s.threads[t].Holding?
      && var f := s.threads[t].force;
         s' == Goto(s, t, if NeedsReload(s.cache, s.now, f) then Loading(f, HasKeys(s.cache.keys)) else Releasing(f, true))
    case BeginFetch(t) =>
      && t in s.threads && s.threads[t].Loading?
      && s' == Goto(s, t, Fetching(s.threads[t].force, s.threads[t].hasKeys, s.now))
    case EndFetch(t, result) =>
      && t in s.threads && s.threads[t].Fetching? && (result.Some? ==> HasKeys(result.value))
      && var pc := s.threads[t];
         if result.Some? then s' == Goto(s, t, Storing(pc.force, pc.started, result.value))
         else if pc.hasKeys then s' == Goto(s, t, Recording(pc.force, pc.started))
         else s' == Goto(s, t, Releasing(pc.force, false)).(log := s.log + [Entry(pc.started, s.now, false, None)])
    case Store(t) =>
      && t in s.threads && s.threads[t].Storing?
      && var pc := s.threads[t];
         s' == Goto(s, t, Releasing(pc.force, true)).(
                 cache := Installed(s.cache, pc.keys, s.now),
                 log := s.log + [Entry(pc.started, s.now, HasKeys(s.cache.keys), Some(pc.keys))])
    case RecordFailure(t) =>
      && t in s.threads && s.threads[t].Recording?
      && var pc := s.threads[t];
         s' == Goto(s, t, Releasing(pc.force, true)).(
                 cache := FailureRecorded(s.cache, s.now),
                 log := s.log + [Entry(pc.started, s.now, true, None)])
    case Release(t) =>
      && t in s.threads && s.threads[t].Releasing?
      && s' == Goto(s, t, Done(s.threads[t].force, s.threads[t].ok)).(lock := None)
    case TakeSnapshot(l, family, kid) =>
      l !in s.lookups && s' == s.(lookups := s.lookups[l := Snapshot(family, kid, s.cache.keys, |s.log|)])
    case Answer(l, answer) =>
      && l in s.lookups && s.lookups[l].Snapshot?
      && var q := s.lookups[l];
         Answers(q.keys, q.family, q.kid, answer) && s' == s.(lookups := s.lookups[l := Answered(q.family, q.kid, answer, q.seen)])
  }

  /** A step at time `at`. */
  predicate Step(s: State, at: Time, e: Event, s': State) {
    s.now <= at && Does(s.(now := at), e, s')
  }

  datatype Run = Run(states: seq<State>, times: seq<Time>, events: seq<Event>) {
    predicate Legal() {
      && |states| == |events| + 1 && |times| == |events| && Init(states[0])
      && forall i | 0 <= i < |events| :: Step(states[i], times[i], events[i], states[i + 1])
    }
  }

  // ---------------------------------------------------------------------------
  // The invariant
  // ---------------------------------------------------------------------------

  predicate Critical(pc: PC) {
    !pc.Start? && !pc.Waiting? && !pc.Done?
  }

  predicate InFlight(pc: PC) {
    pc.Fetching?
  }

  /** The keys the log says are installed. */
  function KeysOfLog(log: seq<Entry>): KeySet {
    if log == [] then KeySet([], [])
    else if log[|log| - 1].installed.Some? then log[|log| - 1].installed.value
    else KeysOfLog(log[..|log| - 1])
  }

  /** How long after `prev` the next fetch may start. */
  predicate MayFollow(prev: Entry, start: Time) {
    && (prev.installed.Some? ==> start > prev.ended + MIN_CACHE_AGE)
    && (prev.installed.None? && prev.hadKeys ==> start >= prev.ended + FAILURE_BACKOFF)
    && start >= prev.ended
  }

  predicate LogOk(log: seq<Entry>, now: Time) {
    && (forall i | 0 <= i < |log| :: log[i].started <= log[i].ended <= now)
    && (forall i | 0 <= i < |log| - 1 :: MayFollow(log[i], log[i + 1].started))
    && (forall i | 0 <= i < |log| && log[i].installed.Some? :: HasKeys(log[i].installed.value))
    && (forall i, j | 0 <= i < j < |log| && (log[i].hadKeys || log[i].installed.Some?) :: log[j].hadKeys)
  }

  /** The cache is what the last fetches left. */
  predicate CacheOk(c: Cache, log: seq<Entry>, now: Time) {
    && c.keys == KeysOfLog(log)
    && (log == [] ==> c == EMPTY_CACHE)
    && (log != [] ==>
          var last := log[|log| - 1];
          && (HasKeys(c.keys) <==> last.hadKeys || last.installed.Some?)
          && (last.installed.Some? ==> c.cacheDate == last.ended && c.lastReloadError == 0)
          && (last.installed.None? && last.hadKeys ==> c.lastReloadError == last.ended && last.ended > 0))
  }

  predicate MayStart(log: seq<Entry>, start: Time) {
    log != [] ==> MayFollow(log[|log| - 1], start)
  }

  predicate ThreadOk(s: State, pc: PC) {
    match pc
    case Loading(_, hasKeys) => hasKeys == HasKeys(s.cache.keys) && MayStart(s.log, s.now)
    case Fetching(_, hasKeys, started) => hasKeys == HasKeys(s.cache.keys) && MayStart(s.log, started) && started <= s.now
    case Storing(_, started, keys) => HasKeys(keys) && MayStart(s.log, started) && started <= s.now
    case Recording(_, started) => HasKeys(s.cache.keys) && MayStart(s.log, started) && started <= s.now
    case Releasing(_, ok) => ok ==> HasKeys(s.cache.keys)
    case Done(_, ok) => ok ==> HasKeys(s.cache.keys)
    case _ => true
  }

  predicate LookupOk(s: State, q: Lookup) {
    q.seen <= |s.log| &&
    if q.Snapshot? then q.keys == KeysOfLog(s.log[..q.seen])
    else Answers(KeysOfLog(s.log[..q.seen]), q.family, q.kid, q.answer)
  }

  predicate Inv(s: State) {
    && s.now > 0 && LogOk(s.log, s.now) && CacheOk(s.cache, s.log, s.now)
    && (s.lock.Some? ==> s.lock.value in s.threads)
    && (forall t | t in s.threads :: Critical(s.threads[t]) <==> s.lock == Some(t))
    && (forall t | t in s.threads :: ThreadOk(s, s.threads[t]))
    && (forall l | l in s.lookups :: LookupOk(s, s.lookups[l]))
  }

  lemma TimePasses(s: State, at: Time)
    requires Inv(s) && s.now <= at
    ensures Inv(s.(now := at))
  {
    hide NeedsReload, KeysOfLog, Answers;
    var s' := s.(now := at);
    forall t | t in s'.threads ensures ThreadOk(s', s'.threads[t]) { assert ThreadOk(s, s.threads[t]); }
    forall l | l in s'.lookups ensures LookupOk(s', s'.lookups[l]) { assert LookupOk(s, s.lookups[l]); }
  }

  /** What the recheck knows about the last fetch when it decides to start another. */
  lemma ReloadMayStart(s: State, force: bool)
    requires Inv(s) && NeedsReload(s.cache, s.now, force)
    ensures MayStart(s.log, s.now)
  {
    hide KeysOfLog, Answers, ThreadOk, LookupOk;
  }

  lemma AppendPrefixes(log: seq<Entry>, e: Entry)
    ensures forall n | 0 <= n <= |log| :: (log + [e])[..n] == log[..n]
  {
  }

  /** Appending one finished fetch keeps the log in order. */
  lemma Appended(c: Cache, log: seq<Entry>, now: Time, e: Entry)
    requires LogOk(log, now) && CacheOk(c, log, now)
    requires MayStart(log, e.started) && e.started <= e.ended == now
    requires e.hadKeys == HasKeys(c.keys) && (e.installed.Some? ==> HasKeys(e.installed.value))
    ensures LogOk(log + [e], now)
    ensures KeysOfLog(log + [e]) == if e.installed.Some? then e.installed.value else c.keys
  {
    assert (log + [e])[..|log|] == log;
    if !HasKeys(c.keys) { NoKeysYet(log); }
  }

  lemma NoKeysYet(log: seq<Entry>)
    requires log != [] ==> !(log[|log| - 1].hadKeys || log[|log| - 1].installed.Some?)
    requires forall i, j | 0 <= i < j < |log| && (log[i].hadKeys || log[i].installed.Some?) :: log[j].hadKeys
    ensures forall i | 0 <= i < |log| :: !(log[i].hadKeys || log[i].installed.Some?)
  {
  }

  lemma FetchEndKeepsInv(s: State, e: Event, s': State)
    requires Inv(s) && Does(s, e, s')
    requires (e.EndFetch? && s'.log != s.log) || e.Store? || e.RecordFailure?
    ensures Inv(s')
  {
    hide NeedsReload, KeysOfLog, Answers, LogOk;
    var entry := s'.log[|s.log|];
    assert ThreadOk(s, s.threads[e.t]);
    assert s'.log == s.log + [entry];
    Appended(s.cache, s.log, s.now, entry);
    AppendPrefixes(s.log, entry);
    forall l | l in s'.lookups ensures LookupOk(s', s'.lookups[l]) { assert LookupOk(s, s.lookups[l]); }
    forall t | t in s'.threads && t != e.t ensures ThreadOk(s', s'.threads[t]) {
      assert ThreadOk(s, s.threads[t]) && !Critical(s.threads[t]);
    }
  }

  lemma LookupKeepsInv(s: State, e: Event, s': State)
    requires Inv(s) && Does(s, e, s') && (e.TakeSnapshot? || e.Answer?)
    ensures Inv(s')
  {
    hide NeedsReload, KeysOfLog, LogOk, CacheOk;
    assert s.log[..|s.log|] == s.log;
    forall l | l in s'.lookups ensures LookupOk(s', s'.lookups[l]) {
      if l in s.lookups { assert LookupOk(s, s.lookups[l]); }
      assert CacheOk(s.cache, s.log, s.now) ==> s.cache.keys == KeysOfLog(s.log) by { CacheKeys(s); }
    }
    forall t | t in s'.threads ensures ThreadOk(s', s'.threads[t]) { assert ThreadOk(s, s.threads[t]); }
  }

  lemma CacheKeys(s: State)
    requires CacheOk(s.cache, s.log, s.now)
    ensures s.cache.keys == KeysOfLog(s.log)
  {
  }

  lemma Unaffected(s: State, s': State)
    requires Inv(s) && s'.cache == s.cache && s'.log == s.log && s'.now == s.now
    ensures forall pc | ThreadOk(s, pc) :: ThreadOk(s', pc)
    ensures forall q | LookupOk(s, q) :: LookupOk(s', q)
  {
    hide KeysOfLog, Answers, LogOk, CacheOk, NeedsReload;
  }

  lemma ThreadKeepsInv(s: State, e: Event, s': State)
    requires Inv(s) && Does(s, e, s') && !e.TakeSnapshot? && !e.Answer? && !e.Store? && !e.RecordFailure?
    requires s'.log == s.log
    ensures Inv(s')
  {
    hide LogOk, CacheOk, NeedsReload, LookupOk;
    NewPC(s, e, s');
    Unaffected(s, s');
  }

  /** The program counter the moved thread ends up with fits the state. */
  lemma NewPC(s: State, e: Event, s': State)
    requires Inv(s) && Does(s, e, s') && !e.TakeSnapshot? && !e.Answer? && !e.Store? && !e.RecordFailure?
    requires s'.log == s.log
    ensures e.t in s'.threads && ThreadOk(s', s'.threads[e.t]) && s'.cache == s.cache
    ensures s'.threads == s.threads[e.t := s'.threads[e.t]] && s'.lookups == s.lookups && s'.now == s.now
    ensures e.t in s.threads ==> (Critical(s.threads[e.t]) <==> s.lock == Some(e.t))
  {
    hide LogOk, CacheOk, NeedsReload, LookupOk, KeysOfLog;
    if !e.Call? { assert ThreadOk(s, s.threads[e.t]); }
    if e.FastPath? || e.Recheck? {
      var f := s.threads[e.t].force;
      DeclinedMeansUsable(s.cache, s.now, f);
      if NeedsReload(s.cache, s.now, f) { ReloadMayStart(s, f); }
    }
  }

  lemma StepKeepsInv(s: State, at: Time, e: Event, s': State)
    requires Inv(s) && Step(s, at, e, s')
    ensures Inv(s')
  {
    hide Inv, Does;
    var s0 := s.(now := at);
    TimePasses(s, at);
    if e.TakeSnapshot? || e.Answer? {
      LookupKeepsInv(s0, e, s');
    } else if e.Store? || e.RecordFailure? || (e.EndFetch? && s'.log != s0.log) {
      FetchEndKeepsInv(s0, e, s');
    } else {
      OnlyFetchesLog(s0, e, s');
      ThreadKeepsInv(s0, e, s');
    }
  }

  /** The log only grows, by the three events that finish a fetch. */
  lemma OnlyFetchesLog(s: State, e: Event, s': State)
    requires Does(s, e, s')
    ensures s.log <= s'.log
    ensures !e.Store? && !e.RecordFailure? && !e.EndFetch? ==> s'.log == s.log
  {
    hide NeedsReload, Answers;
  }

  lemma {:induction false} RunKeepsInv(run: Run, i: nat)
    requires run.Legal() && i < |run.states|
    ensures Inv(run.states[i])
  {
    hide Inv, Step;
    if i == 0 {
      InitInv(run.states[0]);
    } else {
      RunKeepsInv(run, i - 1);
      StepKeepsInv(run.states[i - 1], run.times[i - 1], run.events[i - 1], run.states[i]);
    }
  }

  lemma InitInv(s: State)
    requires Init(s)
    ensures Inv(s)
  {
  }

  // ---------------------------------------------------------------------------
  // What every interleaving guarantees
  // ---------------------------------------------------------------------------

  /** At most one fetch is in flight. */
  lemma OneFetchInFlight(run: Run, i: nat, t: Tid, u: Tid)
    requires run.Legal() && i < |run.states|
    requires t in run.states[i].threads && u in run.states[i].threads
    requires InFlight(run.states[i].threads[t]) && InFlight(run.states[i].threads[u])
    ensures t == u
  {
    hide Step;
    RunKeepsInv(run, i);
  }

  /** Finished fetches in order, and the one in flight if any: a fetch after a failed one with keys
      starts at least a minute after that failure was recorded, a fetch after a successful one starts
      more than five minutes after that installation. */
  lemma FetchesAreSpaced(run: Run, i: nat)
    requires run.Legal() && i < |run.states|
    ensures forall k | 0 <= k < |run.states[i].log| - 1 :: MayFollow(run.states[i].log[k], run.states[i].log[k + 1].started)
    ensures forall t | t in run.states[i].threads && run.states[i].threads[t].Fetching? ::
      MayStart(run.states[i].log, run.states[i].threads[t].started)
  {
    hide Step;
    RunKeepsInv(run, i);
    forall t | t in run.states[i].threads && run.states[i].threads[t].Fetching?
      ensures MayStart(run.states[i].log, run.states[i].threads[t].started)
    {
      assert ThreadOk(run.states[i], run.states[i].threads[t]);
    }
  }

  predicate FailedWithKeys(e: Entry) {
    e.installed.None? && e.hadKeys
  }

  /** The times at which failed reloads were recorded while keys were cached. */
  function FailureTimes(log: seq<Entry>): seq<Time> {
    if log == [] then []
    else FailureTimes(log[..|log| - 1])
         + if FailedWithKeys(log[|log| - 1]) then [log[|log| - 1].ended] else []
  }

  lemma {:induction false} EntriesInOrder(log: seq<Entry>, now: Time, i: nat, j: nat)
    requires LogOk(log, now) && i < j < |log|
    ensures MayFollow(log[i], log[j].started) && log[j].started <= log[j].ended
  {
    if i + 1 < j {
      EntriesInOrder(log, now, i, j - 1);
      assert MayFollow(log[j - 1], log[j].started);
    }
  }

  lemma LogPrefix(log: seq<Entry>, now: Time, n: nat)
    requires LogOk(log, now) && n <= |log|
    ensures LogOk(log[..n], now)
  {
  }

  /** Failure `k` comes at least `k - j` minutes after failure `j`. */
  lemma {:induction false} FailuresSpaced(log: seq<Entry>, now: Time, j: nat, k: nat)
    requires LogOk(log, now) && j <= k < |FailureTimes(log)|
    ensures FailureTimes(log)[k] >= FailureTimes(log)[j] + (k - j) * FAILURE_BACKOFF
    ensures FailureTimes(log)[j] <= log[|log| - 1].ended
    decreases |log|
  {
    var n := |log| - 1;
    var init := log[..n];
    LogPrefix(log, now, n);
    if k < |FailureTimes(init)| {
      FailuresSpaced(init, now, j, k);
      if n > 0 { EntriesInOrder(log, now, n - 1, n); }
    } else if j < k {
      FailuresSpaced(init, now, j, k - 1);
      LastFailureEnd(init, now);
      var last := LastFailure(init);
      EntriesInOrder(log, now, last, n);
      if n > 0 { EntriesInOrder(log, now, n - 1, n); }
    }
  }

  function LastFailure(log: seq<Entry>): (i: nat)
    requires FailureTimes(log) != []
    ensures i < |log| && FailedWithKeys(log[i])
  {
    if FailedWithKeys(log[|log| - 1]) then |log| - 1 else LastFailure(log[..|log| - 1])
  }

  lemma {:induction false} LastFailureEnd(log: seq<Entry>, now: Time)
    requires FailureTimes(log) != []
    ensures log[LastFailure(log)].ended == FailureTimes(log)[|FailureTimes(log)| - 1]
  {
    if !FailedWithKeys(log[|log| - 1]) { LastFailureEnd(log[..|log| - 1], now); }
  }

  /** Failed reloads in any window of length `w` number at most w / 1 min + 1. */
  lemma FailureRate(run: Run, i: nat, j: nat, k: nat, w: nat)
    requires run.Legal() && i < |run.states| && j <= k < |FailureTimes(run.states[i].log)|
    requires FailureTimes(run.states[i].log)[k] - FailureTimes(run.states[i].log)[j] <= w
    ensures k - j + 1 <= w / MINUTE + 1
  {
    hide Step;
    RunKeepsInv(run, i);
    FailuresSpaced(run.states[i].log, run.states[i].now, j, k);
  }

  /** Once filled, the cache never becomes empty. */
  lemma {:induction false} NeverEmptyAgain(run: Run, i: nat, j: nat)
    requires run.Legal() && i <= j < |run.states| && HasKeys(run.states[i].cache.keys)
    ensures HasKeys(run.states[j].cache.keys)
  {
    if i < j {
      NeverEmptyAgain(run, i, j - 1);
      RunKeepsInv(run, j - 1);
      StepKeepsKeys(run.states[j - 1], run.times[j - 1], run.events[j - 1], run.states[j]);
    }
  }

  lemma StepKeepsKeys(s: State, at: Time, e: Event, s': State)
    requires Inv(s) && Step(s, at, e, s') && HasKeys(s.cache.keys)
    ensures HasKeys(s'.cache.keys)
  {
    hide NeedsReload, Answers, KeysOfLog;
    if e.Store? { assert ThreadOk(s, s.threads[e.t]); }
  }

  predicate DecidedNil(pc: PC) {
    (pc.Releasing? || pc.Done?) && pc.ok
  }

  lemma NilStep(s: State, e: Event, s': State, t: Tid)
    requires Does(s, e, s') && s.now > 0
    requires t in s'.threads && DecidedNil(s'.threads[t]) && (t in s.threads ==> !DecidedNil(s.threads[t]))
    requires t in s.threads ==> ThreadOk(s, s.threads[t])
    ensures Usable(s'.cache, s'.now, s'.threads[t].force)
  {
    hide KeysOfLog, Answers, NeedsReload, MayStart;
    DeclinedMeansUsable(s.cache, s.now, s'.threads[t].force);
  }

  /** The step that settles a nil result leaves keys that are at most six hours old (five minutes when a
      reload was forced), or whose reload failed within the last minute. */
  lemma NilMeansUsable(run: Run, i: nat, t: Tid)
    requires run.Legal() && i < |run.events|
    requires t in run.states[i + 1].threads && DecidedNil(run.states[i + 1].threads[t])
    requires t in run.states[i].threads ==> !DecidedNil(run.states[i].threads[t])
    ensures Usable(run.states[i + 1].cache, run.states[i + 1].now, run.states[i + 1].threads[t].force)
  {
    hide Does, ThreadOk, Usable;
    RunKeepsInv(run, i);
    var s := run.states[i];
    assert Step(s, run.times[i], run.events[i], run.states[i + 1]);
    TimePasses(s, run.times[i]);
    NilStep(s.(now := run.times[i]), run.events[i], run.states[i + 1], t);
  }

  lemma {:induction false} LogGrows(run: Run, i: nat, j: nat)
    requires run.Legal() && i <= j < |run.states|
    ensures run.states[i].log <= run.states[j].log
  {
    hide Does;
    if i < j {
      LogGrows(run, i, j - 1);
      var s := run.states[j - 1];
      assert Step(s, run.times[j - 1], run.events[j - 1], run.states[j]);
      OnlyFetchesLog(s.(now := run.times[j - 1]), run.events[j - 1], run.states[j]);
    }
  }

  lemma LookupStep(s: State, e: Event, s': State)
    requires Does(s, e, s')
    ensures forall l | l in s.lookups :: l in s'.lookups && s'.lookups[l].seen == s.lookups[l].seen
    ensures forall l | l in s'.lookups && l !in s.lookups :: s'.lookups[l].seen == |s.log|
  {
    hide NeedsReload, Answers;
  }

  lemma {:induction false} SeenKept(run: Run, i: nat, j: nat, l: nat)
    requires run.Legal() && i <= j < |run.states| && l in run.states[i].lookups
    ensures l in run.states[j].lookups && run.states[j].lookups[l].seen == run.states[i].lookups[l].seen
  {
    hide Does;
    if i < j {
      SeenKept(run, i, j - 1, l);
      var s := run.states[j - 1];
      assert Step(s, run.times[j - 1], run.events[j - 1], run.states[j]);
      LookupStep(s.(now := run.times[j - 1]), run.events[j - 1], run.states[j]);
    }
  }

  /** Every key a lookup returns belongs to the most recent successful fetch at the moment `i` of its
      snapshot, however late it answers. */
  lemma LookupServesLatestKeys(run: Run, i: nat, j: nat, l: nat)
    requires run.Legal() && i < j < |run.states|
    requires l !in run.states[i].lookups && l in run.states[i + 1].lookups
    requires l in run.states[j].lookups && run.states[j].lookups[l].Answered?
    ensures var q := run.states[j].lookups[l]; Answers(KeysOfLog(run.states[i].log), q.family, q.kid, q.answer)
  {
    hide Does, Answers, KeysOfLog, ThreadOk;
    var s := run.states[i];
    assert Step(s, run.times[i], run.events[i], run.states[i + 1]);
    LookupStep(s.(now := run.times[i]), run.events[i], run.states[i + 1]);
    SeenKept(run, i + 1, j, l);
    LogGrows(run, i, j);
    RunKeepsInv(run, j);
    assert LookupOk(run.states[j], run.states[j].lookups[l]);
    assert run.states[j].log[..|s.log|] == s.log;
  }
}
