/** Hot reload of the routing table under concurrent requests
    (cmd/extauth-server/watch.go, reload.go and the atomic pointer of router.go).

    Any number of reload goroutines queue on one mutex; requests load the table pointer at any moment.
    The configuration file changes at will. A reload may fail or panic at every stage. */
module HostReload {
  import opened Common
  import opened HostRouting

  type Tid = nat

  datatype ReloadPC =
    | Waiting                 // before mu.Lock
    | Locked                  // holds the mutex
    | Building(version: nat, clients: seq<Client>, made: seq<FactoryOutcome>, partial: Partial)
    | Finishing               // deferred recover and Unlock
    | Done

  datatype RequestPC =
    | Loaded(host: string, table: HostTable, load: nat)
    | Answered(host: string, answer: Option<Handler>, load: nat)

  /** History: one successful load, the file version it was read from, and what the factory made. */
  datatype Load = Load(version: nat, clients: seq<Client>, made: seq<FactoryOutcome>)

  datatype State = State(
    table: HostTable,
    mutex: Option<Tid>,
    reloads: map<Tid, ReloadPC>,
    requests: map<nat, RequestPC>,
    version: nat,
    file: File,
    loads: seq<Load>)

  // ---------------------------------------------------------------------------
  // Steps
  // ---------------------------------------------------------------------------

  predicate Init(s: State) {
    s.table == map[] && s.mutex == None && s.reloads == map[] && s.requests == map[] && s.loads == []
  }

  predicate At(s: State, t: Tid, pc: ReloadPC) {
    t in s.reloads && s.reloads[t] == pc
  }

  function Goto(s: State, t: Tid, pc: ReloadPC): State {
    s.(reloads := s.reloads[t := pc])
  }

  datatype Event =
    | WriteFile(file: File)
    | Trigger(t: Tid)
    | Lock(t: Tid)
    | Parse(t: Tid)                              // parseMultiConfigFile, which ends with validateMultiConfig
    | BuildClient(t: Tid, made: FactoryOutcome)  // one round of the client loop of buildHostMap
    | Panic(t: Tid)                              // recovered by the deferred function
    | Swap(t: Tid)
    | Unlock(t: Tid)
    | Route(r: nat, host: string)                // a request loads the pointer, once
    | Answer(r: nat)

  predicate Building(s: State, t: Tid) {
    t in s.reloads && s.reloads[t].Building?
  }

  /** Panic and factory errors included, `s'` is the one state event `e` leads to. */
  ghost predicate Step(s: State, e: Event, s': State) {
    match e
    case WriteFile(file) => s' == s.(version := s.version + 1, file := file)
    case Trigger(t) => t !in s.reloads && s' == Goto(s, t, Waiting)
    case Lock(t) => At(s, t, Waiting) && s.mutex == None && s' == Goto(s, t, Locked).(mutex := Some(t))
    case Parse(t) =>
      && At(s, t, Locked)
      && s' == if s.file.Document? && Valid(s.file.clients)
               then Goto(s, t, ReloadPC.Building(s.version, s.file.clients, [], Partial(map[], {})))
               else Goto(s, t, Finishing)
    case BuildClient(t, made) =>
      && Building(s, t) && |s.reloads[t].made| < |s.reloads[t].clients|
      && s' == Goto(s, t, BuiltOne(s.reloads[t], made))
    case Panic(t) => (Building(s, t) || At(s, t, Locked)) && s' == Goto(s, t, Finishing)
    case Swap(t) =>
      && Building(s, t) && |s.reloads[t].made| == |s.reloads[t].clients|
      && var b := s.reloads[t];
         s' == Goto(s, t, Finishing).(table := b.partial.table, loads := s.loads + [Load(b.version, b.clients, b.made)])
    case Unlock(t) => At(s, t, Finishing) && s' == Goto(s, t, Done).(mutex := None)
    case Route(r, host) =>
      r !in s.requests && s' == s.(requests := s.requests[r := Loaded(host, s.table, |s.loads|)])
    case Answer(r) =>
      && r in s.requests && s.requests[r].Loaded?
      && var q := s.requests[r];
         s' == s.(requests := s.requests[r := Answered(q.host, Lookup(q.table, q.host), q.load)])
  }

  /** The next round of the loop of buildHostMap. */
  function BuiltOne(b: ReloadPC, made: FactoryOutcome): ReloadPC
    requires b.Building? && |b.made| < |b.clients|
  {
    match BuildOne(b.partial, b.clients[|b.made|], made)
    case Returned(p) => b.(made := b.made + [made], partial := p)
    case _ => Finishing
  }

  /** One execution: `events[i]` leads from `states[i]` to `states[i + 1]`. */
  datatype Run = Run(states: seq<State>, events: seq<Event>) {
    ghost predicate Legal() {
      && |states| == |events| + 1 && Init(states[0])
      && forall i | 0 <= i < |events| :: Step(states[i], events[i], states[i + 1])
    }
  }

  // ---------------------------------------------------------------------------
  // The invariant
  // ---------------------------------------------------------------------------

  predicate Complete(load: Load) {
    Valid(load.clients) && |load.made| == |load.clients| && AllMade(load.made) && DistinctExpanded(load.made)
  }

  /** The table of the first `n` loads: that of the last of them, and empty before any. */
  function TableAfter(loads: seq<Load>, n: nat): HostTable
    requires n <= |loads| && forall i | 0 <= i < |loads| :: Complete(loads[i])
  {
    if n == 0 then map[]
    else assert Complete(loads[n - 1]); TableOf(loads[n - 1].clients, Handlers(loads[n - 1].made))
  }

  predicate Critical(pc: ReloadPC) {
    pc.Locked? || pc.Building? || pc.Finishing?
  }

  predicate LoadsOk(s: State) {
    && (forall i | 0 <= i < |s.loads| :: Complete(s.loads[i]) && s.loads[i].version <= s.version)
    && (forall i, j | 0 <= i < j < |s.loads| :: s.loads[i].version <= s.loads[j].version)
  }

  predicate PartialOk(s: State, b: ReloadPC)
    requires b.Building?
  {
    && Valid(b.clients) && |b.made| <= |b.clients| && b.version <= s.version
    && Built(b.clients[..|b.made|], b.made) == Returned(b.partial)
    && (forall i | 0 <= i < |s.loads| :: s.loads[i].version <= b.version)
  }

  ghost predicate RequestOk(s: State, q: RequestPC)
    requires LoadsOk(s)
  {
    q.load <= |s.loads|
    && if q.Loaded? then q.table == TableAfter(s.loads, q.load)
       else q.answer == Lookup(TableAfter(s.loads, q.load), q.host)
  }

  predicate TableInv(s: State) {
    LoadsOk(s) && s.table == TableAfter(s.loads, |s.loads|)
  }

  predicate ReloadInv(s: State) {
    && (s.mutex.Some? ==> s.mutex.value in s.reloads)
    && (forall t | t in s.reloads :: Critical(s.reloads[t]) <==> s.mutex == Some(t))
    && (forall t | t in s.reloads && s.reloads[t].Building? :: PartialOk(s, s.reloads[t]))
  }

  ghost predicate RequestInv(s: State)
    requires LoadsOk(s)
  {
    forall r | r in s.requests :: RequestOk(s, s.requests[r])
  }

  ghost predicate Inv(s: State) {
    TableInv(s) && ReloadInv(s) && RequestInv(s)
  }

  lemma PartialStep(b: ReloadPC, made: FactoryOutcome)
    requires b.Building? && |b.made| < |b.clients| && BuiltOne(b, made).Building?
    requires Built(b.clients[..|b.made|], b.made) == Returned(b.partial)
    ensures var b' := BuiltOne(b, made); Built(b'.clients[..|b'.made|], b'.made) == Returned(b'.partial)
  {
    hide Keys, AddKeys, BuildOne;
    var k := |b.made|;
    assert b.clients[..k + 1][..k] == b.clients[..k] && (b.made + [made])[..k] == b.made;
  }

  lemma NothingBuiltYet(clients: seq<Client>)
    ensures Built(clients[..0], []) == Returned(Partial(map[], {}))
  {
  }

  lemma StepKeepsTable(s: State, e: Event, s': State)
    requires TableInv(s) && ReloadInv(s) && Step(s, e, s')
    ensures TableInv(s')
  {
    hide Valid, Keys, AddKeys, TableOf, Lookup, Built, BuildOne, AllMade, DistinctExpanded, Handlers, ExpandedSecrets;
    if e.Swap? {
      var b := s.reloads[e.t];
      assert PartialOk(s, b) && b.clients[..|b.made|] == b.clients;
      BuiltExactly(b.clients, b.made);
    }
  }

  lemma StepKeepsReloads(s: State, e: Event, s': State)
    requires TableInv(s) && ReloadInv(s) && Step(s, e, s')
    ensures ReloadInv(s')
  {
    hide Valid, Keys, AddKeys, TableOf, Lookup, LoadsOk, TableAfter, Built, BuildOne;
    match e {
      case Parse(t) =>
        assert forall i | 0 <= i < |s.loads| :: s.loads[i].version <= s.version by { VersionsBounded(s); }
        if s.file.Document? { NothingBuiltYet(s.file.clients); }
      case BuildClient(t, made) => if BuiltOne(s.reloads[t], made).Building? { PartialStep(s.reloads[t], made); }
      case _ =>
    }
  }

  lemma VersionsBounded(s: State)
    requires LoadsOk(s)
    ensures forall i | 0 <= i < |s.loads| :: s.loads[i].version <= s.version
  {
  }

  lemma StepKeepsRequests(s: State, e: Event, s': State)
    requires TableInv(s) && RequestInv(s) && LoadsOk(s') && Step(s, e, s')
    ensures RequestInv(s')
  {
    hide Valid, Keys, AddKeys, TableOf, Lookup;
    StepMonotone(s, e, s');
    forall r | r in s'.requests ensures RequestOk(s', s'.requests[r]) {
      if r in s.requests { assert RequestOk(s, s.requests[r]); }
    }
  }

  lemma StepKeepsInv(s: State, e: Event, s': State)
    requires Inv(s) && Step(s, e, s')
    ensures Inv(s')
  {
    hide TableInv, ReloadInv, RequestInv, Step, LoadsOk;
    StepKeepsTable(s, e, s');
    StepKeepsReloads(s, e, s');
    TableInvLoads(s');
    StepKeepsRequests(s, e, s');
  }

  lemma TableInvLoads(s: State)
    requires TableInv(s)
    ensures LoadsOk(s)
  {
  }

  lemma {:induction false} RunKeepsInv(run: Run, i: nat)
    requires run.Legal() && i < |run.states|
    ensures Inv(run.states[i])
  {
    hide Step, Inv;
    if i == 0 {
      InitInv(run.states[0]);
    } else {
      RunKeepsInv(run, i - 1);
      StepKeepsInv(run.states[i - 1], run.events[i - 1], run.states[i]);
    }
  }

  lemma InitInv(s: State)
    requires Init(s)
    ensures Inv(s)
  {
  }

  // ---------------------------------------------------------------------------
  // What every run guarantees
  // ---------------------------------------------------------------------------

  /** At most one reload at a time reads, builds or swaps. */
  lemma OneReloadAtATime(run: Run, i: nat, t: Tid, u: Tid)
    requires run.Legal() && i < |run.states|
    requires t in run.states[i].reloads && u in run.states[i].reloads
    requires Critical(run.states[i].reloads[t]) && Critical(run.states[i].reloads[u])
    ensures t == u
  {
    hide Step;
    RunKeepsInv(run, i);
  }

  /** Only a successful swap touches table and loads; a request keeps host and load once it has them. */
  lemma StepMonotone(s: State, e: Event, s': State)
    requires Step(s, e, s')
    ensures if e.Swap? then |s'.loads| == |s.loads| + 1 && s.loads <= s'.loads else s'.loads == s.loads && s'.table == s.table
    ensures forall r | r in s.requests ::
      r in s'.requests && s'.requests[r].host == s.requests[r].host && s'.requests[r].load == s.requests[r].load
    ensures forall r | r in s'.requests && r !in s.requests :: s'.requests[r] == Loaded(s'.requests[r].host, s.table, |s.loads|)
  {
    hide Valid, Keys, AddKeys, Lookup;
  }

  /** The table changes only at the end of a successful load: failing and panicking reloads leave it. */
  lemma TableChangesOnlyOnSwap(run: Run, i: nat)
    requires run.Legal() && i < |run.events|
    ensures run.states[i + 1].table == run.states[i].table || run.events[i].Swap?
  {
    hide Step;
    StepMonotone(run.states[i], run.events[i], run.states[i + 1]);
  }

  lemma {:induction false} LoadsGrow(run: Run, i: nat, j: nat)
    requires run.Legal() && i <= j < |run.states|
    ensures run.states[i].loads <= run.states[j].loads
  {
    hide Step;
    if i < j {
      LoadsGrow(run, i, j - 1);
      StepMonotone(run.states[j - 1], run.events[j - 1], run.states[j]);
    }
  }

  /** The file versions that went live never go back: a slow reload cannot put an older configuration
      over a newer one. */
  lemma VersionsNeverGoBack(run: Run, i: nat, j: nat)
    requires run.Legal() && i <= j < |run.states|
    ensures run.states[i].loads <= run.states[j].loads
    ensures forall a, b | 0 <= a <= b < |run.states[j].loads| ::
      run.states[j].loads[a].version <= run.states[j].loads[b].version
  {
    hide Step;
    LoadsGrow(run, i, j);
    RunKeepsInv(run, j);
  }

  lemma {:induction false} SnapshotKept(run: Run, i: nat, j: nat, r: nat)
    requires run.Legal() && i <= j < |run.states| && r in run.states[i].requests
    ensures r in run.states[j].requests
    ensures run.states[j].requests[r].load == run.states[i].requests[r].load
    ensures run.states[j].requests[r].host == run.states[i].requests[r].host
  {
    hide Step;
    if i < j {
      SnapshotKept(run, i, j - 1, r);
      StepMonotone(run.states[j - 1], run.events[j - 1], run.states[j]);
    }
  }

  /** Every answer comes from the complete table of the load that was the latest when the request took
      its snapshot (and from the empty table before any load). */
  lemma ServedFromLatestLoad(run: Run, i: nat, j: nat, r: nat)
    requires run.Legal() && i < j < |run.states|
    requires r !in run.states[i].requests && r in run.states[i + 1].requests
    requires r in run.states[j].requests && run.states[j].requests[r].Answered?
    ensures LoadsOk(run.states[i])
    ensures run.states[j].requests[r].answer
         == Lookup(TableAfter(run.states[i].loads, |run.states[i].loads|), run.states[j].requests[r].host)
  {
    hide Step, Lookup, TableOf, Valid;
    StepMonotone(run.states[i], run.events[i], run.states[i + 1]);
    SnapshotKept(run, i + 1, j, r);
    RunKeepsInv(run, i);
    RunKeepsInv(run, j);
    LoadsGrow(run, i, j);
    assert RequestOk(run.states[j], run.states[j].requests[r]);
  }

  /** Every table that ever went live belongs to a valid configuration whose clients were all made, with
      pairwise distinct expanded secrets, and maps each listed host to its own client. */
  lemma LiveSecretsDistinct(run: Run, i: nat, k: nat)
    requires run.Legal() && i < |run.states| && k < |run.states[i].loads|
    ensures var load := run.states[i].loads[k];
      && Complete(load)
      && forall c: nat, h: nat | c < |load.clients| && h < |load.clients[c].hosts| ::
           Lookup(TableOf(load.clients, Handlers(load.made)), load.clients[c].hosts[h]) == Some(load.made[c].handler)
  {
    hide Step, Lookup, TableOf, Valid;
    RunKeepsInv(run, i);
    var load := run.states[i].loads[k];
    assert Complete(load);
    forall c: nat, h: nat | c < |load.clients| && h < |load.clients[c].hosts|
      ensures Lookup(TableOf(load.clients, Handlers(load.made)), load.clients[c].hosts[h]) == Some(load.made[c].handler)
    {
      ListedHostReachesItsClient(load.clients, Handlers(load.made), c, h);
    }
  }
}
