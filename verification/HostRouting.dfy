/** Host names and the routing table of the multi-client server
    (cmd/extauth-server/router.go, config_multi.go and reload.go). ASCII host names. */
module HostRouting {
  import opened Common

  // ---------------------------------------------------------------------------
  // Host names
  // ---------------------------------------------------------------------------

  predicate IsSpace(c: char) {
    c == ' ' || '\t' <= c <= '\r'
  }

  /** strings.TrimSpace. */
  function TrimSpace(s: string): (r: string)
    ensures r == "" || (!IsSpace(r[0]) && !IsSpace(r[|r| - 1]))
  {
    if s == "" then ""
    else if IsSpace(s[0]) then TrimSpace(s[1..])
    else if IsSpace(s[|s| - 1]) then TrimSpace(s[..|s| - 1])
    else s
  }

  /** The host part net.SplitHostPort finds, None when it reports an error. */
  function SplitHost(hostport: string): Option<string> {
    var colon := LastIndexOf(hostport, ':');
    if colon < 0 then None
    else if hostport[0] == '[' then
      var end := IndexWhere(hostport, c => c == ']');
      if end >= |hostport| || end + 1 != colon || '[' in hostport[1..] || ']' in hostport[end + 1..]
      then None else Some(hostport[1..end])
    else
      var host := hostport[..colon];
      if ':' in host || '[' in hostport || ']' in hostport then None else Some(host)
  }

  /** normalizeHost: the one key under which a host is stored and looked up. */
  function NormalizeHost(host: string): string {
    var host := TrimSpace(ToLower(host));
    var host := match SplitHost(host) case None => host case Some(h) => h;
    TrimSuffix(host, ".")
  }

  /** validateHostPattern. */
  predicate ValidHostPattern(n: string) {
    '*' !in n || (HasPrefix(n, "*.") && '.' in n[2..])
  }

  // ---------------------------------------------------------------------------
  // Lookup
  // ---------------------------------------------------------------------------

  datatype Handler = Handler(client: string, load: nat)

  type HostTable = map<string, Handler>

  /** `pattern` is a wildcard whose ".suffix" is a proper suffix of `host`. */
  predicate WildcardMatches(pattern: string, host: string) {
    HasPrefix(pattern, "*.") && HasSuffix(host, pattern[1..]) && |host| > |pattern| - 1
  }

  ghost predicate IsBest(m: HostTable, host: string, p: string) {
    && p in m && WildcardMatches(p, host)
    && forall q | q in m && WildcardMatches(q, host) :: |q| <= |p|
  }

  /** Two wildcards of one length matching one host are the same pattern. */
  lemma BestIsUnique(m: HostTable, host: string, p: string, q: string)
    requires IsBest(m, host, p) && IsBest(m, host, q)
    ensures p == q
  {
    assert |p| == |q| && p[1..] == q[1..];
    assert p == p[..1] + p[1..] && p[..1] == "*";
    assert q == q[..1] + q[1..] && q[..1] == "*";
  }

  /** The intended answer, which mentions no iteration order: the exact entry, otherwise the longest
      matching wildcard, otherwise nothing. */
  ghost function Lookup(m: HostTable, host: string): Option<Handler> {
    var n := NormalizeHost(host);
    if n in m then Some(m[n])
    else if exists p :: IsBest(m, n, p) then
      var p :| IsBest(m, n, p);
      Some(m[p])
    else None
  }

  /** lookupHost. Go iterates a map in any order: `order` is any listing of the keys. */
  method LookupHost(m: HostTable, order: seq<string>, host: string) returns (r: Option<Handler>)
    requires forall k :: k in order <==> k in m
    ensures r == Lookup(m, host)
    ensures NormalizeHost(host) !in m ==>
      (r.None? <==> !exists p :: p in m && WildcardMatches(p, NormalizeHost(host)))
  {
    hide NormalizeHost;
    var n := NormalizeHost(host);
    if n in m { return Some(m[n]); }
    var best := "";
    r := None;
    for i := 0 to |order|
      invariant best == "" <==> r.None?
      invariant best != "" ==> best in m && WildcardMatches(best, n) && r == Some(m[best])
      invariant forall j | 0 <= j < i && WildcardMatches(order[j], n) :: best != "" && |order[j]| <= |best|
    {
      var pattern := order[i];
      assert pattern in m;
      if HasPrefix(pattern, "*.") {
        var suffix := pattern[1..];
        if HasSuffix(n, suffix) && |n| > |suffix| && |pattern| >= |best| {
          best := pattern;
          r := Some(m[pattern]);
        }
      }
    }
    forall q | q in m && WildcardMatches(q, n) ensures best != "" && |q| <= |best| {
      var j :| 0 <= j < |order| && order[j] == q;
    }
    if best != "" {
      assert IsBest(m, n, best);
      forall p | IsBest(m, n, p) ensures p == best { BestIsUnique(m, n, p, best); }
    }
  }

  // ---------------------------------------------------------------------------
  // Validation
  // ---------------------------------------------------------------------------

  /** One client of the configuration file, as a value. */
  datatype Client = Client(id: string, hosts: seq<string>, prefix: string, secret: string)

  /** The table keys of a client: its hosts, normalised. */
  function Keys(hosts: seq<string>): (keys: seq<string>)
    ensures |keys| == |hosts|
    ensures forall i | 0 <= i < |hosts| :: keys[i] == NormalizeHost(hosts[i])
  {
    seq(|hosts|, i requires 0 <= i < |hosts| => NormalizeHost(hosts[i]))
  }

  predicate ValidKey(n: string) {
    n != "" && ValidHostPattern(n)
  }

  predicate KeysValid(keys: seq<string>) {
    forall n | n in keys :: ValidKey(n)
  }

  predicate Disjoint(a: seq<string>, b: seq<string>) {
    forall n | n in a :: n !in b
  }

  predicate Compatible(a: Client, b: Client) {
    a.id != b.id && a.prefix != b.prefix && a.secret != b.secret && Disjoint(Keys(a.hosts), Keys(b.hosts))
  }

  predicate Valid(clients: seq<Client>) {
    && (forall i | 0 <= i < |clients| :: KeysValid(Keys(clients[i].hosts)))
    && (forall i, j | 0 <= i < j < |clients| :: Compatible(clients[i], clients[j]))
  }

  /** All table keys of a configuration. */
  function AllKeys(clients: seq<Client>): set<string> {
    set c, n | c in clients && n in Keys(c.hosts) :: n
  }

  /** What the four maps of validateMultiConfig hold after `clients`. */
  datatype Seen = Seen(ids: set<string>, prefixes: set<string>, secrets: set<string>, hosts: set<string>)

  function Recorded(clients: seq<Client>): Seen {
    Seen(set c | c in clients :: c.id, set c | c in clients :: c.prefix, set c | c in clients :: c.secret, AllKeys(clients))
  }

  function Record(seen: Seen, c: Client): Seen {
    Seen(seen.ids + {c.id}, seen.prefixes + {c.prefix}, seen.secrets + {c.secret},
         seen.hosts + set n | n in Keys(c.hosts))
  }

  predicate Admissible(seen: Seen, c: Client) {
    && c.id !in seen.ids && c.prefix !in seen.prefixes && c.secret !in seen.secrets
    && KeysValid(Keys(c.hosts)) && forall n | n in Keys(c.hosts) :: n !in seen.hosts
  }

  /** The inner loop over the hosts of one client; false when validation refuses one. */
  method ValidateHosts(c: Client, hosts: map<string, string>) returns (ok: bool, hosts': map<string, string>)
    ensures ok <==> KeysValid(Keys(c.hosts)) && forall n | n in Keys(c.hosts) :: n !in hosts
    ensures ok ==> hosts'.Keys == hosts.Keys + (set n | n in Keys(c.hosts))
  {
    hide NormalizeHost, ValidHostPattern;
    hosts' := hosts;
    ghost var keys := Keys(c.hosts);
    var seen: set<string> := {};
    for i := 0 to |c.hosts|
      invariant seen == set n | n in keys[..i]
      invariant forall n | n in seen :: ValidKey(n) && n !in hosts
      invariant hosts'.Keys == hosts.Keys + seen
    {
      var n := NormalizeHost(c.hosts[i]);
      assert keys[i] == n && n in keys && keys[..i + 1] == keys[..i] + [n];
      if n == "" || !ValidHostPattern(n) { return false, hosts'; }
      if n !in seen {
        seen := seen + {n};
        if n in hosts' { return false, hosts'; }
        hosts' := hosts'[n := c.id];
      }
    }
    assert keys[..|c.hosts|] == keys;
    ok := true;
  }

  lemma RecordedStep(clients: seq<Client>, c: Client)
    ensures Recorded(clients + [c]) == Record(Recorded(clients), c)
  {
    hide NormalizeHost, ValidHostPattern;
    var all := clients + [c];
    assert forall x :: x in all <==> x in clients || x == c;
  }

  lemma ValidStep(clients: seq<Client>, c: Client)
    requires Valid(clients)
    ensures Valid(clients + [c]) <==> Admissible(Recorded(clients), c)
  {
    hide NormalizeHost, ValidHostPattern;
    var all, k, seen := clients + [c], |clients|, Recorded(clients);
    assert all[k] == c && forall i | 0 <= i < k :: all[i] == clients[i];
    if Valid(all) {
      forall d | d in clients ensures Compatible(d, c) {
        var i :| 0 <= i < k && clients[i] == d;
        assert Compatible(all[i], all[k]);
      }
    }
    if Admissible(seen, c) {
      forall i | 0 <= i < k ensures Compatible(clients[i], c) {
        assert clients[i] in clients;
        assert clients[i].id in seen.ids && clients[i].prefix in seen.prefixes && clients[i].secret in seen.secrets;
      }
    }
  }

  lemma ValidPrefix(clients: seq<Client>, k: nat)
    requires k <= |clients| && Valid(clients)
    ensures Valid(clients[..k])
  {
    assert forall i | 0 <= i < k :: clients[..k][i] == clients[i];
  }

  /** validateMultiConfig accepts exactly the valid configurations. */
  method ValidateMultiConfig(clients: seq<Client>) returns (ok: bool)
    ensures ok <==> Valid(clients)
  {
    hide Valid, Recorded, Keys, KeysValid;
    var ids, hosts, prefixes, secrets: map<string, string> := map[], map[], map[], map[];
    NothingRecorded();
    for k := 0 to |clients|
      invariant Valid(clients[..k])
      invariant Seen(ids.Keys, prefixes.Keys, secrets.Keys, hosts.Keys) == Recorded(clients[..k])
    {
      var c := clients[k];
      RecordedStep(clients[..k], c);
      ValidStep(clients[..k], c);
      assert clients[..k + 1] == clients[..k] + [c];
      if Valid(clients) { ValidPrefix(clients, k + 1); }
      if c.id in ids { return false; }
      ids := ids[c.id := c.id];
      if c.prefix in prefixes { return false; }
      prefixes := prefixes[c.prefix := c.id];
      if c.secret in secrets { return false; }
      secrets := secrets[c.secret := c.id];
      var fine, hosts' := ValidateHosts(c, hosts);
      if !fine { return false; }
      hosts := hosts';
    }
    assert clients[..|clients|] == clients;
    ok := true;
  }

  lemma NothingRecorded()
    ensures Valid([]) && Recorded([]) == Seen({}, {}, {}, {})
  {
  }

  // ---------------------------------------------------------------------------
  // The table of a configuration
  // ---------------------------------------------------------------------------

  function AddKeys(m: HostTable, keys: seq<string>, h: Handler): (r: HostTable)
    ensures r.Keys == m.Keys + set n | n in keys
    ensures forall n | n in keys :: r[n] == h
    ensures forall n | n in m && n !in keys :: r[n] == m[n]
  {
    if keys == [] then m
    else
      assert keys == keys[..|keys| - 1] + [keys[|keys| - 1]];
      AddKeys(m, keys[..|keys| - 1], h)[keys[|keys| - 1] := h]
  }

  /** The table buildHostMap fills: client by client, host by host, later entries overwriting. */
  function TableOf(clients: seq<Client>, handlers: seq<Handler>): HostTable
    requires |clients| == |handlers|
  {
    if clients == [] then map[]
    else
      var k := |clients| - 1;
      AddKeys(TableOf(clients[..k], handlers[..k]), Keys(clients[k].hosts), handlers[k])
  }

  predicate Exact(clients: seq<Client>, handlers: seq<Handler>, table: HostTable)
    requires |clients| == |handlers|
  {
    && (forall i | 0 <= i < |clients| :: Maps(table, Keys(clients[i].hosts), handlers[i]))
    && table.Keys == AllKeys(clients)
  }

  predicate Maps(table: HostTable, keys: seq<string>, h: Handler) {
    forall n | n in keys :: n in table && table[n] == h
  }

  lemma MapsKept(inner: HostTable, keys: seq<string>, h: Handler, more: seq<string>, g: Handler)
    requires Maps(inner, keys, h) && Disjoint(keys, more)
    ensures Maps(AddKeys(inner, more, g), keys, h)
  {
    assert forall n | n in keys :: n in inner && n !in more;
  }

  lemma ExactStep(clients: seq<Client>, handlers: seq<Handler>, inner: HostTable, c: Client, h: Handler)
    requires |clients| == |handlers| && Exact(clients, handlers, inner) && Valid(clients + [c])
    ensures Exact(clients + [c], handlers + [h], AddKeys(inner, Keys(c.hosts), h))
  {
    hide NormalizeHost, ValidHostPattern, Keys;
    var all, k, keys := clients + [c], |clients|, Keys(c.hosts);
    var table := AddKeys(inner, keys, h);
    forall i | 0 <= i < k ensures Maps(table, Keys(clients[i].hosts), handlers[i]) {
      assert Compatible(all[i], all[k]) && all[i] == clients[i];
      MapsKept(inner, Keys(clients[i].hosts), handlers[i], keys, h);
    }
    assert Maps(table, keys, h);
    assert AllKeys(all) == AllKeys(clients) + set n | n in keys by {
      assert forall x :: x in all <==> x in clients || x == c;
    }
  }

  /** For a valid configuration the table maps each listed host to its own client and holds nothing else. */
  lemma {:induction false} TableExact(clients: seq<Client>, handlers: seq<Handler>)
    requires |clients| == |handlers| && Valid(clients)
    ensures Exact(clients, handlers, TableOf(clients, handlers))
  {
    hide NormalizeHost, ValidHostPattern, Keys, Valid;
    if clients != [] {
      var k := |clients| - 1;
      ValidPrefix(clients, k);
      TableExact(clients[..k], handlers[..k]);
      assert clients == clients[..k] + [clients[k]] && handlers == handlers[..k] + [handlers[k]];
      ExactStep(clients[..k], handlers[..k], TableOf(clients[..k], handlers[..k]), clients[k], handlers[k]);
    }
  }

  /** Every host a valid configuration lists reaches its own client, spelled the way it is listed. */
  lemma ListedHostReachesItsClient(clients: seq<Client>, handlers: seq<Handler>, i: nat, j: nat)
    requires |clients| == |handlers| && Valid(clients) && i < |clients| && j < |clients[i].hosts|
    ensures Lookup(TableOf(clients, handlers), clients[i].hosts[j]) == Some(handlers[i])
  {
    TableExact(clients, handlers);
    assert Keys(clients[i].hosts)[j] == NormalizeHost(clients[i].hosts[j]);
    assert Maps(TableOf(clients, handlers), Keys(clients[i].hosts), handlers[i]);
  }

  /** What the handler factory did for one client: it may expand the secret in place, fail or panic. */
  datatype FactoryOutcome = Made(handler: Handler, expandedSecret: string) | FactoryError | FactoryPanic

  datatype Outcome<+T> = Returned(value: T) | Failed | Panicked

  class ConfigCell {
    var secret: string
    constructor (secret: string) ensures this.secret == secret { this.secret := secret; }
  }

  predicate AllMade(made: seq<FactoryOutcome>) {
    forall i | 0 <= i < |made| :: made[i].Made?
  }

  predicate DistinctExpanded(made: seq<FactoryOutcome>)
    requires AllMade(made)
  {
    forall i, j | 0 <= i < j < |made| :: made[i].expandedSecret != made[j].expandedSecret
  }

  function Handlers(made: seq<FactoryOutcome>): (hs: seq<Handler>)
    requires AllMade(made)
    ensures |hs| == |made|
  {
    seq(|made|, i requires 0 <= i < |made| => made[i].handler)
  }

  lemma AddKeysStep(m: HostTable, keys: seq<string>, n: string, h: Handler)
    ensures AddKeys(m, [], h) == m
    ensures AddKeys(m, keys + [n], h) == AddKeys(m, keys, h)[n := h]
  {
    assert (keys + [n])[..|keys|] == keys;
  }

  /** The inner loop of buildHostMap. */
  method AddClientHosts(m: HostTable, hosts: seq<string>, h: Handler) returns (out: HostTable)
    ensures out == AddKeys(m, Keys(hosts), h)
  {
    hide NormalizeHost, Keys, AddKeys;
    out := m;
    ghost var keys := Keys(hosts);
    AddKeysStep(m, [], "", h);
    for j := 0 to |hosts|
      invariant out == AddKeys(m, keys[..j], h)
    {
      AddKeysStep(m, keys[..j], keys[j], h);
      assert keys[..j + 1] == keys[..j] + [keys[j]];
      out := out[NormalizeHost(hosts[j]) := h];
    }
    assert keys[..|hosts|] == keys;
  }

  function ExpandedSecrets(made: seq<FactoryOutcome>): set<string> {
    set m | m in made && m.Made? :: m.expandedSecret
  }

  lemma BuiltStep(made: seq<FactoryOutcome>, next: FactoryOutcome)
    requires AllMade(made) && DistinctExpanded(made) && next.Made?
    ensures AllMade(made + [next])
    ensures DistinctExpanded(made + [next]) <==> next.expandedSecret !in ExpandedSecrets(made)
    ensures ExpandedSecrets(made + [next]) == ExpandedSecrets(made) + {next.expandedSecret}
  {
    var all, k := made + [next], |made|;
    assert all[k] == next && forall i | 0 <= i < k :: all[i] == made[i];
    assert forall m :: m in all <==> m in made || m == next;
    if next.expandedSecret in ExpandedSecrets(made) {
      var m :| m in made && m.Made? && m.expandedSecret == next.expandedSecret;
      var i :| 0 <= i < k && made[i] == m;
      assert all[i].expandedSecret == all[k].expandedSecret;
    } else {
      forall i | 0 <= i < k ensures made[i].expandedSecret != next.expandedSecret { assert made[i] in made; }
    }
  }

  /** The two maps of buildHostMap; of the second only the keys matter. */
  datatype Partial = Partial(table: HostTable, secrets: set<string>)

  /** One round of its client loop. */
  function BuildOne(p: Partial, c: Client, made: FactoryOutcome): Outcome<Partial> {
    match made
    case FactoryError => Failed
    case FactoryPanic => Panicked
    case Made(handler, secret) =>
      if secret in p.secrets then Failed
      else Returned(Partial(AddKeys(p.table, Keys(c.hosts), handler), p.secrets + {secret}))
  }

  /** All rounds; the first that does not return decides. */
  function Built(clients: seq<Client>, made: seq<FactoryOutcome>): Outcome<Partial>
    requires |clients| == |made|
  {
    if clients == [] then Returned(Partial(map[], {}))
    else
      var k := |clients| - 1;
      var before := Built(clients[..k], made[..k]);
      if before.Returned? then BuildOne(before.value, clients[k], made[k]) else before
  }

  lemma BuiltSnoc(clients: seq<Client>, made: seq<FactoryOutcome>, k: nat)
    requires k < |clients| == |made|
    ensures var before := Built(clients[..k], made[..k]);
      Built(clients[..k + 1], made[..k + 1])
      == if before.Returned? then BuildOne(before.value, clients[k], made[k]) else before
  {
    hide BuildOne;
    assert clients[..k + 1][..k] == clients[..k] && made[..k + 1][..k] == made[..k];
  }

  /** A round that does not return ends the building. */
  lemma {:induction false} FailureSticks(clients: seq<Client>, made: seq<FactoryOutcome>, k: nat, n: nat)
    requires k <= n <= |clients| == |made| && !Built(clients[..k], made[..k]).Returned?
    ensures Built(clients[..n], made[..n]) == Built(clients[..k], made[..k])
  {
    hide Built, BuildOne;
    if k < n {
      FailureSticks(clients, made, k, n - 1);
      BuiltSnoc(clients, made, n - 1);
    }
  }

  /** The building succeeds exactly when every client was made and the expanded secrets differ pairwise, and
      then its table is the one specified. */
  lemma {:induction false} BuiltExactly(clients: seq<Client>, made: seq<FactoryOutcome>)
    requires |clients| == |made|
    ensures Built(clients, made).Returned? <==> AllMade(made) && DistinctExpanded(made)
    ensures Built(clients, made).Returned? ==>
      Built(clients, made).value == Partial(TableOf(clients, Handlers(made)), ExpandedSecrets(made))
  {
    hide NormalizeHost, Keys, AddKeys, DistinctExpanded, ExpandedSecrets, Handlers;
    if clients == [] {
      NothingMade();
    } else {
      var k := |clients| - 1;
      BuiltExactly(clients[..k], made[..k]);
      assert made == made[..k] + [made[k]];
      assert AllMade(made) <==> AllMade(made[..k]) && made[k].Made? by { AllMadeSnoc(made, k); }
      if AllMade(made) {
        DistinctPrefix(made, k);
        if DistinctExpanded(made[..k]) { BuiltStep(made[..k], made[k]); }
        HandlersSnoc(made, k);
      }
    }
  }

  lemma NothingMade()
    ensures DistinctExpanded([]) && ExpandedSecrets([]) == {} && TableOf([], []) == map[] && Handlers([]) == []
  {
  }

  lemma AllMadeSnoc(made: seq<FactoryOutcome>, k: nat)
    requires |made| == k + 1
    ensures AllMade(made) <==> AllMade(made[..k]) && made[k].Made?
  {
    assert forall i | 0 <= i < k :: made[..k][i] == made[i];
  }

  lemma DistinctPrefix(made: seq<FactoryOutcome>, k: nat)
    requires k <= |made| && AllMade(made)
    ensures AllMade(made[..k]) && (DistinctExpanded(made) ==> DistinctExpanded(made[..k]))
  {
  }

  lemma HandlersSnoc(made: seq<FactoryOutcome>, k: nat)
    requires |made| == k + 1 && AllMade(made)
    ensures AllMade(made[..k]) && Handlers(made)[..k] == Handlers(made[..k]) && Handlers(made)[k] == made[k].handler
  {
  }

  /** buildHostMap: the outcome of the loop, and then the secrets sit expanded in their configurations. */
  method BuildHostMap(clients: seq<Client>, cells: seq<ConfigCell>, made: seq<FactoryOutcome>) returns (r: Outcome<HostTable>)
    requires |clients| == |cells| == |made|
    requires forall i, j | 0 <= i < j < |cells| :: cells[i] != cells[j]
    modifies cells
    ensures r.Returned? <==> AllMade(made) && DistinctExpanded(made)
    ensures r == match Built(clients, made) case Returned(p) => Returned(p.table) case Failed => Failed case Panicked => Panicked
    ensures r.Returned? ==> r.value == TableOf(clients, Handlers(made))
    ensures r.Returned? ==> forall i | 0 <= i < |cells| :: cells[i].secret == made[i].expandedSecret
  {
    hide NormalizeHost, Keys, TableOf, DistinctExpanded, ExpandedSecrets, Handlers, Built;
    BuiltExactly(clients, made);
    assert clients[..|clients|] == clients && made[..|made|] == made;
    var out: HostTable := map[];
    var secrets: map<string, string> := map[];
    NothingBuilt(clients, made);
    for k := 0 to |clients|
      invariant var built := Built(clients[..k], made[..k]);
        built.Returned? && built.value.table == out && built.value.secrets == secrets.Keys
      invariant forall i | 0 <= i < k :: made[i].Made? && cells[i].secret == made[i].expandedSecret
    {
      BuiltSnoc(clients, made, k);
      if !Built(clients[..k + 1], made[..k + 1]).Returned? { FailureSticks(clients, made, k + 1, |clients|); }
      match made[k] {
        case FactoryError => return Failed;
        case FactoryPanic => return Panicked;
        case Made(handler, expanded) =>
          cells[k].secret := expanded;
          if cells[k].secret in secrets { return Failed; }
          secrets := secrets[cells[k].secret := clients[k].id];
          out := AddClientHosts(out, clients[k].hosts, handler);
      }
    }
    return Returned(out);
  }

  lemma NothingBuilt(clients: seq<Client>, made: seq<FactoryOutcome>)
    ensures Built(clients[..0], made[..0]) == Returned(Partial(map[], {}))
  {
  }

  // ---------------------------------------------------------------------------
  // The router
  // ---------------------------------------------------------------------------

  /** What reading and decoding the configuration file yields at this moment. */
  datatype File = Undecodable | Document(clients: seq<Client>)

  class HostRouter {
    var hosts: HostTable

    constructor () ensures hosts == map[] { hosts := map[]; }

    /** reloadFromFile: the pointer is swapped after everything else succeeded, never before. */
    method ReloadFromFile(file: File, cells: seq<ConfigCell>, made: seq<FactoryOutcome>) returns (r: Outcome<()>)
      requires file.Document? ==> |file.clients| == |cells| == |made|
      requires forall i, j | 0 <= i < j < |cells| :: cells[i] != cells[j]
      modifies this, cells
      ensures r.Returned? <==> file.Document? && Valid(file.clients) && AllMade(made) && DistinctExpanded(made)
      ensures hosts == if r.Returned? then TableOf(file.clients, Handlers(made)) else old(hosts)
    {
      hide Valid, TableOf, DistinctExpanded;
      if file.Undecodable? { return Failed; }
      var valid := ValidateMultiConfig(file.clients);
      if !valid { return Failed; }
      var table := BuildHostMap(file.clients, cells, made);
      if table.Failed? { return Failed; }
      if table.Panicked? { return Panicked; }
      hosts := table.value;
      return Returned(());
    }

    /** doReload: the deferred recover turns a panic into a reload that did nothing. */
    method DoReload(file: File, cells: seq<ConfigCell>, made: seq<FactoryOutcome>)
      requires file.Document? ==> |file.clients| == |cells| == |made|
      requires forall i, j | 0 <= i < j < |cells| :: cells[i] != cells[j]
      modifies this, cells
      ensures hosts == if file.Document? && Valid(file.clients) && AllMade(made) && DistinctExpanded(made)
                       then TableOf(file.clients, Handlers(made)) else old(hosts)
    {
      hide Valid, TableOf, DistinctExpanded;
      var _ := ReloadFromFile(file, cells, made);
    }
  }
}
