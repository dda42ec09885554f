/** Session tickets split over cookies (src/cookie.go, ChunkString in src/utils/utils.go),
    against a stateful browser jar that stores Set-Cookie headers as section 5.3 of RFC 6265 says. */
module ChunkedCookies {
  import opened Common
  import opened Decimal

  const CHUNK_SIZE: nat := 3072
  const MAX_CHUNKS: nat := 32
  const MAX_TICKET_SIZE: nat := CHUNK_SIZE * MAX_CHUNKS

  // ---------------------------------------------------------------------------
  // The browser
  // ---------------------------------------------------------------------------

  /** All cookies of one middleware share domain and path, so the jar is keyed by name. */
  type Jar = map<string, string>

  datatype SetCookieHeader = SetCookieHeader(name: string, value: string, expired: bool)

  function StoreOne(jar: Jar, h: SetCookieHeader): Jar {
    if h.expired then jar - {h.name} else jar[h.name := h.value]
  }

  /** The jar after the headers of one response, in order. */
  function Store(jar: Jar, headers: seq<SetCookieHeader>): Jar {
    if headers == [] then jar
    else StoreOne(Store(jar, headers[..|headers| - 1]), headers[|headers| - 1])
  }

  lemma {:induction false} StoreConcat(jar: Jar, a: seq<SetCookieHeader>, b: seq<SetCookieHeader>)
    ensures Store(jar, a + b) == Store(Store(jar, a), b)
  {
    if b == [] {
      assert a + b == a;
    } else {
      StoreConcat(jar, a, b[..|b| - 1]);
      assert (a + b)[..|a + b| - 1] == a + b[..|b| - 1];
    }
  }

  lemma StoreSingle(jar: Jar, h: SetCookieHeader)
    ensures Store(jar, [h]) == StoreOne(jar, h)
  {
    assert [h][..0] == [];
  }

  // ---------------------------------------------------------------------------
  // Splitting
  // ---------------------------------------------------------------------------

  function Join(parts: seq<string>): string {
    if parts == [] then "" else Join(parts[..|parts| - 1]) + parts[|parts| - 1]
  }

  function Chunks(input: string, size: nat): seq<string>
    requires size > 0
    decreases |input|
  {
    if input == "" then []
    else [input[..Min(size, |input|)]] + Chunks(input[Min(size, |input|)..], size)
  }

  lemma {:induction false} ChunksStep(input: string, size: nat, i: nat)
    requires size > 0 && i < |input|
    ensures Chunks(input[..i], size) + Chunks(input[i..], size)
         == Chunks(input[..i], size) + [input[i..Min(i + size, |input|)]] + Chunks(input[Min(i + size, |input|)..], size)
  {
    assert input[i..][..Min(size, |input| - i)] == input[i..Min(i + size, |input|)];
    assert input[i..][Min(size, |input| - i)..] == input[Min(i + size, |input|)..];
  }

  /** ChunkString, the loop. */
  method ChunkString(input: string, size: nat) returns (chunks: seq<string>)
    requires size > 0
    ensures chunks == Chunks(input, size)
  {
    chunks := [];
    var i := 0;
    while i < |input|
      invariant 0 <= i
      invariant chunks + Chunks(input[Min(i, |input|)..], size) == Chunks(input, size)
      decreases |input| - i
    {
      var end := i + size;
      if end > |input| { end := |input|; }
      ChunksStep(input, size, i);
      assert Chunks(input[i..], size) == [input[i..end]] + Chunks(input[end..], size) by {
        assert input[i..][..Min(size, |input| - i)] == input[i..end];
        assert input[i..][Min(size, |input| - i)..] == input[end..];
      }
      chunks := chunks + [input[i..end]];
      i := i + size;
    }
    assert input[Min(i, |input|)..] == "";
  }

  lemma {:induction false} JoinCons(first: string, rest: seq<string>)
    ensures Join([first] + rest) == first + Join(rest)
  {
    var all := [first] + rest;
    if rest == [] {
      assert all[..|all| - 1] == [] && Join([]) == "";
      assert Join(all) == "" + first;
    } else {
      JoinCons(first, rest[..|rest| - 1]);
      assert all[..|all| - 1] == [first] + rest[..|rest| - 1];
    }
  }

  /** Splitting loses nothing. */
  lemma {:induction false} JoinChunks(input: string, size: nat)
    requires size > 0
    ensures Join(Chunks(input, size)) == input
    decreases |input|
  {
    if input != "" {
      var k := Min(size, |input|);
      JoinChunks(input[k..], size);
      JoinCons(input[..k], Chunks(input[k..], size));
      assert input[..k] + input[k..] == input;
    }
  }

  /** The number of chunks is the length over the chunk size, rounded up. */
  lemma {:induction false} ChunksCount(input: string)
    ensures (|Chunks(input, CHUNK_SIZE)| - 1) * CHUNK_SIZE < |input| <= |Chunks(input, CHUNK_SIZE)| * CHUNK_SIZE || input == ""
    ensures input == "" <==> |Chunks(input, CHUNK_SIZE)| == 0
    decreases |input|
  {
    if input != "" {
      ChunksCount(input[Min(CHUNK_SIZE, |input|)..]);
    }
  }

  // ---------------------------------------------------------------------------
  // Names
  // ---------------------------------------------------------------------------

  function CountName(name: string): string { name + ".Chunks" }

  function ChunkName(name: string, i: nat): string { name + "." + Itoa(i) }

  lemma NamesDistinct(name: string, i: nat, j: nat)
    ensures ChunkName(name, i) == ChunkName(name, j) <==> i == j
    ensures ChunkName(name, i) != name && name != CountName(name) && ChunkName(name, i) != CountName(name)
  {
    var a, b, c := ChunkName(name, i), ChunkName(name, j), CountName(name);
    assert a[|name| + 1..] == Itoa(i) && b[|name| + 1..] == Itoa(j);
    assert c[|name| + 1] == 'C' && a[|name| + 1] == Itoa(i)[0] && IsDigit(Itoa(i)[0]);
    if a == b { ItoaInjective(i, j); }
  }

  // ---------------------------------------------------------------------------
  // What a request's cookies mean
  // ---------------------------------------------------------------------------

  datatype ReadError = NoCookie | BadCount

  /** getChunkedCookieCount. */
  function ChunkCount(jar: Jar, name: string): (r: Result<nat, ReadError>)
    ensures r.Ok? ==> r.value <= MAX_CHUNKS
  {
    if CountName(name) !in jar then Ok(0)
    else match Atoi(jar[CountName(name)])
      case None => Err(BadCount)
      case Some(n) => if n < 0 || n > MAX_CHUNKS then Err(BadCount) else Ok(n)
  }

  function ReadChunks(jar: Jar, name: string, n: nat): Result<string, ReadError> {
    if n == 0 then Ok("")
    else match ReadChunks(jar, name, n - 1)
      case Err(e) => Err(e)
      case Ok(v) => if ChunkName(name, n) in jar then Ok(v + jar[ChunkName(name, n)]) else Err(NoCookie)
  }

  function ReadBase(jar: Jar, name: string): Result<string, ReadError> {
    if name in jar then Ok(jar[name]) else Err(NoCookie)
  }

  function Read(jar: Jar, name: string): Result<string, ReadError> {
    match ChunkCount(jar, name)
    case Err(e) => Err(e)
    case Ok(n) => if n == 0 then ReadBase(jar, name) else ReadChunks(jar, name, n)
  }

  function StoredChunks(value: string): (chunks: seq<string>) {
    var all := Chunks(value, CHUNK_SIZE);
    if |all| > MAX_CHUNKS then all[..MAX_CHUNKS] else all
  }

  function ChunkHeaders(name: string, chunks: seq<string>): seq<SetCookieHeader> {
    seq(|chunks|, i requires 0 <= i < |chunks| => SetCookieHeader(ChunkName(name, i + 1), chunks[i], false))
  }

  function SetHeaders(name: string, value: string): seq<SetCookieHeader> {
    var chunks := StoredChunks(value);
    if |chunks| == 1 then [SetCookieHeader(name, value, false)]
    else [SetCookieHeader(CountName(name), Itoa(|chunks|), false)] + ChunkHeaders(name, chunks)
  }

  function ExpireChunkHeaders(name: string, n: nat): seq<SetCookieHeader> {
    seq(n, i requires 0 <= i < n => SetCookieHeader(ChunkName(name, i + 1), "", true))
  }

  function ClearHeaders(jar: Jar, name: string): seq<SetCookieHeader> {
    match ChunkCount(jar, name)
    case Err(_) => [SetCookieHeader(name, "", true)]
    case Ok(n) =>
      if n == 0 then [SetCookieHeader(name, "", true)]
      else [SetCookieHeader(CountName(name), "", true)] + ExpireChunkHeaders(name, n)
  }

  // ---------------------------------------------------------------------------
  // The program
  // ---------------------------------------------------------------------------

  class HttpCookie {
    var name: string
    var value: string
    var expired: bool

    constructor (name: string)
      ensures this.name == name && value == "" && !expired
    {
      this.name, this.value, this.expired := name, "", false;
    }
  }

  /** The part of http.ResponseWriter the cookie code touches. */
  class ResponseWriter {
    var headers: seq<SetCookieHeader>

    constructor ()
      ensures headers == []
    {
      headers := [];
    }

    /** http.SetCookie renders the cookie as it is now; later changes of `c` do not matter. */
    method SetCookie(c: HttpCookie)
      modifies this
      ensures headers == old(headers) + [SetCookieHeader(c.name, c.value, c.expired)]
    {
      headers := headers + [SetCookieHeader(c.name, c.value, c.expired)];
    }
  }

  /** setChunkedCookies: one cookie object, renamed and refilled for every header. */
  method SetChunkedCookies(rw: ResponseWriter, cookieName: string, cookieValue: string)
    modifies rw
    ensures rw.headers == old(rw.headers) + SetHeaders(cookieName, cookieValue)
  {
    hide Itoa, Chunks;
    var cookieChunks := ChunkString(cookieValue, CHUNK_SIZE);
    if |cookieChunks| > MAX_CHUNKS {
      cookieChunks := cookieChunks[..MAX_CHUNKS];
    }
    var c := new HttpCookie(cookieName);
    if |cookieChunks| == 1 {
      c.value := cookieValue;
      rw.SetCookie(c);
    } else {
      c.name := CountName(cookieName);
      c.value := Itoa(|cookieChunks|);
      rw.SetCookie(c);
      ghost var head := rw.headers;
      for index := 0 to |cookieChunks|
        invariant !c.expired
        invariant rw.headers == head + ChunkHeaders(cookieName, cookieChunks)[..index]
      {
        c.name := ChunkName(cookieName, index + 1);
        c.value := cookieChunks[index];
        rw.SetCookie(c);
      }
    }
  }

  /** readChunkedCookie: the loop runs at most MAX_CHUNKS times whatever the request says. */
  method ReadChunkedCookie(jar: Jar, cookieName: string) returns (r: Result<string, ReadError>)
    ensures r == Read(jar, cookieName)
  {
    hide Itoa;
    var count := ChunkCount(jar, cookieName);
    if count.Err? { return Err(count.error); }
    if count.value == 0 {
      return ReadBase(jar, cookieName);
    }
    var value := "";
    var i := 0;
    while i < count.value
      invariant 0 <= i <= count.value <= MAX_CHUNKS
      invariant ReadChunks(jar, cookieName, i) == Ok(value)
    {
      if ChunkName(cookieName, i + 1) !in jar {
        MissingChunk(jar, cookieName, i + 1, count.value);
        return Err(NoCookie);
      }
      value := value + jar[ChunkName(cookieName, i + 1)];
      i := i + 1;
    }
    return Ok(value);
  }

  lemma {:induction false} MissingChunk(jar: Jar, name: string, i: nat, n: nat)
    requires 1 <= i <= n && ReadChunks(jar, name, i).Err?
    ensures ReadChunks(jar, name, n) == ReadChunks(jar, name, i)
    decreases n
  {
    if i < n { MissingChunk(jar, name, i, n - 1); }
  }

  /** clearChunkedCookie: again one object, renamed for every header. */
  method ClearChunkedCookie(rw: ResponseWriter, jar: Jar, cookieName: string)
    modifies rw
    ensures rw.headers == old(rw.headers) + ClearHeaders(jar, cookieName)
  {
    hide Itoa;
    var count := ChunkCount(jar, cookieName);
    var chunkCount := if count.Ok? then count.value else 0;
    var c := new HttpCookie(cookieName);
    c.expired := true;
    if chunkCount == 0 {
      rw.SetCookie(c);
    } else {
      c.name := CountName(cookieName);
      rw.SetCookie(c);
      ghost var head := rw.headers;
      for i := 0 to chunkCount
        invariant c.expired && c.value == ""
        invariant rw.headers == head + ExpireChunkHeaders(cookieName, chunkCount)[..i]
      {
        c.name := ChunkName(cookieName, i + 1);
        rw.SetCookie(c);
      }
    }
  }

  // ---------------------------------------------------------------------------
  // Setting, then reading
  // ---------------------------------------------------------------------------

  function AfterSet(jar: Jar, name: string, value: string): Jar { Store(jar, SetHeaders(name, value)) }

  function AfterClear(jar: Jar, name: string): Jar { Store(jar, ClearHeaders(jar, name)) }

  lemma {:induction false} StoreChunks(jar: Jar, name: string, chunks: seq<string>)
    ensures var after := Store(jar, ChunkHeaders(name, chunks));
      && (forall i | 1 <= i <= |chunks| :: ChunkName(name, i) in after && after[ChunkName(name, i)] == chunks[i - 1])
      && (forall k | (forall i | 1 <= i <= |chunks| :: k != ChunkName(name, i)) ::
            (k in after <==> k in jar) && (k in jar ==> after[k] == jar[k]))
  {
    hide Itoa;
    var n := |chunks|;
    if n > 0 {
      var init := chunks[..n - 1];
      StoreChunks(jar, name, init);
      assert ChunkHeaders(name, chunks)[..n - 1] == ChunkHeaders(name, init);
      forall i | 1 <= i < n ensures ChunkName(name, i) != ChunkName(name, n) { NamesDistinct(name, i, n); }
    }
  }

  lemma {:induction false} ReadJoins(jar: Jar, name: string, chunks: seq<string>)
    requires forall i | 1 <= i <= |chunks| :: ChunkName(name, i) in jar && jar[ChunkName(name, i)] == chunks[i - 1]
    ensures ReadChunks(jar, name, |chunks|) == Ok(Join(chunks))
  {
    hide Itoa;
    if chunks != [] { ReadJoins(jar, name, chunks[..|chunks| - 1]); }
  }

  lemma StoredChunksCount(value: string)
    ensures |StoredChunks(value)| == 1 <==> 1 <= |value| <= CHUNK_SIZE
    ensures |value| <= MAX_TICKET_SIZE ==> Join(StoredChunks(value)) == value
    ensures |StoredChunks(value)| == 0 <==> value == ""
  {
    JoinChunks(value, CHUNK_SIZE);
    ChunksCount(value);
  }

  /** The jar after a chunked write, name by name. */
  lemma ChunkedJar(jar: Jar, name: string, value: string)
    requires |value| > CHUNK_SIZE
    ensures var after := AfterSet(jar, name, value); var chunks := StoredChunks(value);
      && CountName(name) in after && after[CountName(name)] == Itoa(|chunks|)
      && (forall i | 1 <= i <= |chunks| :: ChunkName(name, i) in after && after[ChunkName(name, i)] == chunks[i - 1])
      && (name in after <==> name in jar)
  {
    hide Itoa, Chunks, ChunkCount, StoredChunks;
    var chunks := StoredChunks(value);
    StoredChunksCount(value);
    var head := SetCookieHeader(CountName(name), Itoa(|chunks|), false);
    StoreSingle(jar, head);
    StoreConcat(jar, [head], ChunkHeaders(name, chunks));
    StoreChunks(jar[CountName(name) := Itoa(|chunks|)], name, chunks);
    forall i: nat ensures ChunkName(name, i) != CountName(name) && ChunkName(name, i) != name { NamesDistinct(name, i, i); }
    NamesDistinct(name, 0, 0);
  }

  /** A chunked write: the count cookie and the chunks are there, the base cookie is untouched. */
  lemma AfterChunkedSet(jar: Jar, name: string, value: string)
    requires |value| > CHUNK_SIZE
    ensures var after := AfterSet(jar, name, value); var n := |StoredChunks(value)|;
      && 1 < n <= MAX_CHUNKS && ChunkCount(after, name) == Ok(n)
      && CountName(name) in after && Atoi(after[CountName(name)]) == Some(n)
      && Read(after, name) == Ok(Join(StoredChunks(value)))
      && (name in after <==> name in jar)
  {
    hide Itoa, Atoi, Chunks, AfterSet;
    StoredChunksCount(value);
    ChunkedJar(jar, name, value);
    AtoiItoa(|StoredChunks(value)|);
    ReadJoins(AfterSet(jar, name, value), name, StoredChunks(value));
  }

  lemma {:induction false} BaseUntouched(jar: Jar, name: string, headers: seq<SetCookieHeader>)
    requires forall h | h in headers :: h.name != name
    ensures ReadBase(Store(jar, headers), name) == ReadBase(jar, name)
  {
    if headers != [] {
      assert headers[|headers| - 1] in headers;
      BaseUntouched(jar, name, headers[..|headers| - 1]);
    }
  }

  lemma AfterPlainSet(jar: Jar, name: string, value: string)
    requires 1 <= |value| <= CHUNK_SIZE
    ensures AfterSet(jar, name, value) == jar[name := value]
    ensures ChunkCount(AfterSet(jar, name, value), name) == ChunkCount(jar, name)
  {
    hide Itoa;
    StoredChunksCount(value);
    StoreSingle(jar, SetCookieHeader(name, value, false));
    NamesDistinct(name, 0, 0);
  }

  lemma {:induction false} ReadChunksIgnoresBase(jar: Jar, name: string, value: string, n: nat)
    ensures ReadChunks(jar[name := value], name, n) == ReadChunks(jar, name, n)
  {
    if n > 0 {
      ReadChunksIgnoresBase(jar, name, value, n - 1);
      NamesDistinct(name, n, n);
    }
  }

  /** A ticket over one chunk comes back whatever the jar held before. */
  lemma ChunkedRoundTrip(jar: Jar, name: string, value: string)
    requires CHUNK_SIZE < |value| <= MAX_TICKET_SIZE
    ensures Read(AfterSet(jar, name, value), name) == Ok(value)
  {
    AfterChunkedSet(jar, name, value);
    StoredChunksCount(value);
  }

  /** A ticket of one chunk comes back exactly when the jar has no non-zero count cookie, or happened to
      answer that very ticket already; with a count cookie the read does not see the write at all. */
  lemma PlainRoundTrip(jar: Jar, name: string, value: string)
    requires 1 <= |value| <= CHUNK_SIZE
    ensures Read(AfterSet(jar, name, value), name) == Ok(value) <==>
      ChunkCount(jar, name) == Ok(0) || Read(jar, name) == Ok(value)
    ensures ChunkCount(jar, name) != Ok(0) ==> Read(AfterSet(jar, name, value), name) == Read(jar, name)
  {
    AfterPlainSet(jar, name, value);
    var count := ChunkCount(jar, name);
    if count.Ok? { ReadChunksIgnoresBase(jar, name, value, count.value); }
  }

  /** The tickets of one browser, written one after the other into an empty jar. */
  function AfterWrites(name: string, tickets: seq<string>): Jar {
    if tickets == [] then map[]
    else AfterSet(AfterWrites(name, tickets[..|tickets| - 1]), name, tickets[|tickets| - 1])
  }

  predicate Storable(tickets: seq<string>) {
    forall t | t in tickets :: 1 <= |t| <= MAX_TICKET_SIZE
  }

  predicate AllPlain(tickets: seq<string>) {
    forall t | t in tickets :: |t| <= CHUNK_SIZE
  }

  lemma {:induction false} CountAfterWrites(name: string, tickets: seq<string>)
    requires Storable(tickets)
    ensures AllPlain(tickets) <==> ChunkCount(AfterWrites(name, tickets), name) == Ok(0)
    ensures !AllPlain(tickets) ==>
      Read(AfterWrites(name, tickets), name).Ok? && |Read(AfterWrites(name, tickets), name).value| > CHUNK_SIZE
  {
    if tickets != [] {
      var init, last := tickets[..|tickets| - 1], tickets[|tickets| - 1];
      assert tickets == init + [last] && last in tickets;
      assert forall t :: t in tickets <==> t in init || t == last;
      CountAfterWrites(name, init);
      if |last| > CHUNK_SIZE {
        AfterChunkedSet(AfterWrites(name, init), name, last);
        ChunkedRoundTrip(AfterWrites(name, init), name, last);
      } else {
        AfterPlainSet(AfterWrites(name, init), name, last);
        PlainRoundTrip(AfterWrites(name, init), name, last);
      }
    }
  }

  /** The last ticket written is the one read back exactly when it is chunked itself or no earlier
      one was: a session that shrinks below one chunk is shadowed by its own old chunks. */
  lemma LastWriteWins(name: string, tickets: seq<string>)
    requires tickets != [] && Storable(tickets)
    ensures var last := tickets[|tickets| - 1];
      Read(AfterWrites(name, tickets), name) == Ok(last)
      <==> |last| > CHUNK_SIZE || AllPlain(tickets[..|tickets| - 1])
  {
    var init, last := tickets[..|tickets| - 1], tickets[|tickets| - 1];
    assert last in tickets;
    assert forall t | t in init :: t in tickets;
    CountAfterWrites(name, init);
    if |last| > CHUNK_SIZE {
      ChunkedRoundTrip(AfterWrites(name, init), name, last);
    } else {
      PlainRoundTrip(AfterWrites(name, init), name, last);
    }
  }

  // ---------------------------------------------------------------------------
  // Clearing
  // ---------------------------------------------------------------------------

  lemma {:induction false} StoreExpired(jar: Jar, name: string, n: nat)
    ensures var after := Store(jar, ExpireChunkHeaders(name, n));
      && (forall i | 1 <= i <= n :: ChunkName(name, i) !in after)
      && (forall k | (forall i | 1 <= i <= n :: k != ChunkName(name, i)) ::
            (k in after <==> k in jar) && (k in jar ==> after[k] == jar[k]))
  {
    hide Itoa;
    if n > 0 {
      StoreExpired(jar, name, n - 1);
      assert ExpireChunkHeaders(name, n)[..n - 1] == ExpireChunkHeaders(name, n - 1);
    }
  }

  lemma AfterClearFacts(jar: Jar, name: string)
    ensures var after := AfterClear(jar, name); var count := ChunkCount(jar, name);
      if count.Ok? && count.value > 0
      then CountName(name) !in after && ReadBase(after, name) == ReadBase(jar, name)
           && forall i | 1 <= i <= count.value :: ChunkName(name, i) !in after
      else after == jar - {name} && ChunkCount(after, name) == count
  {
    var count := ChunkCount(jar, name);
    NamesDistinct(name, 0, 0);
    if count.Ok? && count.value > 0 {
      var head := [SetCookieHeader(CountName(name), "", true)];
      StoreSingle(jar, head[0]);
      StoreConcat(jar, head, ExpireChunkHeaders(name, count.value));
      StoreExpired(jar - {CountName(name)}, name, count.value);
      forall i: nat ensures ChunkName(name, i) != CountName(name) && ChunkName(name, i) != name { NamesDistinct(name, i, i); }
    } else {
      StoreSingle(jar, SetCookieHeader(name, "", true));
    }
  }

  /** After a clear a ticket is still readable exactly when the jar held both forms: the count cookie
      in range and the base cookie, which the chunked branch does not expire. */
  lemma ClearThenRead(jar: Jar, name: string)
    ensures Read(AfterClear(jar, name), name).Ok?
       <==> (ChunkCount(jar, name).Ok? && ChunkCount(jar, name).value > 0 && name in jar)
  {
    AfterClearFacts(jar, name);
  }

  /** Clearing twice always leaves nothing to read. */
  lemma ClearTwice(jar: Jar, name: string)
    ensures Read(AfterClear(AfterClear(jar, name), name), name).Err?
  {
    AfterClearFacts(jar, name);
    AfterClearFacts(AfterClear(jar, name), name);
  }

  /** The program's own writes lead there: after a plain ticket and then a chunked one, a logout leaves the
      plain one readable. */
  lemma LogoutLeavesThePlainTicket(name: string, plain: string, chunked: string)
    requires 1 <= |plain| <= CHUNK_SIZE < |chunked| <= MAX_TICKET_SIZE
    ensures Read(AfterClear(AfterWrites(name, [plain, chunked]), name), name) == Ok(plain)
  {
    var first := AfterSet(map[], name, plain);
    assert [plain, chunked][..1] == [plain] && [plain][..0] == [];
    assert AfterWrites(name, [plain][..0]) == map[];
    assert AfterWrites(name, [plain]) == first;
    AfterPlainSet(map[], name, plain);
    AfterChunkedSet(first, name, chunked);
    ChunkedKeepsBase(first, name, chunked);
    AfterClearFacts(AfterSet(first, name, chunked), name);
  }

  /** A chunked write leaves the base cookie as it is. */
  lemma ChunkedKeepsBase(jar: Jar, name: string, value: string)
    requires |value| > CHUNK_SIZE
    ensures ReadBase(AfterSet(jar, name, value), name) == ReadBase(jar, name)
  {
    hide Itoa, Chunks;
    StoredChunksCount(value);
    forall h | h in SetHeaders(name, value) ensures h.name != name {
      forall i: nat { NamesDistinct(name, i, i); }
    }
    BaseUntouched(jar, name, SetHeaders(name, value));
  }

  /** src/cookie.go:133-135 promises that a clear expires the count cookie, unreadable values included. It
      does exactly when the count is in 1..32; any other count cookie stays, and an unreadable one keeps
      every later plain ticket from being read. */
  lemma CountCookieCleared(jar: Jar, name: string, value: string)
    ensures CountName(name) !in AfterClear(jar, name)
       <==> CountName(name) !in jar || (ChunkCount(jar, name).Ok? && ChunkCount(jar, name).value > 0)
    ensures ChunkCount(jar, name).Err? && 1 <= |value| <= CHUNK_SIZE ==>
      Read(AfterSet(AfterClear(jar, name), name, value), name).Err?
  {
    AfterClearFacts(jar, name);
    NamesDistinct(name, 0, 0);
    if 1 <= |value| <= CHUNK_SIZE { AfterPlainSet(AfterClear(jar, name), name, value); }
  }

  /** No request makes the program emit more than 33 headers. */
  lemma HeadersBounded(jar: Jar, name: string, value: string)
    ensures |ClearHeaders(jar, name)| <= MAX_CHUNKS + 1
    ensures |SetHeaders(name, value)| <= MAX_CHUNKS + 1
  {
  }

  /** The jar holds at most one of the two forms, and a count cookie is in 1..32. */
  predicate OneForm(jar: Jar, name: string) {
    && !(name in jar && CountName(name) in jar)
    && (CountName(name) in jar ==> ChunkCount(jar, name).Ok? && ChunkCount(jar, name).value >= 1)
  }

  /** Under the invariant a clear removes the session. */
  lemma ClearUnderInvariant(jar: Jar, name: string)
    requires OneForm(jar, name)
    ensures Read(AfterClear(jar, name), name) == Err(NoCookie) && OneForm(AfterClear(jar, name), name)
  {
    NamesDistinct(name, 0, 0);
    AfterClearFacts(jar, name);
  }

  /** A write keeps the invariant exactly when it does not switch to the other form. */
  lemma SetKeepsInvariant(jar: Jar, name: string, value: string)
    requires OneForm(jar, name) && 1 <= |value|
    ensures OneForm(AfterSet(jar, name, value), name)
       <==> (if |value| <= CHUNK_SIZE then CountName(name) !in jar else name !in jar)
  {
    NamesDistinct(name, 0, 0);
    if |value| <= CHUNK_SIZE {
      AfterPlainSet(jar, name, value);
    } else {
      AfterChunkedSet(jar, name, value);
    }
  }
}
