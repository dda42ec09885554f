/** The path check of wildcard redirects: a bounded decoding loop standing in for an unbounded closure
    (src/utils/utils.go, hasPathTraversal). A character is one byte. */
module RedirectPath {
  import opened Common

  // ---------------------------------------------------------------------------
  // Segments
  // ---------------------------------------------------------------------------

  /** The position of the first `c` in `s`, or the length of `s`. */
  function IndexOf(s: string, c: char): (i: nat)
    ensures i <= |s| && forall k | 0 <= k < i :: s[k] != c
    ensures i < |s| ==> s[i] == c
  {
    IndexWhere(s, x => x == c)
  }

  /** strings.Split on one character. */
  function Split(s: string, sep: char): (r: seq<string>)
    ensures |r| > 0
  {
    var i := IndexOf(s, sep);
    if i == |s| then [s] else [s[..i]] + Split(s[i + 1..], sep)
  }

  /** A segment some server may take for "..": with path parameters or control characters after it. */
  predicate Climbs(segment: string) {
    || segment == ".."
    || (HasPrefix(segment, "..") && |segment| > 2 && (segment[2] == ';' || segment[2] < ' '))
  }

  predicate Traverses(path: string) {
    exists j | 0 <= j < |Split(path, '/')| :: Climbs(Split(path, '/')[j])
  }

  /** The same without splitting: two dots right after a slash or at the start, and then the end, a
      slash, a semicolon or a control character. */
  predicate ClimbsAt(path: string, p: nat) {
    && p + 1 < |path| && path[p] == '.' && path[p + 1] == '.'
    && (p == 0 || path[p - 1] == '/')
    && (p + 2 == |path| || path[p + 2] in {'/', ';'} || path[p + 2] < ' ')
  }

  lemma ClimbInRest(path: string, p: nat, i: nat)
    requires i < p < |path| && path[i] == '/' && ClimbsAt(path, p)
    ensures ClimbsAt(path[i + 1..], p - (i + 1))
  {
    var rest := path[i + 1..];
    assert forall k: nat | k < |rest| :: rest[k] == path[k + i + 1];
  }

  lemma ClimbAtStart(path: string, i: nat)
    requires ClimbsAt(path, 0) && i <= |path| && (forall k | 0 <= k < i :: path[k] != '/') && (i == |path| || path[i] == '/')
    ensures Climbs(path[..i])
  {
    assert i >= 2;
    assert i >= 2 && path[..i][..2] == path[..2] == "..";
    if i > 2 { assert path[..i][2] == path[2]; }
  }

  lemma {:induction false} ClimbIsTraversal(path: string, p: nat)
    requires ClimbsAt(path, p)
    ensures Traverses(path)
  {
    hide IndexOf;
    var i := IndexOf(path, '/');
    if p <= i {
      assert p == 0;
      ClimbAtStart(path, i);
      assert Split(path, '/')[0] == path[..i];
    } else {
      var rest := path[i + 1..];
      ClimbInRest(path, p, i);
      hide Climbs, ClimbsAt;
      ClimbIsTraversal(rest, p - (i + 1));
      var j :| 0 <= j < |Split(rest, '/')| && Climbs(Split(rest, '/')[j]);
      assert Split(path, '/')[j + 1] == Split(rest, '/')[j];
    }
  }

  lemma {:induction false} TraversalClimbs(path: string) returns (p: nat)
    requires Traverses(path)
    ensures ClimbsAt(path, p)
  {
    hide IndexOf;
    var i := IndexOf(path, '/');
    var segments := Split(path, '/');
    var j :| 0 <= j < |segments| && Climbs(segments[j]);
    if j == 0 {
      p := 0;
      assert segments[0] == path[..i];
      assert path[0] == path[..i][..2][0] && path[1] == path[..i][..2][1];
    } else {
      var rest := path[i + 1..];
      assert segments[j] == Split(rest, '/')[j - 1];
      var q := TraversalClimbs(rest);
      p := q + i + 1;
      assert path[p] == rest[q] && path[p + 1] == rest[q + 1];
      assert p - 1 == i || path[p - 1] == rest[q - 1];
    }
  }

  // ---------------------------------------------------------------------------
  // Normalising and decoding
  // ---------------------------------------------------------------------------

  /** Backslashes to slashes. */
  function Normalise(s: string): (r: string)
    ensures |r| == |s| && forall i | 0 <= i < |s| :: r[i] == if s[i] == '\\' then '/' else s[i]
  {
    seq(|s|, i requires 0 <= i < |s| => if s[i] == '\\' then '/' else s[i])
  }

  predicate IsHex(c: char) {
    '0' <= c <= '9' || 'a' <= c <= 'f' || 'A' <= c <= 'F'
  }

  function HexValue(c: char): (n: nat)
    requires IsHex(c)
    ensures n < 16
  {
    if c <= '9' then c as int - '0' as int
    else if c <= 'F' then c as int - 'A' as int + 10
    else c as int - 'a' as int + 10
  }

  predicate Escape(s: string) {
    |s| >= 3 && s[0] == '%' && IsHex(s[1]) && IsHex(s[2])
  }

  function EscapedByte(s: string): char
    requires Escape(s)
  {
    (16 * HexValue(s[1]) + HexValue(s[2])) as char
  }

  /** url.PathUnescape: one pass of percent-decoding, None on a bad escape. */
  function Unescape(s: string): Option<string> {
    if s == "" then Some("")
    else if Escape(s) then Prepended(EscapedByte(s), Unescape(s[3..]))
    else if s[0] == '%' then None
    else Prepended(s[0], Unescape(s[1..]))
  }

  function Prepended(c: char, s: Option<string>): Option<string> {
    if s.Some? then Some([c] + s.value) else None
  }

  /** One round of hasPathTraversal. */
  function Round(s: string): Option<string> {
    Unescape(Normalise(s))
  }

  function Rounds(s: string, n: nat): Option<string> {
    if n == 0 then Some(s)
    else match Rounds(s, n - 1)
      case None => None
      case Some(t) => Round(t)
  }

  /** After n rounds nothing was malformed and no segment climbs. */
  predicate SafeAfter(s: string, n: nat) {
    Rounds(s, n).Some? && !Traverses(Normalise(Rounds(s, n).value))
  }

  /** After n rounds there is nothing left to decode. */
  predicate Settled(s: string, n: nat) {
    && Rounds(s, n).Some?
    && Round(Rounds(s, n).value) == Some(Normalise(Rounds(s, n).value))
  }

  lemma NormaliseTwice(s: string)
    ensures Normalise(Normalise(s)) == Normalise(s)
  {
  }

  /** Once settled, always settled, and the path stays what it is. */
  lemma {:induction false} SettledStays(s: string, n: nat, m: nat)
    requires n <= m && Settled(s, n)
    ensures Settled(s, m) && Normalise(Rounds(s, m).value) == Normalise(Rounds(s, n).value)
    decreases m
  {
    if n < m {
      SettledStays(s, n, m - 1);
      NormaliseTwice(Rounds(s, m - 1).value);
    }
  }

  const MAX_ROUNDS := 8

  /** hasPathTraversal lets a path through exactly when it settles within eight rounds and is safe after
      every number of rounds, not just after eight. */
  method HasPathTraversal(rawPath: string) returns (flagged: bool)
    ensures !flagged <==> Settled(rawPath, MAX_ROUNDS - 1) && forall n: nat :: SafeAfter(rawPath, n)
  {
    hide Traverses, Climbs, Round, Normalise;
    var candidate := rawPath;
    for i := 0 to MAX_ROUNDS
      invariant Rounds(rawPath, i) == Some(candidate)
      invariant forall n: nat | n < i :: SafeAfter(rawPath, n) && !Settled(rawPath, n)
    {
      candidate := Normalise(candidate);
      var climbs := HasClimbingSegment(candidate);
      if climbs {
        assert !SafeAfter(rawPath, i);
        return true;
      }
      var decoded := Unescape(candidate);
      DecodedIsRound(rawPath, i);
      if decoded.None? {
        assert !SafeAfter(rawPath, i + 1);
        return true;
      }
      if decoded.value == candidate {
        SafeForever(rawPath, i);
        SettledStays(rawPath, i, MAX_ROUNDS - 1);
        return false;
      }
      candidate := decoded.value;
    }
    assert !Settled(rawPath, MAX_ROUNDS - 1);
    return true;
  }

  lemma DecodedIsRound(s: string, n: nat)
    requires Rounds(s, n).Some?
    ensures Rounds(s, n + 1) == Unescape(Normalise(Rounds(s, n).value))
  {
  }

  /** The loop over the segments. */
  method HasClimbingSegment(path: string) returns (climbs: bool)
    ensures climbs <==> Traverses(path)
  {
    var segments := Split(path, '/');
    for j := 0 to |segments|
      invariant forall k | 0 <= k < j :: !Climbs(segments[k])
    {
      if Climbs(segments[j]) { return true; }
    }
    return false;
  }

  lemma SafeForever(s: string, i: nat)
    requires Settled(s, i) && !Traverses(Normalise(Rounds(s, i).value))
    requires forall n: nat | n < i :: SafeAfter(s, n)
    ensures forall n: nat :: SafeAfter(s, n)
  {
    hide Traverses, Round, Normalise;
    forall n: nat ensures SafeAfter(s, n) {
      if i <= n { SettledStays(s, i, n); }
    }
  }

  // ---------------------------------------------------------------------------
  // Any schedule of decoding and normalising
  // ---------------------------------------------------------------------------

  datatype Step = Normalising | Decoding

  /** A browser, a proxy and a server may each decode, each turn backslashes, in any order. */
  function Apply(s: string, steps: seq<Step>): Option<string> {
    if steps == [] then Some(s)
    else match Apply(s, steps[..|steps| - 1])
      case None => None
      case Some(t) => if steps[|steps| - 1].Normalising? then Some(Normalise(t)) else Unescape(t)
  }

  function Decodings(steps: seq<Step>): nat {
    if steps == [] then 0
    else Decodings(steps[..|steps| - 1]) + if steps[|steps| - 1].Decoding? then 1 else 0
  }

  /** Equal up to the kind of slash. */
  predicate Alike(s: string, t: string) {
    Normalise(s) == Normalise(t)
  }

  lemma AlikeAt(s: string, t: string, i: nat)
    requires Alike(s, t) && i < |s|
    ensures |s| == |t| && (s[i] == t[i] || (s[i] in {'/', '\\'} && t[i] in {'/', '\\'}))
  {
    assert Normalise(s)[i] == Normalise(t)[i];
  }

  lemma AlikeTail(s: string, t: string, k: nat)
    requires Alike(s, t) && k <= |s|
    ensures |s| == |t| && Alike(s[k..], t[k..])
  {
    assert |Normalise(s)| == |Normalise(t)|;
    forall i | 0 <= i < |s| - k ensures Normalise(s[k..])[i] == Normalise(t[k..])[i] {
      assert Normalise(s)[i + k] == Normalise(t)[i + k];
    }
  }

  lemma AlikePrepended(c: char, d: char, s: string, t: string)
    requires Alike(s, t) && (c == d || (c in {'/', '\\'} && d in {'/', '\\'}))
    ensures Alike([c] + s, [d] + t)
  {
    forall i | 0 <= i < |s| + 1 ensures Normalise([c] + s)[i] == Normalise([d] + t)[i] {
      if i > 0 { assert Normalise(s)[i - 1] == Normalise(t)[i - 1]; }
    }
  }

  lemma {:induction false} UnescapeAlike(s: string, t: string)
    requires Alike(s, t)
    ensures Unescape(s).Some? <==> Unescape(t).Some?
    ensures Unescape(s).Some? ==> Alike(Unescape(s).value, Unescape(t).value)
  {
    AlikeTail(s, t, 0);
    if s != "" {
      AlikeAt(s, t, 0);
      if |s| >= 3 { AlikeAt(s, t, 1); AlikeAt(s, t, 2); }
      hide Alike, Normalise;
      var k := if Escape(s) then 3 else 1;
      AlikeTail(s, t, k);
      UnescapeAlike(s[k..], t[k..]);
      if Unescape(s).Some? {
        AlikePrepended(Unescape(s).value[0], Unescape(t).value[0], Unescape(s[k..]).value, Unescape(t[k..]).value);
      }
    }
  }

  lemma {:induction false} ScheduleFollowsRounds(s: string, steps: seq<Step>)
    ensures Apply(s, steps).Some? <==> Rounds(s, Decodings(steps)).Some?
    ensures Apply(s, steps).Some? ==> Alike(Apply(s, steps).value, Rounds(s, Decodings(steps)).value)
  {
    hide Normalise;
    if steps != [] {
      var before := steps[..|steps| - 1];
      ScheduleFollowsRounds(s, before);
      if Apply(s, before).Some? {
        var a, b := Apply(s, before).value, Rounds(s, Decodings(before)).value;
        NormaliseTwice(a);
        NormaliseTwice(b);
        UnescapeAlike(a, Normalise(b));
        DecodedIsRound(s, Decodings(before));
      }
    }
  }

  lemma TraversalSurvivesNormalising(path: string)
    requires Traverses(path)
    ensures Traverses(Normalise(path))
  {
    var p := TraversalClimbs(path);
    ClimbIsTraversal(Normalise(path), p);
  }

  /** A path that is safe after every number of rounds is safe under every schedule: whatever sequence of
      decoding and backslash steps others apply, it decodes and no segment climbs. */
  lemma NoScheduleClimbs(path: string, steps: seq<Step>)
    requires forall n: nat :: SafeAfter(path, n)
    ensures Apply(path, steps).Some? && !Traverses(Apply(path, steps).value)
  {
    hide Traverses;
    ScheduleFollowsRounds(path, steps);
    assert SafeAfter(path, Decodings(steps));
    if Traverses(Apply(path, steps).value) { TraversalSurvivesNormalising(Apply(path, steps).value); }
  }

  // ---------------------------------------------------------------------------
  // Removing dot segments, section 5.2.4 of RFC 3986
  // ---------------------------------------------------------------------------

  /** Step 2C drops the last output segment and the slash before it. */
  function WithoutLast(output: string): string {
    var i := LastIndexOf(output, '/');
    if i < 0 then "" else output[..i]
  }

  /** Where the first segment of a non-empty input ends, its leading slash included. */
  function SegmentEnd(input: string): (k: nat)
    requires input != ""
    ensures 0 < k <= |input|
  {
    if input[0] == '/' then 1 + IndexOf(input[1..], '/') else IndexOf(input, '/')
  }

  /** `word` is at the start of `input`, as complete segments. */
  predicate Begins(input: string, word: string) {
    HasPrefix(input, word) && (|input| == |word| || input[|word|] == '/')
  }

  /** What is left behind the first n characters, never less than a slash. */
  function Behind(input: string, n: nat): string
    requires n <= |input|
  {
    if n == |input| then "/" else input[n..]
  }

  /** The two buffers of the algorithm. */
  datatype Buffers = Buffers(input: string, output: string)

  /** Steps 2A to 2E on a non-empty input. */
  function DotStep(b: Buffers): (r: Buffers)
    requires b.input != ""
    ensures |r.input| < |b.input|
  {
    var input := b.input;
    if HasPrefix(input, "../") then b.(input := input[3..])
    else if HasPrefix(input, "./") then b.(input := input[2..])
    else if Begins(input, "/.") then b.(input := Behind(input, 2))
    else if Begins(input, "/..") then Buffers(Behind(input, 3), WithoutLast(b.output))
    else if input == "." || input == ".." then b.(input := "")
    else Buffers(input[SegmentEnd(input)..], b.output + input[..SegmentEnd(input)])
  }

  function RemoveDots(b: Buffers): string
    decreases |b.input|
  {
    if b.input == "" then b.output else RemoveDots(DotStep(b))
  }

  function Join(segments: seq<string>): string
    requires segments != []
  {
    if |segments| == 1 then segments[0] else segments[0] + "/" + Join(segments[1..])
  }

  /** All segments but the "." ones; a final "." leaves its slash. */
  function WithoutDots(segments: seq<string>): (r: seq<string>)
    requires segments != []
    ensures r != []
  {
    if |segments| == 1 then [if segments[0] == "." then "" else segments[0]]
    else (if segments[0] == "." then [] else [segments[0]]) + WithoutDots(segments[1..])
  }

  lemma IndexIs(s: string, n: nat)
    requires n <= |s| && (forall k | 0 <= k < n :: s[k] != '/') && (n == |s| || s[n] == '/')
    ensures IndexOf(s, '/') == n
  {
  }

  lemma BeginsWithSegment(rest: string, word: string)
    requires forall k | 0 <= k < |word| :: word[k] != '/'
    ensures Begins("/" + rest, "/" + word) <==> rest[..IndexOf(rest, '/')] == word
  {
    hide IndexOf;
    var input, start := "/" + rest, "/" + word;
    assert input[1..] == rest && start[1..] == word;
    if Begins(input, start) {
      assert rest[..|word|] == input[..|start|][1..] == word;
      assert forall k | 0 <= k < |word| :: rest[k] == rest[..|word|][k];
      assert |rest| > |word| ==> rest[|word|] == input[|start|];
      IndexIs(rest, |word|);
    }
    if rest[..IndexOf(rest, '/')] == word {
      assert input[..|start|] == start;
      assert |rest| > |word| ==> input[|start|] == rest[|word|];
    }
  }

  /** The first segment of an absolute input is dropped if it is ".", else it moves to the output. */
  lemma FirstSegment(rest: string, output: string)
    requires rest[..IndexOf(rest, '/')] != ".."
    ensures var i := IndexOf(rest, '/');
      DotStep(Buffers("/" + rest, output)) ==
        if rest[..i] == "." then Buffers(Behind(rest, i), output) else Buffers(rest[i..], output + "/" + rest[..i])
  {
    hide IndexOf, Begins;
    var input, i := "/" + rest, IndexOf(rest, '/');
    assert input[1..] == rest && input[0] == '/';
    BeginsWithSegment(rest, ".");
    BeginsWithSegment(rest, "..");
    assert "/" + "." == "/." && "/" + ".." == "/..";
    if rest[..i] == "." {
      assert i < |rest| ==> input[2..] == rest[i..];
    } else {
      assert SegmentEnd(input) == 1 + i;
      assert input[1 + i..] == rest[i..];
      assert output + input[..1 + i] == output + "/" + rest[..i];
    }
  }

  /** A path with its "." segments removed. */
  function Undotted(path: string): string {
    Join(WithoutDots(Split(path, '/')))
  }

  lemma UndottedFirst(path: string)
    ensures var i := IndexOf(path, '/');
      Undotted(path) ==
        if i == |path| then (if path == "." then "" else path)
        else (if path[..i] == "." then "" else path[..i] + "/") + Undotted(path[i + 1..])
  {
    hide IndexOf;
    var i := IndexOf(path, '/');
    if i < |path| {
      var segments, tail := Split(path, '/'), Split(path[i + 1..], '/');
      hide Split;
      assert segments == [path[..i]] + tail by { SplitFirst(path); }
      assert segments[1..] == tail;
      assert WithoutDots(segments) == (if path[..i] == "." then [] else [path[..i]]) + WithoutDots(tail);
      if path[..i] == "." {
        assert WithoutDots(segments) == WithoutDots(tail);
        assert "" + Undotted(path[i + 1..]) == Undotted(path[i + 1..]);
      } else {
        assert WithoutDots(segments)[1..] == WithoutDots(tail);
      }
    }
  }

  lemma SplitFirst(path: string)
    ensures var i := IndexOf(path, '/');
      Split(path, '/') == if i == |path| then [path] else [path[..i]] + Split(path[i + 1..], '/')
  {
    hide IndexOf;
  }

  lemma DotDotLater(path: string)
    requires ".." !in Split(path, '/')
    ensures var i := IndexOf(path, '/');
      path[..i] != ".." && (i < |path| ==> ".." !in Split(path[i + 1..], '/'))
  {
    hide IndexOf;
    var i := IndexOf(path, '/');
    assert Split(path, '/')[0] == path[..i];
  }

  /** On an absolute input without ".." segments nothing is ever popped: what comes out is what went in,
      "." segments aside. */
  lemma {:induction false} AbsoluteKept(rest: string, output: string)
    requires ".." !in Split(rest, '/')
    ensures RemoveDots(Buffers("/" + rest, output)) == output + "/" + Undotted(rest)
    decreases |rest|
  {
    hide IndexOf, DotStep, Undotted, Split;
    var i := IndexOf(rest, '/');
    DotDotLater(rest);
    FirstSegment(rest, output);
    UndottedFirst(rest);
    assert rest[..|rest|] == rest;
    if i < |rest| {
      var tail := rest[i + 1..];
      assert rest[i..] == "/" + tail;
      AbsoluteKept(tail, if rest[..i] == "." then output else output + "/" + rest[..i]);
    } else if rest == "." {
      SlashAlone(output);
    }
  }

  lemma SlashAlone(output: string)
    ensures RemoveDots(Buffers("/", output)) == output + "/"
  {
    assert IndexOf("", '/') == 0;
    FirstSegment("", output);
    assert "/" + "" == "/";
    assert output + "/" + "" == output + "/";
  }

  lemma RelativeFirst(input: string, output: string)
    requires input != "" && input[0] != '/' && input[..IndexOf(input, '/')] != ".."
    ensures var i := IndexOf(input, '/');
      DotStep(Buffers(input, output)) ==
        if input[..i] == "." then Buffers(if i == |input| then "" else input[2..], output)
        else Buffers(input[i..], output + input[..i])
  {
    hide IndexOf;
    var i := IndexOf(input, '/');
    assert input[..|input|] == input;
    assert i < |input| ==> input[..i + 1] == input[..i] + "/";
    if HasPrefix(input, "../") { assert input[..3] == "../"; IndexIs(input, 2); }
    if HasPrefix(input, "./") { assert input[..2] == "./"; IndexIs(input, 1); }
  }

  /** The same for any input: dot-segment removal deletes "." segments and nothing else. */
  lemma {:induction false} NothingPopped(input: string, output: string)
    requires ".." !in Split(input, '/')
    ensures RemoveDots(Buffers(input, output)) == output + Undotted(input)
    decreases |input|
  {
    hide IndexOf, Split, Undotted, DotStep;
    var i := IndexOf(input, '/');
    DotDotLater(input);
    UndottedFirst(input);
    assert input[..|input|] == input && input[|input|..] == "";
    if input == "" {
    } else if i == 0 {
      assert input == "/" + input[1..] && input[..0] == "";
      AbsoluteKept(input[1..], output);
    } else {
      RelativeFirst(input, output);
      if i < |input| && input[..i] == "." {
        NothingPopped(input[2..], output);
      } else if i < |input| {
        assert input[i..] == "/" + input[i + 1..];
        AbsoluteKept(input[i + 1..], output + input[..i]);
      }
    }
  }

  lemma {:induction false} PrefixKept(prefix: string, rest: string)
    requires "." !in Split(prefix, '/')
    ensures HasPrefix(Undotted(prefix + rest), prefix)
    decreases |prefix|
  {
    hide IndexOf, Split, Undotted;
    var i, path := IndexOf(prefix, '/'), prefix + rest;
    SplitFirst(prefix);
    UndottedFirst(path);
    if i < |prefix| {
      IndexIs(path, i);
      assert path[i + 1..] == prefix[i + 1..] + rest && path[..i] == prefix[..i];
      assert Split(prefix, '/')[0] == prefix[..i];
      assert forall s | s in Split(prefix[i + 1..], '/') :: s in Split(prefix, '/');
      PrefixKept(prefix[i + 1..], rest);
      assert prefix == prefix[..i] + "/" + prefix[i + 1..];
    } else {
      assert Split(prefix, '/')[0] == prefix;
      var k := IndexOf(path, '/');
      if prefix != "" { LastPartKept(prefix, rest, k); }
    }
  }

  lemma LastPartKept(prefix: string, rest: string, k: nat)
    requires prefix != "" && prefix != "." && |prefix| <= k <= |prefix + rest|
    ensures (prefix + rest)[..k] != "." && HasPrefix((prefix + rest)[..k], prefix)
  {
    assert (prefix + rest)[..k][..|prefix|] == prefix;
    if k == 1 { assert (prefix + rest)[..k] == prefix; }
  }

  /** Dot-segment removal leaves a safe path under any plain prefix it had. */
  lemma StaysUnder(prefix: string, rest: string)
    requires "." !in Split(prefix, '/') && !Traverses(prefix + rest)
    ensures HasPrefix(RemoveDots(Buffers(prefix + rest, "")), prefix)
  {
    NoDotDotSegment(prefix + rest);
    NothingPopped(prefix + rest, "");
    assert "" + Undotted(prefix + rest) == Undotted(prefix + rest);
    PrefixKept(prefix, rest);
  }

  lemma NoDotDotSegment(path: string)
    requires !Traverses(path)
    ensures ".." !in Split(path, '/')
  {
    forall j | 0 <= j < |Split(path, '/')| ensures Split(path, '/')[j] != ".." {
      assert !Climbs(Split(path, '/')[j]);
    }
  }

  /** Nothing to decode and no backslash. */
  predicate Plain(s: string) {
    '%' !in s && '\\' !in s
  }

  lemma {:induction false} UnescapePlain(prefix: string, rest: string)
    requires Plain(prefix)
    ensures Unescape(prefix + rest).Some? <==> Unescape(rest).Some?
    ensures Unescape(rest).Some? ==> Unescape(prefix + rest).value == prefix + Unescape(rest).value
  {
    if prefix == "" {
      assert prefix + rest == rest;
      assert Unescape(rest).Some? ==> "" + Unescape(rest).value == Unescape(rest).value;
    } else {
      UnescapePlain(prefix[1..], rest);
      assert (prefix + rest)[0] == prefix[0] && (prefix + rest)[1..] == prefix[1..] + rest;
      assert prefix == [prefix[0]] + prefix[1..];
      if Unescape(rest).Some? {
        assert [prefix[0]] + (prefix[1..] + Unescape(rest).value) == prefix + Unescape(rest).value;
      }
    }
  }

  /** A plain prefix goes through every schedule unchanged. */
  lemma {:induction false} PlainPrefix(prefix: string, rest: string, steps: seq<Step>)
    requires Plain(prefix) && Apply(prefix + rest, steps).Some?
    ensures Apply(rest, steps).Some?
    ensures Apply(prefix + rest, steps).value == prefix + Apply(rest, steps).value
  {
    if steps != [] {
      PlainPrefix(prefix, rest, steps[..|steps| - 1]);
      var t := Apply(rest, steps[..|steps| - 1]).value;
      UnescapePlain(prefix, t);
      assert Normalise(prefix + t) == prefix + Normalise(t);
    }
  }

  /** What hasPathTraversal buys: a path it lets through, decoded and slash-normalised by others in any
      way and then cleared of dot segments, still starts with any plain prefix it started with. */
  lemma StaysUnderAfterAll(prefix: string, rest: string, steps: seq<Step>)
    requires Plain(prefix) && "." !in Split(prefix, '/')
    requires forall n: nat :: SafeAfter(prefix + rest, n)
    ensures Apply(prefix + rest, steps).Some?
    ensures HasPrefix(RemoveDots(Buffers(Apply(prefix + rest, steps).value, "")), prefix)
  {
    NoScheduleClimbs(prefix + rest, steps);
    PlainPrefix(prefix, rest, steps);
    StaysUnder(prefix, Apply(rest, steps).value);
  }
}
