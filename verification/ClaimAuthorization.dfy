/** Claim assertions (src/authorization.go).

    The JSONPath library is not modelled: what it finds under a claim path is an input.
    Values are already rendered as text, as the program compares them. */
module ClaimAuthorization {

  /** One JSON node found under a claim path. */
  datatype Node =
    | ArrayNode(items: seq<string>)
    | ScalarNode(text: string)
    | BrokenNode  // Unpack failed

  datatype PathResult = PathError | Nodes(nodes: seq<Node>)

  datatype Claims = Unserialisable | Claims(at: string -> PathResult)

  datatype Assertion = Assertion(name: string, allOf: seq<string>, anyOf: seq<string>)

  // ---------------------------------------------------------------------------
  // The declarative specification
  // ---------------------------------------------------------------------------

  predicate NoDuplicates(s: seq<string>) {
    forall i, j | 0 <= i < j < |s| :: s[i] != s[j]
  }

  predicate ContainsAll(values: seq<string>, wanted: seq<string>) {
    forall w | w in wanted :: w in values
  }

  predicate ContainsAny(values: seq<string>, wanted: seq<string>) {
    exists w | w in wanted :: w in values
  }

  /** An array that lacks a required value ends the search. */
  predicate Blocks(a: Assertion, n: Node) {
    n.ArrayNode? && !ContainsAll(n.items, a.allOf)
  }

  /** Node `i` comes before the first blocking array. */
  predicate Reached(a: Assertion, nodes: seq<Node>, i: nat) {
    i < |nodes| && forall j | 0 <= j <= i :: !Blocks(a, nodes[j])
  }

  /** One array alone carries every required value and one of the alternatives. */
  predicate ArrayAccepts(a: Assertion, n: Node) {
    n.ArrayNode? && ContainsAll(n.items, a.allOf) && (a.anyOf == [] || ContainsAny(n.items, a.anyOf))
  }

  predicate ReachedScalar(a: Assertion, nodes: seq<Node>, i: nat, text: string) {
    Reached(a, nodes, i) && nodes[i] == ScalarNode(text)
  }

  /** The scalars together cover a duplicate-free list of required values and hit an alternative. */
  ghost predicate ScalarsAccept(a: Assertion, nodes: seq<Node>) {
    && NoDuplicates(a.allOf)
    && (forall w | w in a.allOf :: exists i: nat :: ReachedScalar(a, nodes, i, w))
    && (a.anyOf == [] || exists w, i: nat :: w in a.anyOf && ReachedScalar(a, nodes, i, w))
  }

  ghost predicate NodesSatisfy(a: Assertion, nodes: seq<Node>) {
    && nodes != []
    && (|| (a.allOf == [] && a.anyOf == [])
        || (exists i: nat :: Reached(a, nodes, i) && ArrayAccepts(a, nodes[i]))
        || ScalarsAccept(a, nodes))
  }

  ghost predicate Satisfied(a: Assertion, found: PathResult) {
    found.Nodes? && NodesSatisfy(a, found.nodes)
  }

  ghost predicate Authorized(assertions: seq<Assertion>, claims: Claims) {
    assertions == [] || (claims.Claims? && forall a | a in assertions :: Satisfied(a, claims.at(a.name)))
  }

  // ---------------------------------------------------------------------------
  // The algorithm
  // ---------------------------------------------------------------------------

  /** `first` is the earliest position of `text` in `list`: the only slot the program ever marks. */
  predicate FirstAt(list: seq<string>, text: string, first: nat) {
    first < |list| && list[first] == text && forall k | 0 <= k < first :: list[k] != text
  }

  /** What the scan knows after the first `n` nodes, none of which blocked or accepted. */
  ghost predicate Scanned(a: Assertion, nodes: seq<Node>, n: nat, marks: seq<bool>, anyMatch: bool)
    requires |marks| == |a.allOf| && n <= |nodes|
  {
    && (forall j | 0 <= j < n :: !Blocks(a, nodes[j]) && !ArrayAccepts(a, nodes[j]))
    && (anyMatch <==> exists j | 0 <= j < n :: nodes[j].ScalarNode? && nodes[j].text in a.anyOf)
    && (forall i | 0 <= i < |marks| ::
          marks[i] <==> exists j | 0 <= j < n :: nodes[j].ScalarNode? && FirstAt(a.allOf, nodes[j].text, i))
  }

  /** The marks are all set exactly when the scalars cover a duplicate-free list. */
  lemma MarksCover(a: Assertion, nodes: seq<Node>, n: nat, marks: seq<bool>, anyMatch: bool)
    requires |marks| == |a.allOf| && n <= |nodes| && Scanned(a, nodes, n, marks, anyMatch)
    requires n == |nodes| || Blocks(a, nodes[n])
    ensures (false !in marks && (a.anyOf == [] || anyMatch)) <==> ScalarsAccept(a, nodes)
    ensures !exists i: nat :: Reached(a, nodes, i) && ArrayAccepts(a, nodes[i])
  {
    assert forall i: nat :: Reached(a, nodes, i) <==> i < n;
    if false !in marks && (a.anyOf == [] || anyMatch) {
      forall i, j | 0 <= i < j < |a.allOf| ensures a.allOf[i] != a.allOf[j] {
        assert marks[j];
      }
      forall w | w in a.allOf ensures exists i: nat :: ReachedScalar(a, nodes, i, w) {
        var k :| 0 <= k < |a.allOf| && a.allOf[k] == w;
        assert marks[k];
        var j: nat :| j < n && nodes[j].ScalarNode? && FirstAt(a.allOf, nodes[j].text, k);
        assert ReachedScalar(a, nodes, j, w);
      }
      if a.anyOf != [] {
        var j: nat :| j < n && nodes[j].ScalarNode? && nodes[j].text in a.anyOf;
        assert ReachedScalar(a, nodes, j, nodes[j].text);
      }
    }
    if ScalarsAccept(a, nodes) {
      forall i | 0 <= i < |marks| ensures marks[i] {
        assert a.allOf[i] in a.allOf;
        var j: nat :| ReachedScalar(a, nodes, j, a.allOf[i]);
        assert j < n && FirstAt(a.allOf, nodes[j].text, i);
      }
      if a.anyOf != [] {
        var w, j: nat :| w in a.anyOf && ReachedScalar(a, nodes, j, w);
        assert nodes[j].ScalarNode? && nodes[j].text in a.anyOf;
      }
    }
  }

  /** Marks the first slot holding `text`, if any. */
  method MarkFirst(allOf: seq<string>, text: string, marks: array<bool>)
    requires marks.Length == |allOf|
    modifies marks
    ensures forall i | 0 <= i < |allOf| :: marks[i] == (old(marks[i]) || FirstAt(allOf, text, i))
  {
    var i := 0;
    while i < |allOf|
      invariant 0 <= i <= |allOf|
      invariant forall k | 0 <= k < i :: allOf[k] != text
      invariant marks[..] == old(marks[..])
    {
      if allOf[i] == text {
        marks[i] := true;
        assert FirstAt(allOf, text, i);
        return;
      }
      i := i + 1;
    }
  }

  lemma ScalarStep(a: Assertion, nodes: seq<Node>, n: nat, marks: seq<bool>, anyMatch: bool,
                   marks': seq<bool>, anyMatch': bool)
    requires |marks| == |marks'| == |a.allOf| && n < |nodes| && nodes[n].ScalarNode?
    requires Scanned(a, nodes, n, marks, anyMatch)
    requires anyMatch' == (anyMatch || nodes[n].text in a.anyOf)
    requires forall i | 0 <= i < |marks| :: marks'[i] == (marks[i] || FirstAt(a.allOf, nodes[n].text, i))
    ensures Scanned(a, nodes, n + 1, marks', anyMatch')
  {
  }

  /** isAuthorized: the labelled loops decide exactly the declarative specification. */
  method IsAuthorized(assertions: seq<Assertion>, claims: Claims) returns (ok: bool)
    ensures ok <==> Authorized(assertions, claims)
  {
    if |assertions| == 0 { return true; }
    if claims.Unserialisable? { return false; }

    var next := 0;
    label Assertions:
    while next < |assertions|
      invariant 0 <= next <= |assertions|
      invariant forall k | 0 <= k < next :: Satisfied(assertions[k], claims.at(assertions[k].name))
    {
      var a := assertions[next];
      var found := claims.at(a.name);
      if found.PathError? || |found.nodes| == 0 {
        assert !Satisfied(a, found);
        return false;
      }
      next := next + 1;
      if |a.allOf| == 0 && |a.anyOf| == 0 { continue Assertions; }

      var nodes := found.nodes;
      var allMatches := new bool[|a.allOf|](_ => false);
      var anyMatch := false;
      var n := 0;
      label Matches:
      while n < |nodes|
        invariant 0 <= n <= |nodes|
        invariant Scanned(a, nodes, n, allMatches[..], anyMatch)
      {
        match nodes[n] {
          case BrokenNode =>
          case ArrayNode(items) =>
            if exists w | w in a.allOf :: w !in items {
              assert Blocks(a, nodes[n]);
              break Matches;
            }
            assert Reached(a, nodes, n);
            if |a.anyOf| == 0 || exists w | w in a.anyOf :: w in items {
              assert ArrayAccepts(a, nodes[n]);
              continue Assertions;
            }
          case ScalarNode(text) =>
            ghost var before, seen := allMatches[..], anyMatch;
            if |a.anyOf| > 0 && text in a.anyOf { anyMatch := true; }
            MarkFirst(a.allOf, text, allMatches);
            ScalarStep(a, nodes, n, before, seen, allMatches[..], anyMatch);
        }
        n := n + 1;
      }
      MarksCover(a, nodes, n, allMatches[..], anyMatch);
      if |a.anyOf| > 0 && anyMatch && |a.allOf| > 0 && false !in allMatches[..] {
        continue Assertions;
      } else if |a.anyOf| > 0 && anyMatch && |a.allOf| == 0 {
        continue Assertions;
      } else if |a.allOf| > 0 && false !in allMatches[..] && |a.anyOf| == 0 {
        continue Assertions;
      }
      assert !Satisfied(a, found);
      return false;
    }
    return true;
  }

  /** A blocking array hides everything after it: whatever follows, the verdict is that of the nodes
      before it (or, with nothing before it, a refusal). */
  lemma BlockingArrayHidesTheRest(a: Assertion, before: seq<Node>, blocker: Node, after: seq<Node>)
    requires Blocks(a, blocker)
    ensures NodesSatisfy(a, before + [blocker] + after) <==> NodesSatisfy(a, before)
  {
    var all := before + [blocker] + after;
    assert all[|before|] == blocker && Blocks(a, all[|before|]);
    assert a.allOf != [];
    forall i: nat ensures Reached(a, all, i) <==> Reached(a, before, i) {
      if i < |before| {
        assert forall j | 0 <= j <= i :: all[j] == before[j];
      }
    }
    assert forall i: nat, w :: ReachedScalar(a, all, i, w) <==> ReachedScalar(a, before, i, w);
    if before == [] {
      var w := a.allOf[0];
      assert w in a.allOf;
      assert !exists i: nat :: ReachedScalar(a, before, i, w);
      assert !ScalarsAccept(a, all);
    }
    assert ScalarsAccept(a, all) <==> ScalarsAccept(a, before);
    assert forall i: nat | Reached(a, before, i) :: all[i] == before[i];
  }

  // ---------------------------------------------------------------------------
  // Against the promise
  // ---------------------------------------------------------------------------

  /** What the comment of the loop promises (src/authorization.go:41-43): some node satisfies the assertion,
      or the scalars jointly do, wherever they stand. */
  ghost predicate Promised(a: Assertion, nodes: seq<Node>) {
    && nodes != []
    && (|| (a.allOf == [] && a.anyOf == [])
        || (exists n | n in nodes :: ArrayAccepts(a, n))
        || (&& NoDuplicates(a.allOf)
            && (forall w | w in a.allOf :: ScalarNode(w) in nodes)
            && (a.anyOf == [] || exists w | w in a.anyOf :: ScalarNode(w) in nodes)))
  }

  /** The code never accepts what is not promised. */
  lemma SatisfiedIsPromised(a: Assertion, nodes: seq<Node>)
    requires NodesSatisfy(a, nodes)
    ensures Promised(a, nodes)
  {
    if i: nat :| Reached(a, nodes, i) && ArrayAccepts(a, nodes[i]) {
      assert nodes[i] in nodes;
    } else if ScalarsAccept(a, nodes) {
      forall w | w in a.allOf ensures ScalarNode(w) in nodes {
        var i: nat :| ReachedScalar(a, nodes, i, w);
        assert nodes[i] in nodes;
      }
      if a.anyOf != [] {
        var w, i: nat :| w in a.anyOf && ReachedScalar(a, nodes, i, w);
        assert nodes[i] in nodes;
      }
    }
  }

  predicate Unblocked(a: Assertion, nodes: seq<Node>) {
    forall i | 0 <= i < |nodes| :: !Blocks(a, nodes[i])
  }

  /** Without a blocking array the code keeps the promise. */
  lemma UnblockedIsPromised(a: Assertion, nodes: seq<Node>)
    requires Unblocked(a, nodes)
    ensures NodesSatisfy(a, nodes) <==> Promised(a, nodes)
  {
    if NodesSatisfy(a, nodes) { SatisfiedIsPromised(a, nodes); }
    assert forall i: nat | i < |nodes| :: Reached(a, nodes, i);
    if Promised(a, nodes) {
      if n :| n in nodes && ArrayAccepts(a, n) {
        var i :| 0 <= i < |nodes| && nodes[i] == n;
        assert Reached(a, nodes, i);
      } else if a.allOf != [] || a.anyOf != [] {
        forall w | w in a.allOf ensures exists i: nat :: ReachedScalar(a, nodes, i, w) { ScalarIsReached(a, nodes, w); }
        if a.anyOf != [] {
          var w :| w in a.anyOf && ScalarNode(w) in nodes;
          ScalarIsReached(a, nodes, w);
        }
        assert ScalarsAccept(a, nodes);
      }
    }
  }

  lemma ScalarIsReached(a: Assertion, nodes: seq<Node>, w: string)
    requires Unblocked(a, nodes) && ScalarNode(w) in nodes
    ensures exists i: nat :: ReachedScalar(a, nodes, i, w)
  {
    var i :| 0 <= i < |nodes| && nodes[i] == ScalarNode(w);
    assert ReachedScalar(a, nodes, i, w);
  }

  /** With a blocking array the promise is kept, whatever nodes follow it, exactly when the nodes before
      the array already satisfy the assertion. */
  lemma PromiseKeptExactly(a: Assertion, before: seq<Node>, blocker: Node)
    requires Blocks(a, blocker)
    ensures (forall after: seq<Node> ::
              NodesSatisfy(a, before + [blocker] + after) <==> Promised(a, before + [blocker] + after))
       <==> NodesSatisfy(a, before)
  {
    hide NodesSatisfy, Promised;
    forall after: seq<Node> ensures
      && (NodesSatisfy(a, before + [blocker] + after) <==> NodesSatisfy(a, before))
      && (NodesSatisfy(a, before + [blocker] + after) ==> Promised(a, before + [blocker] + after))
    {
      BlockingArrayHidesTheRest(a, before, blocker, after);
      if NodesSatisfy(a, before + [blocker] + after) { SatisfiedIsPromised(a, before + [blocker] + after); }
    }
    var good := ArrayNode(a.allOf + a.anyOf);
    GoodArrayPromises(a, before + [blocker], good);
    assert Promised(a, before + [blocker] + [good]);
  }

  lemma GoodArrayPromises(a: Assertion, nodes: seq<Node>, good: Node)
    requires good == ArrayNode(a.allOf + a.anyOf)
    ensures Promised(a, nodes + [good])
  {
    assert a.anyOf != [] ==> a.anyOf[0] in good.items && a.anyOf[0] in a.anyOf;
    assert ArrayAccepts(a, good) && good in nodes + [good];
  }

  /** Two arrays, of which the second carries the one required value: promised and refused. */
  lemma SecondArrayIsRefused()
    ensures var a, nodes := Assertion("groups", ["admin"], []), [ArrayNode(["guest"]), ArrayNode(["admin"])];
      Promised(a, nodes) && !NodesSatisfy(a, nodes)
  {
    var a := Assertion("groups", ["admin"], []);
    assert "admin" in a.allOf && "admin" != "guest" by { assert "admin"[0] != "guest"[0]; }
    var guest, admin := ArrayNode(["guest"]), ArrayNode(["admin"]);
    assert Blocks(a, guest);
    BlockingArrayHidesTheRest(a, [], guest, [admin]);
    assert [] + [guest] + [admin] == [guest, admin];
    assert ArrayAccepts(a, admin) && admin in [guest, admin];
  }
}
