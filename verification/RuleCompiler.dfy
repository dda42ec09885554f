/** The heap half of the bypass-rule compiler: fresh rule trees, negation pushed down in place, the
    matcher tree filled node by node, and its evaluation (src/rules/parser.go, src/rules/requestCondition.go,
    src/rules/httpFuncs.go). */
module RuleCompiler {
  import opened Common
  import opened RulePredicate

  // ---------------------------------------------------------------------------
  // Meaning
  // ---------------------------------------------------------------------------

  datatype Leaf = Leaf(matcher: string, value: seq<string>)

  /** What a request answers to each matcher. */
  type Request = Leaf -> bool

  /** A boolean and the matchers consulted for it, in order. */
  datatype Evaluation = Evaluation(value: bool, consulted: seq<Leaf>)

  function Ask(leaf: Leaf, request: Request): Evaluation {
    Evaluation(request(leaf), [leaf])
  }

  function Not(e: Evaluation): Evaluation {
    e.(value := !e.value)
  }

  /** Short-circuit "and" and "or": the right side is consulted only when the left leaves it open. */
  function Both(isAnd: bool, l: Evaluation, r: Evaluation): Evaluation {
    if l.value == isAnd then Evaluation(r.value, l.consulted + r.consulted) else l
  }

  /** The matcher and arguments of a call whose arguments are all string literals. */
  function CallLeaf(e: Expr): Leaf
    requires e.CallExpr? && e.fun.Ident?
    requires forall i | 0 <= i < |e.args| :: LiteralArgument(e.args[i]).Some?
  {
    Leaf(e.fun.name, seq(|e.args|, i requires 0 <= i < |e.args| => LiteralArgument(e.args[i]).value))
  }

  function LiteralArgument(e: Expr): Option<string> {
    if e.BasicLit? && e.lit.StringLiteral? then e.lit.unquoted else None
  }

  /** The matcher accepts these arguments: how many it takes, none empty, and the regular expression,
      always the last, compiles. `compiles` stands for regexp.Compile. */
  predicate LeafOk(leaf: Leaf, compiles: string -> bool) {
    && (if OneArgument(leaf.matcher) then |leaf.value| == 1 else TwoArguments(leaf.matcher) && |leaf.value| == 2)
    && (forall v | v in leaf.value :: v != "")
    && (TakesRegexp(leaf.matcher) ==> compiles(leaf.value[|leaf.value| - 1]))
  }

  /** A rule is well formed: only !, && and || over calls of registered matchers with proper literals. */
  predicate WellFormed(e: Expr, compiles: string -> bool) {
    match e
    case BinaryExpr(op, x, y) => (op == LAND || op == LOR) && WellFormed(x, compiles) && WellFormed(y, compiles)
    case ParenExpr(x) => WellFormed(x, compiles)
    case UnaryExpr(op, x) => op == NOT && WellFormed(x, compiles)
    case CallExpr(fun, args) =>
      && fun.Ident? && (forall i | 0 <= i < |args| :: LiteralArgument(args[i]).Some?)
      && LeafOk(CallLeaf(e), compiles)
    case _ => false
  }

  /** What a well-formed rule means for a request. */
  function Meaning(e: Expr, compiles: string -> bool, request: Request): Evaluation
    requires WellFormed(e, compiles)
  {
    match e
    case BinaryExpr(op, x, y) => Both(op == LAND, Meaning(x, compiles, request), Meaning(y, compiles, request))
    case ParenExpr(x) => Meaning(x, compiles, request)
    case UnaryExpr(_, x) => Not(Meaning(x, compiles, request))
    case CallExpr(_, _) => Ask(CallLeaf(e), request)
  }

  // ---------------------------------------------------------------------------
  // Rule trees as values
  // ---------------------------------------------------------------------------

  datatype RuleTree = RuleLeaf(leaf: Leaf, negated: bool) | RuleNode(isAnd: bool, left: RuleTree, right: RuleTree)

  function Inverted(t: RuleTree): RuleTree {
    match t
    case RuleLeaf(leaf, negated) => RuleLeaf(leaf, !negated)
    case RuleNode(isAnd, l, r) => RuleNode(!isAnd, Inverted(l), Inverted(r))
  }

  function TreeOf(b: Builder): RuleTree {
    match b
    case LeafBuilder(m, v) => RuleLeaf(Leaf(m, v), false)
    case AndBuilder(l, r) => RuleNode(true, TreeOf(l), TreeOf(r))
    case OrBuilder(l, r) => RuleNode(false, TreeOf(l), TreeOf(r))
    case NotBuilder(x) => Inverted(TreeOf(x))
  }

  function TreeMeaning(t: RuleTree, request: Request): Evaluation {
    match t
    case RuleLeaf(leaf, negated) => if negated then Not(Ask(leaf, request)) else Ask(leaf, request)
    case RuleNode(isAnd, l, r) => Both(isAnd, TreeMeaning(l, request), TreeMeaning(r, request))
  }

  predicate TreeOk(t: RuleTree, compiles: string -> bool) {
    match t
    case RuleLeaf(leaf, _) => LeafOk(leaf, compiles)
    case RuleNode(_, l, r) => TreeOk(l, compiles) && TreeOk(r, compiles)
  }

  /** De Morgan: the pushed-down negation negates the value and consults the same matchers in the same
      order. */
  lemma {:induction false} InvertedMeaning(t: RuleTree, request: Request)
    ensures TreeMeaning(Inverted(t), request) == Not(TreeMeaning(t, request))
  {
    if t.RuleNode? {
      InvertedMeaning(t.left, request);
      InvertedMeaning(t.right, request);
    }
  }

  lemma {:induction false} InvertedOk(t: RuleTree, compiles: string -> bool)
    ensures TreeOk(Inverted(t), compiles) <==> TreeOk(t, compiles)
  {
    hide LeafOk;
    if t.RuleNode? {
      InvertedOk(t.left, compiles);
      InvertedOk(t.right, compiles);
    }
  }

  // ---------------------------------------------------------------------------
  // Parsing preserves the meaning
  // ---------------------------------------------------------------------------

  /** A call becomes a leaf exactly when it names a registered matcher by a bare identifier and every
      argument evaluates to a string; only string literals do. */
  lemma CallParses(e: Expr, compiles: string -> bool)
    requires e.CallExpr?
    ensures var p := Parsed(e);
      WellFormed(e, compiles) <==> p.Some? && p.value.BuilderValue? && TreeOk(TreeOf(p.value.b), compiles)
    ensures WellFormed(e, compiles) ==> TreeOf(Parsed(e).value.b) == RuleLeaf(CallLeaf(e), false)
  {
    hide TakesRegexp, OneArgument, TwoArguments;
    forall i | 0 <= i < |e.args| ensures
      (Evaluated(e.args[i]).Some? && Evaluated(e.args[i]).value.StringValue? <==> LiteralArgument(e.args[i]).Some?)
      && (LiteralArgument(e.args[i]).Some? ==> Evaluated(e.args[i]) == Some(StringValue(LiteralArgument(e.args[i]).value)))
    { }
    var values := EvaluatedAll(e.args);
    if forall i | 0 <= i < |e.args| :: LiteralArgument(e.args[i]).Some? {
      assert values.Some? && AllStrings(values.value);
      if e.fun.Ident? { assert Strings(values.value) == CallLeaf(e).value; }
    } else {
      var i :| 0 <= i < |e.args| && LiteralArgument(e.args[i]).None?;
      assert values.Some? ==> !AllStrings(values.value) by { if values.Some? { assert Evaluated(e.args[i]) == Some(values.value[i]); } }
    }
    if e.fun.SelectorExpr? && e.fun.x.Ident? { DottedIsUnregistered(e.fun.x.name, e.fun.sel); }
  }

  /** No registered matcher has a dot in its name. */
  lemma DottedIsUnregistered(base: string, sel: string)
    ensures !Registered(base + "." + sel)
  {
    assert (base + "." + sel)[|base|] == '.';
    assert '.' in base + "." + sel;
  }

  /** The parser accepts a rule and its leaves pass their checks exactly when the rule is well formed, and
      then the tree of the builder means what the rule means. */
  lemma {:induction false} ParsePreservesMeaning(e: Expr, compiles: string -> bool, request: Request)
    ensures var p := Parsed(e);
      WellFormed(e, compiles) <==> p.Some? && p.value.BuilderValue? && TreeOk(TreeOf(p.value.b), compiles)
    ensures WellFormed(e, compiles) ==>
      TreeMeaning(TreeOf(Parsed(e).value.b), request) == Meaning(e, compiles, request)
  {
    hide LeafOk, Evaluated, LiteralArgument, CallLeaf;
    match e {
      case BinaryExpr(op, x, y) =>
        ParsePreservesMeaning(x, compiles, request);
        ParsePreservesMeaning(y, compiles, request);
      case ParenExpr(x) =>
        ParsePreservesMeaning(x, compiles, request);
      case UnaryExpr(op, x) =>
        ParsePreservesMeaning(x, compiles, request);
        if Parsed(x).Some? && Parsed(x).value.BuilderValue? {
          InvertedMeaning(TreeOf(Parsed(x).value.b), request);
          InvertedOk(TreeOf(Parsed(x).value.b), compiles);
        }
      case CallExpr(_, _) =>
        CallParses(e, compiles);
      case _ =>
        NeverABuilder(e);
    }
  }

  lemma NeverABuilder(e: Expr)
    requires !e.BinaryExpr? && !e.ParenExpr? && !e.UnaryExpr? && !e.CallExpr?
    ensures Parsed(e).Some? ==> !Parsed(e).value.BuilderValue?
  {
  }

  // ---------------------------------------------------------------------------
  // Rule trees on the heap
  // ---------------------------------------------------------------------------

  class Tree {
    var matcher: string
    var negated: bool
    var value: seq<string>
    var ruleLeft: Tree?
    var ruleRight: Tree?
    ghost var Repr: set<Tree>

    ghost predicate Valid()
      reads this, Repr
      decreases Repr
      ensures Valid() ==> this in Repr
    {
      && this in Repr
      && if IsOperator(matcher) then
           && ruleLeft != null && ruleRight != null
           && ruleLeft in Repr && ruleLeft.Repr <= Repr && this !in ruleLeft.Repr
           && ruleRight in Repr && ruleRight.Repr <= Repr && this !in ruleRight.Repr
           && ruleLeft.Repr !! ruleRight.Repr
           && ruleLeft.Valid() && ruleRight.Valid()
         else ruleLeft == null && ruleRight == null
    }

    /** The tree as a value. */
    ghost function Shape(): RuleTree
      requires Valid()
      reads this, Repr
      decreases Repr
    {
      if IsOperator(matcher) then RuleNode(matcher == AND, ruleLeft.Shape(), ruleRight.Shape())
      else RuleLeaf(Leaf(matcher, value), negated)
    }

    constructor NewLeaf(matcher: string, value: seq<string>)
      requires !IsOperator(matcher)
      ensures Valid() && fresh(Repr) && Shape() == RuleLeaf(Leaf(matcher, value), false)
    {
      this.matcher, this.value, negated, ruleLeft, ruleRight := matcher, value, false, null, null;
      Repr := {this};
    }

    constructor NewNode(matcher: string, left: Tree, right: Tree)
      requires IsOperator(matcher) && left.Valid() && right.Valid() && left.Repr !! right.Repr
      ensures Valid() && fresh(Repr - left.Repr - right.Repr)
      ensures Shape() == RuleNode(matcher == AND, left.Shape(), right.Shape())
    {
      this.matcher, value, negated, ruleLeft, ruleRight := matcher, [], false, left, right;
      Repr := {this} + left.Repr + right.Repr;
    }
  }

  /** What an operator node is made of, by itself. */
  ghost predicate OwnsChildren(t: Tree)
    reads t
    reads t.ruleLeft, t.ruleRight
  {
    && t in t.Repr && t.ruleLeft != null && t.ruleRight != null
    && t.ruleLeft in t.Repr && t.ruleLeft.Repr <= t.Repr && t !in t.ruleLeft.Repr
    && t.ruleRight in t.Repr && t.ruleRight.Repr <= t.Repr && t !in t.ruleRight.Repr
    && t.ruleLeft.Repr !! t.ruleRight.Repr
  }

  /** A valid tree taken apart: an operator node or a leaf. */
  lemma TreeParts(t: Tree)
    requires t.Valid()
    ensures t in t.Repr
    ensures if t.matcher == OR || t.matcher == AND then
        && OwnsChildren(t) && t.ruleLeft.Valid() && t.ruleRight.Valid()
        && t.Shape() == RuleNode(t.matcher == AND, t.ruleLeft.Shape(), t.ruleRight.Shape())
        && t.matcher == (if t.Shape().isAnd then AND else OR)
      else !IsOperator(t.matcher) && t.ruleLeft == null && t.ruleRight == null && t.Shape() == RuleLeaf(Leaf(t.matcher, t.value), t.negated)
  {
  }

  /** The parts put together again. */
  lemma NodeFromParts(t: Tree)
    requires IsOperator(t.matcher) && OwnsChildren(t) && t.ruleLeft.Valid() && t.ruleRight.Valid()
    ensures t.Valid() && t.Shape() == RuleNode(t.matcher == AND, t.ruleLeft.Shape(), t.ruleRight.Shape())
  {
  }

  lemma LeafFromParts(t: Tree)
    requires !IsOperator(t.matcher) && t in t.Repr && t.ruleLeft == null && t.ruleRight == null
    ensures t.Valid() && t.Shape() == RuleLeaf(Leaf(t.matcher, t.value), t.negated)
  {
  }

  lemma OperatorsDiffer()
    ensures IsOperator(AND) && IsOperator(OR) && AND != OR
  {
    assert AND[0] != OR[0];
  }

  /** invert: De Morgan in place. The same nodes, rewritten; nothing outside them is touched. */
  method Invert(t: Tree) returns (r: Tree)
    requires t.Valid()
    modifies t.Repr
    ensures r == t && t.Valid() && t.Repr == old(t.Repr)
    ensures t.Shape() == Inverted(old(t.Shape()))
    decreases t.Repr
  {
    hide Tree.Valid, Tree.Shape, IsOperator;
    TreeParts(t);
    OperatorsDiffer();
    if t.matcher == OR || t.matcher == AND {
      t.matcher := if t.matcher == OR then AND else OR;
      t.ruleLeft := Invert(t.ruleLeft);
      t.ruleRight := Invert(t.ruleRight);
      NodeFromParts(t);
    } else {
      t.negated := !t.negated;
      LeafFromParts(t);
    }
    return t;
  }

  predicate Buildable(b: Builder) {
    match b
    case LeafBuilder(m, _) => !IsOperator(m)
    case AndBuilder(l, r) => Buildable(l) && Buildable(r)
    case OrBuilder(l, r) => Buildable(l) && Buildable(r)
    case NotBuilder(x) => Buildable(x)
  }

  lemma {:induction false} ParsedIsBuildable(e: Expr)
    ensures Parsed(e).Some? && Parsed(e).value.BuilderValue? ==> Buildable(Parsed(e).value.b)
  {
    hide Registered, IsOperator;
    match e {
      case BinaryExpr(_, x, y) => ParsedIsBuildable(x); ParsedIsBuildable(y);
      case ParenExpr(x) => ParsedIsBuildable(x);
      case UnaryExpr(_, x) => ParsedIsBuildable(x);
      case CallExpr(fun, _) =>
        if Identifier(fun).Some? && Registered(Identifier(fun).value) { RegisteredIsNoOperator(Identifier(fun).value); }
      case _ =>
    }
  }

  /** Running a tree builder: every call makes a fresh tree, so the in-place rewriting of one can never
      show through another. */
  method Build(b: Builder) returns (t: Tree)
    requires Buildable(b)
    ensures t.Valid() && fresh(t.Repr) && t.Shape() == TreeOf(b)
  {
    if b.LeafBuilder? {
      t := new Tree.NewLeaf(b.matcher, b.value);
    } else if b.NotBuilder? {
      var x := Build(b.elem);
      t := Invert(x);
    } else {
      var l := Build(b.left);
      var r := Build(b.right);
      t := new Tree.NewNode(if b.AndBuilder? then AND else OR, l, r);
    }
  }

  // ---------------------------------------------------------------------------
  // Matcher trees
  // ---------------------------------------------------------------------------

  /** A matcher function: a registered one, or the wrapper addRule puts around it for a negated leaf. */
  datatype MatcherFunc = Matcher(leaf: Leaf) | Negation(inner: MatcherFunc)

  function Call(m: MatcherFunc, request: Request): Evaluation {
    match m
    case Matcher(leaf) => Ask(leaf, request)
    case Negation(inner) => Not(Call(inner, request))
  }

  /** `warnings` counts the branches that "should never happen": a nil tree, an unknown operator. */
  datatype MatchResult = MatchResult(eval: Evaluation, warnings: nat)

  class RequestConditionTree {
    var matcher: Option<MatcherFunc>
    var operator: string
    var left: RequestConditionTree?
    var right: RequestConditionTree?
    ghost var Repr: set<RequestConditionTree>

    /** Any acyclic tree, finished or not. */
    ghost predicate Valid()
      reads this, Repr
      decreases Repr
      ensures Valid() ==> this in Repr
    {
      && this in Repr
      && (left != null ==> left in Repr && left.Repr <= Repr && this !in left.Repr && left.Valid())
      && (right != null ==> right in Repr && right.Repr <= Repr && this !in right.Repr && right.Valid())
      && (left != null && right != null ==> left.Repr !! right.Repr)
    }

    constructor ()
      ensures Valid() && Blank() && fresh(Repr) && Repr == {this}
    {
      matcher, operator, left, right := None, "", null, null;
      Repr := {this};
    }

    predicate Blank() reads this {
      matcher == None && operator == "" && left == null && right == null
    }

    /** The finished matcher tree of a rule tree. */
    ghost predicate Compiles(t: RuleTree)
      requires Valid()
      reads this, Repr
      decreases Repr
    {
      match t
      case RuleLeaf(leaf, negated) =>
        matcher == Some(if negated then Negation(Matcher(leaf)) else Matcher(leaf))
      case RuleNode(isAnd, l, r) =>
        && matcher == None && operator == (if isAnd then AND else OR)
        && left != null && right != null && left.Compiles(l) && right.Compiles(r)
    }

    /** match. */
    ghost function Match(request: Request): MatchResult
      requires Valid()
      reads this, Repr
      decreases Repr
    {
      if matcher.Some? then MatchResult(Call(matcher.value, request), 0)
      else if operator == OR || operator == AND then
        var l := MatchChild(left, request);
        if l.eval.value == (operator == AND) then
          var r := MatchChild(right, request);
          MatchResult(Both(operator == AND, l.eval, r.eval), l.warnings + r.warnings)
        else l
      else MatchResult(Evaluation(false, []), 1)
    }

    ghost function MatchChild(child: RequestConditionTree?, request: Request): MatchResult
      requires Valid() && (child != null ==> child == left || child == right)
      reads this, Repr
      decreases Repr, 0
    {
      if child == null then MatchResult(Evaluation(false, []), 1) else child.Match(request)
    }
  }

  lemma LeafCompiles(m: RequestConditionTree, t: RuleTree)
    requires m.left == null && m.right == null && m.Repr == {m}
    ensures m.Valid()
    ensures t.RuleLeaf? && m.matcher == Some(if t.negated then Negation(Matcher(t.leaf)) else Matcher(t.leaf)) ==> m.Compiles(t)
  {
  }

  lemma NodeCompiles(m: RequestConditionTree, t: RuleTree, ok: bool)
    requires t.RuleNode? && m.matcher == None && m.operator == (if t.isAnd then AND else OR) && m.left != null
    requires m.left.Valid() && m !in m.left.Repr && m.left.Compiles(t.left)
    requires m.right != null && m.right.Valid() && m !in m.right.Repr && m.left.Repr !! m.right.Repr
    requires ok ==> m.right.Compiles(t.right)
    requires m.Repr == {m} + m.left.Repr + m.right.Repr
    ensures m.Valid() && (ok ==> m.Compiles(t))
  {
  }

  lemma HalfNode(m: RequestConditionTree)
    requires m.left != null && m.right == null && m.left.Valid() && m !in m.left.Repr && m.Repr == {m} + m.left.Repr
    ensures m.Valid()
  {
  }

  /** addRule fills `m` and the nodes it creates; it succeeds exactly when every leaf passes its checks. */
  method AddRule(m: RequestConditionTree, rule: Tree, compiles: string -> bool) returns (ok: bool)
    requires m.Valid() && m.Blank() && m.Repr == {m} && rule.Valid()
    modifies m
    ensures m.Valid() && fresh(m.Repr - {m})
    ensures ok <==> TreeOk(rule.Shape(), compiles)
    ensures ok ==> m.Compiles(rule.Shape())
    decreases rule.Repr
  {
    hide LeafOk, Tree.Valid, Tree.Shape, RequestConditionTree.Valid, RequestConditionTree.Compiles, IsOperator;
    ghost var t := rule.Shape();
    TreeParts(rule);
    if rule.matcher == AND || rule.matcher == OR {
      m.operator := rule.matcher;
      var l := new RequestConditionTree();
      m.left := l;
      ok := AddRule(l, rule.ruleLeft, compiles);
      if !ok {
        m.Repr := {m} + l.Repr;
        HalfNode(m);
        return false;
      }
      var r := new RequestConditionTree();
      m.right := r;
      ok := AddRule(r, rule.ruleRight, compiles);
      m.Repr := {m} + l.Repr + r.Repr;
      NodeCompiles(m, t, ok);
      return ok;
    }
    if LeafOk(Leaf(rule.matcher, rule.value), compiles) {
      m.matcher := Some(Matcher(Leaf(rule.matcher, rule.value)));
      if rule.negated {
        m.matcher := Some(Negation(m.matcher.value));
      }
      LeafCompiles(m, t);
      return true;
    }
    return false;
  }

  /** A compiled tree evaluates as the rule tree means, and never reaches a nil tree or a bad operator. */
  lemma {:induction false} CompiledMatch(m: RequestConditionTree, t: RuleTree, request: Request)
    requires m.Valid() && m.Compiles(t)
    ensures m.Match(request) == MatchResult(TreeMeaning(t, request), 0)
    decreases t
  {
    hide IsOperator;
    if t.RuleNode? {
      assert m.left.Valid() && m.right.Valid() && m.left.Compiles(t.left) && m.right.Compiles(t.right);
      CompiledMatch(m.left, t.left, request);
      CompiledMatch(m.right, t.right, request);
      assert (m.operator == AND) == t.isAnd by { assert AND[0] != OR[0]; }
      assert m.MatchChild(m.left, request) == m.left.Match(request);
      assert m.MatchChild(m.right, request) == m.right.Match(request);
    } else {
      assert m.matcher.Some?;
      assert Call(m.matcher.value, request) == TreeMeaning(t, request);
    }
  }

  /** ParseRequestCondition: it accepts exactly the well-formed rules, and the condition it returns means
      what the rule says, for every request: the same boolean, the same matchers consulted in the same
      order, and no "should never happen" branch. */
  method ParseRequestCondition(e: Expr, compiles: string -> bool) returns (m: RequestConditionTree?)
    ensures (m != null) <==> WellFormed(e, compiles)
    ensures m != null ==> m.Valid() && fresh(m.Repr)
    ensures m != null ==> forall request :: m.Match(request) == MatchResult(Meaning(e, compiles, request), 0)
  {
    hide WellFormed, Meaning, Parsed, TreeOk;
    var parsed := Parse(e);
    forall request { ParsePreservesMeaning(e, compiles, request); }
    if parsed.None? || !parsed.value.BuilderValue? {
      ParsePreservesMeaning(e, compiles, _ => false);
      return null;
    }
    ParsedIsBuildable(e);
    var tree := Build(parsed.value.b);
    m := new RequestConditionTree();
    var ok := AddRule(m, tree, compiles);
    ParsePreservesMeaning(e, compiles, _ => false);
    if !ok { return null; }
    forall request ensures m.Match(request) == MatchResult(Meaning(e, compiles, request), 0) {
      CompiledMatch(m, TreeOf(parsed.value.b), request);
      ParsePreservesMeaning(e, compiles, request);
    }
  }
}
