/** From a rule's Go expression to a tree builder (src/predicate/parse.go, NewParser in src/rules/parser.go).

    go/parser is not modelled: the syntax tree is the input. Reflection is: calling a function with the
    wrong number or type of arguments panics, and callFunction turns the panic into an error. */
module RulePredicate {
  import opened Common

  // ---------------------------------------------------------------------------
  // Syntax
  // ---------------------------------------------------------------------------

  datatype Token = NOT | LAND | LOR | COMPARISON | OTHER_TOKEN

  /** A literal and what literalToValue makes of it; None and false mark a text that does not convert. */
  datatype Literal = StringLiteral(unquoted: Option<string>) | NumberLiteral(ok: bool) | OtherLiteral

  datatype Expr =
    | BinaryExpr(op: Token, x: Expr, y: Expr)
    | ParenExpr(x: Expr)
    | UnaryExpr(op: Token, x: Expr)
    | BasicLit(lit: Literal)
    | IndexExpr(x: Expr, index: Expr)
    | SelectorExpr(x: Expr, sel: string)
    | Ident(name: string)
    | CallExpr(fun: Expr, args: seq<Expr>)
    | OtherExpr

  // ---------------------------------------------------------------------------
  // The registered matchers
  // ---------------------------------------------------------------------------

  predicate OneArgument(name: string) {
    name in {"PathPrefix", "Path", "PathRegexp", "Method", "Host", "HostRegexp"}
  }

  predicate TwoArguments(name: string) {
    name in {"Header", "HeaderRegexp", "Query", "QueryRegexp"}
  }

  predicate TakesRegexp(name: string) {
    name in {"HeaderRegexp", "PathRegexp", "QueryRegexp", "HostRegexp"}
  }

  predicate Registered(name: string) {
    OneArgument(name) || TwoArguments(name)
  }

  const AND := "and"
  const OR := "or"

  predicate IsOperator(matcher: string) {
    matcher == AND || matcher == OR
  }

  lemma RegisteredIsNoOperator(name: string)
    requires Registered(name)
    ensures !IsOperator(name)
  {
    assert 'A' <= name[0] <= 'Z';
  }

  // ---------------------------------------------------------------------------
  // Values of the little language
  // ---------------------------------------------------------------------------

  /** The closures NewParser, andFunc, orFunc and notFunc build. */
  datatype Builder =
    | LeafBuilder(matcher: string, value: seq<string>)
    | AndBuilder(left: Builder, right: Builder)
    | OrBuilder(left: Builder, right: Builder)
    | NotBuilder(elem: Builder)

  datatype Value = StringValue(s: string) | NumberValue | BuilderValue(b: Builder)

  predicate AllStrings(values: seq<Value>) {
    forall i | 0 <= i < |values| :: values[i].StringValue?
  }

  function Strings(values: seq<Value>): (r: seq<string>)
    requires AllStrings(values)
    ensures |r| == |values|
  {
    seq(|values|, i requires 0 <= i < |values| => values[i].s)
  }

  /** callFunction on the operator getJoinFunction finds. */
  function Joined(op: Token, args: seq<Value>): Option<Value> {
    if op == NOT && |args| == 1 && args[0].BuilderValue? then Some(BuilderValue(NotBuilder(args[0].b)))
    else if op == LAND && |args| == 2 && args[0].BuilderValue? && args[1].BuilderValue?
    then Some(BuilderValue(AndBuilder(args[0].b, args[1].b)))
    else if op == LOR && |args| == 2 && args[0].BuilderValue? && args[1].BuilderValue?
    then Some(BuilderValue(OrBuilder(args[0].b, args[1].b)))
    else None
  }

  predicate Supported(op: Token) {
    op == NOT || op == LAND || op == LOR
  }

  function LiteralValue(lit: Literal): Option<Value> {
    match lit
    case StringLiteral(Some(s)) => Some(StringValue(s))
    case NumberLiteral(true) => Some(NumberValue)
    case _ => None
  }

  /** getIdentifier. */
  function Identifier(fun: Expr): Option<string> {
    match fun
    case Ident(name) => Some(name)
    case SelectorExpr(Ident(name), sel) => Some(name + "." + sel)
    case _ => None
  }

  // ---------------------------------------------------------------------------
  // Specification of the parser
  // ---------------------------------------------------------------------------

  function Parsed(e: Expr): Option<Value>
    decreases e, 1
  {
    match e
    case BinaryExpr(op, x, y) =>
      var a, b := Parsed(x), Parsed(y);
      if a.Some? && b.Some? then Joined(op, [a.value, b.value]) else None
    case ParenExpr(x) => Parsed(x)
    case UnaryExpr(op, x) =>
      var a := Parsed(x);
      if a.Some? then Joined(op, [a.value]) else None
    case _ => Evaluated(e)
  }

  /** The Def gives no properties and no identifiers, so index, selector and bare names are errors. */
  function Evaluated(e: Expr): Option<Value>
    decreases e, 0
  {
    match e
    case BasicLit(lit) => LiteralValue(lit)
    case CallExpr(fun, args) =>
      var name, values := Identifier(fun), EvaluatedAll(args);
      if name.Some? && Registered(name.value) && values.Some? && AllStrings(values.value)
      then Some(BuilderValue(LeafBuilder(name.value, Strings(values.value)))) else None
    case _ => None
  }

  function EvaluatedAll(args: seq<Expr>): (r: Option<seq<Value>>)
    ensures r.Some? ==> |r.value| == |args|
    ensures r.Some? ==> forall i | 0 <= i < |args| :: Evaluated(args[i]) == Some(r.value[i])
    ensures (forall i | 0 <= i < |args| :: Evaluated(args[i]).Some?) ==> r.Some?
    decreases args
  {
    if args == [] then Some([])
    else
      var init, last := EvaluatedAll(args[..|args| - 1]), Evaluated(args[|args| - 1]);
      if init.Some? && last.Some? then Some(init.value + [last.value]) else None
  }

  // ---------------------------------------------------------------------------
  // The parser
  // ---------------------------------------------------------------------------

  method Parse(e: Expr) returns (r: Option<Value>)
    ensures r == Parsed(e)
    decreases e, 1
  {
    hide Registered;
    match e {
      case BinaryExpr(op, x, y) =>
        var a := Parse(x);
        if a.None? { return None; }
        var b := Parse(y);
        if b.None? { return None; }
        return Joined(op, [a.value, b.value]);
      case ParenExpr(x) =>
        r := Parse(x);
      case UnaryExpr(op, x) =>
        if !Supported(op) { return None; }
        var a := Parse(x);
        if a.None? { return None; }
        return Joined(op, [a.value]);
      case _ =>
        r := EvaluateExpr(e);
    }
  }

  method EvaluateExpr(e: Expr) returns (r: Option<Value>)
    ensures r == Evaluated(e)
    decreases e, 0
  {
    hide Registered;
    match e {
      case BasicLit(lit) => return LiteralValue(lit);
      case SelectorExpr(_, _) =>
        var _ := EvaluateSelector(e, []);
        return None;
      case CallExpr(fun, args) =>
        var name := Identifier(fun);
        if name.None? || !Registered(name.value) { return None; }
        var values := EvaluateArguments(args);
        if values.None? || !AllStrings(values.value) { return None; }
        return Some(BuilderValue(LeafBuilder(name.value, Strings(values.value))));
      case _ => return None;
    }
  }

  method EvaluateArguments(nodes: seq<Expr>) returns (r: Option<seq<Value>>)
    ensures r == EvaluatedAll(nodes)
    decreases nodes
  {
    var out: seq<Value> := [];
    for i := 0 to |nodes|
      invariant |out| == i && forall k | 0 <= k < i :: Evaluated(nodes[k]) == Some(out[k])
    {
      var val := EvaluateExpr(nodes[i]);
      if val.None? {
        return None;
      }
      out := out + [val.value];
    }
    assert EvaluatedAll(nodes).Some?;
    assert out == EvaluatedAll(nodes).value;
    return Some(out);
  }

  /** The names of a selector in source order, None when its base is no identifier. */
  function SelectorPath(e: Expr): Option<seq<string>> {
    match e
    case Ident(name) => Some([name])
    case SelectorExpr(x, sel) => (match SelectorPath(x) case Some(p) => Some(p + [sel]) case None => None)
    case _ => None
  }

  /** Names collected on the way down, in source order. */
  function SourceOrder(names: seq<string>): (r: seq<string>)
    ensures |r| == |names| && forall i | 0 <= i < |r| :: r[i] == names[|names| - 1 - i]
  {
    seq(|names|, i requires 0 <= i < |names| => names[|names| - 1 - i])
  }

  /** evaluateSelector: one pass down, one flip, linear in the depth; the path comes out in source order. */
  method EvaluateSelector(sel: Expr, fields: seq<string>) returns (r: Option<seq<string>>)
    requires sel.SelectorExpr?
    ensures r == match SelectorPath(sel) case Some(p) => Some(p + fields) case None => None
  {
    var names: seq<string> := [];
    var cur := sel;
    while true
      invariant cur.SelectorExpr?
      invariant SelectorPath(sel).Some? <==> SelectorPath(cur).Some?
      invariant SelectorPath(cur).Some? ==> SelectorPath(sel).value == SelectorPath(cur).value + SourceOrder(names)
      decreases cur
    {
      assert SourceOrder(names + [cur.sel]) == [cur.sel] + SourceOrder(names);
      names := names + [cur.sel];
      match cur.x {
        case SelectorExpr(_, _) => cur := cur.x;
        case Ident(name) =>
          assert SelectorPath(cur) == Some([name] + [cur.sel]);
          assert SelectorPath(sel).value == [name] + SourceOrder(names);
          var out := [name];
          var i := |names|;
          while i > 0
            invariant 0 <= i <= |names|
            invariant out == [name] + SourceOrder(names)[..|names| - i]
          {
            i := i - 1;
            out := out + [names[i]];
          }
          assert SourceOrder(names)[..|names|] == SourceOrder(names);
          return Some(out + fields);
        case _ => return None;
      }
    }
  }
}
