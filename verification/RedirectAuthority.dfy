/** Host templates of wildcard redirects: a regular expression standing in for label-wise matching
    (src/utils/utils.go, matchAuthorityTemplate and validAuthorityTemplate). ASCII only. */
module RedirectAuthority {
  import opened Common

  // ---------------------------------------------------------------------------
  // Labels
  // ---------------------------------------------------------------------------

  predicate IsSeparator(c: char) {
    c == '.' || c == ':'
  }

  /** Where the first label ends. */
  function LabelEnd(s: string): (i: nat)
    ensures i <= |s| && (forall k | 0 <= k < i :: !IsSeparator(s[k]))
    ensures i < |s| ==> IsSeparator(s[i])
  {
    IndexWhere(s, IsSeparator)
  }

  lemma LabelEndIs(s: string, n: nat)
    requires n <= |s| && (forall k | 0 <= k < n :: !IsSeparator(s[k])) && (n == |s| || IsSeparator(s[n]))
    ensures LabelEnd(s) == n
  {
  }

  function Labels(s: string): (r: seq<string>)
    ensures r != []
  {
    var i := LabelEnd(s);
    if i == |s| then [s] else [s[..i]] + Labels(s[i + 1..])
  }

  function Separators(s: string): string {
    var i := LabelEnd(s);
    if i == |s| then "" else [s[i]] + Separators(s[i + 1..])
  }

  /** What "[-A-Za-z0-9_]" stands for. */
  predicate InClass(c: char) {
    'A' <= c <= 'Z' || 'a' <= c <= 'z' || '0' <= c <= '9' || c == '-' || c == '_'
  }

  predicate LabelMatches(value: string, template: string) {
    if template == "*" then value != "" && forall i | 0 <= i < |value| :: InClass(value[i])
    else EqualFold(value, template)
  }

  /** The promise: the same separators, and label by label either equal ignoring case or a whole-label
      wildcard against a non-empty plain label. */
  predicate LabelWise(value: string, template: string) {
    && Separators(value) == Separators(template)
    && |Labels(value)| == |Labels(template)|
    && AllMatch(Labels(value), Labels(template))
  }

  predicate AllMatch(values: seq<string>, templates: seq<string>)
    requires |values| == |templates|
  {
    forall k | 0 <= k < |values| :: LabelMatches(values[k], templates[k])
  }

  predicate WholeLabelWildcards(template: string) {
    forall k | 0 <= k < |Labels(template)| :: Labels(template)[k] == "*" || '*' !in Labels(template)[k]
  }

  // ---------------------------------------------------------------------------
  // validAuthorityTemplate
  // ---------------------------------------------------------------------------

  predicate AloneAt(template: string, index: nat)
    requires index < |template|
  {
    && (index == 0 || IsSeparator(template[index - 1]))
    && (index == |template| - 1 || IsSeparator(template[index + 1]))
  }

  predicate AllAlone(template: string, from: nat) {
    forall i | from <= i < |template| && template[i] == '*' :: AloneAt(template, i)
  }

  lemma {:induction false} AloneIsWholeLabel(template: string)
    ensures AllAlone(template, 0) <==> WholeLabelWildcards(template)
    decreases |template|
  {
    hide LabelEnd;
    var i := LabelEnd(template);
    var first := template[..i];
    assert Labels(template)[0] == first by { assert template[..|template|] == template; }
    FirstLabelAlone(template);
    if i < |template| {
      var rest := template[i + 1..];
      AloneIsWholeLabel(rest);
      assert Labels(template) == [first] + Labels(rest);
      RestAlone(template, i);
      assert WholeLabelWildcards(template) <==> (first == "*" || '*' !in first) && WholeLabelWildcards(rest) by {
        if WholeLabelWildcards(template) {
          forall k | 0 <= k < |Labels(rest)| ensures Labels(rest)[k] == "*" || '*' !in Labels(rest)[k] {
            assert Labels(rest)[k] == Labels(template)[k + 1];
          }
        }
      }
    }
  }

  /** The stars of the first label stand alone exactly when the label is one star or none. */
  lemma FirstLabelAlone(template: string)
    ensures var i := LabelEnd(template);
      (forall k | 0 <= k < i && template[k] == '*' :: AloneAt(template, k))
        <==> (template[..i] == "*" || '*' !in template[..i])
  {
    hide LabelEnd;
    var i := LabelEnd(template);
    if forall k | 0 <= k < i && template[k] == '*' :: AloneAt(template, k) {
      if '*' in template[..i] {
        var k :| 0 <= k < i && template[..i][k] == '*';
        assert AloneAt(template, k);
        assert k == 0 && i == 1;
      }
    }
    assert forall k | 0 <= k < i :: template[k] == template[..i][k];
  }

  lemma RestAlone(template: string, i: nat)
    requires i < |template| && IsSeparator(template[i])
    ensures AllAlone(template, i + 1) <==> AllAlone(template[i + 1..], 0)
  {
    var rest := template[i + 1..];
    if AllAlone(template, i + 1) {
      forall k | 0 <= k < |rest| && rest[k] == '*' ensures AloneAt(rest, k) {
        assert AloneAt(template, k + i + 1);
      }
    }
    if AllAlone(rest, 0) {
      forall k | i < k < |template| && template[k] == '*' ensures AloneAt(template, k) {
        assert AloneAt(rest, k - i - 1);
      }
    }
  }

  /** A template is accepted exactly when every label of it is one star or has no star. */
  method ValidAuthorityTemplate(template: string) returns (ok: bool)
    ensures ok <==> WholeLabelWildcards(template)
  {
    AloneIsWholeLabel(template);
    hide WholeLabelWildcards;
    for index := 0 to |template|
      invariant forall i | 0 <= i < index && template[i] == '*' :: AloneAt(template, i)
    {
      if template[index] != '*' { continue; }
      var beforeBoundary := index == 0 || template[index - 1] == '.' || template[index - 1] == ':';
      var afterBoundary := index == |template| - 1 || template[index + 1] == '.' || template[index + 1] == ':';
      if !beforeBoundary || !afterBoundary { return false; }
    }
    return true;
  }

  // ---------------------------------------------------------------------------
  // The regular expression
  // ---------------------------------------------------------------------------

  predicate IsMeta(c: char) {
    c in "\\.+*?()|[]{}^$"
  }

  /** regexp.QuoteMeta. */
  function QuoteMeta(s: string): string {
    if s == "" then ""
    else (if IsMeta(s[0]) then ['\\', s[0]] else [s[0]]) + QuoteMeta(s[1..])
  }

  /** strings.ReplaceAll for a non-empty old text. */
  function ReplaceAll(s: string, from: string, to: string): string
    requires from != ""
  {
    if s == "" then ""
    else if HasPrefix(s, from) then to + ReplaceAll(s[|from|..], from, to)
    else [s[0]] + ReplaceAll(s[1..], from, to)
  }

  const STAR := "\\*"
  const CLASS_PLUS := "[-A-Za-z0-9_]+"

  /** The pattern between "(?i)^" and "$". */
  function Pattern(template: string): string {
    ReplaceAll(QuoteMeta(template), STAR, CLASS_PLUS)
  }

  /** The fragment of regular expressions such patterns use: literals and one repeated class. */
  datatype Item = Literal(c: char) | ClassPlus

  function ParsePattern(p: string): Option<seq<Item>> {
    if p == "" then Some([])
    else if HasPrefix(p, CLASS_PLUS) then Then(ClassPlus, ParsePattern(p[|CLASS_PLUS|..]))
    else if p[0] == '\\' && |p| > 1 && IsMeta(p[1]) then Then(Literal(p[1]), ParsePattern(p[2..]))
    else if IsMeta(p[0]) then None
    else Then(Literal(p[0]), ParsePattern(p[1..]))
  }

  function Then(item: Item, items: Option<seq<Item>>): Option<seq<Item>> {
    if items.Some? then Some([item] + items.value) else None
  }

  /** Anchored, case-insensitive matching of such a pattern. */
  predicate Matches(items: seq<Item>, value: string) {
    if items == [] then value == ""
    else match items[0]
      case Literal(c) => value != "" && Lower(value[0]) == Lower(c) && Matches(items[1..], value[1..])
      case ClassPlus => exists n: nat | 1 <= n <= |value| :: AllInClass(value[..n]) && Matches(items[1..], value[n..])
  }

  predicate AllInClass(s: string) {
    forall i | 0 <= i < |s| :: InClass(s[i])
  }

  function Items(template: string): (r: seq<Item>)
    ensures |r| == |template|
    ensures forall i | 0 <= i < |r| :: r[i] == if template[i] == '*' then ClassPlus else Literal(template[i])
  {
    seq(|template|, i requires 0 <= i < |template| => if template[i] == '*' then ClassPlus else Literal(template[i]))
  }

  // ---------------------------------------------------------------------------
  // The text of the pattern says what was meant
  // ---------------------------------------------------------------------------

  /** What one character of the template becomes. */
  function PatternChar(c: char): string {
    if c == '*' then CLASS_PLUS else if IsMeta(c) then ['\\', c] else [c]
  }

  function PatternOf(template: string): string {
    if template == "" then "" else PatternChar(template[0]) + PatternOf(template[1..])
  }

  /** Replacing after quoting finds the quoted stars and nothing else, even after a quoted backslash. */
  lemma {:induction false} ReplacedStars(template: string)
    ensures Pattern(template) == PatternOf(template)
  {
    if template != "" {
      var c, rest := template[0], QuoteMeta(template[1..]);
      ReplacedStars(template[1..]);
      assert rest != "" ==> rest[0] != '*' by { if template[1..] != "" { QuotedHead(template[1..]); } }
      hide IsMeta;
      if c == '*' {
        QuotedHead("*");
        assert (STAR + rest)[2..] == rest && (STAR + rest)[..2] == STAR;
      } else if IsMeta(c) {
        var quoted := ['\\', c] + rest;
        assert quoted[1..] == [c] + rest && quoted[1..][1..] == rest;
        assert quoted[1] != STAR[1];
        assert !HasPrefix(quoted, STAR);
        SkipOne(quoted);
        SkipOne([c] + rest);
        assert ['\\'] + ([c] + ReplaceAll(rest, STAR, CLASS_PLUS)) == ['\\', c] + ReplaceAll(rest, STAR, CLASS_PLUS);
      } else {
        assert ([c] + rest)[1..] == rest;
        SkipOne([c] + rest);
      }
    }
  }

  lemma QuotedHead(s: string)
    requires s != ""
    ensures QuoteMeta(s) != "" && QuoteMeta(s)[0] != '*' && IsMeta('*')
  {
    assert "\\.+*?()|[]{}^$"[3] == '*';
  }

  lemma SkipOne(s: string)
    requires s != "" && !HasPrefix(s, STAR)
    ensures ReplaceAll(s, STAR, CLASS_PLUS) == [s[0]] + ReplaceAll(s[1..], STAR, CLASS_PLUS)
  {
  }

  /** The compiled pattern has one item per character of the template. */
  lemma {:induction false} PatternParses(template: string)
    ensures ParsePattern(Pattern(template)) == Some(Items(template))
  {
    ReplacedStars(template);
    if template != "" {
      var c, rest := template[0], PatternOf(template[1..]);
      PatternParses(template[1..]);
      ReplacedStars(template[1..]);
      assert [Items(template)[0]] + Items(template[1..]) == Items(template);
      if c == '*' {
        ParseClass(rest);
      } else {
        ParseLiteral(c, rest);
      }
    } else {
      assert Items(template) == [];
    }
  }

  lemma ParseClass(rest: string)
    ensures ParsePattern(CLASS_PLUS + rest) == Then(ClassPlus, ParsePattern(rest))
  {
    var p := CLASS_PLUS + rest;
    assert p[..|CLASS_PLUS|] == CLASS_PLUS && p[|CLASS_PLUS|..] == rest;
  }

  lemma ParseLiteral(c: char, rest: string)
    ensures ParsePattern((if IsMeta(c) then ['\\', c] else [c]) + rest) == Then(Literal(c), ParsePattern(rest))
  {
    var p := (if IsMeta(c) then ['\\', c] else [c]) + rest;
    assert IsMeta(CLASS_PLUS[0]) && IsMeta('\\') by {
      assert "\\.+*?()|[]{}^$"[8] == '[' && "\\.+*?()|[]{}^$"[0] == '\\';
    }
    hide IsMeta;
    assert p[0] != CLASS_PLUS[0];
    assert !HasPrefix(p, CLASS_PLUS);
    if IsMeta(c) { assert p[2..] == rest; } else { assert p[1..] == rest; }
  }

  // ---------------------------------------------------------------------------
  // Regular expression against labels
  // ---------------------------------------------------------------------------

  lemma ItemsTail(template: string, k: nat)
    requires k <= |template|
    ensures Items(template)[k..] == Items(template[k..])
  {
  }

  /** Literal characters match one for one. */
  lemma {:induction false} LiteralRun(template: string, i: nat, value: string)
    requires i <= |template| && '*' !in template[..i]
    ensures Matches(Items(template), value)
      <==> |value| >= i && EqualFold(value[..i], template[..i]) && Matches(Items(template[i..]), value[i..])
    decreases i
  {
    if i == 0 {
      assert template[0..] == template && value[0..] == value;
    } else {
      assert template[0] == template[..i][0];
      ItemsTail(template, 1);
      if value != "" {
        assert '*' !in template[1..][..i - 1] by {
          assert template[1..][..i - 1] == template[..i][1..];
        }
        LiteralRun(template[1..], i - 1, value[1..]);
        assert template[1..][i - 1..] == template[i..];
        if |value| >= i {
          assert value[1..][i - 1..] == value[i..];
          FoldCons(value[..i], template[..i]);
          assert value[..i][1..] == value[1..][..i - 1] && template[..i][1..] == template[1..][..i - 1];
        }
      }
    }
  }

  lemma FoldCons(a: string, b: string)
    requires a != "" && b != ""
    ensures EqualFold(a, b) <==> Lower(a[0]) == Lower(b[0]) && EqualFold(a[1..], b[1..])
  {
    if Lower(a[0]) == Lower(b[0]) && EqualFold(a[1..], b[1..]) {
      forall i | 0 <= i < |a| ensures Lower(a[i]) == Lower(b[i]) {
        if i > 0 { assert Lower(a[1..][i - 1]) == Lower(b[1..][i - 1]); }
      }
    }
  }

  /** LabelWise, one label at a time. */
  lemma LabelWiseFirst(value: string, template: string)
    ensures var i, j := LabelEnd(template), LabelEnd(value);
      LabelWise(value, template) <==>
        && LabelMatches(value[..j], template[..i])
        && (i == |template| <==> j == |value|)
        && (i < |template| ==> value[j] == template[i] && LabelWise(value[j + 1..], template[i + 1..]))
  {
    hide LabelEnd, LabelMatches, Labels, Separators, AllMatch;
    var i, j := LabelEnd(template), LabelEnd(value);
    LabelsFirst(value);
    LabelsFirst(template);
    if i < |template| && j < |value| {
      var vs, ts := Labels(value[j + 1..]), Labels(template[i + 1..]);
      assert Separators(value)[1..] == Separators(value[j + 1..]);
      assert Separators(template)[1..] == Separators(template[i + 1..]);
      AllMatchCons(value[..j], template[..i], vs, ts);
    } else if i == |template| && j == |value| {
      AllMatchOne(value, template);
    }
  }

  lemma LabelsFirst(s: string)
    ensures var i := LabelEnd(s);
      if i == |s| then Labels(s) == [s] && Separators(s) == "" && s[..i] == s
      else Labels(s) == [s[..i]] + Labels(s[i + 1..]) && Separators(s) == [s[i]] + Separators(s[i + 1..])
  {
    hide LabelEnd;
  }

  lemma AllMatchOne(v: string, t: string)
    ensures AllMatch([v], [t]) <==> LabelMatches(v, t)
  {
    assert AllMatch([v], [t]) ==> LabelMatches([v][0], [t][0]);
  }

  lemma AllMatchCons(v: string, t: string, vs: seq<string>, ts: seq<string>)
    ensures |vs| == |ts| ==> (AllMatch([v] + vs, [t] + ts) <==> LabelMatches(v, t) && AllMatch(vs, ts))
  {
    hide LabelMatches;
    if |vs| == |ts| {
      var all, patterns := [v] + vs, [t] + ts;
      if AllMatch(all, patterns) {
        assert LabelMatches(all[0], patterns[0]);
        forall k | 0 <= k < |vs| ensures LabelMatches(vs[k], ts[k]) {
          assert LabelMatches(all[k + 1], patterns[k + 1]);
        }
      }
      if LabelMatches(v, t) && AllMatch(vs, ts) {
        forall k | 0 <= k < |all| ensures LabelMatches(all[k], patterns[k]) {
          if k > 0 { assert all[k] == vs[k - 1] && patterns[k] == ts[k - 1]; }
        }
        assert AllMatch(all, patterns);
      }
    }
  }

  lemma SeparatorItem(template: string, value: string)
    requires template != "" && IsSeparator(template[0])
    ensures Matches(Items(template), value)
      <==> value != "" && value[0] == template[0] && Matches(Items(template[1..]), value[1..])
  {
    ItemsTail(template, 1);
  }

  lemma WildcardItem(template: string, value: string)
    requires template != "" && template[0] == '*'
    ensures Matches(Items(template), value)
      <==> exists n: nat | 1 <= n <= |value| :: AllInClass(value[..n]) && Matches(Items(template[1..]), value[n..])
  {
    ItemsTail(template, 1);
  }

  lemma RestIsWhole(template: string)
    requires WholeLabelWildcards(template)
    ensures var i := LabelEnd(template);
      && (template[..i] == "*" || '*' !in template[..i])
      && (i < |template| ==> WholeLabelWildcards(template[i + 1..]))
  {
    hide LabelEnd;
    var i := LabelEnd(template);
    LabelsFirst(template);
    assert Labels(template)[0] == template[..i];
    if i < |template| {
      var rest := Labels(template[i + 1..]);
      forall k | 0 <= k < |rest| ensures rest[k] == "*" || '*' !in rest[k] {
        assert rest[k] == Labels(template)[k + 1];
      }
    }
  }

  /** After the first label: both end, or the same separator and matching rests. */
  lemma {:induction false} TailMatches(value: string, n: nat, template: string, i: nat)
    requires n <= |value| && i == LabelEnd(template) && WholeLabelWildcards(template)
    ensures Matches(Items(template[i..]), value[n..]) <==>
      if i == |template| then n == |value|
      else n < |value| && value[n] == template[i] && LabelWise(value[n + 1..], template[i + 1..])
    decreases |template|, 0
  {
    hide LabelEnd, LabelWise, WholeLabelWildcards;
    if i < |template| {
      SeparatorItem(template[i..], value[n..]);
      assert template[i..][1..] == template[i + 1..];
      if n < |value| {
        assert value[n..][1..] == value[n + 1..];
        RestIsWhole(template);
        RegexIsLabelWise(value[n + 1..], template[i + 1..]);
      }
    }
  }

  lemma FoldedLabelEnd(value: string, template: string)
    requires var i := LabelEnd(template); i <= |value| && EqualFold(value[..i], template[..i])
    requires var i := LabelEnd(template); i == |value| || IsSeparator(value[i])
    ensures LabelEnd(value) == LabelEnd(template)
  {
    hide LabelEnd;
    var i := LabelEnd(template);
    forall k | 0 <= k < i ensures !IsSeparator(value[k]) {
      assert Lower(value[..i][k]) == Lower(template[..i][k]);
    }
    LabelEndIs(value, i);
  }

  /** For a valid template the regular expression and the labels agree on every value. */
  lemma {:induction false} RegexIsLabelWise(value: string, template: string)
    requires WholeLabelWildcards(template)
    ensures Matches(Items(template), value) <==> LabelWise(value, template)
    decreases |template|, 1
  {
    hide LabelEnd, LabelWise, WholeLabelWildcards, Matches;
    var i, j := LabelEnd(template), LabelEnd(value);
    RestIsWhole(template);
    LabelWiseFirst(value, template);
    if template[..i] == "*" {
      assert i == 1 && template[0] == '*' by { assert template[..i][0] == '*'; }
      WildcardItem(template, value);
      if Matches(Items(template), value) {
        var n: nat :| 1 <= n <= |value| && AllInClass(value[..n]) && Matches(Items(template[1..]), value[n..]);
        TailMatches(value, n, template, 1);
        assert forall k | 0 <= k < n :: value[k] == value[..n][k];
        LabelEndIs(value, n);
      }
      TailMatches(value, j, template, 1);
      assert LabelMatches(value[..j], "*") <==> 1 <= j && AllInClass(value[..j]);
    } else {
      LiteralRun(template, i, value);
      if i <= |value| {
        TailMatches(value, i, template, i);
        if EqualFold(value[..i], template[..i]) && (i == |value| || IsSeparator(value[i])) {
          FoldedLabelEnd(value, template);
        }
      }
    }
  }

  // ---------------------------------------------------------------------------
  // matchAuthorityTemplate
  // ---------------------------------------------------------------------------

  predicate MatchAuthority(value: string, template: string) {
    if EqualFold(value, template) then true
    else
      var regex := ParsePattern(Pattern(template));
      regex.Some? && Matches(regex.value, value)
  }

  /** A value that matches label by label has no star. */
  lemma {:induction false} LabelWiseHasNoStar(value: string, template: string)
    requires WholeLabelWildcards(template) && LabelWise(value, template)
    ensures '*' !in value
    decreases |template|
  {
    hide LabelEnd, WholeLabelWildcards;
    var i, j := LabelEnd(template), LabelEnd(value);
    RestIsWhole(template);
    LabelWiseFirst(value, template);
    hide LabelWise;
    forall k | 0 <= k < j ensures value[k] != '*' {
      assert value[k] == value[..j][k];
      if template[..i] != "*" { assert Lower(value[..j][k]) == Lower(template[..i][k]); }
    }
    if i < |template| {
      LabelWiseHasNoStar(value[j + 1..], template[i + 1..]);
      forall k | j < k < |value| ensures value[k] != '*' { assert value[k] == value[j + 1..][k - j - 1]; }
    }
  }

  /** Equal ignoring case, and still label-wise: exactly when the template has no star. */
  lemma EqualFoldIsLabelWise(value: string, template: string)
    requires WholeLabelWildcards(template) && EqualFold(value, template)
    ensures LabelWise(value, template) <==> '*' !in template
  {
    hide WholeLabelWildcards, LabelWise;
    if '*' in template {
      var k :| 0 <= k < |template| && template[k] == '*';
      assert Lower(value[k]) == Lower(template[k]);
      if LabelWise(value, template) { LabelWiseHasNoStar(value, template); }
    } else {
      assert template[..|template|] == template && value[..|value|] == value;
      LiteralRun(template, |template|, value);
      RegexIsLabelWise(value, template);
    }
  }

  /** For every valid template, a value is accepted exactly when it matches label by label or is the
      template itself ignoring case; the second adds something only when the template has a star. */
  lemma AuthorityExact(value: string, template: string)
    requires WholeLabelWildcards(template)
    ensures MatchAuthority(value, template) <==> LabelWise(value, template) || EqualFold(value, template)
    ensures MatchAuthority(value, template) && !LabelWise(value, template) ==>
      EqualFold(value, template) && '*' in template && '*' in value
  {
    hide WholeLabelWildcards, LabelWise, Matches, Pattern, ParsePattern;
    PatternParses(template);
    RegexIsLabelWise(value, template);
    if EqualFold(value, template) {
      EqualFoldIsLabelWise(value, template);
      if '*' in template {
        var k :| 0 <= k < |template| && template[k] == '*';
        assert Lower(value[k]) == Lower(template[k]);
      }
    }
  }
}
