/** Validating a redirect target against the configured URIs (src/utils/utils.go, ValidateRedirectUri). */
module RedirectUri {
  import opened Common
  import opened RedirectPath
  import opened RedirectAuthority

  // ---------------------------------------------------------------------------
  // Taking a URI apart
  // ---------------------------------------------------------------------------

  datatype Parts = Parts(scheme: string, authority: string, path: string, hasAuthority: bool)

  const SCHEME_SEPARATOR := "://"

  /** strings.Index: the first place `text` occurs, or the length of `s`. */
  function IndexOfText(s: string, text: string): (i: nat)
    requires text != ""
    ensures i < |s| ==> HasPrefix(s[i..], text)
    ensures i <= |s| && forall k | 0 <= k < i :: !HasPrefix(s[k..], text)
  {
    if s == "" || HasPrefix(s, text) then 0
    else
      var i := IndexOfText(s[1..], text);
      assert forall k | 1 <= k <= |s| :: s[k..] == s[1..][k - 1..];
      1 + i
  }

  predicate EndsAuthority(c: char) {
    c == '/' || c == '?' || c == '#'
  }

  predicate EndsPath(c: char) {
    c == '?' || c == '#'
  }

  /** splitSchemeAuthorityPath. */
  function SplitUri(value: string): Parts {
    var at := IndexOfText(value, SCHEME_SEPARATOR);
    if at == |value| then Parts("", "", value, false)
    else
      var rest := value[at + 3..];
      var end := IndexWhere(rest, EndsAuthority);
      Parts(value[..at], rest[..end], rest[end..], true)
  }

  /** Nothing is lost, and the pieces are the ones RFC 3986 names. */
  lemma SplitReassembles(value: string)
    ensures var p := SplitUri(value);
      && value == (if p.hasAuthority then p.scheme + SCHEME_SEPARATOR + p.authority else "") + p.path
      && (forall k | 0 <= k < |p.authority| :: !EndsAuthority(p.authority[k]))
      && (p.hasAuthority && p.path != "" ==> EndsAuthority(p.path[0]))
  {
    hide IndexOfText, IndexWhere;
    var at := IndexOfText(value, SCHEME_SEPARATOR);
    if at < |value| {
      var rest := value[at + 3..];
      assert value[at..][..3] == SCHEME_SEPARATOR;
      assert value == value[..at] + value[at..][..3] + rest;
    }
  }

  /** stripQueryAndFragment. */
  function StripQueryAndFragment(value: string): string {
    value[..IndexWhere(value, EndsPath)]
  }

  // ---------------------------------------------------------------------------
  // Matching
  // ---------------------------------------------------------------------------

  /** matchPathTemplate. */
  predicate MatchPath(value: string, template: string) {
    || value == template
    || (HasSuffix(template, "*") && (forall k | 0 <= k < |template| :: !EndsPath(template[k]))
        && var stripped, prefix := StripQueryAndFragment(value), TrimSuffix(template, "*");
           HasPrefix(stripped, prefix) || stripped == TrimSuffix(prefix, "/"))
  }

  /** What matchUriTemplate decides. */
  ghost predicate MatchesTemplate(value: string, template: string) {
    || template == "*"
    || var v, t := SplitUri(value), SplitUri(template);
       && t.hasAuthority == v.hasAuthority
       && (t.hasAuthority ==>
            && EqualFold(t.scheme, v.scheme)
            && WholeLabelWildcards(t.authority) && MatchAuthority(v.authority, t.authority))
       && MatchPath(v.path, t.path)
  }

  method MatchUriTemplate(value: string, template: string) returns (matched: bool)
    ensures matched <==> MatchesTemplate(value, template)
  {
    hide WholeLabelWildcards, MatchAuthority, MatchPath, SplitUri;
    if template == "*" { return true; }
    var v, t := SplitUri(value), SplitUri(template);
    if t.hasAuthority != v.hasAuthority { return false; }
    if t.hasAuthority {
      if !EqualFold(t.scheme, v.scheme) { return false; }
      var valid := ValidAuthorityTemplate(t.authority);
      if !valid || !MatchAuthority(v.authority, t.authority) { return false; }
    }
    return MatchPath(v.path, t.path);
  }

  /** hasPathTraversal lets it through: it settles in time and is safe after every number of rounds. */
  ghost predicate PathPasses(path: string) {
    Settled(path, MAX_ROUNDS - 1) && forall n: nat :: SafeAfter(path, n)
  }

  /** What unsafeWildcardRedirect lets through. */
  ghost predicate SafeForWildcards(value: string) {
    && !HasPrefix(value, "//")
    && var p := SplitUri(value);
       && (p.hasAuthority ==> p.scheme != "" && p.authority != "" && '@' !in p.authority)
       && PathPasses(StripQueryAndFragment(p.path))
  }

  method UnsafeWildcardRedirect(value: string) returns (unsafe: bool)
    ensures unsafe <==> !SafeForWildcards(value)
  {
    hide SplitUri, Settled, SafeAfter;
    if HasPrefix(value, "//") { return true; }
    var p := SplitUri(value);
    if p.hasAuthority && (p.scheme == "" || p.authority == "" || '@' in p.authority) { return true; }
    unsafe := HasPathTraversal(StripQueryAndFragment(p.path));
  }

  /** A configured URI that accepts the value through its wildcard. */
  ghost predicate AcceptedBy(value: string, template: string) {
    '*' in template && SafeForWildcards(value) && MatchesTemplate(value, template)
  }

  /** ValidateRedirectUri: the target itself or an error, never another URI. */
  method ValidateRedirectUri(redirectUri: string, validUris: seq<string>, wildcardsEnabled: bool)
    returns (r: Option<string>)
    ensures r.Some? ==> r.value == redirectUri
    ensures r.Some? <==>
      || redirectUri == ""
      || redirectUri in validUris
      || (wildcardsEnabled && exists i | 0 <= i < |validUris| :: AcceptedBy(redirectUri, validUris[i]))
  {
    hide SafeForWildcards, MatchesTemplate;
    if redirectUri == "" { return Some(""); }
    for i := 0 to |validUris|
      invariant redirectUri !in validUris[..i]
    {
      if redirectUri == validUris[i] { return Some(redirectUri); }
    }
    if !wildcardsEnabled { return None; }
    var unsafe := UnsafeWildcardRedirect(redirectUri);
    if unsafe { return None; }
    for i := 0 to |validUris|
      invariant forall k | 0 <= k < i :: !AcceptedBy(redirectUri, validUris[k])
    {
      if '*' !in validUris[i] { continue; }
      var matched := MatchUriTemplate(redirectUri, validUris[i]);
      if matched {
        assert AcceptedBy(redirectUri, validUris[i]);
        return Some(redirectUri);
      }
    }
    return None;
  }

  // ---------------------------------------------------------------------------
  // What a wildcard acceptance promises
  // ---------------------------------------------------------------------------

  /** Whatever decoding and backslash steps others apply, in whatever order, the path of a target accepted
      through a wildcard decodes, has no ".." segment, and removing dot segments as RFC 3986 says deletes
      its "." segments and nothing else. */
  lemma AcceptedNeverClimbs(value: string, template: string, steps: seq<Step>)
    requires AcceptedBy(value, template)
    ensures var path := Apply(StripQueryAndFragment(SplitUri(value).path), steps);
      && path.Some? && ".." !in Split(path.value, '/')
      && RemoveDots(Buffers(path.value, "")) == Undotted(path.value)
  {
    var path := StripQueryAndFragment(SplitUri(value).path);
    assert PathPasses(path);
    NoScheduleClimbs(path, steps);
    var applied := Apply(path, steps).value;
    NoDotDotSegment(applied);
    NothingPopped(applied, "");
    assert "" + Undotted(applied) == Undotted(applied);
  }

  /** Scheme and host of the target are the ones the template allows, label by label. */
  lemma AcceptedAuthority(value: string, template: string)
    requires AcceptedBy(value, template) && template != "*"
    ensures var v, t := SplitUri(value), SplitUri(template);
      && v.hasAuthority == t.hasAuthority
      && (t.hasAuthority ==>
           && EqualFold(t.scheme, v.scheme)
           && (LabelWise(v.authority, t.authority) || EqualFold(v.authority, t.authority)))
  {
    var v, t := SplitUri(value), SplitUri(template);
    hide LabelWise, WholeLabelWildcards, MatchAuthority, SplitUri, SafeForWildcards, MatchPath;
    if t.hasAuthority { AuthorityExact(v.authority, t.authority); }
  }

  /** The path of the target is the template's, or under its prefix, or the prefix without its slash. */
  predicate UnderTemplate(path: string, template: string) {
    || path == template
    || (HasSuffix(template, "*")
        && var prefix := template[..|template| - 1];
           HasPrefix(StripQueryAndFragment(path), prefix) || StripQueryAndFragment(path) + "/" == prefix)
  }

  lemma AcceptedPath(value: string, template: string)
    requires AcceptedBy(value, template) && template != "*"
    ensures UnderTemplate(SplitUri(value).path, SplitUri(template).path)
  {
    var v, t := SplitUri(value), SplitUri(template);
    hide SplitUri, SafeForWildcards, WholeLabelWildcards, MatchAuthority;
    assert MatchPath(v.path, t.path);
    if v.path != t.path {
      var prefix := TrimSuffix(t.path, "*");
      if HasSuffix(prefix, "/") { assert prefix == TrimSuffix(prefix, "/") + "/"; }
    }
  }

  /** And it stays under a plain prefix: after any decoding by others and after dot-segment removal. */
  lemma AcceptedStaysUnderPrefix(value: string, prefix: string, steps: seq<Step>)
    requires SafeForWildcards(value) && Plain(prefix) && "." !in Split(prefix, '/')
    requires HasPrefix(StripQueryAndFragment(SplitUri(value).path), prefix)
    ensures var path := Apply(StripQueryAndFragment(SplitUri(value).path), steps);
      path.Some? && HasPrefix(RemoveDots(Buffers(path.value, "")), prefix)
  {
    var path := StripQueryAndFragment(SplitUri(value).path);
    assert PathPasses(path);
    assert path == prefix + path[|prefix|..];
    StaysUnderAfterAll(prefix, path[|prefix|..], steps);
  }
}
