/** The JWKS key cache, one lock region at a time (src/oidc/jwks.go). */
module Jwks {
  import opened Common
  import opened Sealing

  const MAX_CACHE_AGE: nat := 360 * MINUTE
  const MIN_CACHE_AGE: nat := 5 * MINUTE
  const FAILURE_BACKOFF: nat := MINUTE

  // ---------------------------------------------------------------------------
  // Keys
  // ---------------------------------------------------------------------------

  /** One entry of the fetched document; None marks a parameter that does not decode. */
  datatype JwksKey = JwksKey(kid: string, kty: string, use: string, n: Option<nat>, e: Option<int>,
                             x: Option<nat>, y: Option<nat>, crv: string)

  datatype RsaKey = RsaKey(kid: string, n: nat, e: int)

  datatype EcdsaKey = EcdsaKey(kid: string, crv: string, x: nat, y: nat)

  datatype PublicKey = RsaPublic(r: RsaKey) | EcdsaPublic(ec: EcdsaKey)

  datatype Family = Rsa | Ecdsa

  datatype KeySet = KeySet(rsa: seq<RsaKey>, ecdsa: seq<EcdsaKey>)

  predicate SupportedCurve(crv: string) {
    crv == "P-224" || crv == "P-256" || crv == "P-384" || crv == "P-521"
  }

  predicate ForSignatures(k: JwksKey) {
    k.use == "sig" || k.use == ""
  }

  /** extractRsaKey. */
  function ExtractRsa(k: JwksKey): Option<RsaKey> {
    if k.n.Some? && k.e.Some? then Some(RsaKey(k.kid, k.n.value, k.e.value)) else None
  }

  /** extractEcdsaKey. */
  function ExtractEcdsa(k: JwksKey): Option<EcdsaKey> {
    if k.x.Some? && k.y.Some? && SupportedCurve(k.crv) then Some(EcdsaKey(k.kid, k.crv, k.x.value, k.y.value)) else None
  }

  predicate YieldsRsa(k: JwksKey, r: RsaKey) {
    ForSignatures(k) && k.kty == "RSA" && ExtractRsa(k) == Some(r)
  }

  predicate YieldsEcdsa(k: JwksKey, r: EcdsaKey) {
    ForSignatures(k) && k.kty == "EC" && ExtractEcdsa(k) == Some(r)
  }

  /** Exactly the usable signature keys of the document are kept. */
  ghost predicate KeysOf(doc: seq<JwksKey>, keys: KeySet) {
    && (forall r :: r in keys.rsa <==> exists k | k in doc :: YieldsRsa(k, r))
    && (forall r :: r in keys.ecdsa <==> exists k | k in doc :: YieldsEcdsa(k, r))
  }

  /** extractKeys. */
  method ExtractKeys(doc: seq<JwksKey>) returns (r: Option<KeySet>)
    ensures r.Some? ==> KeysOf(doc, r.value) && HasKeys(r.value)
    ensures r.None? <==> forall k | k in doc :: (forall a :: !YieldsRsa(k, a)) && (forall b :: !YieldsEcdsa(k, b))
  {
    var keys := KeySet([], []);
    for i := 0 to |doc|
      invariant KeysOf(doc[..i], keys)
    {
      var k := doc[i];
      assert doc[..i + 1] == doc[..i] + [k];
      ghost var before := keys;
      if k.use == "sig" || k.use == "" {
        if k.kty == "RSA" {
          var extracted := ExtractRsa(k);
          if extracted.Some? { keys := keys.(rsa := keys.rsa + [extracted.value]); }
        } else if k.kty == "EC" {
          var extracted := ExtractEcdsa(k);
          if extracted.Some? { keys := keys.(ecdsa := keys.ecdsa + [extracted.value]); }
        }
      }
      KeysStep(doc[..i], k, before, keys);
    }
    assert doc[..|doc|] == doc;
    if |keys.ecdsa| == 0 && |keys.rsa| == 0 {
      NoUsableKeys(doc, keys);
      return None;
    }
    if |keys.rsa| > 0 { assert keys.rsa[0] in keys.rsa; } else { assert keys.ecdsa[0] in keys.ecdsa; }
    return Some(keys);
  }

  lemma NoUsableKeys(doc: seq<JwksKey>, keys: KeySet)
    requires KeysOf(doc, keys) && !HasKeys(keys)
    ensures forall k | k in doc :: (forall a :: !YieldsRsa(k, a)) && (forall b :: !YieldsEcdsa(k, b))
  {
    forall k, a | k in doc ensures !YieldsRsa(k, a) { assert YieldsRsa(k, a) ==> a in keys.rsa; }
    forall k, b | k in doc ensures !YieldsEcdsa(k, b) { assert YieldsEcdsa(k, b) ==> b in keys.ecdsa; }
  }

  lemma KeysStep(doc: seq<JwksKey>, k: JwksKey, before: KeySet, after: KeySet)
    requires KeysOf(doc, before)
    requires after.rsa == before.rsa
             + (if ForSignatures(k) && k.kty == "RSA" && ExtractRsa(k).Some? then [ExtractRsa(k).value] else [])
    requires after.ecdsa == before.ecdsa
             + (if ForSignatures(k) && k.kty == "EC" && ExtractEcdsa(k).Some? then [ExtractEcdsa(k).value] else [])
    ensures KeysOf(doc + [k], after)
  {
    hide ExtractRsa, ExtractEcdsa, ForSignatures;
    var all := doc + [k];
    assert forall j :: j in all <==> j in doc || j == k;
    forall r ensures r in after.rsa <==> exists j | j in all :: YieldsRsa(j, r) {
      if r in before.rsa { var j :| j in doc && YieldsRsa(j, r); assert j in all; }
      assert r in after.rsa <==> r in before.rsa || YieldsRsa(k, r);
      assert k in all;
    }
    forall r ensures r in after.ecdsa <==> exists j | j in all :: YieldsEcdsa(j, r) {
      if r in before.ecdsa { var j :| j in doc && YieldsEcdsa(j, r); assert j in all; }
      assert r in after.ecdsa <==> r in before.ecdsa || YieldsEcdsa(k, r);
      assert k in all;
    }
  }

  // ---------------------------------------------------------------------------
  // The cache
  // ---------------------------------------------------------------------------

  /** The fields Lock protects. A zero time means "never". */
  datatype Cache = Cache(keys: KeySet, cacheDate: Time, lastReloadError: Time)

  predicate HasKeys(keys: KeySet) {
    |keys.rsa| > 0 || |keys.ecdsa| > 0
  }

  /** needsReload. A cache with keys was dated when they were installed. */
  predicate NeedsReload(c: Cache, now: Time, force: bool) {
    var reload :=
      || !HasKeys(c.keys)
      || c.cacheDate < now - MAX_CACHE_AGE
      || (force && c.cacheDate < now - MIN_CACHE_AGE);
    reload && !(c.lastReloadError != 0 && now - c.lastReloadError < FAILURE_BACKOFF && HasKeys(c.keys))
  }

  function Installed(c: Cache, keys: KeySet, now: Time): Cache {
    Cache(keys, now, 0)
  }

  function FailureRecorded(c: Cache, now: Time): Cache {
    c.(lastReloadError := now)
  }

  /** The keys may be used at `now`: they are young enough, or the provider failed to give newer ones
      within the last minute. */
  predicate Usable(c: Cache, now: Time, force: bool) {
    && HasKeys(c.keys)
    && (|| now - c.cacheDate <= (if force then MIN_CACHE_AGE else MAX_CACHE_AGE)
        || (c.lastReloadError != 0 && now - c.lastReloadError < FAILURE_BACKOFF))
  }

  /** Declining a reload means exactly that the keys may be used. */
  lemma DeclinedMeansUsable(c: Cache, now: Time, force: bool)
    ensures NeedsReload(c, now, force) <==> !Usable(c, now, force)
  {
  }

  /** What a lookup of `kid` may answer from one snapshot. */
  predicate Answers(keys: KeySet, family: Family, kid: string, answer: Option<PublicKey>) {
    match answer
    case Some(RsaPublic(k)) => family == Rsa && k in keys.rsa && k.kid == kid
    case Some(EcdsaPublic(k)) => family == Ecdsa && k in keys.ecdsa && k.kid == kid
    case None => if family == Rsa then forall k | k in keys.rsa :: k.kid != kid
                 else forall k | k in keys.ecdsa :: k.kid != kid
  }

  /** The algorithms of the allowlist; every other name, "none" included, is NotAllowed. */
  datatype Algorithm = RS256 | RS384 | RS512 | PS256 | PS384 | PS512 | ES256 | ES384 | ES512 | NotAllowed

  function FamilyOf(alg: Algorithm): Option<Family> {
    match alg
    case RS256 | RS384 | RS512 | PS256 | PS384 | PS512 => Some(Rsa)
    case ES256 | ES384 | ES512 => Some(Ecdsa)
    case NotAllowed => None
  }

  datatype Fetch = FetchFailed | Fetched(doc: seq<JwksKey>)

  /** The fetch succeeded and its document holds at least one usable key. */
  ghost predicate Yielding(fetch: Fetch) {
    fetch.Fetched? && exists k | k in fetch.doc :: (exists a :: YieldsRsa(k, a)) || (exists b :: YieldsEcdsa(k, b))
  }

  /** The first key with this id. */
  function FirstRsa(keys: seq<RsaKey>, kid: string): Option<RsaKey> {
    if keys == [] then None else if keys[0].kid == kid then Some(keys[0]) else FirstRsa(keys[1..], kid)
  }

  function FirstEcdsa(keys: seq<EcdsaKey>, kid: string): Option<EcdsaKey> {
    if keys == [] then None else if keys[0].kid == kid then Some(keys[0]) else FirstEcdsa(keys[1..], kid)
  }

  /** The key Keyfunc hands to the parser. */
  function Lookup(keys: KeySet, alg: Algorithm, kid: string): Option<PublicKey> {
    match FamilyOf(alg)
    case None => None
    case Some(family) =>
      if kid == "" then None
      else if family == Rsa then
        var k := FirstRsa(keys.rsa, kid);
        if k.Some? then Some(RsaPublic(k.value)) else None
      else
        var k := FirstEcdsa(keys.ecdsa, kid);
        if k.Some? then Some(EcdsaPublic(k.value)) else None
  }

  lemma {:induction false} FirstRsaAnswers(keys: seq<RsaKey>, kid: string)
    ensures var r := FirstRsa(keys, kid);
      if r.Some? then r.value in keys && r.value.kid == kid else forall k | k in keys :: k.kid != kid
  {
    if keys != [] { FirstRsaAnswers(keys[1..], kid); }
  }

  lemma {:induction false} FirstEcdsaAnswers(keys: seq<EcdsaKey>, kid: string)
    ensures var r := FirstEcdsa(keys, kid);
      if r.Some? then r.value in keys && r.value.kid == kid else forall k | k in keys :: k.kid != kid
  {
    if keys != [] { FirstEcdsaAnswers(keys[1..], kid); }
  }

  /** An allowed algorithm only ever meets a key of its own family and of the token's id, and a token is
      left without a key only when there is none. */
  lemma LookupAnswers(keys: KeySet, alg: Algorithm, kid: string)
    requires FamilyOf(alg).Some? && kid != ""
    ensures Answers(keys, FamilyOf(alg).value, kid, Lookup(keys, alg, kid))
  {
    FirstRsaAnswers(keys.rsa, kid);
    FirstEcdsaAnswers(keys.ecdsa, kid);
  }

  // ---------------------------------------------------------------------------
  // Tokens
  // ---------------------------------------------------------------------------

  /** A signed token, symbolically: the one key its signature verifies under, whether it has expired, and
      whether its other claims pass. */
  datatype Token = Token(alg: Algorithm, kid: string, signer: Option<PublicKey>, expired: bool, claimsOk: bool)

  datatype Verdict = ValidToken | ExpiredToken | BadToken

  /** ParseWithClaims: the signature is checked before the claims, and an expiry is reported whatever else fails. */
  function Judged(keys: KeySet, t: Token): Verdict {
    var key := Lookup(keys, t.alg, t.kid);
    if key.None? || key != t.signer then BadToken
    else if t.expired then ExpiredToken
    else if t.claimsOk then ValidToken else BadToken
  }

  class JwksHandler {
    var rsaKeys: seq<RsaKey>
    var ecdsaKeys: seq<EcdsaKey>
    var cacheDate: Time
    var lastReloadError: Time

    function Value(): Cache
      reads this
    {
      Cache(KeySet(rsaKeys, ecdsaKeys), cacheDate, lastReloadError)
    }

    constructor ()
      ensures Value() == Cache(KeySet([], []), 0, 0)
    {
      rsaKeys, ecdsaKeys, cacheDate, lastReloadError := [], [], 0, 0;
    }

    /** The write region of loadKeysContext. */
    method Install(keys: KeySet, now: Time)
      modifies this
      ensures Value() == Installed(old(Value()), keys, now)
    {
      rsaKeys := keys.rsa;
      ecdsaKeys := keys.ecdsa;
      cacheDate := now;
      lastReloadError := 0;
    }

    /** loadKeysContext: nothing changes unless the document holds a usable key. */
    method LoadKeys(fetch: Fetch, now: Time) returns (ok: bool)
      modifies this
      ensures !ok ==> Value() == old(Value())
      ensures ok ==> fetch.Fetched? && KeysOf(fetch.doc, Value().keys) && HasKeys(Value().keys)
                     && Value() == Installed(old(Value()), Value().keys, now)
      ensures ok <==> Yielding(fetch)
    {
      if fetch.FetchFailed? { return false; }
      var keys := ExtractKeys(fetch.doc);
      if keys.None? { return false; }
      Install(keys.value, now);
      return true;
    }

    /** EnsureLoadedContext when nothing interferes: the check at `t0`, the recheck at `t1`, and the
        installation or the recorded failure at `t2`. */
    method EnsureLoaded(force: bool, t0: Time, t1: Time, t2: Time, fetch: Fetch) returns (ok: bool)
      requires 0 < t0 <= t1 <= t2
      modifies this
      ensures ok ==> (exists t | t0 <= t <= t2 :: Usable(Value(), t, force))
      ensures !ok ==> !HasKeys(Value().keys)
      ensures var c := old(Value());
        if !NeedsReload(c, t0, force) || !NeedsReload(c, t1, force) then ok && Value() == c
        else if Yielding(fetch) then ok && KeysOf(fetch.doc, Value().keys) && Value() == Installed(c, Value().keys, t2)
        else if HasKeys(c.keys) then ok && Value() == FailureRecorded(c, t2)
        else !ok && Value() == c
    {
      var needed := NeedsReload(Value(), t0, force);
      if !needed {
        DeclinedMeansUsable(Value(), t0, force);
        return true;
      }
      needed := NeedsReload(Value(), t1, force);
      var hasKeys := HasKeys(Value().keys);
      if !needed {
        DeclinedMeansUsable(Value(), t1, force);
        return true;
      }
      var loaded := LoadKeys(fetch, t2);
      if !loaded {
        if hasKeys {
          lastReloadError := t2;
          assert Usable(Value(), t2, force);
          return true;
        }
        return false;
      }
      assert Usable(Value(), t2, force);
      return true;
    }

    /** getRsaKey scans its snapshot of the slice. */
    method GetRsaKey(kid: string) returns (r: Option<RsaKey>)
      ensures r == FirstRsa(rsaKeys, kid)
    {
      var keys := rsaKeys;
      for i := 0 to |keys|
        invariant FirstRsa(keys, kid) == FirstRsa(keys[i..], kid)
      {
        if keys[i].kid == kid { return Some(keys[i]); }
        assert keys[i..][1..] == keys[i + 1..];
      }
      return None;
    }

    /** getEcdsaKey. */
    method GetEcdsaKey(kid: string) returns (r: Option<EcdsaKey>)
      ensures r == FirstEcdsa(ecdsaKeys, kid)
    {
      var keys := ecdsaKeys;
      for i := 0 to |keys|
        invariant FirstEcdsa(keys, kid) == FirstEcdsa(keys[i..], kid)
      {
        if keys[i].kid == kid { return Some(keys[i]); }
        assert keys[i..][1..] == keys[i + 1..];
      }
      return None;
    }

    /** Keyfunc. */
    method Keyfunc(alg: Algorithm, kid: string) returns (r: Option<PublicKey>)
      ensures r == Lookup(Value().keys, alg, kid)
    {
      var family := FamilyOf(alg);
      if family.None? || kid == "" { return None; }
      if family.value == Rsa {
        var k := GetRsaKey(kid);
        return if k.Some? then Some(RsaPublic(k.value)) else None;
      }
      var k := GetEcdsaKey(kid);
      return if k.Some? then Some(EcdsaPublic(k.value)) else None;
    }

    method ParseWithClaims(t: Token) returns (v: Verdict)
      ensures v == Judged(Value().keys, t)
    {
      var key := Keyfunc(t.alg, t.kid);
      if key.None? || key != t.signer { return BadToken; }
      if t.expired { return ExpiredToken; }
      return if t.claimsOk then ValidToken else BadToken;
    }

    /** parseJwtWithJwksRetry (src/oidc.go) when nothing interferes: the verdict is that of the keys in the
        cache at the end. A token the cached keys can judge changes nothing while they are usable, and a token
        is turned away for anything but expiry only after a reload was forced or was not due. */
    method ParseJwtWithRetry(t: Token, t0: Time, t1: Time, t2: Time, t3: Time, t4: Time, t5: Time, first: Fetch, second: Fetch)
      returns (v: Verdict)
      requires 0 < t0 <= t1 <= t2 <= t3 <= t4 <= t5
      modifies this
      ensures v == Judged(Value().keys, t)
      ensures Usable(old(Value()), t0, false) && !Judged(old(Value()).keys, t).BadToken? ==> Value() == old(Value())
      ensures v.BadToken? && HasKeys(Value().keys) ==> exists now | t3 <= now <= t5 :: Usable(Value(), now, true)
    {
      hide Yielding, KeysOf;
      DeclinedMeansUsable(Value(), t0, false);
      var ok := EnsureLoaded(false, t0, t1, t2, first);
      if !ok {
        NoKeysNoVerdict(Value().keys, t);
        return BadToken;
      }
      v := ParseWithClaims(t);
      if !v.BadToken? { return v; }
      ok := EnsureLoaded(true, t3, t4, t5, second);
      if !ok {
        NoKeysNoVerdict(Value().keys, t);
        return BadToken;
      }
      v := ParseWithClaims(t);
    }
  }

  lemma NoKeysNoVerdict(keys: KeySet, t: Token)
    requires !HasKeys(keys)
    ensures Judged(keys, t) == BadToken
  {
  }
}
