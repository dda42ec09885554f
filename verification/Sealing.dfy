/** Symbolic sealed values: AES-GCM with a purpose as additional data (src/utils/utils.go).

    A ciphertext is a term of its plaintext, key and purpose; only the same key and purpose open it.
    Base64 layers and random GCM nonces carry no meaning here. */
module Sealing {
  import opened Common

  /** Nanoseconds since Go's zero time; 0 is time.Time{}. */
  type Time = nat

  const SECOND: nat := 1_000_000_000
  const MINUTE: nat := 60 * SECOND

  /** The JSON keys of the two sealed structs. No key belongs to both:
      "created_at" holds refreshedAt, "session_created_at" holds createdAt. */
  datatype Key =
    | Action | RedirectUrl | Cve | Csrf | Nonce | IsChallenge | Typ | IssuedAt | Expires
    | Id | RefreshedAt | AccessToken | IdToken | RefreshToken | IsAuthorized | TokenExpiresIn
    | ChallengeAttempted | CreatedAt | LastUsedAt

  type JsonObject = map<Key, Json>

  datatype Json =
    | JString(s: string)
    | JBool(b: bool)
    | JInt(i: int)
    | JTime(t: Time)
    | JSealed(c: Ciphertext)  // a string that is itself a ciphertext

  datatype Plaintext = Text(text: string) | Object(fields: map<Key, Json>)

  datatype Ciphertext = Noise | Sealed(plain: Plaintext, key: string, purpose: Purpose)

  /** The additional authenticated data: "oidc-state", "session", or none for values of older versions
      and for the PKCE verifier. */
  datatype Purpose = ForState | ForSession | NoPurpose

  function Encrypt(plain: Plaintext, key: string, purpose: Purpose): Ciphertext {
    Sealed(plain, key, purpose)
  }

  function Decrypt(c: Ciphertext, key: string, purpose: Purpose): Option<Plaintext> {
    if c.Sealed? && c.key == key && c.purpose == purpose then Some(c.plain) else None
  }

  // Reading one JSON field: absent keys leave the zero value, a value of another type is an error.

  function GetString(f: JsonObject, k: Key): Option<string> {
    if k !in f then Some("") else if f[k].JString? then Some(f[k].s) else None
  }

  function GetBool(f: JsonObject, k: Key): Option<bool> {
    if k !in f then Some(false) else if f[k].JBool? then Some(f[k].b) else None
  }

  function GetInt(f: JsonObject, k: Key): Option<int> {
    if k !in f then Some(0) else if f[k].JInt? then Some(f[k].i) else None
  }

  function GetTime(f: JsonObject, k: Key): Option<Time> {
    if k !in f then Some(0) else if f[k].JTime? then Some(f[k].t) else None
  }

  function GetSealed(f: JsonObject, k: Key): Option<Option<Ciphertext>> {
    if k !in f then Some(None) else if f[k].JSealed? then Some(Some(f[k].c)) else None
  }
}

/** The sealed login state that travels through the browser (src/oidc/state.go). */
module LoginState {
  import opened Common
  import opened Sealing

  const STATE_LIFETIME: nat := 10 * MINUTE
  const STATE_TYPE_TAG := "oidc-state"

  datatype OidcState = OidcState(
    action: string,
    redirectUrl: string,
    codeVerifierEnc: Option<Ciphertext>,
    csrf: string,
    nonce: string,
    isChallenge: bool,
    typ: string,
    issuedAt: Time,
    expires: Time)

  /** The value json.Marshal writes under a key. */
  function FieldOf(s: OidcState, k: Key): Json {
    match k
    case Action => JString(s.action)
    case RedirectUrl => JString(s.redirectUrl)
    case Cve => (match s.codeVerifierEnc case Some(c) => JSealed(c) case None => JString(""))
    case Csrf => JString(s.csrf)
    case Nonce => JString(s.nonce)
    case IsChallenge => JBool(s.isChallenge)
    case Typ => JString(s.typ)
    case IssuedAt => JTime(s.issuedAt)
    case Expires => JTime(s.expires)
    case _ => JString("")
  }

  /** omitempty drops empty strings and false, never a time. */
  predicate Written(s: OidcState, k: Key) {
    match k
    case Action => true
    case RedirectUrl => true
    case IssuedAt => true
    case Expires => true
    case Cve => s.codeVerifierEnc.Some?
    case Csrf => s.csrf != ""
    case Nonce => s.nonce != ""
    case IsChallenge => s.isChallenge
    case Typ => s.typ != ""
    case _ => false
  }

  /** json.Marshal. */
  function Marshal(s: OidcState): JsonObject {
    map k: Key | Written(s, k) :: FieldOf(s, k)
  }

  /** json.Unmarshal: a value of the wrong type under one key fails the whole object. */
  function Unmarshal(f: JsonObject): Option<OidcState> {
    var action, url, cve, csrf := GetString(f, Action), GetString(f, RedirectUrl), GetSealed(f, Cve), GetString(f, Csrf);
    var nonce, challenge, typ := GetString(f, Nonce), GetBool(f, IsChallenge), GetString(f, Typ);
    var issued, expires := GetTime(f, IssuedAt), GetTime(f, Expires);
    if action.Some? && url.Some? && cve.Some? && csrf.Some? && nonce.Some? && challenge.Some? && typ.Some?
       && issued.Some? && expires.Some?
    then Some(OidcState(action.value, url.value, cve.value, csrf.value, nonce.value, challenge.value, typ.value,
                        issued.value, expires.value))
    else None
  }

  lemma MarshalAt(s: OidcState, k: Key)
    ensures k in Marshal(s) <==> Written(s, k)
    ensures k in Marshal(s) ==> Marshal(s)[k] == FieldOf(s, k)
  {
  }

  lemma MarshalRoundTrip(s: OidcState)
    ensures Unmarshal(Marshal(s)) == Some(s)
  {
    hide Marshal;
    MarshalAt(s, Action); MarshalAt(s, RedirectUrl); MarshalAt(s, Cve); MarshalAt(s, Csrf); MarshalAt(s, Nonce);
    MarshalAt(s, IsChallenge); MarshalAt(s, Typ); MarshalAt(s, IssuedAt); MarshalAt(s, Expires);
  }

  function Stamped(s: OidcState, now: Time): OidcState {
    s.(typ := STATE_TYPE_TAG, issuedAt := now, expires := now + STATE_LIFETIME)
  }

  /** SealState. */
  function SealState(s: OidcState, secret: string, now: Time): Ciphertext {
    Encrypt(Object(Marshal(Stamped(s, now))), secret, ForState)
  }

  datatype UnsealError = NotOpened | BadJson | WrongType | StateExpired

  /** The shape openState demands of a purpose-less plaintext before it trusts it as a legacy state. */
  predicate LegacyShape(f: JsonObject) {
    && Typ !in f
    && !(Expires in f && f[Expires].JTime? && f[Expires].t != 0)
    && Action in f && f[Action].JString? && f[Action].s != ""
  }

  /** openState: the plaintext, and whether the legacy path was taken. */
  function OpenState(c: Ciphertext, secret: string): Option<(Plaintext, bool)> {
    match Decrypt(c, secret, ForState)
    case Some(plain) => Some((plain, false))
    case None =>
      match Decrypt(c, secret, NoPurpose)
      case None => None
      case Some(plain) => if plain.Object? && LegacyShape(plain.fields) then Some((plain, true)) else None
  }

  /** UnsealState. */
  function UnsealState(c: Ciphertext, secret: string, now: Time): Result<OidcState, UnsealError> {
    match OpenState(c, secret)
    case None => Err(NotOpened)
    case Some((plain, legacy)) =>
      if !plain.Object? then Err(BadJson)
      else match Unmarshal(plain.fields)
        case None => Err(BadJson)
        case Some(s) =>
          if !legacy && s.typ != STATE_TYPE_TAG then Err(WrongType)
          else if s.expires != 0 && now > s.expires then Err(StateExpired)
          else Ok(s)
  }

  /** Sealing then unsealing gives every field back until ten minutes have passed, and nothing after. */
  lemma SealRoundTrip(s: OidcState, secret: string, sealedAt: Time, now: Time)
    ensures UnsealState(SealState(s, secret, sealedAt), secret, now)
         == if now <= sealedAt + STATE_LIFETIME then Ok(Stamped(s, sealedAt)) else Err(StateExpired)
  {
    MarshalRoundTrip(Stamped(s, sealedAt));
  }

  /** Only a holder of the secret can have made a value that unseals; one that outlives every clock is
      a legacy state, and a value sealed for the session purpose is never one. */
  lemma OnlySealedHereUnseals(c: Ciphertext, secret: string, now: Time)
    requires UnsealState(c, secret, now).Ok?
    ensures c.Sealed? && c.key == secret && c.purpose in {ForState, NoPurpose}
    ensures c.purpose == NoPurpose ==> forall later: Time :: UnsealState(c, secret, later).Ok?
    ensures c.purpose == ForState ==> UnsealState(c, secret, now).value.typ == STATE_TYPE_TAG
  {
    if c.purpose == NoPurpose {
      var f := c.plain.fields;
      assert LegacyShape(f) && Unmarshal(f).Some?;
      assert GetTime(f, Expires) == Some(0);
    }
  }
}
