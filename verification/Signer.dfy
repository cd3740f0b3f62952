/** The RS256 signer with one current key and an optional retiring key (src/crypto/mod.rs). */
module Signer {
  import opened Prelude
  import opened Claims

  /** Key material. A signature verifies under the key that made it and no other. */
  type Key = nat

  datatype KeyPair = KeyPair(kid: string, key: Key)

  datatype JwtSigner = JwtSigner(current: KeyPair, previous: Option<KeyPair>, previousRetiresAt: Option<Instant>)

  /** A compact JWS. `Unreadable` has no decodable header. `defect` is a fault
      found before the signature is compared (wrong algorithm, undecodable
      signature), so it is the same fault under every key. */
  datatype Token =
    | Unreadable
    | Signed(kid: Option<string>, defect: Option<nat>, key: Key, payload: Members)

  datatype DecodeError = InvalidToken | Defective(code: nat) | InvalidSignature | BadClaims(why: ClaimsError) | Rejected

  /** Claim checks a caller asks the decoder for. */
  type Validation = StandardClaims -> bool

  /** No claim checks at all. */
  function Permissive(): Validation {
    (c: StandardClaims) => true
  }

  function FromKey(current: KeyPair): JwtSigner {
    JwtSigner(current, None, None)
  }

  function WithPrevious(s: JwtSigner, prev: KeyPair, retiresAt: Instant): Result<JwtSigner, string> {
    if prev.kid == s.current.kid then Err("jwt.previous_key.key_id must differ from jwt.key_id")
    else Ok(s.(previous := Some(prev), previousRetiresAt := Some(retiresAt)))
  }

  /** What the two constructors establish. */
  predicate Valid(s: JwtSigner) {
    && (s.previous.Some? <==> s.previousRetiresAt.Some?)
    && (s.previous.Some? ==> s.previous.value.kid != s.current.kid)
  }

  lemma ConstructorsValid(current: KeyPair, prev: KeyPair, retiresAt: Instant)
    ensures Valid(FromKey(current))
    ensures WithPrevious(FromKey(current), prev, retiresAt).Ok? <==> prev.kid != current.kid
    ensures WithPrevious(FromKey(current), prev, retiresAt).Ok?
            ==> Valid(WithPrevious(FromKey(current), prev, retiresAt).value)
  {
  }

  function ActivePrevious(s: JwtSigner, now: Instant): Option<KeyPair> {
    if s.previousRetiresAt.None? || s.previousRetiresAt.value <= now then None
    else s.previous
  }

  function ActivePreviousMatching(s: JwtSigner, kid: string, now: Instant): Option<KeyPair> {
    var prev := ActivePrevious(s, now);
    if prev.Some? && prev.value.kid == kid then prev else None
  }

  /** The keys advertised at an instant. */
  function Jwks(s: JwtSigner, now: Instant): seq<KeyPair> {
    [s.current] + (if ActivePrevious(s, now).Some? then [ActivePrevious(s, now).value] else [])
  }

  function Sign(s: JwtSigner, c: StandardClaims): Token {
    Signed(Some(s.current.kid), None, s.current.key, Encode(c))
  }

  function DecodeToken(token: Token, key: Key, validation: Validation): Result<StandardClaims, DecodeError> {
    if token.Unreadable? then Err(InvalidToken)
    else if token.defect.Some? then Err(Defective(token.defect.value))
    else if token.key != key then Err(InvalidSignature)
    else match Decode(token.payload)
      case Err(e) => Err(BadClaims(e))
      case Ok(c) => if validation(c) then Ok(c) else Err(Rejected)
  }

  /** Routes by `kid` to the retiring key, otherwise tries the current key and
      falls back to the retiring one on a signature mismatch only. */
  function VerifyRaw(s: JwtSigner, token: Token, validation: Validation, now: Instant)
    : Result<StandardClaims, DecodeError>
  {
    if token.Signed? && token.kid.Some? && ActivePreviousMatching(s, token.kid.value, now).Some? then
      DecodeToken(token, ActivePreviousMatching(s, token.kid.value, now).value.key, validation)
    else
      match DecodeToken(token, s.current.key, validation)
      case Ok(c) => Ok(c)
      case Err(e) =>
        if e.InvalidSignature? && ActivePrevious(s, now).Some? then
          DecodeToken(token, ActivePrevious(s, now).value.key, validation)
        else Err(e)
  }

  /** The simple specification: some advertised key accepts the token. */
  ghost predicate SomeKeyAccepts(s: JwtSigner, token: Token, validation: Validation, now: Instant, c: StandardClaims) {
    exists i :: 0 <= i < |Jwks(s, now)| && DecodeToken(token, Jwks(s, now)[i].key, validation) == Ok(c)
  }

  /** The header names the active retiring key, but another key signed. */
  predicate Misrouted(s: JwtSigner, token: Token, now: Instant) {
    && token.Signed? && token.kid.Some?
    && ActivePreviousMatching(s, token.kid.value, now).Some?
    && ActivePrevious(s, now).value.key != token.key
  }

  /** Kid routing and the fallback lose exactly the misrouted tokens, and accept
      nothing an advertised key would not. */
  lemma VerifyRawRefinesTryAllKeys(s: JwtSigner, token: Token, validation: Validation, now: Instant, c: StandardClaims)
    ensures VerifyRaw(s, token, validation, now) == Ok(c)
            <==> SomeKeyAccepts(s, token, validation, now, c) && !Misrouted(s, token, now)
  {
    var keys := Jwks(s, now);
    assert keys[0] == s.current;
    if ActivePrevious(s, now).Some? {
      assert keys[1] == ActivePrevious(s, now).value;
    }
  }

  /** The header's kid, when there is one, is the kid of an advertised key that signed. */
  predicate KidNamesSigner(s: JwtSigner, token: Token, now: Instant) {
    && token.Signed?
    && (token.kid.None? || KeyPair(token.kid.value, token.key) in Jwks(s, now))
  }

  lemma HonestKidIsNeverMisrouted(s: JwtSigner, token: Token, validation: Validation, now: Instant, c: StandardClaims)
    requires Valid(s) && KidNamesSigner(s, token, now)
    ensures !Misrouted(s, token, now)
    ensures VerifyRaw(s, token, validation, now) == Ok(c) <==> SomeKeyAccepts(s, token, validation, now, c)
  {
    VerifyRawRefinesTryAllKeys(s, token, validation, now, c);
  }

  /** A misrouted token signed by the current key: every verifier that reads the
      advertised keys accepts it; `VerifyRaw` does not until the retiring key has gone. */
  lemma MisroutedTokenIsLost(c: StandardClaims)
    requires c.extra.Keys !! TYPED
    ensures var s := JwtSigner(KeyPair("new", 1), Some(KeyPair("old", 2)), Some(10));
            var token := Signed(Some("old"), None, 1, Encode(c));
            && Valid(s)
            && SomeKeyAccepts(s, token, Permissive(), 0, c)
            && VerifyRaw(s, token, Permissive(), 0) == Err(InvalidSignature)
            && VerifyRaw(s, token, Permissive(), 10) == Ok(c)
  {
    RoundTrip(c);
    var s := JwtSigner(KeyPair("new", 1), Some(KeyPair("old", 2)), Some(10));
    var token := Signed(Some("old"), None, 1, Encode(c));
    assert Jwks(s, 0)[0] == s.current;
    assert DecodeToken(token, Jwks(s, 0)[0].key, Permissive()) == Ok(c);
    assert "new" != "old" by { assert "new"[0] != "old"[0]; }
  }

  /** Any error other than a signature mismatch is the error under every
      key the token could be accepted by, so retrying it would not help. */
  lemma FallbackOnlyOnMismatch(token: Token, k1: Key, k2: Key, validation: Validation)
    requires DecodeToken(token, k1, validation).Err?
    requires !DecodeToken(token, k1, validation).error.InvalidSignature?
    ensures DecodeToken(token, k2, validation).Err?
  {
  }

  /** Signing and verifying round-trips, with the kid guard of `WithPrevious`
      being exactly what this needs during a grace period. */
  lemma SignVerifyRoundTrip(s: JwtSigner, c: StandardClaims, validation: Validation, now: Instant)
    requires c.extra.Keys !! TYPED && validation(c)
    ensures Valid(s) ==> VerifyRaw(s, Sign(s, c), validation, now) == Ok(c)
    ensures VerifyRaw(s, Sign(s, c), validation, now) == Ok(c)
            <==> (ActivePrevious(s, now).Some? && ActivePrevious(s, now).value.kid == s.current.kid
                  ==> ActivePrevious(s, now).value.key == s.current.key)
  {
    RoundTrip(c);
  }

  /** Verification is lost over time, never gained, except by a misrouted token,
      which is accepted again once the key it names has retired. */
  lemma AcceptanceOnlyShrinks(s: JwtSigner, token: Token, validation: Validation, t: Instant, later: Instant)
    requires t <= later && VerifyRaw(s, token, validation, later).Ok?
    ensures VerifyRaw(s, token, validation, t) == VerifyRaw(s, token, validation, later)
            <==> !Misrouted(s, token, t)
    ensures Misrouted(s, token, t) ==> VerifyRaw(s, token, validation, t) == Err(InvalidSignature)
  {
  }

  /** Some advertised key signed the token, and its kid does not hide that. */
  predicate SignatureFound(s: JwtSigner, token: Token, now: Instant) {
    && token.Signed? && !Misrouted(s, token, now)
    && exists i :: 0 <= i < |Jwks(s, now)| && Jwks(s, now)[i].key == token.key
  }

  /** Why a token is refused: it has no header, it has a fault of its own, no advertised
      key that its kid allows signed it, or its payload is not a claim set. */
  lemma VerifyRawErrors(s: JwtSigner, token: Token, now: Instant)
    ensures var r := VerifyRaw(s, token, Permissive(), now);
            && (r == Err(InvalidToken) <==> token.Unreadable?)
            && (forall n: nat :: r == Err(Defective(n)) <==> token.Signed? && token.defect == Some(n))
            && (r == Err(InvalidSignature) <==> token.Signed? && token.defect == None && !SignatureFound(s, token, now))
            && (forall e :: r == Err(BadClaims(e)) <==>
                  token.Signed? && token.defect == None && SignatureFound(s, token, now)
                    && Decode(token.payload) == Err(e))
            && r != Err(Rejected)
  {
    var keys := Jwks(s, now);
    assert keys[0] == s.current;
    if ActivePrevious(s, now).Some? {
      assert keys[1] == ActivePrevious(s, now).value;
    }
  }

  /** The keys advertised: the current one, and the previous one until it retires. */
  lemma JwksAre(s: JwtSigner, now: Instant)
    requires Valid(s)
    ensures Jwks(s, now) == if s.previous.Some? && now < s.previousRetiresAt.value then [s.current, s.previous.value]
                            else [s.current]
  {
  }
}
