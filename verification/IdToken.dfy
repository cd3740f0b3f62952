/** ID-token verification and profile mapping (src/oauth2/idtoken.rs). */
module IdToken {
  import opened Prelude
  import opened Claims
  import opened Strings

  datatype Alg = HS256 | HS384 | HS512 | RS256 | RS384 | RS512 | PS256 | PS384 | PS512 | ES256 | ES384 | EdDSA

  datatype Kty = RsaKty | EcKty | OtherKty

  /** A JWK's own `alg` may also be one that is not for signing. */
  datatype KeyAlg = SignsWith(alg: Alg) | NotForSigning

  type KeyId = nat

  /** `usable` is false when the key's parameters do not make a key. */
  datatype Jwk = Jwk(kid: Option<string>, alg: Option<KeyAlg>, kty: Kty, usable: bool, key: KeyId)

  datatype IdClaims = IdClaims(
    iss: Option<string>,
    sub: Option<string>,
    aud: seq<string>,
    exp: int,
    nbf: Option<int>,
    iat: int,
    nonce: Option<string>,
    extra: map<string, Json>)

  /** `claims` is absent when the payload does not have the required shape. */
  datatype IdToken =
    | BadHeader
    | IdToken(alg: Alg, kid: Option<string>, key: KeyId, claims: Option<IdClaims>)

  datatype VerifyError =
    | HeaderUnreadable
    | SymmetricAlg
    | JwksUnavailable
    | KidNotInJwks
    | NoKeyForAlg
    | KeyUnusable
    | SignatureOrClaimsRejected
    | AudienceMissing
    | IssuedInFuture
    | NonceMissing
    | NonceMismatch

  datatype Expectation = Expectation(issuer: string, clientId: string, skew: nat, nonce: string)

  predicate Symmetric(a: Alg) {
    a.HS256? || a.HS384? || a.HS512?
  }

  /** The key type an algorithm needs. */
  function Family(a: Alg): Kty {
    match a
    case RS256 | RS384 | RS512 | PS256 | PS384 | PS512 => RsaKty
    case ES256 | ES384 => EcKty
    case _ => OtherKty
  }

  predicate JwkMatchesAlg(k: Jwk, a: Alg) {
    if k.alg.Some? then k.alg.value == SignsWith(a)
    else k.kty != OtherKty && Family(a) == k.kty
  }

  /** Is this key one that selection would settle on? */
  predicate Candidate(t: IdToken, k: Jwk)
    requires t.IdToken?
  {
    if t.kid.Some? then k.kid == t.kid else JwkMatchesAlg(k, t.alg)
  }

  function FirstCandidate(t: IdToken, jwks: seq<Jwk>): Option<Jwk>
    requires t.IdToken?
  {
    if jwks == [] then None
    else if Candidate(t, jwks[0]) then Some(jwks[0])
    else FirstCandidate(t, jwks[1..])
  }

  /** The library's part: signature, required claims, times with leeway, issuer. */
  predicate LibraryAccepts(t: IdToken, k: Jwk, want: Expectation, now: int)
    requires t.IdToken?
  {
    && Family(t.alg) == k.kty
    && t.key == k.key
    && t.claims.Some?
    && var c := t.claims.value;
       && c.sub.Some? && c.iss == Some(want.issuer)
       && c.exp >= now - want.skew
       && (c.nbf.Some? ==> c.nbf.value <= now + want.skew)
  }

  /** `fetched` is the provider's key set, asked for once the header is acceptable. */
  function Verify(fetched: Option<seq<Jwk>>, want: Expectation, t: IdToken, now: int)
    : (r: Result<IdClaims, VerifyError>)
    ensures r.Ok? ==> r.value.sub.Some? && r.value.iss.Some?
  {
    if t.BadHeader? then Err(HeaderUnreadable)
    else if Symmetric(t.alg) then Err(SymmetricAlg)
    else if fetched.None? then Err(JwksUnavailable)
    else
      var k := FirstCandidate(t, fetched.value);
      if k.None? then Err(if t.kid.Some? then KidNotInJwks else NoKeyForAlg)
      else if k.value.kty == OtherKty || !k.value.usable then Err(KeyUnusable)
      else if !LibraryAccepts(t, k.value, want, now) then Err(SignatureOrClaimsRejected)
      else
        var c := t.claims.value;
        if want.clientId !in c.aud then Err(AudienceMissing)
        else if c.iat > now + want.skew then Err(IssuedInFuture)
        else if c.nonce.None? then Err(NonceMissing)
        else if c.nonce.value != want.nonce then Err(NonceMismatch)
        else Ok(c)
  }

  /** Section 3.1.3.7 of OpenID Connect Core, with one clock skew for all times. */
  predicate ClaimsAcceptable(c: IdClaims, want: Expectation, now: int) {
    && c.iss == Some(want.issuer)
    && want.clientId in c.aud
    && c.sub.Some?
    && now <= c.exp + want.skew
    && (c.nbf.Some? ==> c.nbf.value - want.skew <= now)
    && c.iat - want.skew <= now
    && c.nonce == Some(want.nonce)
  }

  /** The signature verifies under this published, usable, asymmetric key. */
  predicate SignedUnder(t: IdToken, k: Jwk) {
    t.IdToken? && !Symmetric(t.alg) && k.usable && k.kty != OtherKty && Family(t.alg) == k.kty && t.key == k.key
  }

  lemma {:induction false} FirstCandidateResult(t: IdToken, jwks: seq<Jwk>)
    requires t.IdToken?
    ensures FirstCandidate(t, jwks).None? <==> forall k :: k in jwks ==> !Candidate(t, k)
    ensures FirstCandidate(t, jwks).Some?
            ==> FirstCandidate(t, jwks).value in jwks && Candidate(t, FirstCandidate(t, jwks).value)
  {
    if jwks != [] {
      FirstCandidateResult(t, jwks[1..]);
      assert jwks == [jwks[0]] + jwks[1..];
    }
  }

  /** Accepted means signed under a published key with acceptable claims; the
      one published key tried is the first that matches, so a token signed by a
      later match is turned away. */
  lemma VerifyAcceptsIff(fetched: Option<seq<Jwk>>, want: Expectation, t: IdToken, now: int)
    ensures Verify(fetched, want, t, now).Ok? <==>
            && t.IdToken? && t.claims.Some? && ClaimsAcceptable(t.claims.value, want, now)
            && fetched.Some?
            && (exists k :: k in fetched.value && SignedUnder(t, k) && FirstCandidate(t, fetched.value) == Some(k))
    ensures Verify(fetched, want, t, now).Ok? ==> Verify(fetched, want, t, now).value == t.claims.value
  {
    if t.IdToken? && fetched.Some? {
      FirstCandidateResult(t, fetched.value);
    }
  }

  /** When selection has only one key to settle on, verification accepts exactly
      what some published matching key would. */
  lemma UnambiguousKeyLosesNothing(jwks: seq<Jwk>, want: Expectation, t: IdToken, now: int)
    requires t.IdToken?
    requires forall k1, k2 :: k1 in jwks && k2 in jwks && Candidate(t, k1) && Candidate(t, k2) ==> k1 == k2
    ensures Verify(Some(jwks), want, t, now).Ok? <==>
            && t.claims.Some? && ClaimsAcceptable(t.claims.value, want, now)
            && exists k :: k in jwks && Candidate(t, k) && SignedUnder(t, k)
  {
    VerifyAcceptsIff(Some(jwks), want, t, now);
    FirstCandidateResult(t, jwks);
  }

  /** Which key is tried: with a kid the first key of that kid, whatever it says of its
      algorithm; without one the first that declares the header's algorithm, or declares
      none and is of its kind. */
  lemma KeyTried(t: IdToken, jwks: seq<Jwk>, k: Jwk)
    requires t.IdToken?
    ensures FirstCandidate(t, jwks) == Some(k) ==> k in jwks
    ensures FirstCandidate(t, jwks) == Some(k) && t.kid.Some? ==> k.kid == t.kid
    ensures FirstCandidate(t, jwks) == Some(k) && t.kid.None? && k.alg.Some? ==> k.alg == Some(SignsWith(t.alg))
    ensures FirstCandidate(t, jwks) == Some(k) && t.kid.None? && k.alg.None? ==>
              || (k.kty.RsaKty? && t.alg in {RS256, RS384, RS512, PS256, PS384, PS512})
              || (k.kty.EcKty? && t.alg in {ES256, ES384})
    ensures FirstCandidate(t, jwks) == None ==>
              forall x :: x in jwks ==> if t.kid.Some? then x.kid != t.kid else x.alg != Some(SignsWith(t.alg))
  {
    FirstCandidateResult(t, jwks);
  }

  /** Why an ID token is refused, in the order in which it is noticed. */
  lemma VerifyRefusals(fetched: Option<seq<Jwk>>, want: Expectation, t: IdToken, now: int)
    ensures var r := Verify(fetched, want, t, now);
            && (r == Err(HeaderUnreadable) <==> t.BadHeader?)
            && (r == Err(SymmetricAlg) <==> t.IdToken? && t.alg in {HS256, HS384, HS512})
            && (r == Err(JwksUnavailable) <==> t.IdToken? && t.alg !in {HS256, HS384, HS512} && fetched == None)
    ensures t.IdToken? && t.alg !in {HS256, HS384, HS512} && fetched.Some? ==>
              RefusedFor(FirstCandidate(t, fetched.value), want, t, now, Verify(fetched, want, t, now))
  {
  }

  ghost predicate RefusedFor(tried: Option<Jwk>, want: Expectation, t: IdToken, now: int,
                             r: Result<IdClaims, VerifyError>)
    requires t.IdToken?
  {
    if tried.None? then r == Err(if t.kid.Some? then KidNotInJwks else NoKeyForAlg)
    else
      var k := tried.value;
      var usable := k.usable && !k.kty.OtherKty?;
      (r == Err(KeyUnusable) <==> !usable)
      && (usable && t.claims.None? ==> r == Err(SignatureOrClaimsRejected))
      && (usable && t.claims.Some? ==>
            var c := t.claims.value;
            var signed := SignedUnder(t, k) && c.iss == Some(want.issuer) && c.sub.Some? && now <= c.exp + want.skew
                          && (c.nbf.Some? ==> c.nbf.value - want.skew <= now);
            var meant := signed && want.clientId in c.aud;
            var timely := meant && c.iat - want.skew <= now;
            && (r == Err(SignatureOrClaimsRejected) <==> !signed)
            && (r == Err(AudienceMissing) <==> signed && want.clientId !in c.aud)
            && (r == Err(IssuedInFuture) <==> meant && c.iat - want.skew > now)
            && (r == Err(NonceMissing) <==> timely && c.nonce == None)
            && (r == Err(NonceMismatch) <==> timely && c.nonce.Some? && c.nonce != Some(want.nonce))
            && (r == Ok(c) <==> timely && c.nonce == Some(want.nonce)))
  }

  // ------------------------------------------------------------ profile mapping

  /** Walks the segments into nested objects. */
  function Walk(fields: map<string, Json>, segments: seq<string>): Option<Json>
    requires segments != []
    decreases |segments|
  {
    if segments[0] !in fields then None
    else if |segments| == 1 then Some(fields[segments[0]])
    else if fields[segments[0]].Obj? then Walk(fields[segments[0]].fields, segments[1..])
    else None
  }

  function Resolve(extra: map<string, Json>, path: string): Option<Json> {
    Walk(extra, Split(path, '.'))
  }

  method ResolveClaimPath(extra: map<string, Json>, path: string) returns (r: Option<Json>)
    ensures r == Resolve(extra, path)
  {
    var segments := Split(path, '.');
    if segments[0] !in extra {
      return None;
    }
    var current := extra[segments[0]];
    var i := 1;
    while i < |segments|
      invariant 1 <= i <= |segments|
      invariant Walk(extra, segments) ==
                if i == |segments| then Some(current)
                else if current.Obj? then Walk(current.fields, segments[i..]) else None
    {
      if !current.Obj? || segments[i] !in current.fields {
        return None;
      }
      assert segments[i..][1..] == segments[i + 1..];
      current := current.fields[segments[i]];
      i := i + 1;
    }
    return Some(current);
  }

  lemma {:induction false} WalkAppend(fields: map<string, Json>, a: seq<string>, b: seq<string>)
    requires a != [] && b != []
    ensures Walk(fields, a + b) == match Walk(fields, a)
                                   case Some(Obj(inner)) => Walk(inner, b)
                                   case _ => None
    decreases |a|
  {
    if |a| == 1 {
      assert (a + b)[1..] == b;
    } else if a[0] in fields && fields[a[0]].Obj? {
      assert (a + b)[1..] == a[1..] + b;
      WalkAppend(fields[a[0]].fields, a[1..], b);
    }
  }

  /** A dotted path means: resolve the front, then the rest inside that object.
      There is no falling back to a top-level claim with the trailing name. */
  lemma DottedPathNests(extra: map<string, Json>, front: string, back: string)
    ensures Resolve(extra, front + "." + back) == match Resolve(extra, front)
                                                  case Some(Obj(inner)) => Resolve(inner, back)
                                                  case _ => None
  {
    SplitAppend(front, '.', back);
    assert front + "." + back == front + ['.'] + back;
    WalkAppend(extra, Split(front, '.'), Split(back, '.'));
  }

  lemma PlainPathIsTopLevel(extra: map<string, Json>, name: string)
    requires '.' !in name
    ensures Resolve(extra, name) == if name in extra then Some(extra[name]) else None
  {
    FindAbsent(name, '.');
  }

  /** What a mapping finds: a registered claim by its name, else a path. */
  function ClaimFor(c: IdClaims, key: string): Option<Json>
    requires c.sub.Some? && c.iss.Some?
  {
    if key == "sub" then Some(Str(Plain(c.sub.value)))
    else if key == "iss" then Some(Str(Plain(c.iss.value)))
    else if key == "aud" then Some(Texts(seq(|c.aud|, i requires 0 <= i < |c.aud| => Plain(c.aud[i]))))
    else Resolve(c.extra, key)
  }

  /** Every mapped name whose claim is there, and no other. */
  function ProfileOf(mappings: map<string, string>, c: IdClaims): map<string, Json>
    requires c.sub.Some? && c.iss.Some?
  {
    ProfileOver(mappings.Keys, mappings, c)
  }

  /** The profile as far as these names go. */
  function ProfileOver(names: set<string>, mappings: map<string, string>, c: IdClaims): map<string, Json>
    requires c.sub.Some? && c.iss.Some?
  {
    map name | name in names && IsFound(mappings, c, name) ::
      if name in names && IsFound(mappings, c, name) then ClaimFor(c, mappings[name]).value else Null
  }

  predicate IsFound(mappings: map<string, string>, c: IdClaims, name: string)
    requires c.sub.Some? && c.iss.Some?
  {
    name in mappings && ClaimFor(c, mappings[name]).Some?
  }

  /** A mapping reaches the registered claims by their names, and the audience as a list
      even of one; everything else, dots included, among the provider's own claims. */
  lemma ProfileTells(mappings: map<string, string>, c: IdClaims, name: string)
    requires c.sub.Some? && c.iss.Some? && name in mappings
    ensures var profile := ProfileOf(mappings, c);
            && (mappings[name] == "sub" ==> name in profile && profile[name] == Str(Plain(c.sub.value)))
            && (mappings[name] == "iss" ==> name in profile && profile[name] == Str(Plain(c.iss.value)))
            && (mappings[name] == "aud" ==>
                  && name in profile && profile[name].Arr? && |profile[name].items| == |c.aud|
                  && forall i :: 0 <= i < |c.aud| ==> profile[name].items[i] == Str(Plain(c.aud[i])))
            && (mappings[name] !in {"sub", "iss", "aud"} ==>
                  (if name in profile then Some(profile[name]) else None) == Resolve(c.extra, mappings[name]))
    ensures ProfileOf(mappings, c).Keys <= mappings.Keys
  {
  }

  method ProfileFromClaims(mappings: map<string, string>, c: IdClaims)
    returns (userId: string, profile: map<string, Json>)
    requires c.sub.Some? && c.iss.Some?
    ensures userId == c.sub.value && profile == ProfileOf(mappings, c)
  {
    profile := map[];
    var rest := mappings.Keys;
    while rest != {}
      invariant rest <= mappings.Keys
      invariant profile == ProfileOver(mappings.Keys - rest, mappings, c)
      decreases |rest|
    {
      var name :| name in rest;
      rest := rest - {name};
      var key := mappings[name];
      var v := ClaimFor(c, key);
      if key !in {"sub", "iss", "aud"} {
        v := ResolveClaimPath(c.extra, key);
      }
      if v.Some? {
        profile := profile[name := v.value];
      }
    }
    userId := c.sub.value;
  }
}
