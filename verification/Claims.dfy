/** The claim set TIM signs, and its flattened JSON encoding (src/jwt/service.rs). */
module Claims {
  import opened Prelude

  type Uuid = nat

  /** A string as `Uuid::parse_str` sees it: either it is one of the spellings
      of a UUID (number 0 is what `to_string` prints) or it does not parse. */
  datatype Text = Plain(s: string) | UuidText(uuid: Uuid, spelling: nat)

  function ParseUuid(t: Text): Option<Uuid> {
    if t.UuidText? then Some(t.uuid) else None
  }

  datatype Json =
    | Null
    | Bool(b: bool)
    | Num(n: int)
    | Str(t: Text)
    | Arr(items: seq<Json>)
    | Obj(fields: map<string, Json>)

  datatype StandardClaims = StandardClaims(
    iss: Text,
    sub: Option<Text>,
    aud: Option<seq<Text>>,
    exp: int,
    iat: int,
    jti: Text,
    extra: map<string, Json>)

  /** A JSON object as a reader keyed by name sees it: for each name, the
      values written under it, in order. More than one is a duplicate field. */
  type Members = map<string, seq<Json>>

  /** Names with a typed field of their own. */
  const TYPED: set<string> := {"iss", "sub", "aud", "exp", "iat", "jti"}

  const RESERVED_CLAIM_NAMES: seq<string> := ["iss", "sub", "aud", "exp", "iat", "jti", "nbf"]

  const TOKEN_TYPE: string := "token_type"

  const CUSTOM_JWT: Json := Str(Plain("custom_jwt"))

  function OptText(t: Option<Text>): Json {
    match t case None => Null case Some(v) => Str(v)
  }

  function Texts(ts: seq<Text>): Json {
    Arr(seq(|ts|, i requires 0 <= i < |ts| => Str(ts[i])))
  }

  function TypedField(c: StandardClaims, name: string): Json
    requires name in TYPED
  {
    if name == "iss" then Str(c.iss)
    else if name == "sub" then OptText(c.sub)
    else if name == "aud" then (match c.aud case None => Null case Some(a) => Texts(a))
    else if name == "exp" then Num(c.exp)
    else if name == "iat" then Num(c.iat)
    else Str(c.jti)
  }

  /** `serde(flatten)`: the typed members, then every extra claim. A name that
      is both is written twice. */
  function Encode(c: StandardClaims): Members {
    map k | k in TYPED + c.extra.Keys ::
      (if k in TYPED then [TypedField(c, k)] else []) +
      (if k in c.extra then [c.extra[k]] else [])
  }

  datatype ClaimsError = DuplicateField(name: string) | MissingField(name: string) | WrongType(name: string)

  function Values(m: Members, name: string): seq<Json> {
    if name in m then m[name] else []
  }

  function Field(m: Members, name: string): Json
    requires |Values(m, name)| <= 1
  {
    if Values(m, name) == [] then Null else Values(m, name)[0]
  }

  function AllTexts(items: seq<Json>): Option<seq<Text>> {
    if forall i :: 0 <= i < |items| ==> items[i].Str? then
      Some(seq(|items|, i requires 0 <= i < |items| && items[i].Str? => items[i].t))
    else None
  }

  predicate IsExtra(m: Members, k: string) {
    k in m && k !in TYPED && m[k] != []
  }

  /** What is left for the flattened map; a repeated name keeps its last value. The
      comprehension is total in its values: no map is to depend on names it lacks. */
  function Extra(m: Members): (e: map<string, Json>)
    ensures e.Keys !! TYPED
  {
    map k | k in m && IsExtra(m, k) :: if k in m && IsExtra(m, k) then m[k][|m[k]| - 1] else Null
  }

  function Decode(m: Members): (r: Result<StandardClaims, ClaimsError>)
    ensures r.Ok? ==> r.value.extra.Keys !! TYPED
  {
    if |Values(m, "iss")| > 1 then Err(DuplicateField("iss"))
    else if |Values(m, "sub")| > 1 then Err(DuplicateField("sub"))
    else if |Values(m, "aud")| > 1 then Err(DuplicateField("aud"))
    else if |Values(m, "exp")| > 1 then Err(DuplicateField("exp"))
    else if |Values(m, "iat")| > 1 then Err(DuplicateField("iat"))
    else if |Values(m, "jti")| > 1 then Err(DuplicateField("jti"))
    else if Values(m, "iss") == [] then Err(MissingField("iss"))
    else if Values(m, "exp") == [] then Err(MissingField("exp"))
    else if Values(m, "iat") == [] then Err(MissingField("iat"))
    else if Values(m, "jti") == [] then Err(MissingField("jti"))
    else
      var iss, sub, aud := Field(m, "iss"), Field(m, "sub"), Field(m, "aud");
      var exp, iat, jti := Field(m, "exp"), Field(m, "iat"), Field(m, "jti");
      if !iss.Str? then Err(WrongType("iss"))
      else if !(sub.Null? || sub.Str?) then Err(WrongType("sub"))
      else if !(aud.Null? || (aud.Arr? && AllTexts(aud.items).Some?)) then Err(WrongType("aud"))
      else if !exp.Num? then Err(WrongType("exp"))
      else if !iat.Num? then Err(WrongType("iat"))
      else if !jti.Str? then Err(WrongType("jti"))
      else
        Ok(StandardClaims(
             iss.t,
             if sub.Null? then None else Some(sub.t),
             if aud.Null? then None else AllTexts(aud.items),
             exp.n, iat.n, jti.t, Extra(m)))
  }

  lemma EncodedValues(c: StandardClaims, name: string)
    requires name in TYPED
    ensures Values(Encode(c), name) ==
            if name in c.extra then [TypedField(c, name), c.extra[name]] else [TypedField(c, name)]
  {
  }

  lemma TextsRoundTrip(ts: seq<Text>)
    ensures Texts(ts).Arr? && AllTexts(Texts(ts).items) == Some(ts)
  {
    assert AllTexts(Texts(ts).items).value == ts;
  }

  lemma ExtraRoundTrip(c: StandardClaims)
    requires c.extra.Keys !! TYPED
    ensures Extra(Encode(c)) == c.extra
  {
  }

  lemma CleanClaimsRoundTrip(c: StandardClaims)
    requires c.extra.Keys !! TYPED
    ensures Decode(Encode(c)) == Ok(c)
  {
    EncodedValues(c, "iss");
    EncodedValues(c, "sub");
    EncodedValues(c, "aud");
    EncodedValues(c, "exp");
    EncodedValues(c, "iat");
    EncodedValues(c, "jti");
    ExtraRoundTrip(c);
    if c.aud.Some? {
      TextsRoundTrip(c.aud.value);
    }
    assert forall n :: n in TYPED ==> n !in c.extra;
    assert "iss" in TYPED && "sub" in TYPED && "aud" in TYPED && "exp" in TYPED && "iat" in TYPED && "jti" in TYPED;
  }

  lemma DuplicateFieldRejected(c: StandardClaims, name: string)
    requires name in TYPED && name in c.extra
    ensures Decode(Encode(c)).Err? && Decode(Encode(c)).error.DuplicateField?
  {
    EncodedValues(c, name);
    assert |Values(Encode(c), name)| == 2;
  }

  /** The encoding round-trips exactly when no extra claim uses the name of a
      typed field; otherwise decoding fails on the duplicate. */
  lemma RoundTrip(c: StandardClaims)
    ensures Decode(Encode(c)) == Ok(c) <==> c.extra.Keys !! TYPED
    ensures !(c.extra.Keys !! TYPED) ==> Decode(Encode(c)).Err? && Decode(Encode(c)).error.DuplicateField?
  {
    if c.extra.Keys !! TYPED {
      CleanClaimsRoundTrip(c);
    } else {
      var k :| k in c.extra.Keys && k in TYPED;
      DuplicateFieldRejected(c, k);
    }
  }

  /** The members that are signed, by their registered names. */
  lemma EncodedMembers(c: StandardClaims)
    requires c.extra.Keys !! TYPED
    ensures Encode(c).Keys == c.extra.Keys + {"iss", "sub", "aud", "exp", "iat", "jti"}
    ensures Encode(c)["iss"] == [Str(c.iss)] && Encode(c)["jti"] == [Str(c.jti)]
    ensures Encode(c)["exp"] == [Num(c.exp)] && Encode(c)["iat"] == [Num(c.iat)]
    ensures Encode(c)["sub"] == [if c.sub.Some? then Str(c.sub.value) else Null]
    ensures Encode(c)["aud"] == [if c.aud.Some? then Texts(c.aud.value) else Null]
    ensures forall k :: k in c.extra ==> Encode(c)[k] == [c.extra[k]]
  {
    EncodedValues(c, "iss");
    EncodedValues(c, "sub");
    EncodedValues(c, "aud");
    EncodedValues(c, "exp");
    EncodedValues(c, "iat");
    EncodedValues(c, "jti");
    assert forall n :: n in TYPED ==> n !in c.extra;
    assert "iss" in TYPED && "sub" in TYPED && "aud" in TYPED && "exp" in TYPED && "iat" in TYPED && "jti" in TYPED;
  }

  function StripReserved(content: map<string, Json>): map<string, Json> {
    content - (set n | n in RESERVED_CLAIM_NAMES)
  }

  /** The loop that removes the registered names one by one. */
  method RemoveReserved(content: map<string, Json>) returns (kept: map<string, Json>)
    ensures kept == StripReserved(content)
  {
    kept := content;
    for i := 0 to |RESERVED_CLAIM_NAMES|
      invariant kept == content - (set n | n in RESERVED_CLAIM_NAMES[..i])
    {
      kept := kept - {RESERVED_CLAIM_NAMES[i]};
      assert RESERVED_CLAIM_NAMES[..i + 1] == RESERVED_CLAIM_NAMES[..i] + [RESERVED_CLAIM_NAMES[i]];
    }
    assert RESERVED_CLAIM_NAMES[..|RESERVED_CLAIM_NAMES|] == RESERVED_CLAIM_NAMES;
  }

  /** The extra claims `generate` signs. */
  function GeneratedExtra(content: map<string, Json>): (e: map<string, Json>)
    ensures e.Keys !! TYPED
    ensures e.Keys == (content.Keys - (set n | n in RESERVED_CLAIM_NAMES)) + {TOKEN_TYPE}
    ensures e[TOKEN_TYPE] == CUSTOM_JWT
    ensures forall k :: k in e && k != TOKEN_TYPE ==> k in content && e[k] == content[k]
  {
    assert forall k :: k in TYPED ==> k in RESERVED_CLAIM_NAMES by {
      assert RESERVED_CLAIM_NAMES[0] == "iss" && RESERVED_CLAIM_NAMES[1] == "sub";
      assert RESERVED_CLAIM_NAMES[2] == "aud" && RESERVED_CLAIM_NAMES[3] == "exp";
      assert RESERVED_CLAIM_NAMES[4] == "iat" && RESERVED_CLAIM_NAMES[5] == "jti";
    }
    assert TOKEN_TYPE !in TYPED by {
      assert |TOKEN_TYPE| == 10;
    }
    assert TOKEN_TYPE !in RESERVED_CLAIM_NAMES;
    StripReserved(content)[TOKEN_TYPE := CUSTOM_JWT]
  }

  /** The extra claims `extend` signs: the old ones, with a token type if they had none. */
  function ExtendedExtra(before: map<string, Json>): (e: map<string, Json>)
    ensures before.Keys !! TYPED ==> e.Keys !! TYPED
    ensures TOKEN_TYPE in before ==> e == before
    ensures e.Keys == before.Keys + {TOKEN_TYPE}
  {
    assert TOKEN_TYPE !in TYPED by {
      assert |TOKEN_TYPE| == 10;
    }
    if TOKEN_TYPE in before then before else before[TOKEN_TYPE := CUSTOM_JWT]
  }
}
