/** Activity over time: once inactive, always inactive; the two ways of being
    told about expiry; and the expiry of denylist rows. */
module TokenActivity {
  import opened Prelude
  import opened Claims
  import opened Signer
  import opened TokenTables
  import opened Lifecycle
  import opened LifecycleRuns

  function Verified(s: State, t: Token): Result<StandardClaims, DecodeError> {
    VerifyRaw(s.signer, t, Permissive(), s.clock)
  }

  predicate ActiveAt(w: World, s: State, req: ValidateRequest) {
    ActiveVerdict(Validate(w.cfg, s.signer, s.db, req, s.clock))
  }

  predicate IntrospectsActive(w: World, s: State, t: Token) {
    Introspect(w.cfg, s.signer, s.db, t, s.clock).Active?
  }

  // ------------------------------------------------------------ what can change

  predicate Advertised(signer: JwtSigner, key: Key, now: Instant) {
    key == signer.current.key || (ActivePrevious(signer, now).Some? && ActivePrevious(signer, now).value.key == key)
  }

  lemma VerifiesIff(signer: JwtSigner, t: Token, now: Instant, c: StandardClaims)
    ensures VerifyRaw(signer, t, Permissive(), now) == Ok(c)
            <==> && t.Signed? && t.defect.None? && Decode(t.payload) == Ok(c)
                 && Advertised(signer, t.key, now) && !Misrouted(signer, t, now)
  {
  }

  /** What a later state may differ in: more time, more denied, more keys used, and
      fewer of the keys used so far still advertised. */
  ghost predicate Later(s: State, s': State) {
    && s.clock <= s'.clock
    && s.db.deny.Keys <= s'.db.deny.Keys
    && s.ring.Values <= s'.ring.Values
    && (forall key ::
          key in s.ring.Values && Advertised(s'.signer, key, s'.clock) ==> Advertised(s.signer, key, s.clock))
  }

  lemma LaterTransitive(a: State, b: State, c: State)
    requires Later(a, b) && Later(b, c)
    ensures Later(a, c)
  {
  }

  lemma TablesGrowing(s: State, s': State)
    requires s'.signer == s.signer && s'.clock == s.clock && s'.ring == s.ring && s.db.deny.Keys <= s'.db.deny.Keys
    ensures Later(s, s')
  {
  }

  lemma RotateIsLater(w: World, s: State, pair: KeyPair, retiresAt: Instant)
    requires KeysOk(s.signer, s.ring) && Enabled(w, s, Rotate(pair, retiresAt))
    ensures Later(s, Apply(w, s, Rotate(pair, retiresAt)))
  {
    var s' := Apply(w, s, Rotate(pair, retiresAt));
    forall key | key in s.ring.Values
      ensures key in s'.ring.Values
    {
      var kid :| kid in s.ring && s.ring[kid] == key;
      assert s'.ring[kid] == key;
    }
  }

  lemma RevokeIsLater(w: World, s: State, token: Token, reason: Option<string>)
    ensures Later(s, Apply(w, s, Revoke(token, reason)))
  {
    RevokeIsDeny(w, s, token, reason);
    TablesGrowing(s, Apply(w, s, Revoke(token, reason)));
  }

  lemma StepIsLater(w: World, s: State, e: Event)
    requires KeysOk(s.signer, s.ring) && Enabled(w, s, e)
    ensures Later(s, Apply(w, s, e))
  {
    match e
    case Tick(_) =>
    case Rotate(pair, retiresAt) => RotateIsLater(w, s, pair, retiresAt);
    case Generate(_, _, _) => TablesGrowing(s, Apply(w, s, e));
    case ExtendCheck(_, _, _) => TablesGrowing(s, Apply(w, s, e));
    case ExtendCommit(call, jti, rowId) => TablesGrowing(s, Committed(w, s, call, jti, rowId));
    case ExtendAbandon(_) => TablesGrowing(s, Apply(w, s, e));
    case Revoke(token, reason) => RevokeIsLater(w, s, token, reason);
    case RevokeJti(_, _) => TablesGrowing(s, Apply(w, s, e));
  }

  lemma StepOfRunIsLater(w: World, s0: State, events: seq<Event>, k: nat)
    requires IsRun(w, s0, events) && k < |events|
    ensures Later(StateAt(w, s0, events, k), StateAt(w, s0, events, k + 1))
  {
    InvAlways(w, s0, events, k);
    StepIsLater(w, StateAt(w, s0, events, k), events[k]);
  }

  lemma {:induction false} RunsGoForward(w: World, s0: State, events: seq<Event>, i: nat, k: nat)
    requires IsRun(w, s0, events) && i <= k <= |events|
    ensures Later(StateAt(w, s0, events, i), StateAt(w, s0, events, k))
    decreases k - i
  {
    if i < k {
      StepOfRunIsLater(w, s0, events, i);
      RunsGoForward(w, s0, events, i + 1, k);
      LaterTransitive(StateAt(w, s0, events, i), StateAt(w, s0, events, i + 1), StateAt(w, s0, events, k));
    }
  }

  // -------------------------------------------------------- never reactivated

  /** TIM can tell that the token is one of its own: its kid does not send it to
      another key, and its key has been used by now. */
  predicate Recognised(s: State, token: Token) {
    token.Signed? && token.key in s.ring.Values && !Misrouted(s.signer, token, s.clock)
  }

  lemma VerifiedBefore(s: State, s': State, token: Token)
    requires KeysOk(s.signer, s.ring) && Later(s, s') && Verified(s', token).Ok?
    ensures Recognised(s, token) ==> Verified(s, token) == Verified(s', token)
    ensures !Recognised(s, token) ==> Verified(s, token).Err?
  {
    var c := Verified(s', token).value;
    VerifiesIff(s'.signer, token, s'.clock, c);
    VerifiesIff(s.signer, token, s.clock, c);
    if Verified(s, token).Ok? {
      VerifiesIff(s.signer, token, s.clock, Verified(s, token).value);
      assert s.signer.current.key in s.ring.Values;
    }
  }

  lemma ActiveBefore(w: World, s: State, s': State, req: ValidateRequest)
    requires KeysOk(s.signer, s.ring) && Later(s, s')
    ensures ActiveAt(w, s', req) ==> (ActiveAt(w, s, req) <==> Recognised(s, req.token))
    ensures IntrospectsActive(w, s', req.token) ==> (IntrospectsActive(w, s, req.token) <==> Recognised(s, req.token))
  {
    if Verified(s', req.token).Ok? {
      VerifiedBefore(s, s', req.token);
      TimestampMonotone(s.clock, s'.clock);
    }
  }

  /** Over every run, through generates, extends, revocations, time, key retirement
      and rotation: any token that is active later is inactive now exactly when its kid
      misroutes it now, or its key has not been used yet. */
  lemma ReactivationIff(w: World, s0: State, events: seq<Event>, i: nat, k: nat, req: ValidateRequest)
    requires IsRun(w, s0, events) && i <= k <= |events|
    ensures var s, s' := StateAt(w, s0, events, i), StateAt(w, s0, events, k);
            && (ActiveAt(w, s', req) ==> (!ActiveAt(w, s, req) <==> !Recognised(s, req.token)))
            && (IntrospectsActive(w, s', req.token)
                ==> (!IntrospectsActive(w, s, req.token) <==> !Recognised(s, req.token)))
  {
    InvAlways(w, s0, events, i);
    RunsGoForward(w, s0, events, i, k);
    ActiveBefore(w, StateAt(w, s0, events, i), StateAt(w, s0, events, k), req);
  }

  /** A minted token's kid names the key that signed it, so it is never misrouted. */
  lemma MintedIsRecognised(w: World, s: State, j: Uuid)
    requires KeysOk(s.signer, s.ring) && TokensOk(s.minted, s.ring, s.db.meta) && j in s.minted
    ensures Recognised(s, s.minted[j])
  {
    assert MintedOk(s.minted[j], s.ring, LatestRow(s.db.meta, j).value, j);
  }

  /** A minted token that validation (under any issuer and audience asked for)
      or introspection calls inactive is called inactive in every later state. */
  lemma InactiveStaysInactive(w: World, s0: State, events: seq<Event>, i: nat, k: nat, j: Uuid, audience: Option<Text>,
                              issuer: Option<Text>)
    requires IsRun(w, s0, events) && i <= k <= |events|
    requires j in StateAt(w, s0, events, i).minted
    ensures var s, s' := StateAt(w, s0, events, i), StateAt(w, s0, events, k);
            var t := s.minted[j];
            && (!ActiveAt(w, s, ValidateRequest(t, audience, issuer))
                ==> !ActiveAt(w, s', ValidateRequest(t, audience, issuer)))
            && (!IntrospectsActive(w, s, t) ==> !IntrospectsActive(w, s', t))
  {
    InvAlways(w, s0, events, i);
    MintedIsRecognised(w, StateAt(w, s0, events, i), j);
    ReactivationIff(w, s0, events, i, k, ValidateRequest(StateAt(w, s0, events, i).minted[j], audience, issuer));
  }

  /** A misrouted token exists for every claim set: signed by the current key under the
      retiring key's kid, it is inactive, and active once that key has retired. */
  lemma MisroutedTokenReactivates(cfg: JwtConfig, db: Db, c: StandardClaims)
    requires c.extra.Keys !! TYPED && c.iss == cfg.issuer && c.jti.UuidText? && c.jti.uuid !in db.deny && c.exp >= 0
    ensures var s := JwtSigner(KeyPair("new", 1), Some(KeyPair("old", 2)), Some(10));
            var token := Signed(Some("old"), None, 1, Encode(c));
            && Signer.Valid(s)
            && Introspect(cfg, s, db, token, 0) == Inactive
            && Introspect(cfg, s, db, token, 10) == Active(c)
  {
    MisroutedTokenIsLost(c);
  }

  // ------------------------------------------------------ expiry in two units

  /** For a token with a row, validation that says "expired" means the listing
      no longer says "active"; the listing says "expired" of a token validation
      still calls active only inside the second that contains `expires_at`, and
      then of every such token whose issuer and audience are accepted. */
  lemma ValidateExpiredVersusListing(w: World, s0: State, events: seq<Event>, k: nat, j: Uuid, audience: Option<Text>,
                                     issuer: Option<Text>)
    requires IsRun(w, s0, events) && k <= |events| && j in StateAt(w, s0, events, k).minted
    ensures ExpiryAgrees(w, StateAt(w, s0, events, k), j,
                         ValidateRequest(StateAt(w, s0, events, k).minted[j], audience, issuer))
  {
    InvAlways(w, s0, events, k);
    ExpiryInTwoUnits(w, StateAt(w, s0, events, k), j, audience, issuer);
  }

  ghost predicate ExpiryAgrees(w: World, s: State, j: Uuid, req: ValidateRequest) {
    LatestRow(s.db.meta, j).Some?
    && var row := LatestRow(s.db.meta, j).value;
       var v := Validate(w.cfg, s.signer, s.db, req, s.clock);
       && (v.Ok? && v.value.reason == Expired ==> !StatusOf(s.db, row, s.clock).ListActive?)
       && (ActiveVerdict(v) && StatusOf(s.db, row, s.clock).ListExpired? <==>
           && Verified(s, req.token).Ok? && PartiesAgree(w.cfg, req, Verified(s, req.token).value)
           && j !in s.db.deny && row.expiresAt < s.clock && Timestamp(row.expiresAt) == Timestamp(s.clock))
  }

  lemma ExpiryInTwoUnits(w: World, s: State, j: Uuid, audience: Option<Text>, issuer: Option<Text>)
    requires TokensOk(s.minted, s.ring, s.db.meta) && j in s.minted
    ensures ExpiryAgrees(w, s, j, ValidateRequest(s.minted[j], audience, issuer))
  {
    var row := LatestRow(s.db.meta, j).value;
    assert MintedOk(s.minted[j], s.ring, row, j);
    LatestRowIsARow(s.db.meta, j);
    if row.expiresAt < s.clock { TimestampMonotone(row.expiresAt, s.clock); }
    VerifiedClaims(s.signer, s.minted[j], s.clock);
    if Verified(s, s.minted[j]).Ok? {
      var c := Verified(s, s.minted[j]).value;
      assert c.exp == Timestamp(row.expiresAt) && ParseUuid(c.jti) == Some(j);
      assert StatusOf(s.db, row, s.clock).ListRevoked? <==> j in s.db.deny;
    }
  }

  lemma VerifiedClaims(signer: JwtSigner, t: Token, now: Instant)
    ensures VerifyRaw(signer, t, Permissive(), now).Ok?
            ==> ClaimsOf(t) == Some(VerifyRaw(signer, t, Permissive(), now).value)
  {
  }

  // ------------------------------------------------ expiry of denylist rows

  /** Whichever path wrote it, a minted token's denylist row does not expire
      before the token does. */
  lemma DenyRowOutlivesToken(w: World, s0: State, events: seq<Event>, k: nat, j: Uuid)
    requires IsRun(w, s0, events) && k <= |events|
    requires var s := StateAt(w, s0, events, k); j in s.minted && j in s.db.deny
    ensures var s := StateAt(w, s0, events, k);
            ClaimsOf(s.minted[j]).Some? && s.db.deny[j].expiresAt >= AtSecond(ClaimsOf(s.minted[j]).value.exp)
  {
    InvAlways(w, s0, events, k);
    var s := StateAt(w, s0, events, k);
    assert MintedOk(s.minted[j], s.ring, LatestRow(s.db.meta, j).value, j);
    assert Outlives(s.db.deny[j], s.minted[j]);
  }
}
