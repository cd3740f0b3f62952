/** What each call of the token service answers and leaves behind, told from the
    token, the tables and the clock (src/jwt/service.rs). Instants are microseconds. */
module TokenAnswers {
  import opened Prelude
  import opened Claims
  import opened Signer
  import opened TokenTables

  /** The token verifies with these claims. */
  ghost predicate Accepted(signer: JwtSigner, token: Token, now: Instant, c: StandardClaims) {
    SomeKeyAccepts(signer, token, Permissive(), now, c) && !Misrouted(signer, token, now)
  }

  lemma AcceptedIff(signer: JwtSigner, token: Token, now: Instant, c: StandardClaims)
    ensures VerifyRaw(signer, token, Permissive(), now) == Ok(c) <==> Accepted(signer, token, now, c)
  {
    VerifyRawRefinesTryAllKeys(signer, token, Permissive(), now, c);
  }

  lemma RefusedIff(signer: JwtSigner, token: Token, now: Instant)
    ensures VerifyRaw(signer, token, Permissive(), now).Err? <==> forall c :: !Accepted(signer, token, now, c)
  {
    var v := VerifyRaw(signer, token, Permissive(), now);
    if v.Ok? {
      AcceptedIff(signer, token, now, v.value);
    } else {
      forall c ensures !Accepted(signer, token, now, c) {
        AcceptedIff(signer, token, now, c);
      }
    }
  }

  /** The second in which the token expires is over. */
  predicate LastSecondOver(c: StandardClaims, now: Instant) {
    c.exp * 1_000_000 + 1_000_000 <= now
  }

  /** The seconds since the epoch that the date library can represent. */
  predicate Representable(seconds: int) {
    -8_334_601_228_800 <= seconds <= 8_210_266_876_799
  }

  /** Signed by the current key, with its kid, and carrying these claims. */
  predicate SignedNow(signer: JwtSigner, token: Token, c: StandardClaims) {
    && token.Signed? && token.kid == Some(signer.current.kid) && token.key == signer.current.key && token.defect == None
    && Decode(token.payload) == Ok(c)
  }

  // ---------------------------------------------------------------- generate

  function Asked(cfg: JwtConfig, requested: Option<Audience>): seq<Text> {
    match requested
    case None => [cfg.audienceDefault]
    case Some(Single(one)) => [one]
    case Some(Multi(many)) => many
  }

  /** The policy refuses the audience at `i`, and none before it. */
  predicate FirstRefused(cfg: JwtConfig, aud: seq<Text>, i: int) {
    && cfg.audienceValidation && cfg.audienceAllowed != []
    && FirstOutside(cfg.audienceAllowed, aud, i)
  }

  /** The first element that is not among the allowed. */
  predicate FirstOutside(allowed: seq<Text>, aud: seq<Text>, i: int) {
    0 <= i < |aud| && aud[i] !in allowed && forall k :: 0 <= k < i ==> aud[k] in allowed
  }

  lemma {:induction false} FirstForbiddenIs(cfg: JwtConfig, aud: seq<Text>)
    ensures var r := FirstForbidden(cfg, aud);
            if r.Some? then exists i :: FirstOutside(cfg.audienceAllowed, aud, i) && aud[i] == r.value
            else forall k :: 0 <= k < |aud| ==> aud[k] in cfg.audienceAllowed
  {
    var allowed := cfg.audienceAllowed;
    if aud != [] && aud[0] in allowed {
      FirstForbiddenIs(cfg, aud[1..]);
      assert forall k :: 1 <= k < |aud| ==> aud[k] == aud[1..][k - 1];
      if FirstForbidden(cfg, aud[1..]).Some? {
        var i :| FirstOutside(allowed, aud[1..], i) && aud[1..][i] == FirstForbidden(cfg, aud).value;
        assert FirstOutside(allowed, aud, i + 1);
      }
    } else if aud != [] {
      assert FirstOutside(allowed, aud, 0);
    }
  }

  lemma ResolveAnswers(cfg: JwtConfig, requested: Option<Audience>)
    ensures var r, aud := ResolveAudience(cfg, requested), Asked(cfg, requested);
            && (r.Ok? ==> r == Ok(aud) && forall i :: !FirstRefused(cfg, aud, i))
            && (r.Err? ==> exists i :: FirstRefused(cfg, aud, i) && r == Err(AudienceNotAllowed(aud[i])))
  {
    FirstForbiddenIs(cfg, Asked(cfg, requested));
    var r, aud := ResolveAudience(cfg, requested), Asked(cfg, requested);
    if r.Err? {
      var i :| FirstOutside(cfg.audienceAllowed, aud, i) && aud[i] == r.error.audience;
      assert FirstRefused(cfg, aud, i);
    }
  }

  /** Which generates are refused, and why. */
  lemma GenerateRefusals(cfg: JwtConfig, signer: JwtSigner, db: Db, req: GenerateRequest, now: Instant, jti: Uuid,
                         rowId: Uuid)
    ensures var (r, after) := GenerateAtOnce(cfg, signer, db, req, now, jti, rowId);
            var aud := Asked(cfg, req.audience);
            var sized := req.minutes > 0 && req.contentBytes <= cfg.maxClaimsBytes;
            && (r == Err(MinutesNotPositive) <==> req.minutes <= 0)
            && (r == Err(ClaimsTooLarge) <==> req.minutes > 0 && req.contentBytes > cfg.maxClaimsBytes)
            && (forall i :: FirstRefused(cfg, aud, i) && sized ==> r == Err(AudienceNotAllowed(aud[i])))
            && (sized && (forall i :: !FirstRefused(cfg, aud, i)) ==> r.Ok?)
            && (r.Err? ==> after == db)
  {
    ResolveAnswers(cfg, req.audience);
    var r, aud := ResolveAudience(cfg, req.audience), Asked(cfg, req.audience);
    forall i | FirstRefused(cfg, aud, i)
      ensures r == Err(AudienceNotAllowed(aud[i]))
    {
      if r.Err? {
        var k :| FirstRefused(cfg, aud, k) && r == Err(AudienceNotAllowed(aud[k]));
        OneFirstRefused(cfg, aud, i, k);
      }
    }
  }

  lemma OneFirstRefused(cfg: JwtConfig, aud: seq<Text>, i: int, k: int)
    requires FirstRefused(cfg, aud, i) && FirstRefused(cfg, aud, k)
    ensures i == k
  {
  }

  /** The content as it is signed: without the registered names, with the token type. */
  predicate KeepsContent(content: map<string, Json>, extra: map<string, Json>) {
    && extra.Keys == (content.Keys - {"iss", "sub", "aud", "exp", "iat", "jti", "nbf"}) + {"token_type"}
    && extra["token_type"] == Str(Plain("custom_jwt"))
    && forall k :: k in extra && k != "token_type" ==> k in content && extra[k] == content[k]
  }

  lemma GeneratedKeepsContent(content: map<string, Json>)
    ensures KeepsContent(content, GeneratedExtra(content))
  {
    assert RESERVED_CLAIM_NAMES[0] == "iss" && RESERVED_CLAIM_NAMES[1] == "sub" && RESERVED_CLAIM_NAMES[2] == "aud";
    assert RESERVED_CLAIM_NAMES[3] == "exp" && RESERVED_CLAIM_NAMES[4] == "iat" && RESERVED_CLAIM_NAMES[5] == "jti";
    assert RESERVED_CLAIM_NAMES[6] == "nbf";
    assert (set n | n in RESERVED_CLAIM_NAMES) == {"iss", "sub", "aud", "exp", "iat", "jti", "nbf"};
  }

  /** What a generate that is not refused signs, writes and answers. */
  lemma GenerateAnswers(cfg: JwtConfig, signer: JwtSigner, db: Db, req: GenerateRequest, now: Instant, jti: Uuid,
                        rowId: Uuid)
    returns (c: StandardClaims)
    requires GenerateAtOnce(cfg, signer, db, req, now, jti, rowId).0.Ok?
    ensures var (r, after) := GenerateAtOnce(cfg, signer, db, req, now, jti, rowId);
            var aud, until := Asked(cfg, req.audience), now + req.minutes * 60_000_000;
            && r.value.status == "created" && r.value.jwtName == req.jwtName && r.value.expiresAt == until
            && SignedNow(signer, r.value.token, c)
            && c.iss == cfg.issuer && c.aud == Some(aud)
            && c.exp == until / 1_000_000 && c.iat == now / 1_000_000 && c.jti == UuidText(jti, 0)
            && (forall s :: c.sub == Some(s) <==> "sub" in req.content && req.content["sub"] == Str(s))
            && KeepsContent(req.content, c.extra)
            && after.deny == db.deny
            && after.meta == db.meta + [MetaRow(rowId, jti, now, c.extra.Keys, now, until, c.sub, Some(req.jwtName),
                                                aud,
                                                cfg.issuer, None, jti)]
  {
    c := PlannedGenerateTells(cfg, signer, req, now, jti, rowId);
  }

  lemma PlannedGenerateTells(cfg: JwtConfig, signer: JwtSigner, req: GenerateRequest, now: Instant, jti: Uuid,
                             rowId: Uuid)
    returns (c: StandardClaims)
    requires PlanGenerate(cfg, signer, req, now, jti, rowId).Ok?
    ensures var issue := PlanGenerate(cfg, signer, req, now, jti, rowId).value;
            var aud, until := Asked(cfg, req.audience), now + req.minutes * 60_000_000;
            && SignedNow(signer, issue.token, c)
            && c.iss == cfg.issuer && c.aud == Some(aud)
            && c.exp == until / 1_000_000 && c.iat == now / 1_000_000 && c.jti == UuidText(jti, 0)
            && (forall s :: c.sub == Some(s) <==> "sub" in req.content && req.content["sub"] == Str(s))
            && KeepsContent(req.content, c.extra)
            && issue.row == MetaRow(rowId, jti, now, c.extra.Keys, now, until, c.sub, Some(req.jwtName), aud,
                                    cfg.issuer,
                                    None, jti)
  {
    ResolveAnswers(cfg, req.audience);
    GeneratedKeepsContent(req.content);
    c := PlanGenerate(cfg, signer, req, now, jti, rowId).value.claims;
    RoundTrip(c);
  }

  // ------------------------------------------------------------------ extend

  /** Which extends are refused, and why; the tables are then as they were. */
  lemma ExtendRefusals(cfg: JwtConfig, signer: JwtSigner, db: Db, token: Token, minutes: Option<int>, now: Instant,
                       at: Instant, jti: Uuid, rowId: Uuid)
    ensures var (r, after) := ExtendAtOnce(cfg, signer, db, token, minutes, now, at, jti, rowId);
            && (r.Err? && r.error.TokenNotVerified? <==> forall c :: !Accepted(signer, token, now, c))
            && (r.Err? ==> after == db)
    ensures forall c :: Accepted(signer, token, now, c) ==>
              ExtendRefusalsFor(db, minutes, now, c,
                                ExtendAtOnce(cfg, signer, db, token, minutes, now, at, jti, rowId).0)
  {
    RefusedIff(signer, token, now);
    forall c | Accepted(signer, token, now, c)
      ensures ExtendRefusalsFor(db, minutes, now, c,
                                ExtendAtOnce(cfg, signer, db, token, minutes, now, at, jti, rowId).0)
    {
      AcceptedIff(signer, token, now, c);
    }
  }

  /** The refusals of an extend of a token with these claims, in the order of its checks. */
  predicate ExtendRefusalsFor(db: Db, minutes: Option<int>, now: Instant, c: StandardClaims,
                              r: Result<TokenResponse, ServiceError>)
  {
    var m := if minutes.Some? then minutes.value else 60;
    var live := !LastSecondOver(c, now);
    var usable := live && c.jti.UuidText? && c.jti.uuid !in db.deny;
    && (r == Err(TokenExpired) <==> !live)
    && (r == Err(JtiNotUuid) <==> live && !c.jti.UuidText?)
    && (r == Err(TokenRevoked) <==> live && c.jti.UuidText? && c.jti.uuid in db.deny)
    && (r == Err(MinutesNotPositive) <==> usable && m <= 0)
    && (r == Err(ExpOutOfRange) <==> usable && m > 0 && !Representable(c.exp))
    && (r.Ok? <==> usable && m > 0 && Representable(c.exp))
  }

  /** The extras of an extended token: the old ones, and the token type if they had none. */
  predicate ExtendsContent(before: map<string, Json>, extra: map<string, Json>) {
    && extra.Keys == before.Keys + {"token_type"}
    && (forall k :: k in before ==> extra[k] == before[k])
    && ("token_type" !in before ==> extra["token_type"] == Str(Plain("custom_jwt")))
  }

  /** What an extend of a token with claims `c` answers and leaves, and the claims `d`
      that it signs. */
  predicate ExtendedFor(cfg: JwtConfig, signer: JwtSigner, db: Db, minutes: Option<int>, now: Instant, at: Instant,
                        jti: Uuid, rowId: Uuid, c: StandardClaims, d: StandardClaims, r: TokenResponse, after: Db)
  {
    c.jti.UuidText?
    && var until := now + (if minutes.Some? then minutes.value else 60) * 60_000_000;
       var row := LatestRow(db.meta, c.jti.uuid);
       var name := if row.Some? then row.value.jwtName else None;
       && r.status == "extended" && r.expiresAt == until
       && r.jwtName == (if name.Some? then name.value else Plain("EXTENDED_TOKEN"))
       && SignedNow(signer, r.token, d)
       && d.iss == cfg.issuer && d.sub == c.sub && d.aud == c.aud
       && d.exp == until / 1_000_000 && d.iat == now / 1_000_000 && d.jti == UuidText(jti, 0)
       && ExtendsContent(c.extra, d.extra)
       && after.deny == db.deny[c.jti.uuid := DenyRow(at, c.exp * 1_000_000, Some("superseded_by_extend"))]
       && after.meta == db.meta + [MetaRow(rowId, jti, at, d.extra.Keys, now, until, c.sub, name,
                                           if c.aud.Some? then c.aud.value else [], cfg.issuer,
                                           if row.Some? then Some(row.value.id) else None,
                                           if row.Some? then row.value.original else c.jti.uuid)]
  }

  /** What an extend that is not refused signs, writes and answers. */
  lemma ExtendAnswers(cfg: JwtConfig, signer: JwtSigner, db: Db, token: Token, minutes: Option<int>, now: Instant,
                      at: Instant, jti: Uuid, rowId: Uuid, c: StandardClaims)
    returns (d: StandardClaims)
    requires Accepted(signer, token, now, c)
    requires ExtendAtOnce(cfg, signer, db, token, minutes, now, at, jti, rowId).0.Ok?
    ensures var (r, after) := ExtendAtOnce(cfg, signer, db, token, minutes, now, at, jti, rowId);
            ExtendedFor(cfg, signer, db, minutes, now, at, jti, rowId, c, d, r.value, after)
  {
    var p := CheckTells(signer, db, token, minutes, now, c);
    d := FinishAnswers(cfg, signer, db, minutes, p, at, jti, rowId);
  }

  /** What the first half of an extend carries to the second. */
  predicate CarriedFor(db: Db, minutes: Option<int>, p: PendingExtend) {
    p.claims.jti.UuidText? && p.oldJti == p.claims.jti.uuid
    && var row := LatestRow(db.meta, p.oldJti);
       && p.newExp == p.now + (if minutes.Some? then minutes.value else 60) * 60_000_000
       && p.original == (if row.Some? then row.value.original else p.oldJti)
       && p.prevRow == (if row.Some? then Some(row.value.id) else None)
       && p.jwtName == (if row.Some? then row.value.jwtName else None)
  }

  lemma FinishAnswers(cfg: JwtConfig, signer: JwtSigner, db: Db, minutes: Option<int>, p: PendingExtend, at: Instant,
                      jti: Uuid, rowId: Uuid)
    returns (d: StandardClaims)
    requires p.claims.extra.Keys !! TYPED && CarriedFor(db, minutes, p) && p.oldJti !in db.deny
    requires FinishExtend(cfg, signer, db, p, jti, rowId, at).0.Ok?
    ensures var (r, after) := FinishExtend(cfg, signer, db, p, jti, rowId, at);
            ExtendedFor(cfg, signer, db, minutes, p.now, at, jti, rowId, p.claims, d, r.value, after)
  {
    d := PlannedExtendTells(cfg, signer, p, jti, rowId, at);
    FinishTells(cfg, signer, db, p, jti, rowId, at);
  }

  lemma CheckTells(signer: JwtSigner, db: Db, token: Token, minutes: Option<int>, now: Instant, c: StandardClaims)
    returns (p: PendingExtend)
    requires Accepted(signer, token, now, c) && CheckExtend(signer, db, token, minutes, now).Ok?
    ensures CheckExtend(signer, db, token, minutes, now) == Ok(p) && c.extra.Keys !! TYPED
    ensures c.jti.UuidText? && c.jti.uuid !in db.deny
    ensures p.claims == c && p.now == now && CarriedFor(db, minutes, p)
  {
    AcceptedIff(signer, token, now, c);
    p := CheckExtend(signer, db, token, minutes, now).value;
  }

  lemma PlannedExtendTells(cfg: JwtConfig, signer: JwtSigner, p: PendingExtend, jti: Uuid, rowId: Uuid, at: Instant)
    returns (d: StandardClaims)
    requires p.claims.extra.Keys !! TYPED
    ensures var issue := PlanExtend(cfg, signer, p, jti, rowId, at);
            && SignedNow(signer, issue.token, d)
            && d.iss == cfg.issuer && d.sub == p.claims.sub && d.aud == p.claims.aud
            && d.exp == p.newExp / 1_000_000 && d.iat == p.now / 1_000_000 && d.jti == UuidText(jti, 0)
            && ExtendsContent(p.claims.extra, d.extra)
            && issue.row == MetaRow(rowId, jti, at, d.extra.Keys, p.now, p.newExp, p.claims.sub, p.jwtName,
                                    if p.claims.aud.Some? then p.claims.aud.value else [], cfg.issuer, p.prevRow,
                                    p.original)
  {
    d := PlanExtend(cfg, signer, p, jti, rowId, at).claims;
    ExtendedExtraTells(p.claims.extra);
    RoundTrip(d);
  }

  lemma FinishTells(cfg: JwtConfig, signer: JwtSigner, db: Db, p: PendingExtend, jti: Uuid, rowId: Uuid, at: Instant)
    requires FinishExtend(cfg, signer, db, p, jti, rowId, at).0.Ok? && p.oldJti !in db.deny
    ensures var (r, after) := FinishExtend(cfg, signer, db, p, jti, rowId, at);
            var issue := PlanExtend(cfg, signer, p, jti, rowId, at);
            && r.value == TokenResponse("extended", if p.jwtName.Some? then p.jwtName.value
                                        else Plain("EXTENDED_TOKEN"),
                                        issue.token, p.newExp)
            && after.meta == db.meta + [issue.row]
            && after.deny == db.deny[p.oldJti := DenyRow(at, p.claims.exp * 1_000_000, Some("superseded_by_extend"))]
  {
  }

  lemma ExtendedExtraTells(before: map<string, Json>)
    ensures ExtendsContent(before, ExtendedExtra(before))
  {
  }

  // ------------------------------------------------------------------ revoke

  /** What a revocation by token answers and leaves. */
  lemma RevokeAnswers(signer: JwtSigner, db: Db, token: Token, reason: Option<string>, now: Instant)
    ensures var (r, after) := RevokeToken(signer, db, token, reason, now);
            && (r.Err? && r.error.TokenNotVerified? <==> forall c :: !Accepted(signer, token, now, c))
            && (r.Err? ==> after == db)
    ensures forall c :: Accepted(signer, token, now, c) ==>
              var (r, after) := RevokeToken(signer, db, token, reason, now); RevokedFor(db, c, reason, now, r, after)
  {
    RefusedIff(signer, token, now);
    forall c | Accepted(signer, token, now, c)
      ensures var (r, after) := RevokeToken(signer, db, token, reason, now); RevokedFor(db, c, reason, now, r, after)
    {
      AcceptedIff(signer, token, now, c);
    }
  }

  /** Newly revoked or already, with the token's own expiry; expired tokens too. */
  predicate RevokedFor(db: Db, c: StandardClaims, reason: Option<string>, now: Instant, r: Result<bool, ServiceError>,
                       after: Db)
  {
    && (r == Err(JtiNotUuid) <==> !c.jti.UuidText?)
    && (r == Err(ExpOutOfRange) <==> c.jti.UuidText? && !Representable(c.exp))
    && (r == Ok(true) <==> c.jti.UuidText? && Representable(c.exp) && c.jti.uuid !in db.deny)
    && (r == Ok(false) <==> c.jti.UuidText? && Representable(c.exp) && c.jti.uuid in db.deny)
    && after == (if r == Ok(true) && c.jti.UuidText?
                 then Db(db.meta, db.deny[c.jti.uuid := DenyRow(now, c.exp * 1_000_000, reason)]) else db)
  }

  /** What a revocation by jti answers and leaves. */
  lemma RevokeByJtiAnswers(db: Db, jti: Uuid, reason: Option<string>, now: Instant)
    ensures var (r, after) := RevokeByJti(db, jti, reason, now);
            && (r == None <==> forall i :: 0 <= i < |db.meta| ==> db.meta[i].jwtUuid != jti)
            && (r == Some(true) <==> jti !in db.deny && exists i :: 0 <= i < |db.meta| && db.meta[i].jwtUuid == jti)
            && (r == Some(false) <==> jti in db.deny && exists i :: 0 <= i < |db.meta| && db.meta[i].jwtUuid == jti)
            && (r != Some(true) ==> after == db)
            && (r == Some(true) ==>
                  exists i :: 0 <= i < |db.meta| && db.meta[i].jwtUuid == jti
                              && (forall k :: 0 <= k < |db.meta| && db.meta[k].jwtUuid == jti
                                              ==> db.meta[k].createdAt <= db.meta[i].createdAt)
                              && after == Db(db.meta, db.deny[jti := DenyRow(now, db.meta[i].expiresAt, reason)]))
  {
    LatestRowIsARow(db.meta, jti);
    forall k | 0 <= k < |db.meta| && db.meta[k].jwtUuid == jti
      ensures db.meta[k].createdAt <= LatestRow(db.meta, jti).value.createdAt
    {
      LatestRowIsLatest(db.meta, jti, k);
    }
  }

  // ---------------------------------------------------------------- validate

  /** Every answer of validation, exactly. */
  lemma ValidateAnswers(cfg: JwtConfig, signer: JwtSigner, db: Db, req: ValidateRequest, now: Instant)
    ensures forall e :: Validate(cfg, signer, db, req, now) == Ok(Verdict(false, false, DecodeFailed(e), None))
                        <==> VerifyRaw(signer, req.token, Permissive(), now) == Err(e)
    ensures (exists e :: Validate(cfg, signer, db, req, now) == Ok(Verdict(false, false, DecodeFailed(e), None)))
            <==> forall c :: !Accepted(signer, req.token, now, c)
    ensures forall c :: Accepted(signer, req.token, now, c) ==>
              ValidatedFor(cfg, db, req, now, c, Validate(cfg, signer, db, req, now))
  {
    RefusedIff(signer, req.token, now);
    var v := VerifyRaw(signer, req.token, Permissive(), now);
    if v.Err? {
      assert Validate(cfg, signer, db, req, now) == Ok(Verdict(false, false, DecodeFailed(v.error), None));
    }
    forall c | Accepted(signer, req.token, now, c)
      ensures ValidatedFor(cfg, db, req, now, c, Validate(cfg, signer, db, req, now))
    {
      AcceptedIff(signer, req.token, now, c);
    }
  }

  /** The answers about a token with these claims, in the order of the checks. */
  ghost predicate ValidatedFor(cfg: JwtConfig, db: Db, req: ValidateRequest, now: Instant, c: StandardClaims,
                               r: Result<Verdict, ServiceError>)
  {
    var issuer := req.issuer == None || req.issuer == Some(c.iss);
    var aud := if c.aud.Some? then c.aud.value else [];
    var audience := && (req.audience.Some? ==> req.audience.value in aud)
                    && (cfg.audienceValidation && cfg.audienceAllowed != [] ==>
                          exists a :: a in aud && a in cfg.audienceAllowed);
    var live := issuer && audience && !LastSecondOver(c, now);
    && (r == Ok(Verdict(false, false, IssuerMismatch, Some(c))) <==> !issuer)
    && (r == Ok(Verdict(true, false, AudienceMismatch, Some(c))) <==> issuer && !audience)
    && (r == Ok(Verdict(true, false, Expired, Some(c))) <==> issuer && audience && LastSecondOver(c, now))
    && (r == Err(JtiNotUuid) <==> live && !c.jti.UuidText?)
    && (r == Ok(Verdict(true, false, Revoked, Some(c))) <==> live && c.jti.UuidText? && c.jti.uuid in db.deny)
    && (r == Ok(Verdict(true, true, NoReason, Some(c))) <==> live && c.jti.UuidText? && c.jti.uuid !in db.deny)
  }
}
