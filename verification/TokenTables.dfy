/** The token tables and, for each service operation, the function that says
    what it answers and what it leaves in the tables (src/jwt/service.rs,
    src/introspect/mod.rs). */
module TokenTables {
  import opened Prelude
  import opened Claims
  import opened Signer

  datatype JwtConfig = JwtConfig(
    issuer: Text,
    audienceDefault: Text,
    audienceValidation: bool,
    audienceAllowed: seq<Text>,
    maxClaimsBytes: nat,
    bulkRevokeMax: nat)

  /** One row of custom_jwt.jwt_metadata. `claimKeys` and `audience` are the
      lists that the row stores joined with commas. */
  datatype MetaRow = MetaRow(
    id: Uuid,
    jwtUuid: Uuid,
    createdAt: Instant,
    claimKeys: set<string>,
    issuedAt: Instant,
    expiresAt: Instant,
    subject: Option<Text>,
    jwtName: Option<Text>,
    audience: seq<Text>,
    issuer: Text,
    supersedes: Option<Uuid>,
    original: Uuid)

  /** One row of custom_jwt.denylist; the table is keyed by jti. */
  datatype DenyRow = DenyRow(denylistedAt: Instant, expiresAt: Instant, reason: Option<string>)

  datatype Db = Db(meta: seq<MetaRow>, deny: map<Uuid, DenyRow>)

  datatype ServiceError =
    | MinutesNotPositive
    | ClaimsTooLarge
    | AudienceNotAllowed(audience: Text)
    | TokenNotVerified(why: DecodeError)
    | TokenExpired
    | JtiNotUuid
    | TokenRevoked
    | ExpOutOfRange
    | NoTokens
    | TooManyTokens

  datatype TokenResponse = TokenResponse(status: string, jwtName: Text, token: Token, expiresAt: Instant)

  /** The seconds `DateTime::from_timestamp` can represent. */
  predicate ExpInRange(exp: int) {
    -8_334_601_228_800 <= exp <= 8_210_266_876_799
  }

  // ---------------------------------------------------------------- queries

  /** SELECT ... WHERE jwt_uuid = jti ORDER BY created_at DESC LIMIT 1 */
  function LatestRow(meta: seq<MetaRow>, jti: Uuid): Option<MetaRow> {
    if meta == [] then None
    else
      var last := meta[|meta| - 1];
      var rest := LatestRow(meta[..|meta| - 1], jti);
      if last.jwtUuid != jti then rest
      else if rest.Some? && rest.value.createdAt > last.createdAt then rest
      else Some(last)
  }

  /** INSERT ... ON CONFLICT (jwt_uuid) DO NOTHING */
  function InsertDeny(db: Db, jti: Uuid, row: DenyRow): Db {
    if jti in db.deny then db else db.(deny := db.deny[jti := row])
  }

  function AppendRow(db: Db, row: MetaRow): Db {
    db.(meta := db.meta + [row])
  }

  lemma {:induction false} LatestRowIsARow(meta: seq<MetaRow>, jti: Uuid)
    ensures LatestRow(meta, jti).Some?
            ==> exists i :: 0 <= i < |meta| && meta[i] == LatestRow(meta, jti).value && meta[i].jwtUuid == jti
    ensures LatestRow(meta, jti).None? <==> forall i :: 0 <= i < |meta| ==> meta[i].jwtUuid != jti
  {
    if meta != [] {
      var n := |meta| - 1;
      LatestRowIsARow(meta[..n], jti);
      if LatestRow(meta[..n], jti).Some? {
        var i :| 0 <= i < n && meta[..n][i] == LatestRow(meta[..n], jti).value && meta[..n][i].jwtUuid == jti;
        assert meta[i].jwtUuid == jti;
      } else {
        forall i | 0 <= i < n ensures meta[i].jwtUuid != jti { assert meta[..n][i].jwtUuid != jti; }
      }
    }
  }

  lemma {:induction false} LatestRowIsLatest(meta: seq<MetaRow>, jti: Uuid, i: nat)
    requires i < |meta| && meta[i].jwtUuid == jti
    ensures LatestRow(meta, jti).Some? && meta[i].createdAt <= LatestRow(meta, jti).value.createdAt
  {
    var n := |meta| - 1;
    if i < n {
      assert meta[..n][i] == meta[i];
      LatestRowIsLatest(meta[..n], jti, i);
    }
  }

  lemma LatestRowAfterAppend(meta: seq<MetaRow>, row: MetaRow, jti: Uuid)
    ensures row.jwtUuid != jti ==> LatestRow(meta + [row], jti) == LatestRow(meta, jti)
    ensures row.jwtUuid == jti && LatestRow(meta, jti).None? ==> LatestRow(meta + [row], jti) == Some(row)
  {
    assert (meta + [row])[..|meta|] == meta;
  }

  /** The root recorded for a token, which is the token itself while it has no row. */
  function OriginalOf(meta: seq<MetaRow>, jti: Uuid): Uuid {
    match LatestRow(meta, jti) case Some(r) => r.original case None => jti
  }

  // --------------------------------------------------------------- generate

  datatype Audience = Single(one: Text) | Multi(many: seq<Text>)

  /** `contentBytes` is the length of the content serialised as JSON. */
  datatype GenerateRequest = GenerateRequest(
    jwtName: Text,
    content: map<string, Json>,
    contentBytes: nat,
    minutes: int,
    audience: Option<Audience>)

  function RequestedAudience(cfg: JwtConfig, requested: Option<Audience>): seq<Text> {
    match requested
    case None => [cfg.audienceDefault]
    case Some(Single(a)) => [a]
    case Some(Multi(v)) => v
  }

  predicate AudienceRestricted(cfg: JwtConfig) {
    cfg.audienceValidation && cfg.audienceAllowed != []
  }

  /** The first requested audience that is not allowed, if any. */
  function FirstForbidden(cfg: JwtConfig, aud: seq<Text>): Option<Text> {
    if aud == [] then None
    else if aud[0] !in cfg.audienceAllowed then Some(aud[0])
    else FirstForbidden(cfg, aud[1..])
  }

  function ResolveAudience(cfg: JwtConfig, requested: Option<Audience>): Result<seq<Text>, ServiceError> {
    var aud := RequestedAudience(cfg, requested);
    if AudienceRestricted(cfg) && FirstForbidden(cfg, aud).Some? then
      Err(AudienceNotAllowed(FirstForbidden(cfg, aud).value))
    else Ok(aud)
  }

  function SubjectOf(content: map<string, Json>): Option<Text> {
    if "sub" in content && content["sub"].Str? then Some(content["sub"].t) else None
  }

  /** A token together with the metadata row that records it. */
  datatype Issue = Issue(claims: StandardClaims, token: Token, row: MetaRow)

  function PlanGenerate(cfg: JwtConfig, signer: JwtSigner, req: GenerateRequest, now: Instant, jti: Uuid, rowId: Uuid)
    : Result<Issue, ServiceError>
  {
    if req.minutes <= 0 then Err(MinutesNotPositive)
    else if req.contentBytes > cfg.maxClaimsBytes then Err(ClaimsTooLarge)
    else match ResolveAudience(cfg, req.audience)
      case Err(e) => Err(e)
      case Ok(aud) =>
        var exp := now + req.minutes * MINUTE;
        var extra := GeneratedExtra(req.content);
        var subject := SubjectOf(req.content);
        var claims := StandardClaims(cfg.issuer, subject, Some(aud), Timestamp(exp), Timestamp(now),
                                     UuidText(jti, 0), extra);
        Ok(Issue(claims, Sign(signer, claims),
                 MetaRow(rowId, jti, now, extra.Keys, now, exp, subject, Some(req.jwtName), aud,
                         cfg.issuer, None, jti)))
  }

  /** The whole call. */
  function GenerateAtOnce(cfg: JwtConfig, signer: JwtSigner, db: Db, req: GenerateRequest, now: Instant, jti: Uuid,
                          rowId: Uuid)
    : (Result<TokenResponse, ServiceError>, Db)
  {
    match PlanGenerate(cfg, signer, req, now, jti, rowId)
    case Err(e) => (Err(e), db)
    case Ok(issue) =>
      (Ok(TokenResponse("created", req.jwtName, issue.token, issue.row.expiresAt)), AppendRow(db, issue.row))
  }

  // ----------------------------------------------------------------- extend

  /** What an `extend` call carries from its denylist check to its commit. */
  datatype PendingExtend = PendingExtend(
    claims: StandardClaims,
    oldJti: Uuid,
    original: Uuid,
    prevRow: Option<Uuid>,
    jwtName: Option<Text>,
    now: Instant,
    newExp: Instant)

  const SUPERSEDED: Option<string> := Some("superseded_by_extend")

  function CheckExtend(signer: JwtSigner, db: Db, token: Token, minutes: Option<int>, now: Instant)
    : Result<PendingExtend, ServiceError>
  {
    match VerifyRaw(signer, token, Permissive(), now)
    case Err(e) => Err(TokenNotVerified(e))
    case Ok(c) =>
      if c.exp < Timestamp(now) then Err(TokenExpired)
      else if ParseUuid(c.jti).None? then Err(JtiNotUuid)
      else
        var jti := ParseUuid(c.jti).value;
        if jti in db.deny then Err(TokenRevoked)
        else
          var row := LatestRow(db.meta, jti);
          var m := if minutes.Some? then minutes.value else 60;
          if m <= 0 then Err(MinutesNotPositive)
          else
            Ok(PendingExtend(c, jti,
                             if row.Some? then row.value.original else jti,
                             if row.Some? then Some(row.value.id) else None,
                             if row.Some? then row.value.jwtName else None,
                             now, now + m * MINUTE))
  }

  function PlanExtend(cfg: JwtConfig, signer: JwtSigner, p: PendingExtend, jti: Uuid, rowId: Uuid, at: Instant): Issue {
    var extra := ExtendedExtra(p.claims.extra);
    var claims := StandardClaims(cfg.issuer, p.claims.sub, p.claims.aud, Timestamp(p.newExp), Timestamp(p.now),
                                 UuidText(jti, 0), extra);
    Issue(claims, Sign(signer, claims),
          MetaRow(rowId, jti, at, extra.Keys, p.now, p.newExp, p.claims.sub, p.jwtName,
                  if p.claims.aud.Some? then p.claims.aud.value else [], cfg.issuer, p.prevRow, p.original))
  }

  function SupersededRow(p: PendingExtend, at: Instant): DenyRow {
    DenyRow(at, AtSecond(p.claims.exp), SUPERSEDED)
  }

  /** The transaction: the new row and the old jti, or neither. */
  function CommitExtend(cfg: JwtConfig, signer: JwtSigner, db: Db, p: PendingExtend, jti: Uuid, rowId: Uuid,
                        at: Instant)
    : (Result<Issue, ServiceError>, Db)
  {
    if !ExpInRange(p.claims.exp) then (Err(ExpOutOfRange), db)
    else
      var issue := PlanExtend(cfg, signer, p, jti, rowId, at);
      (Ok(issue), InsertDeny(AppendRow(db, issue.row), p.oldJti, SupersededRow(p, at)))
  }

  /** What the second half answers and leaves. */
  function FinishExtend(cfg: JwtConfig, signer: JwtSigner, db: Db, p: PendingExtend, jti: Uuid, rowId: Uuid,
                        at: Instant)
    : (Result<TokenResponse, ServiceError>, Db)
  {
    var (r, after) := CommitExtend(cfg, signer, db, p, jti, rowId, at);
    match r
    case Err(e) => (Err(e), after)
    case Ok(issue) =>
      (Ok(TokenResponse("extended", if p.jwtName.Some? then p.jwtName.value else Plain("EXTENDED_TOKEN"), issue.token,
                        p.newExp)), after)
  }

  /** One call with nothing in between its check at `now` and its commit at `at`. */
  function ExtendAtOnce(cfg: JwtConfig, signer: JwtSigner, db: Db, token: Token, minutes: Option<int>, now: Instant,
                        at: Instant, jti: Uuid, rowId: Uuid)
    : (Result<TokenResponse, ServiceError>, Db)
  {
    match CheckExtend(signer, db, token, minutes, now)
    case Err(e) => (Err(e), db)
    case Ok(p) => FinishExtend(cfg, signer, db, p, jti, rowId, at)
  }

  // ----------------------------------------------------------------- revoke

  datatype Revocation = Revocation(jti: Uuid, expiresAt: Instant)

  function CheckRevoke(signer: JwtSigner, token: Token, now: Instant): Result<Revocation, ServiceError> {
    match VerifyRaw(signer, token, Permissive(), now)
    case Err(e) => Err(TokenNotVerified(e))
    case Ok(c) =>
      if ParseUuid(c.jti).None? then Err(JtiNotUuid)
      else if !ExpInRange(c.exp) then Err(ExpOutOfRange)
      else Ok(Revocation(ParseUuid(c.jti).value, AtSecond(c.exp)))
  }

  /** Answers whether the row is new, and the table afterwards. */
  function RevokeToken(signer: JwtSigner, db: Db, token: Token, reason: Option<string>, now: Instant)
    : (Result<bool, ServiceError>, Db)
  {
    match CheckRevoke(signer, token, now)
    case Err(e) => (Err(e), db)
    case Ok(r) => (Ok(r.jti !in db.deny), InsertDeny(db, r.jti, DenyRow(now, r.expiresAt, reason)))
  }

  /** `None` when this TIM never issued the jti. */
  function RevokeByJti(db: Db, jti: Uuid, reason: Option<string>, now: Instant): (Option<bool>, Db) {
    match LatestRow(db.meta, jti)
    case None => (None, db)
    case Some(r) => (Some(jti !in db.deny), InsertDeny(db, jti, DenyRow(now, r.expiresAt, reason)))
  }

  // ------------------------------------------------- validate and introspect

  datatype ValidateRequest = ValidateRequest(token: Token, audience: Option<Text>, issuer: Option<Text>)

  datatype Reason = NoReason | DecodeFailed(why: DecodeError) | IssuerMismatch | AudienceMismatch | Expired | Revoked

  datatype Verdict = Verdict(valid: bool, active: bool, reason: Reason, claims: Option<StandardClaims>)

  predicate AudienceListed(aud: Option<seq<Text>>, wanted: Text) {
    aud.Some? && wanted in aud.value
  }

  predicate AudienceOverlaps(aud: Option<seq<Text>>, allowed: seq<Text>) {
    aud.Some? && exists i :: 0 <= i < |aud.value| && aud.value[i] in allowed
  }

  function Validate(cfg: JwtConfig, signer: JwtSigner, db: Db, req: ValidateRequest, now: Instant)
    : Result<Verdict, ServiceError>
  {
    match VerifyRaw(signer, req.token, Permissive(), now)
    case Err(e) => Ok(Verdict(false, false, DecodeFailed(e), None))
    case Ok(c) =>
      if req.issuer.Some? && req.issuer.value != c.iss then Ok(Verdict(false, false, IssuerMismatch, Some(c)))
      else if req.audience.Some? && !AudienceListed(c.aud, req.audience.value) then
        Ok(Verdict(true, false, AudienceMismatch, Some(c)))
      else if AudienceRestricted(cfg) && !AudienceOverlaps(c.aud, cfg.audienceAllowed) then
        Ok(Verdict(true, false, AudienceMismatch, Some(c)))
      else if c.exp < Timestamp(now) then Ok(Verdict(true, false, Expired, Some(c)))
      else if ParseUuid(c.jti).None? then Err(JtiNotUuid)
      else if ParseUuid(c.jti).value in db.deny then Ok(Verdict(true, false, Revoked, Some(c)))
      else Ok(Verdict(true, true, NoReason, Some(c)))
  }

  predicate ActiveVerdict(r: Result<Verdict, ServiceError>) {
    r.Ok? && r.value.valid && r.value.active
  }

  /** The issuer and audience asked for, and the audience policy. */
  predicate PartiesAgree(cfg: JwtConfig, req: ValidateRequest, c: StandardClaims) {
    && (req.issuer == None || req.issuer == Some(c.iss))
    && (req.audience.Some? ==> AudienceListed(c.aud, req.audience.value))
    && (AudienceRestricted(cfg) ==> AudienceOverlaps(c.aud, cfg.audienceAllowed))
  }

  /** A token is active exactly when an advertised key signed its claims, its kid
      does not send it elsewhere, the issuer and audience asked for and the policy
      agree, its second of expiry is not over, and its jti is not denylisted. */
  lemma ActiveIff(cfg: JwtConfig, signer: JwtSigner, db: Db, req: ValidateRequest, now: Instant, c: StandardClaims)
    ensures Validate(cfg, signer, db, req, now) == Ok(Verdict(true, true, NoReason, Some(c))) <==>
            && SomeKeyAccepts(signer, req.token, Permissive(), now, c)
            && !Misrouted(signer, req.token, now)
            && PartiesAgree(cfg, req, c)
            && now < AtSecond(c.exp) + SECOND
            && (exists j :: ParseUuid(c.jti) == Some(j) && j !in db.deny)
    ensures ActiveVerdict(Validate(cfg, signer, db, req, now)) ==>
              exists claims :: Validate(cfg, signer, db, req, now) == Ok(Verdict(true, true, NoReason, Some(claims)))
  {
    VerifyRawRefinesTryAllKeys(signer, req.token, Permissive(), now, c);
    assert c.exp >= Timestamp(now) <==> now < AtSecond(c.exp) + SECOND;
  }

  datatype Introspection = Inactive | Active(claims: StandardClaims)

  function Introspect(cfg: JwtConfig, signer: JwtSigner, db: Db, token: Token, now: Instant): Introspection {
    match VerifyRaw(signer, token, Permissive(), now)
    case Err(_) => Inactive
    case Ok(c) =>
      if c.iss != cfg.issuer then Inactive
      else if c.exp < Timestamp(now) then Inactive
      else if ParseUuid(c.jti).None? then Inactive
      else if ParseUuid(c.jti).value in db.deny then Inactive
      else Active(c)
  }

  /** The two opinions on a token's activity agree: introspection is validation
      for TIM's own issuer, once the audience policy is out of the way. With the
      policy on, they differ on exactly the tokens the policy turns away. */
  lemma IntrospectAgreesWithValidate(cfg: JwtConfig, signer: JwtSigner, db: Db, token: Token, now: Instant)
    ensures var r := Validate(cfg, signer, db, ValidateRequest(token, None, Some(cfg.issuer)), now);
            var i := Introspect(cfg, signer, db, token, now);
            && (ActiveVerdict(r) <==>
                i.Active? && (AudienceRestricted(cfg) ==> AudienceOverlaps(i.claims.aud, cfg.audienceAllowed)))
            && (ActiveVerdict(r) ==> i == Active(r.value.claims.value))
  {
  }

  // ------------------------------------------------------- status in listings

  datatype ListStatus = ListRevoked | ListExpired | ListActive

  function StatusOf(db: Db, row: MetaRow, now: Instant): ListStatus {
    if row.jwtUuid in db.deny then ListRevoked
    else if row.expiresAt < now then ListExpired
    else ListActive
  }
}
