/** The token service over its two tables (src/jwt/service.rs). Randomness and
    the clock are parameters. */
module JwtService {
  import opened Prelude
  import opened Claims
  import opened Signer
  import opened TokenTables
  import opened BulkRevoke
  import opened Listing

  datatype TokenSummary = TokenSummary(
    jti: Uuid,
    subject: Option<Text>,
    jwtName: Option<Text>,
    issuedAt: Instant,
    expiresAt: Instant,
    issuer: Text,
    audience: seq<Text>,
    status: ListStatus,
    revokedAt: Option<Instant>,
    revocationReason: Option<string>)

  datatype ListResponse = ListResponse(tokens: seq<TokenSummary>, pagination: Pagination)

  /** How a row appears in a listing. */
  function Summary(db: Db, row: MetaRow, now: Instant): TokenSummary {
    var denied := row.jwtUuid in db.deny;
    TokenSummary(row.jwtUuid, row.subject, row.jwtName, row.issuedAt, row.expiresAt, row.issuer, row.audience,
                 StatusOf(db, row, now),
                 if denied then Some(db.deny[row.jwtUuid].denylistedAt) else None,
                 if denied then db.deny[row.jwtUuid].reason else None)
  }

  function Summaries(db: Db, page: seq<MetaRow>, now: Instant): (tokens: seq<TokenSummary>)
    ensures |tokens| == |page| && forall i :: 0 <= i < |page| ==> tokens[i] == Summary(db, page[i], now)
  {
    seq(|page|, i requires 0 <= i < |page| => Summary(db, page[i], now))
  }

  /** The answer to a listing; `rows` is the database's answer to the query. */
  function ListAnswer(db: Db, req: ListRequest, now: Instant, rows: seq<MetaRow>): Option<ListResponse> {
    if RowOffset(req) < 0 then None
    else
      var page := Slice(rows, RowOffset(req), PageSize(req));
      Some(ListResponse(Summaries(db, page, now),
                        Pagination(|rows|, RowOffset(req), PageSize(req), Page(req), PageSize(req),
                                   TotalPages(|rows|, PageSize(req)))))
  }

  class JwtService {
    const cfg: JwtConfig
    const signer: JwtSigner
    var meta: seq<MetaRow>
    var deny: map<Uuid, DenyRow>

    constructor (cfg: JwtConfig, signer: JwtSigner)
      ensures this.cfg == cfg && this.signer == signer && Tables() == Db([], map[])
    {
      this.cfg := cfg;
      this.signer := signer;
      meta := [];
      deny := map[];
    }

    function Tables(): Db
      reads this
    {
      Db(meta, deny)
    }

    /** The loop that refuses the first audience that is not allowed. */
    method CheckAudience(requested: Option<Audience>) returns (r: Result<seq<Text>, ServiceError>)
      ensures r == ResolveAudience(cfg, requested)
      ensures r.Ok? && AudienceRestricted(cfg) ==> forall a :: a in r.value ==> a in cfg.audienceAllowed
    {
      var aud := RequestedAudience(cfg, requested);
      if AudienceRestricted(cfg) {
        var i := 0;
        while i < |aud|
          invariant 0 <= i <= |aud|
          invariant forall k :: 0 <= k < i ==> aud[k] in cfg.audienceAllowed
          invariant FirstForbidden(cfg, aud) == FirstForbidden(cfg, aud[i..])
        {
          if aud[i] !in cfg.audienceAllowed {
            return Err(AudienceNotAllowed(aud[i]));
          }
          assert aud[i..][1..] == aud[i + 1..];
          i := i + 1;
        }
      }
      return Ok(aud);
    }

    method Generate(req: GenerateRequest, now: Instant, jti: Uuid, rowId: Uuid)
      returns (r: Result<TokenResponse, ServiceError>)
      modifies this
      ensures (r, Tables()) == GenerateAtOnce(cfg, signer, old(Tables()), req, now, jti, rowId)
    {
      if req.minutes <= 0 {
        return Err(MinutesNotPositive);
      }
      if req.contentBytes > cfg.maxClaimsBytes {
        return Err(ClaimsTooLarge);
      }
      var resolved := CheckAudience(req.audience);
      if resolved.Err? {
        return Err(resolved.error);
      }
      var subject := SubjectOf(req.content);
      var exp := now + req.minutes * MINUTE;
      var extra := RemoveReserved(req.content);
      extra := extra[TOKEN_TYPE := CUSTOM_JWT];
      var claims := StandardClaims(cfg.issuer, subject, Some(resolved.value), Timestamp(exp), Timestamp(now),
                                   UuidText(jti, 0), extra);
      var token := Sign(signer, claims);
      meta := meta + [MetaRow(rowId, jti, now, claims.extra.Keys, now, exp, subject, Some(req.jwtName),
                              resolved.value, cfg.issuer, None, jti)];
      return Ok(TokenResponse("created", req.jwtName, token, exp));
    }

    /** The first half of an extend call: everything up to its transaction. */
    method StartExtend(token: Token, minutes: Option<int>, now: Instant)
      returns (r: Result<PendingExtend, ServiceError>)
      ensures r == CheckExtend(signer, Tables(), token, minutes, now)
    {
      var verified := VerifyRaw(signer, token, Permissive(), now);
      if verified.Err? {
        return Err(TokenNotVerified(verified.error));
      }
      var before := verified.value;
      if before.exp < Timestamp(now) {
        return Err(TokenExpired);
      }
      var parsed := ParseUuid(before.jti);
      if parsed.None? {
        return Err(JtiNotUuid);
      }
      var oldJti := parsed.value;
      if oldJti in deny {
        return Err(TokenRevoked);
      }
      var original, prevRow, jwtName := oldJti, None, None;
      var row := LatestRow(meta, oldJti);
      if row.Some? {
        original, prevRow, jwtName := row.value.original, Some(row.value.id), row.value.jwtName;
      }
      var m := if minutes.Some? then minutes.value else 60;
      if m <= 0 {
        return Err(MinutesNotPositive);
      }
      return Ok(PendingExtend(before, oldJti, original, prevRow, jwtName, now, now + m * MINUTE));
    }

    /** The second half: sign, then write both rows or neither. */
    method FinishExtend(p: PendingExtend, at: Instant, jti: Uuid, rowId: Uuid)
      returns (r: Result<TokenResponse, ServiceError>)
      modifies this
      ensures (r, Tables()) == TokenTables.FinishExtend(cfg, signer, old(Tables()), p, jti, rowId, at)
    {
      var extra := p.claims.extra;
      if TOKEN_TYPE !in extra {
        extra := extra[TOKEN_TYPE := CUSTOM_JWT];
      }
      var claims := p.claims.(iss := cfg.issuer, exp := Timestamp(p.newExp), iat := Timestamp(p.now),
                              jti := UuidText(jti, 0), extra := extra);
      var signed := Sign(signer, claims);
      var audience := if claims.aud.Some? then claims.aud.value else [];
      if !ExpInRange(p.claims.exp) {
        return Err(ExpOutOfRange);
      }
      meta := meta + [MetaRow(rowId, jti, at, extra.Keys, p.now, p.newExp, claims.sub, p.jwtName, audience, cfg.issuer,
                              p.prevRow, p.original)];
      if p.oldJti !in deny {
        deny := deny[p.oldJti := DenyRow(at, AtSecond(p.claims.exp), SUPERSEDED)];
      }
      return Ok(TokenResponse("extended", if p.jwtName.Some? then p.jwtName.value else Plain("EXTENDED_TOKEN"),
                              signed, p.newExp));
    }

    /** One call with nothing in between its check at `now` and its commit at `at`. */
    method Extend(token: Token, minutes: Option<int>, now: Instant, at: Instant, jti: Uuid, rowId: Uuid)
      returns (r: Result<TokenResponse, ServiceError>)
      modifies this
      ensures (r, Tables()) == ExtendAtOnce(cfg, signer, old(Tables()), token, minutes, now, at, jti, rowId)
    {
      var started := StartExtend(token, minutes, now);
      if started.Err? {
        return Err(started.error);
      }
      r := FinishExtend(started.value, at, jti, rowId);
    }

    /** True if newly revoked, false if already denylisted. */
    method Revoke(token: Token, reason: Option<string>, now: Instant) returns (r: Result<bool, ServiceError>)
      modifies this`deny
      ensures (r, Tables()) == RevokeToken(signer, old(Tables()), token, reason, now)
    {
      var verified := VerifyRaw(signer, token, Permissive(), now);
      if verified.Err? {
        return Err(TokenNotVerified(verified.error));
      }
      var jti := ParseUuid(verified.value.jti);
      if jti.None? {
        return Err(JtiNotUuid);
      }
      if !ExpInRange(verified.value.exp) {
        return Err(ExpOutOfRange);
      }
      var isNew := jti.value !in deny;
      if isNew {
        deny := deny[jti.value := DenyRow(now, AtSecond(verified.value.exp), reason)];
      }
      return Ok(isNew);
    }

    method RevokeByJti(jti: Uuid, reason: Option<string>, now: Instant) returns (r: Option<bool>)
      modifies this`deny
      ensures (r, Tables()) == TokenTables.RevokeByJti(old(Tables()), jti, reason, now)
    {
      var row := LatestRow(meta, jti);
      if row.None? {
        return None;
      }
      var isNew := jti !in deny;
      if isNew {
        deny := deny[jti := DenyRow(now, row.value.expiresAt, reason)];
      }
      return Some(isNew);
    }

    /** What one token of a batch adds to the answer and to the denylist. */
    method RevokeItem(token: Token, reason: Option<string>, now: Instant, ghost check: Check) returns (item: BulkItem)
      requires check == CheckRevoke(signer, token, now)
      modifies this`deny
      ensures item == BulkItem(token, StatusAgainst(check, old(deny).Keys))
      ensures deny == Recorded(check, reason, now, old(deny))
    {
      var one := Revoke(token, reason, now);
      item := BulkItem(token, match one
                              case Ok(isNew) => if isNew then Newly else Already
                              case Err(e) => Failed(e));
    }

    /** The loop of a batch: one answer for each token in order, and the rows of the
        jtis the batch won. Other callers insert theirs before each turn. */
    method RevokeAll(tokens: seq<Token>, reason: Option<string>, clock: nat -> Instant, others: Others, ghost b: Batch)
      returns (r: BulkResponse)
      requires b == Batch(Checks(signer, tokens, clock), reason, clock, others)
      modifies this`deny
      ensures Accounts(tokens, b.checks, TakenAt(old(deny).Keys, others), r)
      ensures RecordedUpTo(b, |tokens|, |tokens|, old(deny), deny)
    {
      ghost var before := deny;
      r := BulkResponse(0, 0, 0, []);
      for i := 0 to |tokens|
        invariant RecordedUpTo(b, i, i, before, deny)
        invariant CountedUpTo(tokens, b.checks, i, TakenAt(before.Keys, others), r)
      {
        OthersTurn(b, i, before, deny);
        deny := Joined(deny, others(i));
        ghost var was := deny;
        var item := RevokeItem(tokens[i], reason, clock(i), b.checks[i]);
        TurnDone(tokens, b, i, before, was, r, item);
        r := Plus(r, item);
      }
      CountDone(tokens, b.checks, TakenAt(before.Keys, others), r);
    }

    /** One answer for each token in order. The batch writes a row for exactly the jtis
        it answers as newly revoked, whatever other callers insert meanwhile, and no
        row that was there changes. `clock(i)` is when token `i` has its turn. */
    method BulkRevoke(tokens: seq<Token>, reason: Option<string>, clock: nat -> Instant, others: Others)
      returns (r: Result<BulkResponse, ServiceError>)
      modifies this`deny
      ensures tokens == [] ==> r == Err(NoTokens)
      ensures tokens != [] && |tokens| > cfg.bulkRevokeMax ==> r == Err(TooManyTokens)
      ensures r.Err? ==> deny == old(deny) && (tokens == [] || |tokens| > cfg.bulkRevokeMax)
      ensures r.Ok? ==>
                var b := Batch(Checks(signer, tokens, clock), reason, clock, others);
                && Accounts(tokens, b.checks, TakenAt(old(deny).Keys, others), r.value)
                && RecordedUpTo(b, |tokens|, |tokens|, old(deny), deny)
    {
      if tokens == [] {
        return Err(NoTokens);
      }
      if |tokens| > cfg.bulkRevokeMax {
        return Err(TooManyTokens);
      }
      ghost var b := Batch(Checks(signer, tokens, clock), reason, clock, others);
      var response := RevokeAll(tokens, reason, clock, others, b);
      return Ok(response);
    }

    method ValidateToken(req: ValidateRequest, now: Instant) returns (r: Result<Verdict, ServiceError>)
      ensures r == Validate(cfg, signer, Tables(), req, now)
    {
      var verified := VerifyRaw(signer, req.token, Permissive(), now);
      if verified.Err? {
        return Ok(Verdict(false, false, DecodeFailed(verified.error), None));
      }
      var c := verified.value;
      if req.issuer.Some? && req.issuer.value != c.iss {
        return Ok(Verdict(false, false, IssuerMismatch, Some(c)));
      }
      if req.audience.Some? {
        var listed := c.aud.Some? && req.audience.value in c.aud.value;
        if !listed {
          return Ok(Verdict(true, false, AudienceMismatch, Some(c)));
        }
      }
      if cfg.audienceValidation && cfg.audienceAllowed != [] && !AudienceOverlaps(c.aud, cfg.audienceAllowed) {
        return Ok(Verdict(true, false, AudienceMismatch, Some(c)));
      }
      if c.exp < Timestamp(now) {
        return Ok(Verdict(true, false, Expired, Some(c)));
      }
      var jti := ParseUuid(c.jti);
      if jti.None? {
        return Err(JtiNotUuid);
      }
      if jti.value in deny {
        return Ok(Verdict(true, false, Revoked, Some(c)));
      }
      return Ok(Verdict(true, true, NoReason, Some(c)));
    }

    /** `rows` is the database's answer to the filtered, ordered query. */
    method ListForSubject(subject: Text, req: ListRequest, now: Instant, rows: seq<MetaRow>)
      returns (r: Option<ListResponse>)
      requires IsAnswer(rows, meta, subject, req)
      ensures r == ListAnswer(Tables(), req, now, rows)
    {
      var size := PageSize(req);
      var page, offset := Page(req), RowOffset(req);
      if offset < 0 {
        return None;
      }
      ghost var db := Tables();
      var shown := Slice(rows, offset, size);
      var tokens: seq<TokenSummary> := [];
      for i := 0 to |shown|
        invariant |tokens| == i
        invariant forall k :: 0 <= k < i ==> tokens[k] == Summary(db, shown[k], now)
      {
        var row := shown[i];
        var revokedAt, revokedFor := None, None;
        if row.jwtUuid in deny {
          revokedAt, revokedFor := Some(deny[row.jwtUuid].denylistedAt), deny[row.jwtUuid].reason;
        }
        var status := if revokedAt.Some? then ListRevoked else if row.expiresAt < now then ListExpired else ListActive;
        tokens := tokens + [TokenSummary(row.jwtUuid, row.subject, row.jwtName, row.issuedAt, row.expiresAt, row.issuer,
                                         row.audience, status, revokedAt, revokedFor)];
      }
      assert tokens == Summaries(db, shown, now);
      var totalPages := (|rows| + size - 1) / size;
      return Some(ListResponse(tokens, Pagination(|rows|, offset, size, page, size, totalPages)));
    }
  }
}
