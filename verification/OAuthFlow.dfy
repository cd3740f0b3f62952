/** The login protocol: one-shot state rows, racing callbacks and the sweeper
    (src/oauth2/flow.rs, src/oauth2/state_sweeper.rs). */
module OAuthFlow {
  import opened Prelude
  import opened Claims
  import opened Sessions
  import opened Strings
  import Id = IdToken
  import D = Discovery

  /** One row of auth.oauth_state, keyed by state. Rows of an older version may
      lack the verifier. */
  datatype LoginRow = LoginRow(
    createdAt: Instant,
    provider: string,
    nonce: string,
    redirectUri: Option<string>,
    verifier: Option<string>)

  // ------------------------------------------------------------ row statements

  /** `as i32` of an unsigned number of seconds. */
  function AsI32(x: nat): int {
    var r := x % 0x1_0000_0000;
    if r < 0x8000_0000 then r else r - 0x1_0000_0000
  }

  /** now() - make_interval(secs => max_age) */
  function Cutoff(now: Instant, maxAge: nat): Instant {
    now - AsI32(maxAge) * SECOND
  }

  predicate Consumable(row: LoginRow, provider: string, now: Instant, maxAge: nat) {
    row.provider == provider && row.createdAt > Cutoff(now, maxAge)
  }

  /** DELETE ... WHERE ... RETURNING */
  function ConsumeRow(table: map<string, LoginRow>, state: string, provider: string, now: Instant, maxAge: nat)
    : (Option<LoginRow>, map<string, LoginRow>)
  {
    if state in table && Consumable(table[state], provider, now, maxAge)
    then (Some(table[state]), table - {state}) else (None, table)
  }

  predicate Stale(row: LoginRow, now: Instant, maxAge: nat) {
    row.createdAt < Cutoff(now, maxAge)
  }

  function SweepRows(table: map<string, LoginRow>, now: Instant, maxAge: nat): map<string, LoginRow> {
    table - (set s | s in table && Stale(table[s], now, maxAge))
  }

  /** What the sweeper takes could never have been consumed again, whatever the
      configured age, even one that wraps in the cast to i32. */
  lemma StaleIsNeverConsumable(row: LoginRow, swept: Instant, later: Instant, provider: string, maxAge: nat)
    requires Stale(row, swept, maxAge) && swept <= later
    ensures Stale(row, later, maxAge) && !Consumable(row, provider, later, maxAge)
  {
  }

  /** For an age that survives the cast: the provider's own row, for as long as the
      age lasts, is handed out and leaves the table; the sweeper takes older ones. */
  lemma ConsumeRowAnswers(table: map<string, LoginRow>, state: string, provider: string, now: Instant, maxAge: nat)
    requires maxAge < 0x8000_0000
    ensures var (row, rest) := ConsumeRow(table, state, provider, now, maxAge);
            && (row.Some? <==> && state in table && table[state].provider == provider
                               && now < table[state].createdAt + maxAge * 1_000_000)
            && (row.Some? ==> row.value == table[state] && rest == table - {state})
            && (row.None? ==> rest == table)
    ensures forall k :: k in SweepRows(table, now, maxAge)
                        <==> k in table && now <= table[k].createdAt + maxAge * 1_000_000
    ensures forall k :: k in SweepRows(table, now, maxAge) ==> SweepRows(table, now, maxAge)[k] == table[k]
  {
  }

  /** A login can be completed at all, at the instant it is created, exactly when
      the configured age is positive after the cast. */
  lemma FreshRowConsumableIff(row: LoginRow, maxAge: nat)
    ensures Consumable(row, row.provider, row.createdAt, maxAge) <==> AsI32(maxAge) > 0
    ensures maxAge < 0x8000_0000 ==> AsI32(maxAge) == maxAge
    ensures -0x8000_0000 <= AsI32(maxAge) < 0x8000_0000 && (maxAge - AsI32(maxAge)) % 0x1_0000_0000 == 0
  {
  }

  // ------------------------------------------------------- messages to the IdP

  /** `mappings` names the claim behind each name of the profile. */
  datatype Provider = Provider(
    clientId: string,
    scopes: seq<string>,
    jwksPin: Option<string>,
    skew: nat,
    mappings: map<string, string>)

  datatype AuthRequest = AuthRequest(
    endpoint: string,
    responseType: string,
    clientId: string,
    redirectUri: string,
    scope: string,
    state: string,
    nonce: string,
    codeChallenge: string,
    codeChallengeMethod: string)

  /** A pinned key-set URL is the one that discovery must name. */
  predicate PinHolds(cfg: Provider, d: D.Discovery) {
    cfg.jwksPin == None || cfg.jwksPin == Some(d.jwksUri)
  }

  function Authorization(cfg: Provider, d: D.Discovery, redirectUri: string, state: string, nonce: string,
                         challenge: string)
    : AuthRequest
  {
    AuthRequest(d.authorizationEndpoint, "code", cfg.clientId, redirectUri, Join(cfg.scopes, " "), state, nonce,
                challenge, "S256")
  }

  /** What ties a login's row to its authorization request. */
  predicate Ties(row: LoginRow, auth: AuthRequest, state: string, s256: string -> string) {
    && auth.state == state
    && row.redirectUri == Some(auth.redirectUri)
    && row.nonce == auth.nonce
    && row.verifier.Some? && row.verifier.value != "" && s256(row.verifier.value) == auth.codeChallenge
  }

  datatype TokenForm = TokenForm(code: string, redirectUri: Option<string>, verifier: Option<string>)

  datatype TokenReply = TokenReply(idToken: Option<Id.IdToken>, expiresIn: Option<int>)

  function FormFor(row: LoginRow, code: string): TokenForm {
    TokenForm(code, row.redirectUri,
              if row.verifier.Some? && row.verifier.value != "" then row.verifier else None)
  }

  /** The exchange repeats the code it was given, the row's redirect URI and its
      verifier, which an older row may lack. */
  lemma FormRepeats(row: LoginRow, code: string)
    ensures FormFor(row, code).code == code && FormFor(row, code).redirectUri == row.redirectUri
    ensures forall v :: FormFor(row, code).verifier == Some(v) <==> v != "" && row.verifier == Some(v)
  {
  }

  /** How long a session lasts, in microseconds: what the provider asked for, if that
      is within the cap; the cap, if it asked for more or for nothing; else a second. */
  ghost predicate LastsAsAsked(expiresIn: Option<int>, ttlCap: nat, lasts: int) {
    && (forall n :: expiresIn == Some(n) && 1 <= n <= ttlCap ==> lasts == n * 1_000_000)
    && (forall n :: expiresIn == Some(n) && n > ttlCap >= 1 ==> lasts == ttlCap * 1_000_000)
    && (expiresIn == None && ttlCap >= 1 ==> lasts == ttlCap * 1_000_000)
    && (forall n :: expiresIn == Some(n) && n < 1 ==> lasts == 1_000_000)
    && (ttlCap == 0 ==> lasts == 1_000_000)
  }

  lemma TtlIsAsAsked(expiresIn: Option<int>, ttlCap: nat)
    ensures LastsAsAsked(expiresIn, ttlCap, EffectiveTtl(expiresIn, ttlCap) * SECOND)
  {
  }

  /** Seconds a session lasts: the provider's wish, capped, and at least one. */
  function EffectiveTtl(expiresIn: Option<int>, ttlCap: nat): (ttl: int)
    ensures 1 <= ttl <= if ttlCap < 1 then 1 else ttlCap
  {
    var candidate := if expiresIn.Some? then expiresIn.value else ttlCap;
    var capped := if candidate < ttlCap then candidate else ttlCap;
    if capped < 1 then 1 else capped
  }

  datatype FlowError =
    | UnknownProvider
    | DiscoveryFailed
    | PinMismatch
    | StateTaken
    | BadEndpoint
    | StateNotFound
    | ExchangeFailed
    | NoIdToken
    | IdTokenRefused(why: Id.VerifyError)

  /** What discovery and the key set gave for this callback. */
  datatype Upstream = Upstream(issuer: string, jwks: Option<seq<Id.Jwk>>)

  function Wanted(row: LoginRow, cfg: Provider, up: Upstream): Id.Expectation {
    Id.Expectation(up.issuer, cfg.clientId, cfg.skew, row.nonce)
  }

  /** The session a verified ID token makes. */
  function FinishLogin(row: LoginRow, cfg: Provider, up: Upstream, reply: TokenReply, now: Instant, ttlCap: nat,
                       sid: string)
    : Result<Session, FlowError>
  {
    if reply.idToken.None? then Err(NoIdToken)
    else
      match Id.Verify(up.jwks, Wanted(row, cfg, up), reply.idToken.value, Timestamp(now))
      case Err(e) => Err(IdTokenRefused(e))
      case Ok(c) =>
        Ok(Session(sid, row.provider, c.sub.value, now, now, now + EffectiveTtl(reply.expiresIn, ttlCap) * SECOND,
                   Id.ProfileOf(cfg.mappings, c)))
  }

  lemma FinishedLoginMatchesRow(row: LoginRow, cfg: Provider, up: Upstream, reply: TokenReply, now: Instant,
                                ttlCap: nat, sid: string)
    requires FinishLogin(row, cfg, up, reply, now, ttlCap, sid).Ok?
    ensures var s := FinishLogin(row, cfg, up, reply, now, ttlCap, sid).value;
            && reply.idToken.Some? && reply.idToken.value.IdToken? && reply.idToken.value.claims.Some?
            && var c := reply.idToken.value.claims.value;
               && Id.ClaimsAcceptable(c, Wanted(row, cfg, up), Timestamp(now))
               && s.id == sid && s.provider == row.provider && c.sub == Some(s.userId)
               && s.profile == Id.ProfileOf(cfg.mappings, c)
               && s.createdAt == now && s.lastActivity == now
               && LastsAsAsked(reply.expiresIn, ttlCap, s.expiresAt - now)
               && WithinCap(s, ttlCap)
  {
    TtlIsAsAsked(reply.expiresIn, ttlCap);
    Id.VerifyAcceptsIff(up.jwks, Wanted(row, cfg, up), reply.idToken.value, Timestamp(now));
  }

  /** Which callbacks end in which error, and which in a session. */
  lemma FinishLoginAnswers(row: LoginRow, cfg: Provider, up: Upstream, reply: TokenReply, now: Instant, ttlCap: nat,
                           sid: string)
    ensures var r := FinishLogin(row, cfg, up, reply, now, ttlCap, sid);
            && (r == Err(NoIdToken) <==> reply.idToken == None)
            && (forall e :: r == Err(IdTokenRefused(e)) <==>
                  reply.idToken.Some?
                  && Id.Verify(up.jwks, Id.Expectation(up.issuer, cfg.clientId, cfg.skew, row.nonce),
                               reply.idToken.value,
                               now / 1_000_000) == Err(e))
            && (r.Err? ==> r.error.NoIdToken? || r.error.IdTokenRefused?)
  {
  }

  datatype CallbackResult = CallbackResult(status: string, provider: string, sessionId: string, expiresAt: Instant,
                                           userProfile: Profile)

  /** What the caller is told of a session. */
  function ResultOf(s: Session): CallbackResult {
    CallbackResult("ok", s.provider, s.id, s.expiresAt, s.profile["user_id" := Str(Plain(s.userId))])
  }

  // ---------------------------------------------------------------- the broker

  /** The database and the session map of one service. */
  class OAuthBroker {
    const providers: map<string, Provider>
    const maxAge: nat
    const ttlCap: nat
    var table: map<string, LoginRow>
    var sessions: map<string, Session>

    constructor (providers: map<string, Provider>, maxAge: nat, ttlCap: nat)
      ensures this.providers == providers && this.maxAge == maxAge && this.ttlCap == ttlCap
      ensures table == map[] && sessions == map[]
    {
      this.providers := providers;
      this.maxAge := maxAge;
      this.ttlCap := ttlCap;
      table := map[];
      sessions := map[];
    }

    /** `discovered` is what discovery gives, `parses` whether its authorization
        endpoint is a URL, and `s256` the hash that makes a PKCE challenge of a
        verifier. An endpoint that is no URL is noticed after the row is in. */
    method BuildLoginUrl(provider: string, redirectUri: string, now: Instant, discovered: Option<D.Discovery>,
                         parses: bool, state: string, nonce: string, verifier: string, s256: string -> string)
      returns (r: Result<AuthRequest, FlowError>)
      modifies this`table
      ensures provider !in providers ==> r == Err(UnknownProvider)
      ensures provider in providers && discovered.None? ==> r == Err(DiscoveryFailed)
      ensures provider in providers && discovered.Some? && !PinHolds(providers[provider], discovered.value)
              ==> r == Err(PinMismatch)
      ensures r.Err? && r.error != BadEndpoint ==> table == old(table)
      ensures provider in providers && discovered.Some? && PinHolds(providers[provider], discovered.value) ==>
                if state in old(table) then r == Err(StateTaken)
                else
                  && table == old(table)[state := LoginRow(now, provider, nonce, Some(redirectUri), Some(verifier))]
                  && (!parses ==> r == Err(BadEndpoint))
                  && (parses ==>
                        r == Ok(AuthRequest(discovered.value.authorizationEndpoint, "code",
                                            providers[provider].clientId,
                                            redirectUri, Join(providers[provider].scopes, " "), state, nonce,
                                            s256(verifier), "S256")))
      ensures r.Ok? && verifier != "" ==> state in table && Ties(table[state], r.value, state, s256)
    {
      if provider !in providers {
        return Err(UnknownProvider);
      }
      var cfg := providers[provider];
      if discovered.None? {
        return Err(DiscoveryFailed);
      }
      if cfg.jwksPin.Some? && cfg.jwksPin.value != discovered.value.jwksUri {
        return Err(PinMismatch);
      }
      var challenge := s256(verifier);
      if state in table {
        return Err(StateTaken);
      }
      table := table[state := LoginRow(now, provider, nonce, Some(redirectUri), Some(verifier))];
      if !parses {
        return Err(BadEndpoint);
      }
      return Ok(Authorization(cfg, discovered.value, redirectUri, state, nonce, challenge));
    }

    /** The row is gone however the rest of the callback ends. `discovered` is what
        discovery gives, `exchange` what the token endpoint answers and `jwks` the
        key set, where they are to be had. */
    method CompleteCallback(provider: string, code: string, state: string, now: Instant,
                            discovered: Option<D.Discovery>, exchange: Option<TokenReply>, jwks: Option<seq<Id.Jwk>>,
                            at: Instant, sid: string)
      returns (r: Result<CallbackResult, FlowError>, sent: Option<TokenForm>)
      modifies this
      ensures provider !in providers
              ==> r == Err(UnknownProvider) && sent == None && table == old(table) && sessions == old(sessions)
      ensures provider in providers ==>
                var cfg := providers[provider];
                var (row, rest) := ConsumeRow(old(table), state, provider, now, maxAge);
                && table == rest
                && (row.None? ==> r == Err(StateNotFound) && sent == None)
                && (row.Some? && discovered.None? ==> r == Err(DiscoveryFailed) && sent == None)
                && (row.Some? && discovered.Some? && !PinHolds(cfg, discovered.value)
                    ==> r == Err(PinMismatch) && sent == None)
                && (row.Some? && discovered.Some? && PinHolds(cfg, discovered.value) ==>
                      && sent == Some(FormFor(row.value, code))
                      && (exchange.None? ==> r == Err(ExchangeFailed))
                      && (exchange.Some? ==>
                            var up := Upstream(discovered.value.issuer, jwks);
                            match FinishLogin(row.value, cfg, up, exchange.value, at, ttlCap, sid)
                            case Err(e) => r == Err(e)
                            case Ok(s) => r == Ok(ResultOf(s)) && sessions == old(sessions)[sid := s]))
      ensures r.Err? ==> sessions == old(sessions)
      ensures r.Ok? ==>
                && exchange.Some? && sid in sessions && sessions == old(sessions)[sid := sessions[sid]]
                && var s := sessions[sid];
                   && s.id == sid && s.provider == provider && s.createdAt == at && s.lastActivity == at
                   && LastsAsAsked(exchange.value.expiresIn, ttlCap, s.expiresAt - at)
                   && r.value.status == "ok" && r.value.provider == provider && r.value.sessionId == sid
                   && r.value.expiresAt == s.expiresAt
                   && r.value.userProfile == s.profile["user_id" := Str(Plain(s.userId))]
    {
      sent := None;
      if provider !in providers {
        return Err(UnknownProvider), sent;
      }
      var cfg := providers[provider];
      if state !in table || table[state].provider != provider || table[state].createdAt <= Cutoff(now, maxAge) {
        return Err(StateNotFound), sent;
      }
      var row := table[state];
      table := table - {state};
      if discovered.None? {
        return Err(DiscoveryFailed), sent;
      }
      if cfg.jwksPin.Some? && cfg.jwksPin.value != discovered.value.jwksUri {
        return Err(PinMismatch), sent;
      }
      var form := TokenForm(code, row.redirectUri, None);
      if row.verifier.Some? && row.verifier.value != "" {
        form := form.(verifier := row.verifier);
      }
      sent := Some(form);
      if exchange.None? {
        return Err(ExchangeFailed), sent;
      }
      var reply := exchange.value;
      if reply.idToken.None? {
        return Err(NoIdToken), sent;
      }
      var want := Id.Expectation(discovered.value.issuer, cfg.clientId, cfg.skew, row.nonce);
      var verified := Id.Verify(jwks, want, reply.idToken.value, Timestamp(at));
      if verified.Err? {
        return Err(IdTokenRefused(verified.error)), sent;
      }
      var userId, profile := Id.ProfileFromClaims(cfg.mappings, verified.value);
      TtlIsAsAsked(reply.expiresIn, ttlCap);
      var expiresAt := at + EffectiveTtl(reply.expiresIn, ttlCap) * SECOND;
      sessions := sessions[sid := Session(sid, provider, userId, at, at, expiresAt, profile)];
      r := Ok(CallbackResult("ok", provider, sid, expiresAt, profile["user_id" := Str(Plain(userId))]));
    }

    method SweepOAuthState(now: Instant) returns (removed: nat)
      modifies this`table
      ensures table == SweepRows(old(table), now, maxAge)
      ensures removed == |old(table)| - |table|
    {
      var stale := set k | k in table && table[k].createdAt < Cutoff(now, maxAge);
      assert |table.Keys| == |table.Keys - stale| + |stale|;
      removed := |stale|;
      table := table - stale;
      assert table.Keys == old(table).Keys - stale;
    }
  }
}
