/** The service's own methods take the steps of the runs in `Lifecycle`. */
module ServiceRuns {
  import opened Prelude
  import opened Claims
  import opened Signer
  import opened TokenTables
  import opened Lifecycle
  import Service = JwtService

  /** The service holds the tables and keys of the state. */
  ghost predicate Holds(service: Service.JwtService, w: World, s: State)
    reads service
  {
    service.cfg == w.cfg && service.signer == s.signer && service.Tables() == s.db
  }

  method GenerateStep(service: Service.JwtService, ghost w: World, ghost s: State, req: GenerateRequest, now: Instant,
                      jti: Uuid, rowId: Uuid)
    returns (r: Result<TokenResponse, ServiceError>)
    requires Holds(service, w, s) && now == s.clock
    modifies service
    ensures Holds(service, w, Apply(w, s, Generate(req, jti, rowId)))
    ensures r.Ok? ==> Apply(w, s, Generate(req, jti, rowId)).minted == s.minted[jti := r.value.token]
    ensures r.Err? ==> Apply(w, s, Generate(req, jti, rowId)) == s
  {
    r := service.Generate(req, now, jti, rowId);
  }

  method ExtendCheckStep(service: Service.JwtService, ghost w: World, ghost s: State, ghost call: nat, token: Token,
                         minutes: Option<int>, now: Instant)
    returns (r: Result<PendingExtend, ServiceError>)
    requires Holds(service, w, s) && now == s.clock
    ensures Apply(w, s, ExtendCheck(call, token, minutes))
            == if r.Ok? then s.(pending := s.pending[call := r.value]) else s
  {
    r := service.StartExtend(token, minutes, now);
  }

  method ExtendCommitStep(service: Service.JwtService, ghost w: World, ghost s: State, ghost call: nat,
                          p: PendingExtend, now: Instant, jti: Uuid, rowId: Uuid)
    returns (r: Result<TokenResponse, ServiceError>)
    requires Holds(service, w, s) && now == s.clock && call in s.pending && s.pending[call] == p
    modifies service
    ensures Holds(service, w, Apply(w, s, ExtendCommit(call, jti, rowId)))
    ensures r.Ok? ==> Apply(w, s, ExtendCommit(call, jti, rowId)).minted == s.minted[jti := r.value.token]
  {
    r := service.FinishExtend(p, now, jti, rowId);
  }

  method RevokeStep(service: Service.JwtService, ghost w: World, ghost s: State, token: Token, reason: Option<string>,
                    now: Instant)
    returns (r: Result<bool, ServiceError>)
    requires Holds(service, w, s) && now == s.clock
    modifies service`deny
    ensures Holds(service, w, Apply(w, s, Event.Revoke(token, reason)))
    ensures r == Ok(true) <==> Apply(w, s, Event.Revoke(token, reason)) != s
  {
    r := service.Revoke(token, reason, now);
    RevokeChanges(s, token, reason);
  }

  lemma RevokeChanges(s: State, token: Token, reason: Option<string>)
    ensures var (r, after) := RevokeToken(s.signer, s.db, token, reason, s.clock);
            r == Ok(true) <==> after.deny.Keys != s.db.deny.Keys
  {
  }

  method RevokeJtiStep(service: Service.JwtService, ghost w: World, ghost s: State, jti: Uuid, reason: Option<string>,
                       now: Instant)
    returns (r: Option<bool>)
    requires Holds(service, w, s) && now == s.clock
    modifies service`deny
    ensures Holds(service, w, Apply(w, s, RevokeJti(jti, reason)))
  {
    r := service.RevokeByJti(jti, reason, now);
  }
}
