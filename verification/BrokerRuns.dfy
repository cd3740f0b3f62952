/** The broker's own methods take the steps of the runs in `LoginRuns`. */
module BrokerRuns {
  import opened Prelude
  import opened Sessions
  import opened OAuthFlow
  import opened LoginRuns
  import Id = IdToken
  import D = Discovery

  /** The broker holds the configuration, the rows and the sessions of the state. */
  ghost predicate Holds(b: OAuthBroker, w: World, s: State)
    reads b
  {
    && b.providers == w.providers && b.maxAge == w.maxAge && b.ttlCap == w.ttlCap
    && b.table == s.table && b.sessions == s.sessions
  }

  /** A login whose discovery went well: the row and the request of `Login`, or, if the
      endpoint is no URL, the row alone. */
  method LoginStep(b: OAuthBroker, ghost w: World, ghost s: State, provider: string, d: D.Discovery, parses: bool,
                   redirectUri: string, now: Instant, state: string, nonce: string, verifier: string,
                   s256: string -> string)
    returns (r: Result<AuthRequest, FlowError>)
    requires Holds(b, w, s) && now == s.clock && s256 == w.s256
    requires provider in w.providers && PinHolds(w.providers[provider], d) && state !in s.table
    modifies b`table
    ensures var login := Apply(w, s, Login(provider, d, redirectUri, state, nonce, verifier));
            if parses then Holds(b, w, login) && r == Ok(login.requests[state])
            else Holds(b, w, Apply(w, s, Insert(state, login.table[state]))) && r == Err(BadEndpoint)
  {
    r := b.BuildLoginUrl(provider, redirectUri, now, Some(d), parses, state, nonce, verifier, s256);
  }

  /** The states of a callback that gets its row and its reply: it consumes, exchanges,
      and, when the clock has come to `at`, finishes. */
  ghost function AfterExchange(w: World, s: State, call: nat, provider: string, code: string, state: string,
                               reply: TokenReply, at: Instant)
    : State
  {
    Apply(w, Apply(w, Apply(w, s, Consume(call, provider, code, state)), Exchange(call, reply)), Tick(at))
  }

  method CallbackStep(b: OAuthBroker, ghost w: World, ghost s: State, ghost call: nat, provider: string, code: string,
                      state: string, now: Instant, d: D.Discovery, reply: TokenReply, jwks: Option<seq<Id.Jwk>>,
                      at: Instant, sid: string)
    returns (r: Result<CallbackResult, FlowError>, sent: Option<TokenForm>)
    requires Holds(b, w, s) && now == s.clock && call !in s.calls
    requires provider in w.providers && PinHolds(w.providers[provider], d)
    modifies b
    ensures r == Err(StateNotFound) ==> Holds(b, w, Apply(w, s, Consume(call, provider, code, state)))
    ensures r != Err(StateNotFound) ==>
              var t := AfterExchange(w, s, call, provider, code, state, reply, at);
              && call in t.calls && t.calls[call].phase.Exchanged? && sent == Some(t.calls[call].phase.form)
              && Holds(b, w, Apply(w, t, Finish(call, Upstream(d.issuer, jwks), sid)))
  {
    r, sent := b.CompleteCallback(provider, code, state, now, Some(d), Some(reply), jwks, at, sid);
  }

  method SweepStep(b: OAuthBroker, ghost w: World, ghost s: State, now: Instant) returns (removed: nat)
    requires Holds(b, w, s) && now == s.clock
    modifies b`table
    ensures Holds(b, w, Apply(w, s, Sweep))
  {
    removed := b.SweepOAuthState(now);
  }
}
