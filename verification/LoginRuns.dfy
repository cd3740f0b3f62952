/** Runs of the login protocol: any interleaving of logins, the phases of any
    number of callbacks, sweeps and the clock. */
module LoginRuns {
  import opened Prelude
  import opened Sessions
  import opened OAuthFlow
  import Id = IdToken
  import D = Discovery

  /** `s256` is the hash that makes a PKCE challenge of a verifier. */
  datatype World = World(providers: map<string, Provider>, maxAge: nat, ttlCap: nat, s256: string -> string)

  /** How far a callback that received a row has come. */
  datatype Phase =
    | Holding
    | Exchanged(form: TokenForm, reply: TokenReply)
    | Finished(form: TokenForm, idToken: Id.IdToken, sid: string)
    | Given

  datatype Call = Call(state: string, row: LoginRow, code: string, phase: Phase)

  /** `logins` remembers every row ever inserted, `requests` the authorization
      request that a login sent the user off with, `calls` every callback that
      received a row, `answers` what each consuming statement returned. */
  datatype State = State(
    clock: Instant,
    table: map<string, LoginRow>,
    logins: map<string, LoginRow>,
    requests: map<string, AuthRequest>,
    calls: map<nat, Call>,
    sessions: map<string, Session>,
    answers: seq<Option<LoginRow>>)

  /** `Insert` puts in a row whose request is not known: one of an older version,
      or of a login that failed after its insert. */
  datatype Event =
    | Tick(to: Instant)
    | Login(provider: string, d: D.Discovery, redirectUri: string, state: string, nonce: string, verifier: string)
    | Insert(state: string, row: LoginRow)
    | Consume(call: nat, provider: string, code: string, state: string)
    | Exchange(call: nat, reply: TokenReply)
    | Finish(call: nat, up: Upstream, sid: string)
    | GiveUp(call: nat)
    | Sweep

  predicate FreshLogin(s: State, state: string, nonce: string) {
    state !in s.logins && (forall k :: k in s.logins ==> s.logins[k].nonce != nonce)
  }

  /** Random values are taken not to have been used before. */
  predicate Enabled(w: World, s: State, e: Event) {
    match e
    case Tick(to) => s.clock <= to
    case Login(provider, _, _, state, nonce, verifier) =>
      provider in w.providers && verifier != "" && FreshLogin(s, state, nonce)
    case Insert(state, row) => row.createdAt <= s.clock && FreshLogin(s, state, row.nonce)
    case Consume(call, _, _, _) => call !in s.calls
    case Exchange(call, _) => call in s.calls && s.calls[call].phase == Holding
    case Finish(call, _, sid) => call in s.calls && s.calls[call].phase.Exchanged? && sid !in s.sessions
    case GiveUp(call) => call in s.calls && !s.calls[call].phase.Finished?
    case Sweep => true
  }

  function WithPhase(s: State, call: nat, phase: Phase): State
    requires call in s.calls
  {
    s.(calls := s.calls[call := s.calls[call].(phase := phase)])
  }

  function Apply(w: World, s: State, e: Event): State {
    match e
    case Tick(to) => s.(clock := to)
    case Login(provider, d, redirectUri, state, nonce, verifier) =>
      if provider !in w.providers then s
      else
        var row := LoginRow(s.clock, provider, nonce, Some(redirectUri), Some(verifier));
        var auth := Authorization(w.providers[provider], d, redirectUri, state, nonce, w.s256(verifier));
        Inserted(s, state, row).(requests := s.requests[state := auth])
    case Insert(state, row) => Inserted(s, state, row)
    case Consume(call, provider, code, state) => Consumed(w, s, call, provider, code, state)
    case Exchange(call, reply) =>
      if call !in s.calls then s
      else WithPhase(s, call, Exchanged(FormFor(s.calls[call].row, s.calls[call].code), reply))
    case Finish(call, up, sid) =>
      if call !in s.calls || !s.calls[call].phase.Exchanged? then s else Completed(w, s, call, up, sid)
    case GiveUp(call) => if call !in s.calls then s else WithPhase(s, call, Given)
    case Sweep => s.(table := SweepRows(s.table, s.clock, w.maxAge))
  }

  function Inserted(s: State, state: string, row: LoginRow): State {
    s.(table := s.table[state := row], logins := s.logins[state := row])
  }

  function Consumed(w: World, s: State, call: nat, provider: string, code: string, state: string): State {
    if provider !in w.providers then s
    else
      var (row, rest) := ConsumeRow(s.table, state, provider, s.clock, w.maxAge);
      var t := s.(table := rest, answers := s.answers + [row]);
      if row.None? then t else t.(calls := s.calls[call := Call(state, row.value, code, Holding)])
  }

  function Completed(w: World, s: State, call: nat, up: Upstream, sid: string): State
    requires call in s.calls && s.calls[call].phase.Exchanged?
  {
    var c := s.calls[call];
    if c.row.provider !in w.providers then s
    else
      match FinishLogin(c.row, w.providers[c.row.provider], up, c.phase.reply, s.clock, w.ttlCap, sid)
      case Err(_) => WithPhase(s, call, Given)
      case Ok(session) =>
        var t := WithPhase(s, call, Finished(c.phase.form, c.phase.reply.idToken.value, sid));
        t.(sessions := s.sessions[sid := session])
  }

  predicate Initial(s: State) {
    s.table == map[] && s.logins == map[] && s.requests == map[] && s.calls == map[] && s.sessions == map[]
      && s.answers == []
  }

  function StateAt(w: World, s0: State, events: seq<Event>): State
    decreases |events|
  {
    if events == [] then s0 else Apply(w, StateAt(w, s0, events[..|events| - 1]), events[|events| - 1])
  }

  predicate IsRun(w: World, s0: State, events: seq<Event>)
    decreases |events|
  {
    if events == [] then Initial(s0)
    else
      var before := events[..|events| - 1];
      IsRun(w, s0, before) && Enabled(w, StateAt(w, s0, before), events[|events| - 1])
  }

  // ------------------------------------------------------------- the invariant

  /** Every row in the table is a login nobody has consumed. */
  predicate TableOk(table: map<string, LoginRow>, logins: map<string, LoginRow>, calls: map<nat, Call>) {
    && (forall k :: k in table ==> k in logins && table[k] == logins[k])
    && (forall c :: c in calls ==> calls[c].state !in table)
  }

  predicate NoncesDistinct(logins: map<string, LoginRow>) {
    forall a, b :: a in logins && b in logins && logins[a].nonce == logins[b].nonce ==> a == b
  }

  /** Each request is tied to the row of its login. */
  predicate RequestsOk(w: World, logins: map<string, LoginRow>, requests: map<string, AuthRequest>) {
    forall k :: k in requests ==> k in logins && Ties(logins[k], requests[k], k, w.s256)
  }

  /** Each callback holds the login it names, and no two hold the same one. */
  predicate CallsOk(logins: map<string, LoginRow>, calls: map<nat, Call>) {
    && (forall c :: c in calls ==> calls[c].state in logins && calls[c].row == logins[calls[c].state])
    && (forall a, b :: a in calls && b in calls && calls[a].state == calls[b].state ==> a == b)
  }

  /** What was sent to the token endpoint replays the row. */
  predicate Replays(c: Call) {
    match c.phase
    case Exchanged(form, _) => form == FormFor(c.row, c.code)
    case Finished(form, _, _) => form == FormFor(c.row, c.code)
    case _ => true
  }

  predicate AllReplay(calls: map<nat, Call>) {
    forall c :: c in calls ==> Replays(calls[c])
  }

  /** The session a callback made: its row's provider, within the cap, from an ID
      token that carries the row's nonce, names its subject and has its profile. */
  predicate MadeFrom(w: World, row: LoginRow, idToken: Id.IdToken, session: Session) {
    && row.provider in w.providers
    && idToken.IdToken? && idToken.claims.Some?
    && var claims := idToken.claims.value;
       && claims.nonce == Some(row.nonce)
       && w.providers[row.provider].clientId in claims.aud
       && claims.sub == Some(session.userId)
       && session.provider == row.provider
       && claims.iss.Some? && session.profile == Id.ProfileOf(w.providers[row.provider].mappings, claims)
       && WithinCap(session, w.ttlCap)
  }

  predicate AllMade(w: World, calls: map<nat, Call>, sessions: map<string, Session>) {
    forall c :: c in calls && calls[c].phase.Finished? ==>
      && calls[c].phase.sid in sessions
      && MadeFrom(w, calls[c].row, calls[c].phase.idToken, sessions[calls[c].phase.sid])
  }

  predicate Makes(calls: map<nat, Call>, c: nat, sid: string) {
    c in calls && calls[c].phase.Finished? && calls[c].phase.sid == sid
  }

  /** Every session has exactly one callback that made it. */
  ghost predicate OneMaker(calls: map<nat, Call>, sessions: map<string, Session>) {
    && (forall a, b, sid :: Makes(calls, a, sid) && Makes(calls, b, sid) ==> a == b)
    && (forall sid :: sid in sessions ==> exists c :: Makes(calls, c, sid))
  }

  /** A login that has left the table. */
  ghost predicate Gone(table: map<string, LoginRow>, logins: map<string, LoginRow>, row: LoginRow) {
    exists k :: k in logins && k !in table && logins[k] == row
  }

  /** The rows handed out have left the table, and no row was handed out twice. */
  ghost predicate AnswersOk(answers: seq<Option<LoginRow>>, table: map<string, LoginRow>,
                            logins: map<string, LoginRow>) {
    && (forall i :: 0 <= i < |answers| && answers[i].Some? ==> Gone(table, logins, answers[i].value))
    && (forall i, k :: 0 <= i < k < |answers| && answers[i].Some? && answers[k].Some? ==> answers[i] != answers[k])
  }

  ghost predicate Inv(w: World, s: State) {
    && AnswersOk(s.answers, s.table, s.logins)
    && TableOk(s.table, s.logins, s.calls)
    && NoncesDistinct(s.logins)
    && RequestsOk(w, s.logins, s.requests)
    && CallsOk(s.logins, s.calls)
    && AllReplay(s.calls)
    && AllMade(w, s.calls, s.sessions)
    && OneMaker(s.calls, s.sessions)
  }

  lemma GoneStaysGone(answers: seq<Option<LoginRow>>, table: map<string, LoginRow>, logins: map<string, LoginRow>,
                      table': map<string, LoginRow>, logins': map<string, LoginRow>)
    requires AnswersOk(answers, table, logins)
    requires forall k :: k in logins ==> k in logins' && logins'[k] == logins[k]
    requires forall k :: k in logins && k !in table ==> k !in table'
    ensures AnswersOk(answers, table', logins')
  {
    forall i | 0 <= i < |answers| && answers[i].Some?
      ensures Gone(table', logins', answers[i].value)
    {
      var k :| k in logins && k !in table && logins[k] == answers[i].value;
      assert k in logins' && k !in table' && logins'[k] == answers[i].value;
    }
  }

  lemma AnswerKeepsAnswers(s: State, state: string)
    requires AnswersOk(s.answers, s.table, s.logins) && TableOk(s.table, s.logins, s.calls) && NoncesDistinct(s.logins)
    requires state in s.table
    ensures AnswersOk(s.answers + [Some(s.table[state])], s.table - {state}, s.logins)
  {
    var row := s.table[state];
    GoneStaysGone(s.answers, s.table, s.logins, s.table - {state}, s.logins);
    assert Gone(s.table - {state}, s.logins, row) by {
      assert state in s.logins && state !in s.table - {state} && s.logins[state] == row;
    }
    forall i | 0 <= i < |s.answers| && s.answers[i].Some?
      ensures s.answers[i] != Some(row)
    {
      assert Gone(s.table, s.logins, s.answers[i].value);
    }
  }

  /** Callbacks that make no session may come and change without touching makers. */
  lemma MakersKept(calls: map<nat, Call>, calls': map<nat, Call>, sessions: map<string, Session>)
    requires OneMaker(calls, sessions)
    requires forall c, sid :: Makes(calls', c, sid) <==> Makes(calls, c, sid)
    ensures OneMaker(calls', sessions)
  {
    forall sid | sid in sessions
      ensures exists c :: Makes(calls', c, sid)
    {
      var c :| Makes(calls, c, sid);
      assert Makes(calls', c, sid);
    }
  }

  lemma NewCallKeepsInv(w: World, s: State, call: nat, state: string, code: string)
    requires Inv(w, s) && call !in s.calls && state in s.table
    ensures Inv(w, s.(table := s.table - {state}, answers := s.answers + [Some(s.table[state])],
                      calls := s.calls[call := Call(state, s.table[state], code, Holding)]))
  {
    AnswerKeepsAnswers(s, state);
    var calls' := s.calls[call := Call(state, s.table[state], code, Holding)];
    forall c, sid
      ensures Makes(calls', c, sid) <==> Makes(s.calls, c, sid)
    {
      if c != call { assert c in s.calls ==> calls'[c] == s.calls[c]; }
    }
    MakersKept(s.calls, calls', s.sessions);
    NewCallKeepsLogins(s.table, s.logins, s.calls, call, state, code);
    assert AllReplay(calls');
  }

  lemma NewCallKeepsLogins(table: map<string, LoginRow>, logins: map<string, LoginRow>, calls: map<nat, Call>,
                           call: nat, state: string, code: string)
    requires TableOk(table, logins, calls) && CallsOk(logins, calls) && call !in calls && state in table
    ensures TableOk(table - {state}, logins, calls[call := Call(state, table[state], code, Holding)])
    ensures CallsOk(logins, calls[call := Call(state, table[state], code, Holding)])
  {
  }

  lemma ConsumeKeepsInv(w: World, s: State, call: nat, provider: string, code: string, state: string)
    requires Inv(w, s) && call !in s.calls
    ensures Inv(w, Consumed(w, s, call, provider, code, state))
  {
    if provider in w.providers && ConsumeRow(s.table, state, provider, s.clock, w.maxAge).0.Some? {
      NewCallKeepsInv(w, s, call, state, code);
    } else {
      GoneStaysGone(s.answers, s.table, s.logins, s.table, s.logins);
    }
  }

  /** Changing the phase of an unfinished callback to an unfinished phase. */
  lemma PhaseKeepsInv(w: World, s: State, call: nat, phase: Phase)
    requires Inv(w, s) && call in s.calls && !s.calls[call].phase.Finished? && !phase.Finished?
    requires Replays(s.calls[call].(phase := phase))
    ensures Inv(w, WithPhase(s, call, phase))
  {
    var calls' := s.calls[call := s.calls[call].(phase := phase)];
    forall c, sid
      ensures Makes(calls', c, sid) <==> Makes(s.calls, c, sid)
    {
      if c != call { assert c in s.calls ==> calls'[c] == s.calls[c]; }
    }
    MakersKept(s.calls, calls', s.sessions);
    PhaseKeepsLogins(s.table, s.logins, s.calls, call, phase);
  }

  lemma PhaseKeepsLogins(table: map<string, LoginRow>, logins: map<string, LoginRow>, calls: map<nat, Call>, call: nat,
                         phase: Phase)
    requires call in calls && TableOk(table, logins, calls) && CallsOk(logins, calls)
    ensures TableOk(table, logins, calls[call := calls[call].(phase := phase)])
    ensures CallsOk(logins, calls[call := calls[call].(phase := phase)])
  {
    var calls' := calls[call := calls[call].(phase := phase)];
    assert forall c :: c in calls ==> calls'[c].state == calls[c].state && calls'[c].row == calls[c].row;
  }

  lemma CompleteKeepsInv(w: World, s: State, call: nat, up: Upstream, sid: string)
    requires Inv(w, s) && call in s.calls && s.calls[call].phase.Exchanged? && sid !in s.sessions
    ensures Inv(w, Completed(w, s, call, up, sid))
  {
    var c := s.calls[call];
    if c.row.provider in w.providers {
      var r := FinishLogin(c.row, w.providers[c.row.provider], up, c.phase.reply, s.clock, w.ttlCap, sid);
      if r.Err? {
        PhaseKeepsInv(w, s, call, Given);
      } else {
        FinishedLoginMatchesRow(c.row, w.providers[c.row.provider], up, c.phase.reply, s.clock, w.ttlCap, sid);
        assert Replays(c);
        AddSessionKeepsInv(w, s, call, r.value, c.phase.form, c.phase.reply.idToken.value);
      }
    }
  }

  lemma AddSessionKeepsInv(w: World, s: State, call: nat, session: Session, form: TokenForm, idToken: Id.IdToken)
    requires Inv(w, s) && call in s.calls && !s.calls[call].phase.Finished? && session.id !in s.sessions
    requires MadeFrom(w, s.calls[call].row, idToken, session) && form == FormFor(s.calls[call].row, s.calls[call].code)
    ensures var t := WithPhase(s, call, Finished(form, idToken, session.id));
            Inv(w, t.(sessions := s.sessions[session.id := session]))
  {
    var phase := Finished(form, idToken, session.id);
    PhaseKeepsLogins(s.table, s.logins, s.calls, call, phase);
    assert AllReplay(s.calls[call := s.calls[call].(phase := phase)]);
    NewSessionHasMaker(w, s.calls, s.sessions, call, phase, session);
    NewSessionIsMade(w, s.calls, s.sessions, call, phase, session);
  }

  lemma NewSessionHasMaker(w: World, calls: map<nat, Call>, sessions: map<string, Session>, call: nat, phase: Phase,
                           session: Session)
    requires OneMaker(calls, sessions) && AllMade(w, calls, sessions)
    requires call in calls && !calls[call].phase.Finished? && session.id !in sessions
    requires phase.Finished? && phase.sid == session.id
    ensures OneMaker(calls[call := calls[call].(phase := phase)], sessions[session.id := session])
  {
    var calls' := calls[call := calls[call].(phase := phase)];
    forall c, x
      ensures Makes(calls', c, x) <==> Makes(calls, c, x) || (c == call && x == session.id)
      ensures Makes(calls, c, x) ==> x in sessions
    {
      if c != call { assert c in calls ==> calls'[c] == calls[c]; }
    }
    var sessions' := sessions[session.id := session];
    forall x | x in sessions'
      ensures exists c :: Makes(calls', c, x)
    {
      if x == session.id {
        assert Makes(calls', call, x);
      } else {
        var c :| Makes(calls, c, x);
        assert Makes(calls', c, x);
      }
    }
  }

  lemma NewSessionIsMade(w: World, calls: map<nat, Call>, sessions: map<string, Session>, call: nat, phase: Phase,
                         session: Session)
    requires AllMade(w, calls, sessions) && call in calls && session.id !in sessions
    requires phase.Finished? && phase.sid == session.id && MadeFrom(w, calls[call].row, phase.idToken, session)
    ensures AllMade(w, calls[call := calls[call].(phase := phase)], sessions[session.id := session])
  {
  }

  lemma InsertKeepsInv(w: World, s: State, state: string, row: LoginRow)
    requires Inv(w, s) && FreshLogin(s, state, row.nonce)
    ensures Inv(w, Inserted(s, state, row))
  {
    GoneStaysGone(s.answers, s.table, s.logins, s.table[state := row], s.logins[state := row]);
  }

  lemma LoginKeepsInv(w: World, s: State, provider: string, d: D.Discovery, redirectUri: string, state: string,
                      nonce: string, verifier: string)
    requires Inv(w, s) && provider in w.providers && verifier != "" && FreshLogin(s, state, nonce)
    ensures Inv(w, Apply(w, s, Login(provider, d, redirectUri, state, nonce, verifier)))
  {
    var row := LoginRow(s.clock, provider, nonce, Some(redirectUri), Some(verifier));
    InsertKeepsInv(w, s, state, row);
    var auth := Authorization(w.providers[provider], d, redirectUri, state, nonce, w.s256(verifier));
    RequestKeepsInv(w, Inserted(s, state, row), state, auth);
  }

  lemma RequestKeepsInv(w: World, s: State, state: string, auth: AuthRequest)
    requires Inv(w, s) && state in s.logins && Ties(s.logins[state], auth, state, w.s256)
    ensures Inv(w, s.(requests := s.requests[state := auth]))
  {
  }

  lemma StepKeepsInv(w: World, s: State, e: Event)
    requires Inv(w, s) && Enabled(w, s, e)
    ensures Inv(w, Apply(w, s, e))
  {
    match e
    case Tick(_) =>
    case Login(provider, d, redirectUri, state, nonce, verifier) =>
      LoginKeepsInv(w, s, provider, d, redirectUri, state, nonce, verifier);
    case Insert(state, row) => InsertKeepsInv(w, s, state, row);
    case Consume(call, provider, code, state) => ConsumeKeepsInv(w, s, call, provider, code, state);
    case Exchange(call, reply) =>
      PhaseKeepsInv(w, s, call, Exchanged(FormFor(s.calls[call].row, s.calls[call].code), reply));
    case Finish(call, up, sid) => CompleteKeepsInv(w, s, call, up, sid);
    case GiveUp(call) => PhaseKeepsInv(w, s, call, Given);
    case Sweep => GoneStaysGone(s.answers, s.table, s.logins, SweepRows(s.table, s.clock, w.maxAge), s.logins);
  }

  lemma {:induction false} InvAlways(w: World, s0: State, events: seq<Event>)
    requires IsRun(w, s0, events)
    ensures Inv(w, StateAt(w, s0, events))
    decreases |events|
  {
    if events != [] {
      var before := events[..|events| - 1];
      InvAlways(w, s0, before);
      StepKeepsInv(w, StateAt(w, s0, before), events[|events| - 1]);
    }
  }

  // ---------------------------------------------------------------- the results

  /** However logins, callbacks and sweeps interleave, no consuming statement
      returns a row that another one returned. */
  lemma NoRowIsReturnedTwice(w: World, s0: State, events: seq<Event>, i: nat, k: nat)
    requires IsRun(w, s0, events)
    requires i < k < |StateAt(w, s0, events).answers|
    requires var answers := StateAt(w, s0, events).answers; answers[i].Some? && answers[k].Some?
    ensures var answers := StateAt(w, s0, events).answers; answers[i].value.nonce != answers[k].value.nonce
  {
    InvAlways(w, s0, events);
    var s := StateAt(w, s0, events);
    assert Gone(s.table, s.logins, s.answers[i].value) && Gone(s.table, s.logins, s.answers[k].value);
  }

  /** A login is given to at most one callback, and is then out of the table. */
  lemma LoginConsumedAtMostOnce(w: World, s0: State, events: seq<Event>, c1: nat, c2: nat)
    requires IsRun(w, s0, events)
    requires var s := StateAt(w, s0, events); c1 in s.calls && c2 in s.calls && s.calls[c1].state == s.calls[c2].state
    ensures c1 == c2
    ensures var s := StateAt(w, s0, events);
            && s.calls[c1].state in s.logins && s.calls[c1].row == s.logins[s.calls[c1].state]
            && s.calls[c1].state !in s.table
  {
    InvAlways(w, s0, events);
  }

  /** The session answers this authorization request: the exchange repeated its
      redirect URI and gave the verifier of its challenge, and the ID token has its
      nonce. */
  predicate Completes(w: World, auth: AuthRequest, form: TokenForm, idToken: Id.IdToken) {
    && form.redirectUri == Some(auth.redirectUri)
    && form.verifier.Some? && w.s256(form.verifier.value) == auth.codeChallenge
    && idToken.IdToken? && idToken.claims.Some? && idToken.claims.value.nonce == Some(auth.nonce)
  }

  /** Every session comes from exactly one callback and so from one login. That
      login's nonce is in the ID token, its redirect URI and verifier were
      replayed to the token endpoint, the session ends within the cap, and all of
      it completes the very authorization request the user was sent off with. */
  lemma SessionTracesToOneLogin(w: World, s0: State, events: seq<Event>, sid: string) returns (c: nat)
    requires IsRun(w, s0, events) && sid in StateAt(w, s0, events).sessions
    ensures var s := StateAt(w, s0, events);
            && Makes(s.calls, c, sid) && (forall k :: Makes(s.calls, k, sid) ==> k == c)
            && s.calls[c].state in s.logins
            && TracesTo(w, s.logins[s.calls[c].state], s.calls[c], s.sessions[sid])
            && (s.calls[c].state in s.requests ==>
                  && s.requests[s.calls[c].state].state == s.calls[c].state
                  && Completes(w, s.requests[s.calls[c].state], s.calls[c].phase.form, s.calls[c].phase.idToken))
  {
    InvAlways(w, s0, events);
    c := MakerOf(w, StateAt(w, s0, events), sid);
  }

  /** The callback replayed this row and made this session of it. */
  predicate TracesTo(w: World, row: LoginRow, c: Call, session: Session) {
    && c.phase.Finished?
    && c.row == row
    && c.phase.form.redirectUri == row.redirectUri
    && c.phase.form.verifier == (if row.verifier == Some("") then None else row.verifier)
    && MadeFrom(w, row, c.phase.idToken, session)
  }

  lemma MakerOf(w: World, s: State, sid: string) returns (c: nat)
    requires Inv(w, s) && sid in s.sessions
    ensures Makes(s.calls, c, sid) && (forall k :: Makes(s.calls, k, sid) ==> k == c)
    ensures s.calls[c].state in s.logins && TracesTo(w, s.logins[s.calls[c].state], s.calls[c], s.sessions[sid])
    ensures s.calls[c].state in s.requests ==>
              && s.requests[s.calls[c].state].state == s.calls[c].state
              && Completes(w, s.requests[s.calls[c].state], s.calls[c].phase.form, s.calls[c].phase.idToken)
  {
    c :| Makes(s.calls, c, sid);
    assert Replays(s.calls[c]);
    if s.calls[c].state in s.requests {
      assert Ties(s.logins[s.calls[c].state], s.requests[s.calls[c].state], s.calls[c].state, w.s256);
    }
  }

  /** One ID token yields at most one session. */
  lemma IdTokenYieldsOneSession(w: World, s0: State, events: seq<Event>, c1: nat, c2: nat)
    requires IsRun(w, s0, events)
    requires var s := StateAt(w, s0, events);
             && c1 in s.calls && c2 in s.calls && s.calls[c1].phase.Finished? && s.calls[c2].phase.Finished?
             && s.calls[c1].phase.idToken == s.calls[c2].phase.idToken
    ensures c1 == c2
  {
    InvAlways(w, s0, events);
    var s := StateAt(w, s0, events);
    assert forall c :: c in {c1, c2} ==> s.calls[c].row == s.logins[s.calls[c].state];
    assert s.logins[s.calls[c1].state].nonce == s.logins[s.calls[c2].state].nonce;
  }

  // ------------------------------------------------------ the sweeper is unseen

  function DropSweeps(events: seq<Event>): seq<Event>
    decreases |events|
  {
    if events == [] then []
    else
      var rest := DropSweeps(events[..|events| - 1]);
      if events[|events| - 1].Sweep? then rest else rest + [events[|events| - 1]]
  }

  /** Equal but for rows that were swept from the first table, all stale. */
  predicate EqualButForStale(w: World, s: State, t: State) {
    && t == s.(table := t.table)
    && (forall k :: k in s.table ==> k in t.table && t.table[k] == s.table[k])
    && (forall k :: k in t.table && k !in s.table ==> Stale(t.table[k], s.clock, w.maxAge))
  }

  lemma ConsumeKeepsAgreement(w: World, s: State, t: State, call: nat, provider: string, code: string, state: string)
    requires EqualButForStale(w, s, t)
    ensures EqualButForStale(w, Consumed(w, s, call, provider, code, state),
                             Consumed(w, t, call, provider, code, state))
  {
    if state in t.table && state !in s.table {
      StaleIsNeverConsumable(t.table[state], s.clock, s.clock, provider, w.maxAge);
    }
  }

  lemma StepKeepsAgreement(w: World, s: State, t: State, e: Event)
    requires EqualButForStale(w, s, t) && Enabled(w, s, e)
    ensures Enabled(w, t, e)
    ensures !e.Sweep? ==> EqualButForStale(w, Apply(w, s, e), Apply(w, t, e))
    ensures e.Sweep? ==> EqualButForStale(w, Apply(w, s, e), t)
  {
    match e
    case Tick(_) =>
    case Login(_, _, _, _, _, _) =>
    case Insert(_, _) =>
    case Consume(call, provider, code, state) => ConsumeKeepsAgreement(w, s, t, call, provider, code, state);
    case Exchange(_, _) =>
    case Finish(call, up, sid) => FinishKeepsAgreement(w, s, t, call, up, sid);
    case GiveUp(_) =>
    case Sweep =>
  }

  lemma FinishKeepsAgreement(w: World, s: State, t: State, call: nat, up: Upstream, sid: string)
    requires EqualButForStale(w, s, t) && call in s.calls && s.calls[call].phase.Exchanged?
    ensures EqualButForStale(w, Completed(w, s, call, up, sid), Completed(w, t, call, up, sid))
  {
  }

  lemma {:induction false} SweepsOnlyRemoveStale(w: World, s0: State, events: seq<Event>)
    requires IsRun(w, s0, events)
    ensures IsRun(w, s0, DropSweeps(events))
    ensures EqualButForStale(w, StateAt(w, s0, events), StateAt(w, s0, DropSweeps(events)))
    decreases |events|
  {
    if events != [] {
      var before, e := events[..|events| - 1], events[|events| - 1];
      SweepsOnlyRemoveStale(w, s0, before);
      var without := DropSweeps(before);
      StepKeepsAgreement(w, StateAt(w, s0, before), StateAt(w, s0, without), e);
      if !e.Sweep? {
        assert DropSweeps(events)[..|without|] == without;
      }
    }
  }

  /** Sweeps can be put into a run anywhere. */
  lemma {:induction false} SweepsCanBeInserted(w: World, s0: State, events: seq<Event>)
    requires IsRun(w, s0, DropSweeps(events))
    ensures IsRun(w, s0, events)
    ensures EqualButForStale(w, StateAt(w, s0, events), StateAt(w, s0, DropSweeps(events)))
    decreases |events|
  {
    if events != [] {
      var before, e := events[..|events| - 1], events[|events| - 1];
      var without := DropSweeps(before);
      if !e.Sweep? {
        assert DropSweeps(events)[..|without|] == without && DropSweeps(events) != [];
      }
      SweepsCanBeInserted(w, s0, before);
      EqualStatesEnable(w, StateAt(w, s0, before), StateAt(w, s0, without), e);
      StepKeepsAgreement(w, StateAt(w, s0, before), StateAt(w, s0, without), e);
    }
  }

  lemma EqualStatesEnable(w: World, s: State, t: State, e: Event)
    requires EqualButForStale(w, s, t)
    ensures Enabled(w, s, e) <==> Enabled(w, t, e)
  {
  }

  /** Adding sweeps to a run or taking them out, anywhere, leaves a run that gives
      every callback the same answer and creates the same sessions. */
  lemma SweeperIsInvisible(w: World, s0: State, a: seq<Event>, b: seq<Event>)
    requires IsRun(w, s0, a) && DropSweeps(a) == DropSweeps(b)
    ensures IsRun(w, s0, b)
    ensures var s, t := StateAt(w, s0, a), StateAt(w, s0, b);
            s.answers == t.answers && s.calls == t.calls && s.sessions == t.sessions
  {
    SweepsOnlyRemoveStale(w, s0, a);
    SweepsCanBeInserted(w, s0, b);
  }
}
