/** Forgetting denylist rows: the service with a purge that may run at any time,
    against the service without one (migrations/0001_init.sql). */
module DenylistPurge {
  import opened Prelude
  import opened Claims
  import opened Signer
  import opened TokenTables
  import opened Lifecycle
  import opened LifecycleRuns
  import opened TokenActivity
  import opened ExtensionChains

  /** A purge deletes the rows that expired `margin` ago or earlier. */
  datatype Action = Do(event: Event) | Purge(margin: int)

  function PurgeRows(deny: map<Uuid, DenyRow>, now: Instant, margin: int): map<Uuid, DenyRow> {
    deny - (set j | j in deny && deny[j].expiresAt + margin <= now)
  }

  function Act(w: World, s: State, a: Action): State {
    match a
    case Do(e) => Apply(w, s, e)
    case Purge(margin) => WithDeny(s, PurgeRows(s.db.deny, s.clock, margin))
  }

  function WithDeny(s: State, deny: map<Uuid, DenyRow>): State {
    s.(db := s.db.(deny := deny))
  }

  /** The state of the service that purges. */
  function After(w: World, s0: State, actions: seq<Action>): State {
    if actions == [] then s0 else Act(w, After(w, s0, actions[..|actions| - 1]), actions[|actions| - 1])
  }

  /** What the service that never purges is asked to do. */
  function Events(actions: seq<Action>): seq<Event> {
    if actions == [] then []
    else
      var last := actions[|actions| - 1];
      Events(actions[..|actions| - 1]) + (if last.Do? then [last.event] else [])
  }

  /** Purges leave at least the margin `least`. */
  ghost predicate CanAct(w: World, s: State, a: Action, least: int) {
    match a
    case Do(e) => Enabled(w, s, e)
    case Purge(margin) => margin >= least
  }

  ghost predicate IsPurgedRun(w: World, s0: State, actions: seq<Action>, least: int) {
    if actions == [] then Initial(s0)
    else
      var before := actions[..|actions| - 1];
      IsPurgedRun(w, s0, before, least) && CanAct(w, After(w, s0, before), actions[|actions| - 1], least)
  }

  // -------------------------------------------------------------- the relation

  /** A token, minted here or from outside, with this jti. */
  ghost predicate Bears(w: World, minted: map<Uuid, Token>, j: Uuid, t: Token) {
    (j in minted && minted[j] == t) || (t in w.outside && TokenJti(t) == Some(j))
  }

  /** The token's last second is over. */
  predicate Over(t: Token, now: Instant) {
    ClaimsOf(t).Some? ==> ClaimsOf(t).value.exp < Timestamp(now)
  }

  ghost predicate AllOver(w: World, minted: map<Uuid, Token>, j: Uuid, now: Instant) {
    forall t :: Bears(w, minted, j, t) ==> Over(t, now)
  }

  /** When the row may be purged, the token is over. */
  predicate LongEnough(row: DenyRow, t: Token, least: int) {
    ClaimsOf(t).Some? ==> row.expiresAt + least >= AtSecond(ClaimsOf(t).value.exp) + SECOND
  }

  ghost predicate OutlivesAll(w: World, minted: map<Uuid, Token>, j: Uuid, row: DenyRow, least: int) {
    forall t :: Bears(w, minted, j, t) ==> LongEnough(row, t, least)
  }

  /** Of all the jtis ever denied the purged table `kept` misses only those whose
      tokens are over, and its rows will stay until theirs are. */
  ghost predicate KeptEnough(w: World, minted: map<Uuid, Token>, now: Instant, kept: map<Uuid, DenyRow>,
                             denied: set<Uuid>, least: int) {
    && kept.Keys <= denied
    && (forall j :: j in denied && j !in kept ==> AllOver(w, minted, j, now))
    && (forall j :: j in kept ==> OutlivesAll(w, minted, j, kept[j], least))
  }

  ghost predicate PendingBorn(w: World, minted: map<Uuid, Token>, p: PendingExtend) {
    exists t :: Bears(w, minted, p.oldJti, t) && ClaimsOf(t) == Some(p.claims)
  }

  /** The extends in flight replace tokens that exist. */
  ghost predicate PendingsBorn(w: World, minted: map<Uuid, Token>, pending: map<nat, PendingExtend>) {
    forall call :: call in pending ==> PendingBorn(w, minted, pending[call])
  }

  /** The purged state `p` and the unpurged state `t` agree but for the denylist. */
  ghost predicate Agree(w: World, p: State, t: State, least: int) {
    && p == WithDeny(t, p.db.deny)
    && KeptEnough(w, t.minted, t.clock, p.db.deny, t.db.deny.Keys, least)
    && PendingsBorn(w, t.minted, t.pending)
  }

  /** A margin of a second, and for tokens from outside that share a jti a second more
      than their expiries are apart. */
  ghost predicate MarginEnough(w: World, least: int) {
    least >= SECOND && forall a, b :: !TooClose(w, a, b, least)
  }

  /** Two tokens from outside that the margin is too small for. */
  predicate TooClose(w: World, a: Token, b: Token, least: int) {
    && a in w.outside && b in w.outside && TokenJti(a).Some? && TokenJti(a) == TokenJti(b)
    && least < AtSecond(ClaimsOf(b).value.exp) - AtSecond(ClaimsOf(a).value.exp) + SECOND
  }

  /** Whatever verifies bears its jti. */
  lemma VerifiedBears(w: World, s: State, token: Token, now: Instant, c: StandardClaims)
    requires Inv(w, s) && Presentable(w, s, token)
    requires VerifyRaw(s.signer, token, Permissive(), now) == Ok(c) && ParseUuid(c.jti).Some?
    ensures ClaimsOf(token) == Some(c) && Bears(w, s.minted, ParseUuid(c.jti).value, token)
  {
    VerifiedClaims(s.signer, token, now);
    assert token.key in s.ring.Values by {
      assert token.key == s.signer.current.key
             || (s.signer.previous.Some? && token.key == s.signer.previous.value.key);
    }
    if token in s.minted.Values {
      var j :| j in s.minted && s.minted[j] == token;
      assert MintedOk(token, s.ring, LatestRow(s.db.meta, j).value, j);
    }
  }

  /** A row that outlives one bearer of a jti stays long enough for them all. */
  lemma OutlivesOneOutlivesAll(w: World, s: State, j: Uuid, t: Token, row: DenyRow, least: int)
    requires Inv(w, s) && MarginEnough(w, least) && Bears(w, s.minted, j, t)
    requires ClaimsOf(t).Some? && row.expiresAt >= AtSecond(ClaimsOf(t).value.exp)
    ensures OutlivesAll(w, s.minted, j, row, least)
  {
    assert j in s.minted.Keys ==> !OutsideJti(w, j);
    forall x | Bears(w, s.minted, j, x)
      ensures LongEnough(row, x, least)
    {
      if x != t {
        assert x in w.outside && t in w.outside && !TooClose(w, t, x, least);
      }
    }
  }

  // -------------------------------------------------- what keeps the relation

  function Insert(deny: map<Uuid, DenyRow>, j: Uuid, row: DenyRow): map<Uuid, DenyRow> {
    if j in deny then deny else deny[j := row]
  }

  lemma InsertKeepsEnough(w: World, minted: map<Uuid, Token>, now: Instant, kept: map<Uuid, DenyRow>, denied: set<Uuid>,
                          j: Uuid, row: DenyRow, least: int)
    requires KeptEnough(w, minted, now, kept, denied, least) && OutlivesAll(w, minted, j, row, least)
    ensures KeptEnough(w, minted, now, Insert(kept, j, row), denied + {j}, least)
  {
  }

  lemma MintKeepsEnough(w: World, minted: map<Uuid, Token>, now: Instant, kept: map<Uuid, DenyRow>, denied: set<Uuid>,
                        jti: Uuid, token: Token, least: int)
    requires KeptEnough(w, minted, now, kept, denied, least) && jti !in denied && !OutsideJti(w, jti)
    ensures KeptEnough(w, minted[jti := token], now, kept, denied, least)
  {
    forall j, t | j != jti
      ensures Bears(w, minted[jti := token], j, t) <==> Bears(w, minted, j, t)
    {
    }
    forall j | j in denied && j !in kept ensures AllOver(w, minted[jti := token], j, now) {
      assert AllOver(w, minted, j, now);
    }
    forall j | j in kept ensures OutlivesAll(w, minted[jti := token], j, kept[j], least) {
      assert OutlivesAll(w, minted, j, kept[j], least);
    }
  }

  lemma TickKeepsEnough(w: World, minted: map<Uuid, Token>, now: Instant, later: Instant, kept: map<Uuid, DenyRow>,
                        denied: set<Uuid>, least: int)
    requires KeptEnough(w, minted, now, kept, denied, least) && now <= later
    ensures KeptEnough(w, minted, later, kept, denied, least)
  {
    TimestampMonotone(now, later);
    forall j | j in denied && j !in kept ensures AllOver(w, minted, j, later) {
      assert AllOver(w, minted, j, now);
    }
  }

  lemma PurgeKeepsEnough(w: World, minted: map<Uuid, Token>, now: Instant, kept: map<Uuid, DenyRow>, denied: set<Uuid>,
                         least: int, margin: int)
    requires KeptEnough(w, minted, now, kept, denied, least) && margin >= least
    ensures KeptEnough(w, minted, now, PurgeRows(kept, now, margin), denied, least)
  {
    forall j | j in denied && j !in PurgeRows(kept, now, margin)
      ensures AllOver(w, minted, j, now)
    {
      if j in kept {
        assert OutlivesAll(w, minted, j, kept[j], least);
        forall t | Bears(w, minted, j, t) ensures Over(t, now) {
          assert LongEnough(kept[j], t, least);
          if ClaimsOf(t).Some? { TimestampMonotone(AtSecond(ClaimsOf(t).value.exp) + SECOND, now); }
        }
      }
    }
  }

  lemma MintKeepsBorn(w: World, minted: map<Uuid, Token>, pending: map<nat, PendingExtend>, jti: Uuid, token: Token)
    requires PendingsBorn(w, minted, pending) && jti !in minted
    ensures PendingsBorn(w, minted[jti := token], pending)
  {
    forall call | call in pending
      ensures PendingBorn(w, minted[jti := token], pending[call])
    {
      var p := pending[call];
      assert PendingBorn(w, minted, p);
      var t :| Bears(w, minted, p.oldJti, t) && ClaimsOf(t) == Some(p.claims);
      assert Bears(w, minted[jti := token], p.oldJti, t);
    }
  }

  // ----------------------------------------------------------------- the answers

  /** If the token verifies and its jti was denied, it is still denied or over. */
  predicate StillRefused(signer: JwtSigner, kept: set<Uuid>, denied: set<Uuid>, token: Token, now: Instant) {
    var v := VerifyRaw(signer, token, Permissive(), now);
    v.Ok? && ParseUuid(v.value.jti).Some? && ParseUuid(v.value.jti).value in denied ==>
      ParseUuid(v.value.jti).value in kept || v.value.exp < Timestamp(now)
  }

  lemma SameVerdict(cfg: JwtConfig, signer: JwtSigner, p: Db, t: Db, req: ValidateRequest, now: Instant)
    requires p.deny.Keys <= t.deny.Keys && StillRefused(signer, p.deny.Keys, t.deny.Keys, req.token, now)
    ensures Validate(cfg, signer, p, req, now) == Validate(cfg, signer, t, req, now)
    ensures Introspect(cfg, signer, p, req.token, now) == Introspect(cfg, signer, t, req.token, now)
  {
  }

  lemma SameCheck(signer: JwtSigner, p: Db, t: Db, token: Token, minutes: Option<int>, now: Instant)
    requires p.meta == t.meta
    requires p.deny.Keys <= t.deny.Keys && StillRefused(signer, p.deny.Keys, t.deny.Keys, token, now)
    ensures CheckExtend(signer, p, token, minutes, now) == CheckExtend(signer, t, token, minutes, now)
  {
  }

  lemma AgreementRefuses(w: World, p: State, t: State, token: Token, now: Instant, least: int)
    requires Inv(w, t) && Agree(w, p, t, least) && Presentable(w, t, token) && t.clock <= now
    ensures StillRefused(t.signer, p.db.deny.Keys, t.db.deny.Keys, token, now)
  {
    var v := VerifyRaw(t.signer, token, Permissive(), now);
    if v.Ok? && ParseUuid(v.value.jti).Some? {
      var j := ParseUuid(v.value.jti).value;
      VerifiedBears(w, t, token, now, v.value);
      if j in t.db.deny.Keys && j !in p.db.deny {
        assert AllOver(w, t.minted, j, t.clock);
        assert Over(token, t.clock);
        TimestampMonotone(t.clock, now);
      }
    }
  }

  // ------------------------------------------------------------- step by step

  lemma RevokeKeepsAgreement(w: World, p: State, t: State, token: Token, reason: Option<string>, least: int)
    requires Inv(w, t) && MarginEnough(w, least) && Agree(w, p, t, least) && Presentable(w, t, token)
    ensures Agree(w, Apply(w, p, Revoke(token, reason)), Apply(w, t, Revoke(token, reason)), least)
  {
    RevokeIsDeny(w, p, token, reason);
    RevokeIsDeny(w, t, token, reason);
    var r := CheckRevoke(t.signer, token, t.clock);
    if r.Ok? {
      VerifiedBears(w, t, token, t.clock, VerifyRaw(t.signer, token, Permissive(), t.clock).value);
      var row := RevokeRow(t, r.value, reason);
      OutlivesOneOutlivesAll(w, t, r.value.jti, token, row, least);
      DenyKeepsAgreement(w, p, t, r.value.jti, row, least);
    }
  }

  lemma DenyKeepsAgreement(w: World, p: State, t: State, j: Uuid, row: DenyRow, least: int)
    requires Agree(w, p, t, least) && OutlivesAll(w, t.minted, j, row, least)
    ensures Agree(w, Denied(p, j, row), Denied(t, j, row), least)
  {
    InsertKeepsEnough(w, t.minted, t.clock, p.db.deny, t.db.deny.Keys, j, row, least);
    assert Denied(p, j, row).db.deny == Insert(p.db.deny, j, row);
    assert Denied(t, j, row).db.deny.Keys == t.db.deny.Keys + {j};
  }

  lemma RevokeJtiKeepsAgreement(w: World, p: State, t: State, u: Uuid, reason: Option<string>, least: int)
    requires Inv(w, t) && MarginEnough(w, least) && Agree(w, p, t, least)
    ensures Agree(w, Apply(w, p, RevokeJti(u, reason)), Apply(w, t, RevokeJti(u, reason)), least)
  {
    if LatestRow(t.db.meta, u).Some? {
      var row := LatestRow(t.db.meta, u).value;
      assert u in t.minted.Keys && MintedOk(t.minted[u], t.ring, row, u);
      assert Bears(w, t.minted, u, t.minted[u]);
      OutlivesOneOutlivesAll(w, t, u, t.minted[u], DenyRow(t.clock, row.expiresAt, reason), least);
      DenyKeepsAgreement(w, p, t, u, DenyRow(t.clock, row.expiresAt, reason), least);
    }
  }

  lemma IssueKeepsAgreement(w: World, p: State, t: State, issue: Issue, least: int)
    requires DenyKnown(w, t.minted.Keys, t.db.deny.Keys) && Agree(w, p, t, least) && FreshJti(w, t, issue.row.jwtUuid)
    ensures Agree(w, Issued(p, issue), Issued(t, issue), least)
  {
    FreshIsNotDenied(w, t, issue.row.jwtUuid);
    MintKeepsEnough(w, t.minted, t.clock, p.db.deny, t.db.deny.Keys, issue.row.jwtUuid, issue.token, least);
    MintKeepsBorn(w, t.minted, t.pending, issue.row.jwtUuid, issue.token);
  }

  lemma GenerateKeepsAgreement(w: World, p: State, t: State, req: GenerateRequest, jti: Uuid, rowId: Uuid, least: int)
    requires Inv(w, t) && Agree(w, p, t, least) && FreshJti(w, t, jti)
    ensures Agree(w, Apply(w, p, Generate(req, jti, rowId)), Apply(w, t, Generate(req, jti, rowId)), least)
  {
    var plan := PlanGenerate(w.cfg, t.signer, req, t.clock, jti, rowId);
    if plan.Ok? {
      IssueKeepsAgreement(w, p, t, plan.value, least);
    }
  }

  lemma CheckedIsBorn(w: World, s: State, token: Token, minutes: Option<int>)
    requires Inv(w, s) && Presentable(w, s, token)
    requires CheckExtend(s.signer, s.db, token, minutes, s.clock).Ok?
    ensures PendingBorn(w, s.minted, CheckExtend(s.signer, s.db, token, minutes, s.clock).value)
  {
    VerifiedBears(w, s, token, s.clock, CheckExtend(s.signer, s.db, token, minutes, s.clock).value.claims);
  }

  lemma CheckAddsPending(w: World, s: State, call: nat, token: Token, minutes: Option<int>)
    ensures var r := CheckExtend(s.signer, s.db, token, minutes, s.clock);
            Apply(w, s, ExtendCheck(call, token, minutes))
            == if r.Ok? then s.(pending := s.pending[call := r.value]) else s
  {
  }

  lemma SameCheckOnAgreement(w: World, p: State, t: State, token: Token, minutes: Option<int>, least: int)
    requires Inv(w, t) && Agree(w, p, t, least) && Presentable(w, t, token)
    ensures CheckExtend(p.signer, p.db, token, minutes, p.clock) == CheckExtend(t.signer, t.db, token, minutes, t.clock)
  {
    AgreementRefuses(w, p, t, token, t.clock, least);
    SameCheck(t.signer, p.db, t.db, token, minutes, t.clock);
  }

  lemma MorePendingsKeepAgreement(w: World, p: State, t: State, call: nat, x: PendingExtend, least: int)
    requires Agree(w, p, t, least) && PendingBorn(w, t.minted, x)
    ensures Agree(w, p.(pending := p.pending[call := x]), t.(pending := t.pending[call := x]), least)
  {
  }

  lemma CheckKeepsAgreement(w: World, p: State, t: State, call: nat, token: Token, minutes: Option<int>, least: int)
    requires Inv(w, t) && Agree(w, p, t, least) && Presentable(w, t, token)
    ensures Agree(w, Apply(w, p, ExtendCheck(call, token, minutes)), Apply(w, t, ExtendCheck(call, token, minutes)),
                  least)
  {
    SameCheckOnAgreement(w, p, t, token, minutes, least);
    CheckAddsPending(w, p, call, token, minutes);
    CheckAddsPending(w, t, call, token, minutes);
    var r := CheckExtend(t.signer, t.db, token, minutes, t.clock);
    if r.Ok? {
      CheckedIsBorn(w, t, token, minutes);
      MorePendingsKeepAgreement(w, p, t, call, r.value, least);
    }
  }

  lemma FewerPendingsKeepAgreement(w: World, p: State, t: State, fewer: map<nat, PendingExtend>, least: int)
    requires Agree(w, p, t, least) && forall c :: c in fewer ==> c in t.pending && fewer[c] == t.pending[c]
    ensures Agree(w, p.(pending := fewer), t.(pending := fewer), least)
  {
  }

  /** The first half of a commit: the old token is denylisted. */
  lemma SupersedeKeepsAgreement(w: World, p: State, t: State, x: PendingExtend, least: int)
    requires Inv(w, t) && MarginEnough(w, least) && Agree(w, p, t, least) && PendingBorn(w, t.minted, x)
    ensures Agree(w, Denied(p, x.oldJti, SupersededRow(x, t.clock)), Denied(t, x.oldJti, SupersededRow(x, t.clock)),
                  least)
  {
    var token :| Bears(w, t.minted, x.oldJti, token) && ClaimsOf(token) == Some(x.claims);
    OutlivesOneOutlivesAll(w, t, x.oldJti, token, SupersededRow(x, t.clock), least);
    DenyKeepsAgreement(w, p, t, x.oldJti, SupersededRow(x, t.clock), least);
  }

  lemma CommitKeepsAgreement(w: World, p: State, t: State, call: nat, jti: Uuid, rowId: Uuid, least: int)
    requires Inv(w, t) && MarginEnough(w, least) && Agree(w, p, t, least) && call in t.pending && FreshJti(w, t, jti)
    ensures Agree(w, Committed(w, p, call, jti, rowId), Committed(w, t, call, jti, rowId), least)
  {
    var x := t.pending[call];
    if ExpInRange(x.claims.exp) {
      assert PendingBorn(w, t.minted, x) && PendingOk(w, t.minted, t.db.meta, x);
      SupersedeKeepsAgreement(w, p, t, x, least);
      MoreDeniedKnown(w, t, x.oldJti, SupersededRow(x, t.clock));
      var midP, issue := CommitInTwo(w, p, call, jti, rowId);
      var midT, same := CommitInTwo(w, t, call, jti, rowId);
      IssueAfterSupersede(w, midP, midT, issue, t.pending - {call}, least);
    } else {
      FewerPendingsKeepAgreement(w, p, t, t.pending - {call}, least);
    }
  }

  lemma IssueAfterSupersede(w: World, p: State, t: State, issue: Issue, fewer: map<nat, PendingExtend>, least: int)
    requires DenyKnown(w, t.minted.Keys, t.db.deny.Keys) && Agree(w, p, t, least) && FreshJti(w, t, issue.row.jwtUuid)
    requires forall c :: c in fewer ==> c in t.pending && fewer[c] == t.pending[c]
    ensures Agree(w, Issued(p, issue).(pending := fewer), Issued(t, issue).(pending := fewer), least)
  {
    IssueKeepsAgreement(w, p, t, issue, least);
    FewerPendingsKeepAgreement(w, Issued(p, issue), Issued(t, issue), fewer, least);
  }

  lemma MoreDeniedKnown(w: World, s: State, u: Uuid, row: DenyRow)
    requires DenyKnown(w, s.minted.Keys, s.db.deny.Keys) && Known(w, s.minted.Keys, u)
    ensures DenyKnown(w, s.minted.Keys, Denied(s, u, row).db.deny.Keys)
  {
  }

  lemma StepKeepsAgreement(w: World, p: State, t: State, e: Event, least: int)
    requires Inv(w, t) && MarginEnough(w, least) && Agree(w, p, t, least) && Enabled(w, p, e)
    ensures Enabled(w, t, e) && Agree(w, Apply(w, p, e), Apply(w, t, e), least)
  {
    match e
    case Tick(to) => TickKeepsEnough(w, t.minted, t.clock, to, p.db.deny, t.db.deny.Keys, least);
    case Rotate(_, _) =>
    case Generate(req, jti, rowId) => GenerateKeepsAgreement(w, p, t, req, jti, rowId, least);
    case ExtendCheck(call, token, minutes) => CheckKeepsAgreement(w, p, t, call, token, minutes, least);
    case ExtendCommit(call, jti, rowId) => CommitKeepsAgreement(w, p, t, call, jti, rowId, least);
    case ExtendAbandon(call) => FewerPendingsKeepAgreement(w, p, t, t.pending - {call}, least);
    case Revoke(token, reason) => RevokeKeepsAgreement(w, p, t, token, reason, least);
    case RevokeJti(u, reason) => RevokeJtiKeepsAgreement(w, p, t, u, reason, least);
  }

  lemma PurgeKeepsAgreement(w: World, p: State, t: State, margin: int, least: int)
    requires Agree(w, p, t, least) && margin >= least
    ensures Agree(w, Act(w, p, Purge(margin)), t, least)
  {
    PurgeKeepsEnough(w, t.minted, t.clock, p.db.deny, t.db.deny.Keys, least, margin);
  }

  /** A run with purges is a run without them that agrees with it at the end. */
  lemma {:induction false} PurgedRunAgrees(w: World, s0: State, actions: seq<Action>, least: int) returns (t: State)
    requires IsPurgedRun(w, s0, actions, least) && MarginEnough(w, least)
    ensures Reaches(w, s0, Events(actions), t) && Agree(w, After(w, s0, actions), t, least)
  {
    if actions == [] {
      t := s0;
    } else {
      var before, last := actions[..|actions| - 1], actions[|actions| - 1];
      t := PurgedRunAgrees(w, s0, before, least);
      t := ActionKeepsAgreement(w, s0, Events(before), After(w, s0, before), t, last, least);
      assert last.Purge? ==> Events(actions) == Events(before);
    }
  }

  lemma ActionKeepsAgreement(w: World, s0: State, events: seq<Event>, p: State, t: State, a: Action, least: int)
    returns (t': State)
    requires MarginEnough(w, least) && Reaches(w, s0, events, t) && Agree(w, p, t, least) && CanAct(w, p, a, least)
    ensures Reaches(w, s0, events + (if a.Do? then [a.event] else []), t') && Agree(w, Act(w, p, a), t', least)
  {
    match a
    case Do(e) =>
      InvAlways(w, s0, events, |events|);
      StepKeepsAgreement(w, p, t, e, least);
      var all := RunOneMore(w, s0, events, t, e);
      t' := Apply(w, t, e);
    case Purge(margin) =>
      PurgeKeepsAgreement(w, p, t, margin, least);
      assert events + [] == events;
      t' := t;
  }

  /** What the service that purged answers, and the one that never did. */
  ghost predicate AnswerAlike(w: World, p: State, t: State, token: Token, now: Instant) {
    && (forall audience, issuer ::
          Validate(w.cfg, p.signer, p.db, ValidateRequest(token, audience, issuer), now)
          == Validate(w.cfg, t.signer, t.db, ValidateRequest(token, audience, issuer), now))
    && Introspect(w.cfg, p.signer, p.db, token, now) == Introspect(w.cfg, t.signer, t.db, token, now)
    && (forall minutes ::
          CheckExtend(p.signer, p.db, token, minutes, now) == CheckExtend(t.signer, t.db, token, minutes, now))
  }

  /** Purging rows that are past their expiry by the margin, as often as one likes, is
      invisible: every validation, introspection and extend check, of any token and
      at any later time, answers as in the run without the purges, reason and
      claims included, and that run mints the same tokens and writes the same rows. */
  lemma PurgingIsInvisible(w: World, s0: State, actions: seq<Action>, token: Token, now: Instant, least: int)
    requires IsPurgedRun(w, s0, actions, least) && MarginEnough(w, least)
    requires Presentable(w, After(w, s0, actions), token) && After(w, s0, actions).clock <= now
    ensures IsRun(w, s0, Events(actions))
    ensures var p, t := After(w, s0, actions), StateAt(w, s0, Events(actions), |Events(actions)|);
            && p == WithDeny(t, p.db.deny) && p.db.deny.Keys <= t.db.deny.Keys
            && AnswerAlike(w, p, t, token, now)
  {
    var t := PurgedRunAgrees(w, s0, actions, least);
    InvAlways(w, s0, Events(actions), |Events(actions)|);
    AgreeingAnswerAlike(w, After(w, s0, actions), t, token, now, least);
  }

  lemma AgreeingAnswerAlike(w: World, p: State, t: State, token: Token, now: Instant, least: int)
    requires Inv(w, t) && Agree(w, p, t, least) && Presentable(w, t, token) && t.clock <= now
    ensures AnswerAlike(w, p, t, token, now)
  {
    AgreementRefuses(w, p, t, token, now, least);
    forall audience, issuer
      ensures Validate(w.cfg, p.signer, p.db, ValidateRequest(token, audience, issuer), now)
              == Validate(w.cfg, t.signer, t.db, ValidateRequest(token, audience, issuer), now)
    {
      SameVerdict(w.cfg, t.signer, p.db, t.db, ValidateRequest(token, audience, issuer), now);
    }
    SameVerdict(w.cfg, t.signer, p.db, t.db, ValidateRequest(token, None, None), now);
    forall minutes
      ensures CheckExtend(p.signer, p.db, token, minutes, now) == CheckExtend(t.signer, t.db, token, minutes, now)
    {
      SameCheck(t.signer, p.db, t.db, token, minutes, now);
    }
  }

  // ---------------------------------------------------- what invisibility needs

  lemma RunOneMoreAction(w: World, s0: State, actions: seq<Action>, least: int, a: Action) returns (all: seq<Action>)
    requires IsPurgedRun(w, s0, actions, least) && CanAct(w, After(w, s0, actions), a, least)
    ensures IsPurgedRun(w, s0, all, least) && After(w, s0, all) == Act(w, After(w, s0, actions), a)
    ensures Events(all) == Events(actions) + (if a.Do? then [a.event] else [])
  {
    all := actions + [a];
    assert all[..|all| - 1] == actions;
  }

  /** Purged and unpurged runs that are still in the same state go on together. */
  ghost predicate BothAt(w: World, s0: State, actions: seq<Action>, least: int, s: State) {
    IsPurgedRun(w, s0, actions, least) && After(w, s0, actions) == s && Reaches(w, s0, Events(actions), s)
  }

  lemma BothGoOn(w: World, s0: State, actions: seq<Action>, least: int, s: State, e: Event) returns (all: seq<Action>)
    requires BothAt(w, s0, actions, least, s) && Enabled(w, s, e)
    ensures BothAt(w, s0, all, least, Apply(w, s, e))
  {
    all := RunOneMoreAction(w, s0, actions, least, Do(e));
    var events := RunOneMore(w, s0, Events(actions), s, e);
  }

  /** The runs end apart: the token is inactive, and active to the service that purged. */
  ghost predicate Reactivates(w: World, s0: State, actions: seq<Action>, token: Token) {
    && IsRun(w, s0, Events(actions))
    && var p, t := After(w, s0, actions), StateAt(w, s0, Events(actions), |Events(actions)|);
       && Introspect(w.cfg, t.signer, t.db, token, t.clock).Inactive?
       && Introspect(w.cfg, p.signer, p.db, token, p.clock).Active?
  }

  lemma BothRevoke(w: World, s0: State, actions: seq<Action>, least: int, s: State, c: StandardClaims, j: Uuid)
    returns (all: seq<Action>)
    requires BothAt(w, s0, actions, least, s) && Signer.Valid(s.signer) && Presentable(w, s, Sign(s.signer, c))
    requires c.extra.Keys !! TYPED && ExpInRange(c.exp) && ParseUuid(c.jti) == Some(j)
    ensures BothAt(w, s0, all, least, Denied(s, j, DenyRow(s.clock, AtSecond(c.exp), None)))
  {
    SignVerifyRoundTrip(s.signer, c, Permissive(), s.clock);
    RevokeIsDeny(w, s, Sign(s.signer, c), None);
    all := BothGoOn(w, s0, actions, least, s, Revoke(Sign(s.signer, c), None));
  }

  lemma BothWait(w: World, s0: State, actions: seq<Action>, least: int, s: State, to: Instant)
    returns (all: seq<Action>)
    requires BothAt(w, s0, actions, least, s) && s.clock <= to
    ensures BothAt(w, s0, all, least, s.(clock := to))
  {
    all := BothGoOn(w, s0, actions, least, s, Tick(to));
  }

  lemma OnlyOnePurges(w: World, s0: State, actions: seq<Action>, s: State, margin: int) returns (all: seq<Action>)
    requires BothAt(w, s0, actions, margin, s)
    ensures IsPurgedRun(w, s0, all, margin) && After(w, s0, all) == WithDeny(s, PurgeRows(s.db.deny, s.clock, margin))
    ensures Reaches(w, s0, Events(all), s)
  {
    all := RunOneMoreAction(w, s0, actions, margin, Purge(margin));
    assert Events(all) == Events(actions);
  }

  lemma DeniedAndForgotten(cfg: JwtConfig, signer: JwtSigner, meta: seq<MetaRow>, c: StandardClaims, j: Uuid,
                           row: DenyRow, now: Instant)
    requires Signer.Valid(signer) && c.extra.Keys !! TYPED && c.iss == cfg.issuer && ParseUuid(c.jti) == Some(j)
    requires Timestamp(now) <= c.exp
    ensures Introspect(cfg, signer, Db(meta, map[j := row]), Sign(signer, c), now) == Inactive
    ensures Introspect(cfg, signer, Db(meta, map[]), Sign(signer, c), now) == Active(c)
  {
    SignVerifyRoundTrip(signer, c, Permissive(), now);
  }

  /** Revoking one token signed with this jti, waiting until its row may be purged,
      and purging it, reactivates another whose last second is not over. */
  lemma RevokeWaitPurge(w: World, s0: State, before: seq<Action>, s: State, a: StandardClaims, b: StandardClaims,
                        to: Instant, margin: int)
    returns (actions: seq<Action>)
    requires BothAt(w, s0, before, margin, s) && Signer.Valid(s.signer) && s.db.deny == map[]
    requires a.extra.Keys !! TYPED && b.extra.Keys !! TYPED && ExpInRange(a.exp) && b.iss == w.cfg.issuer
    requires ParseUuid(a.jti).Some? && ParseUuid(a.jti) == ParseUuid(b.jti)
    requires Presentable(w, s, Sign(s.signer, a))
    requires s.clock <= to && AtSecond(a.exp) + margin <= to && Timestamp(to) <= b.exp
    ensures IsPurgedRun(w, s0, actions, margin) && Reactivates(w, s0, actions, Sign(s.signer, b))
    ensures After(w, s0, actions).minted == s.minted
  {
    var j, row := ParseUuid(a.jti).value, DenyRow(s.clock, AtSecond(a.exp), None);
    var one := BothRevoke(w, s0, before, margin, s, a, j);
    var revoked := s.(db := Db(s.db.meta, map[j := row]));
    assert Denied(s, j, row) == revoked;
    var two := BothWait(w, s0, one, margin, revoked, to);
    actions := OnlyOnePurges(w, s0, two, revoked.(clock := to), margin);
    assert PurgeRows(map[j := row], to, margin) == map[];
    DeniedAndForgotten(w.cfg, s.signer, s.db.meta, b, j, row, to);
  }

  /** No smaller margin will do. Every service that can mint a token can, with such
      a purge, be brought to call a token it revoked active again. */
  lemma SmallerMarginReactivates(w: World, s0: State, req: GenerateRequest, jti: Uuid, rowId: Uuid, margin: int)
    returns (actions: seq<Action>, token: Token)
    requires Initial(s0) && !OutsideJti(w, jti) && PlanGenerate(w.cfg, s0.signer, req, s0.clock, jti, rowId).Ok?
    requires ExpInRange(Timestamp(s0.clock + req.minutes * MINUTE))
    requires margin < SECOND
    ensures IsPurgedRun(w, s0, actions, margin) && Reactivates(w, s0, actions, token)
    ensures Presentable(w, After(w, s0, actions), token)
    ensures token == PlanGenerate(w.cfg, s0.signer, req, s0.clock, jti, rowId).value.token
  {
    var issue := PlanGenerate(w.cfg, s0.signer, req, s0.clock, jti, rowId).value;
    token := issue.token;
    var one := BothGoOn(w, s0, [], margin, s0, Generate(req, jti, rowId));
    var s := Apply(w, s0, Generate(req, jti, rowId));
    assert token in s.minted.Values by { assert s.minted[jti] == token; }
    var c := issue.claims;
    var to := AtSecond(c.exp) + (if margin < 0 then 0 else margin);
    TimestampMonotone(s0.clock + SECOND, s0.clock + req.minutes * MINUTE);
    assert Timestamp(to) == c.exp;
    actions := RevokeWaitPurge(w, s0, one, s, c, c, to, margin);
    assert After(w, s0, actions).minted == s.minted;
  }

  /** Nor will it do, for tokens that share a jti, to leave less than a second more
      than their expiries are apart: revoking and purging the one reactivates the other. */
  lemma SharedJtiReactivates(w: World, s0: State, a: StandardClaims, b: StandardClaims, margin: int)
    returns (actions: seq<Action>)
    requires Initial(s0) && Sign(s0.signer, a) in w.outside && Sign(s0.signer, b) in w.outside
    requires a.extra.Keys !! TYPED && b.extra.Keys !! TYPED && ExpInRange(a.exp) && b.iss == w.cfg.issuer
    requires ParseUuid(a.jti).Some? && ParseUuid(a.jti) == ParseUuid(b.jti)
    requires s0.clock < AtSecond(b.exp) + SECOND && margin < AtSecond(b.exp) - AtSecond(a.exp) + SECOND
    ensures IsPurgedRun(w, s0, actions, margin) && Reactivates(w, s0, actions, Sign(s0.signer, b))
  {
    var due := AtSecond(a.exp) + margin;
    actions := RevokeWaitPurge(w, s0, [], s0, a, b, if s0.clock <= due then due else s0.clock, margin);
  }

  /** Every purge that leaves this margin is invisible to introspection. */
  ghost predicate Invisible(w: World, s0: State, least: int) {
    forall actions, token :: IsPurgedRun(w, s0, actions, least) && Presentable(w, After(w, s0, actions), token)
                             ==> SameActivity(w, s0, actions, token)
  }

  ghost predicate SameActivity(w: World, s0: State, actions: seq<Action>, token: Token) {
    && IsRun(w, s0, Events(actions))
    && var p, t := After(w, s0, actions), StateAt(w, s0, Events(actions), |Events(actions)|);
       Introspect(w.cfg, p.signer, p.db, token, p.clock) == Introspect(w.cfg, t.signer, t.db, token, t.clock)
  }

  /** Earlier issues of this very service that are not over: signed by its key, for
      its issuer, with clean claims, a UUID and an expiry in range. */
  ghost predicate EarlierIssues(w: World, s0: State) {
    forall x :: x in w.outside ==> exists c: StandardClaims :: IssuedBefore(w, s0, x, c)
  }

  predicate IssuedBefore(w: World, s0: State, x: Token, c: StandardClaims) {
    && x == Sign(s0.signer, c) && c.extra.Keys !! TYPED && ExpInRange(c.exp) && c.iss == w.cfg.issuer
    && c.jti.UuidText? && s0.clock < AtSecond(c.exp) + SECOND
  }

  /** The margin is exact: for a service that can mint and whose tokens from outside
      are its earlier issues, purging is invisible if and only if it leaves a second,
      and a second more than the expiries of any two tokens of one jti are apart. */
  lemma InvisibleIffMarginEnough(w: World, s0: State, req: GenerateRequest, jti: Uuid, rowId: Uuid, least: int)
    requires Initial(s0) && EarlierIssues(w, s0)
    requires !OutsideJti(w, jti) && PlanGenerate(w.cfg, s0.signer, req, s0.clock, jti, rowId).Ok?
    requires ExpInRange(Timestamp(s0.clock + req.minutes * MINUTE))
    ensures Invisible(w, s0, least) <==> MarginEnough(w, least)
  {
    if MarginEnough(w, least) {
      forall actions, token | IsPurgedRun(w, s0, actions, least) && Presentable(w, After(w, s0, actions), token)
        ensures SameActivity(w, s0, actions, token)
      {
        PurgingIsInvisible(w, s0, actions, token, After(w, s0, actions).clock, least);
      }
    } else if least < SECOND {
      var actions, token := SmallerMarginReactivates(w, s0, req, jti, rowId, least);
      NotInvisible(w, s0, actions, token, least);
    } else {
      var a, b :| TooClose(w, a, b, least);
      SharedJtiIsVisible(w, s0, a, b, least);
    }
  }

  lemma SharedJtiIsVisible(w: World, s0: State, a: Token, b: Token, least: int)
    requires Initial(s0) && EarlierIssues(w, s0) && TooClose(w, a, b, least)
    ensures !Invisible(w, s0, least)
  {
    var ca: StandardClaims :| IssuedBefore(w, s0, a, ca);
    var cb: StandardClaims :| IssuedBefore(w, s0, b, cb);
    RoundTrip(ca);
    RoundTrip(cb);
    var actions := SharedJtiReactivates(w, s0, ca, cb, least);
    NotInvisible(w, s0, actions, b, least);
  }

  lemma NotInvisible(w: World, s0: State, actions: seq<Action>, token: Token, least: int)
    requires IsPurgedRun(w, s0, actions, least) && Reactivates(w, s0, actions, token)
    requires Presentable(w, After(w, s0, actions), token)
    ensures !Invisible(w, s0, least)
  {
    assert !SameActivity(w, s0, actions, token);
  }
}
