/** Runs of the token service: any interleaving of generate, the two halves of
    extend, the revocations, the clock and key rotation. */
module Lifecycle {
  import opened Prelude
  import opened Claims
  import opened Signer
  import opened TokenTables

  /** What does not change during a run. `outside` holds the tokens that verify
      under a TIM key although these tables have no row for them. */
  datatype World = World(cfg: JwtConfig, outside: set<Token>)

  /** `pending` holds the extend calls between their denylist check and their
      commit. `ring`, `minted` and `requests` are history: every signing key
      used so far by kid, every token signed by jti, and every generate request
      by the jti it produced. */
  datatype State = State(
    clock: Instant,
    signer: JwtSigner,
    db: Db,
    pending: map<nat, PendingExtend>,
    ring: map<string, Key>,
    minted: map<Uuid, Token>,
    requests: map<Uuid, GenerateRequest>)

  datatype Event =
    | Tick(to: Instant)
    | Rotate(pair: KeyPair, retiresAt: Instant)
    | Generate(req: GenerateRequest, jti: Uuid, rowId: Uuid)
    | ExtendCheck(call: nat, token: Token, minutes: Option<int>)
    | ExtendCommit(call: nat, jti: Uuid, rowId: Uuid)
    | ExtendAbandon(call: nat)
    | Revoke(token: Token, reason: Option<string>)
    | RevokeJti(uuid: Uuid, reason: Option<string>)

  function ClaimsOf(t: Token): Option<StandardClaims> {
    if t.Signed? && Decode(t.payload).Ok? then Some(Decode(t.payload).value) else None
  }

  function TokenJti(t: Token): Option<Uuid> {
    match ClaimsOf(t) case None => None case Some(c) => ParseUuid(c.jti)
  }

  ghost predicate OutsideJti(w: World, u: Uuid) {
    exists t :: t in w.outside && TokenJti(t) == Some(u)
  }

  /** TIM's keys are secret: a token that verifies under one of them was minted
      here or comes from outside this database. */
  predicate Presentable(w: World, s: State, t: Token) {
    t.Signed? && t.key in s.ring.Values ==> t in s.minted.Values || t in w.outside
  }

  ghost predicate FreshJti(w: World, s: State, u: Uuid) {
    u !in s.minted && !OutsideJti(w, u)
  }

  predicate FreshRow(s: State, id: Uuid) {
    forall i :: 0 <= i < |s.db.meta| ==> s.db.meta[i].id != id
  }

  ghost predicate Enabled(w: World, s: State, e: Event) {
    match e
    case Tick(to) => s.clock <= to
    case Rotate(pair, _) => pair.kid !in s.ring && pair.key !in s.ring.Values
    case Generate(_, jti, rowId) => FreshJti(w, s, jti) && FreshRow(s, rowId)
    case ExtendCheck(call, token, _) => call !in s.pending && Presentable(w, s, token)
    case ExtendCommit(call, jti, rowId) => call in s.pending && FreshJti(w, s, jti) && FreshRow(s, rowId)
    case ExtendAbandon(call) => call in s.pending
    case Revoke(token, _) => Presentable(w, s, token)
    case RevokeJti(_, _) => true
  }

  function Issued(s: State, issue: Issue): State {
    s.(db := AppendRow(s.db, issue.row), minted := s.minted[issue.row.jwtUuid := issue.token])
  }

  function Denied(s: State, u: Uuid, row: DenyRow): State {
    s.(db := InsertDeny(s.db, u, row))
  }

  function Apply(w: World, s: State, e: Event): State {
    match e
    case Tick(to) => s.(clock := to)
    case Rotate(pair, retiresAt) =>
      s.(signer := JwtSigner(pair, Some(s.signer.current), Some(retiresAt)),
         ring := s.ring[pair.kid := pair.key], pending := map[])
    case Generate(req, jti, rowId) =>
      (match PlanGenerate(w.cfg, s.signer, req, s.clock, jti, rowId)
       case Err(_) => s
       case Ok(issue) => Issued(s, issue).(requests := s.requests[jti := req]))
    case ExtendCheck(call, token, minutes) =>
      (match CheckExtend(s.signer, s.db, token, minutes, s.clock)
       case Err(_) => s
       case Ok(p) => s.(pending := s.pending[call := p]))
    case ExtendCommit(call, jti, rowId) =>
      if call !in s.pending then s else Committed(w, s, call, jti, rowId)
    case ExtendAbandon(call) => s.(pending := s.pending - {call})
    case Revoke(token, reason) => s.(db := RevokeToken(s.signer, s.db, token, reason, s.clock).1)
    case RevokeJti(u, reason) => s.(db := RevokeByJti(s.db, u, reason, s.clock).1)
  }

  function Committed(w: World, s: State, call: nat, jti: Uuid, rowId: Uuid): State
    requires call in s.pending
  {
    var p := s.pending[call];
    var (r, db) := CommitExtend(w.cfg, s.signer, s.db, p, jti, rowId, s.clock);
    var done := s.(db := db, pending := s.pending - {call});
    if r.Err? then done else done.(minted := s.minted[jti := r.value.token])
  }

  predicate Initial(s: State) {
    && s.db == Db([], map[]) && s.pending == map[] && s.minted == map[] && s.requests == map[]
    && Signer.Valid(s.signer)
    && s.ring == map[s.signer.current.kid := s.signer.current.key] +
                 (if s.signer.previous.Some?
                  then map[s.signer.previous.value.kid := s.signer.previous.value.key] else map[])
  }

  /** The state after the first `k` events. */
  function StateAt(w: World, s0: State, events: seq<Event>, k: nat): State
    requires k <= |events|
  {
    if k == 0 then s0 else Apply(w, StateAt(w, s0, events, k - 1), events[k - 1])
  }

  ghost predicate IsRun(w: World, s0: State, events: seq<Event>) {
    && Initial(s0)
    && forall k {:trigger Enabled(w, StateAt(w, s0, events, k), events[k])} ::
         0 <= k < |events| ==> Enabled(w, StateAt(w, s0, events, k), events[k])
  }

  ghost predicate Reaches(w: World, s0: State, events: seq<Event>, s: State) {
    IsRun(w, s0, events) && StateAt(w, s0, events, |events|) == s
  }

  lemma {:induction false} StateAtPrefix(w: World, s0: State, events: seq<Event>, e: Event, k: nat)
    requires k <= |events|
    ensures StateAt(w, s0, events + [e], k) == StateAt(w, s0, events, k)
  {
    if k > 0 {
      StateAtPrefix(w, s0, events, e, k - 1);
    }
  }

  /** A run goes on with any enabled event. */
  lemma RunOneMore(w: World, s0: State, events: seq<Event>, s: State, e: Event) returns (all: seq<Event>)
    requires Reaches(w, s0, events, s) && Enabled(w, s, e)
    ensures all == events + [e] && Reaches(w, s0, all, Apply(w, s, e))
  {
    all := events + [e];
    StateAtPrefix(w, s0, events, e, |events|);
    forall k | 0 <= k < |all|
      ensures Enabled(w, StateAt(w, s0, all, k), all[k])
    {
      StateAtPrefix(w, s0, events, e, k);
      assert k < |events| ==> Enabled(w, StateAt(w, s0, events, k), events[k]);
    }
  }

  // ------------------------------------------------------------- invariants
  //
  // Each part names only the tables it depends on.

  predicate KeysOk(signer: JwtSigner, ring: map<string, Key>) {
    && Signer.Valid(signer)
    && signer.current.kid in ring && ring[signer.current.kid] == signer.current.key
    && (signer.previous.Some? ==>
          signer.previous.value.kid in ring && ring[signer.previous.value.kid] == signer.previous.value.key)
  }

  predicate DistinctRows(meta: seq<MetaRow>) {
    forall i, k :: 0 <= i < k < |meta| ==> meta[i].id != meta[k].id && meta[i].jwtUuid != meta[k].jwtUuid
  }

  /** Row `k` is the row that row `i` supersedes: an earlier one, on the same
      chain, and already denylisted. */
  predicate Supersedes(meta: seq<MetaRow>, denied: set<Uuid>, i: nat, k: nat)
    requires k < i < |meta|
  {
    && meta[i].supersedes == Some(meta[k].id)
    && meta[k].original == meta[i].original
    && meta[k].jwtUuid in denied
  }

  /** A generate root, or the first extension of a token that has no row. */
  ghost predicate ChainEnd(w: World, row: MetaRow, denied: set<Uuid>) {
    && row.supersedes.None?
    && (row.original == row.jwtUuid || (OutsideJti(w, row.original) && row.original in denied))
  }

  ghost predicate LinkOk(w: World, meta: seq<MetaRow>, denied: set<Uuid>, i: nat)
    requires i < |meta|
  {
    ChainEnd(w, meta[i], denied) || exists k :: 0 <= k < i && Supersedes(meta, denied, i, k)
  }

  ghost predicate LinksOk(w: World, meta: seq<MetaRow>, denied: set<Uuid>) {
    forall i :: 0 <= i < |meta| ==> LinkOk(w, meta, denied, i)
  }

  /** Exactly the minted tokens have rows, and nothing else shares their jtis. */
  ghost predicate JtisOk(w: World, meta: seq<MetaRow>, jtis: set<Uuid>) {
    && DistinctRows(meta)
    && (forall j :: j in jtis <==> LatestRow(meta, j).Some?)
    && (forall j :: j in jtis ==> !OutsideJti(w, j))
  }

  ghost predicate Known(w: World, jtis: set<Uuid>, u: Uuid) {
    u in jtis || OutsideJti(w, u)
  }

  ghost predicate DenyKnown(w: World, jtis: set<Uuid>, denied: set<Uuid>) {
    forall j :: j in denied ==> Known(w, jtis, j)
  }

  /** A minted token names its key, decodes, and agrees with its row. */
  predicate MintedOk(t: Token, ring: map<string, Key>, row: MetaRow, j: Uuid) {
    && t.Signed? && t.defect.None? && t.kid.Some? && t.kid.value in ring && ring[t.kid.value] == t.key
    && ClaimsOf(t).Some?
    && ClaimsOf(t).value.jti == UuidText(j, 0)
    && ClaimsOf(t).value.exp == Timestamp(row.expiresAt)
    && ClaimsOf(t).value.sub == row.subject
    && ClaimsOf(t).value.extra.Keys == row.claimKeys
  }

  ghost predicate TokensOk(minted: map<Uuid, Token>, ring: map<string, Key>, meta: seq<MetaRow>) {
    forall j :: j in minted ==> LatestRow(meta, j).Some? && MintedOk(minted[j], ring, LatestRow(meta, j).value, j)
  }

  predicate Outlives(row: DenyRow, t: Token) {
    ClaimsOf(t).Some? ==> row.expiresAt >= AtSecond(ClaimsOf(t).value.exp)
  }

  /** Every denylist row of a minted token outlives the token's `exp`. */
  ghost predicate DenyOutlivesExp(minted: map<Uuid, Token>, deny: map<Uuid, DenyRow>) {
    forall j :: j in minted && j in deny ==> Outlives(deny[j], minted[j])
  }

  /** The token says what the request asked for. */
  predicate SameContent(cfg: JwtConfig, t: Token, req: GenerateRequest) {
    && ClaimsOf(t).Some?
    && ClaimsOf(t).value.iss == cfg.issuer
    && ClaimsOf(t).value.sub == SubjectOf(req.content)
    && ClaimsOf(t).value.aud == Some(RequestedAudience(cfg, req.audience))
    && ClaimsOf(t).value.extra == GeneratedExtra(req.content)
  }

  /** The token says what the request that began chain `o` asked for. */
  ghost predicate FromRequest(w: World, t: Token, o: Uuid, requests: map<Uuid, GenerateRequest>) {
    if o in requests then SameContent(w.cfg, t, requests[o]) else OutsideJti(w, o)
  }

  /** A token that a request produced heads its own chain. */
  ghost predicate ContentOk(w: World, minted: map<Uuid, Token>, meta: seq<MetaRow>,
                            requests: map<Uuid, GenerateRequest>) {
    && (forall o :: o in requests ==> o in minted && OriginalOf(meta, o) == o)
    && (forall j {:trigger minted[j]} :: j in minted ==> FromRequest(w, minted[j], OriginalOf(meta, j), requests))
  }

  ghost predicate PendingOk(w: World, minted: map<Uuid, Token>, meta: seq<MetaRow>, p: PendingExtend) {
    && Known(w, minted.Keys, p.oldJti)
    && p.original == OriginalOf(meta, p.oldJti)
    && p.prevRow == (match LatestRow(meta, p.oldJti) case Some(r) => Some(r.id) case None => None)
    && p.claims.extra.Keys !! TYPED
    && (p.oldJti in minted ==> ClaimsOf(minted[p.oldJti]) == Some(p.claims))
  }

  ghost predicate PendingsOk(w: World, minted: map<Uuid, Token>, meta: seq<MetaRow>, pending: map<nat, PendingExtend>) {
    forall call :: call in pending ==> PendingOk(w, minted, meta, pending[call])
  }

  ghost predicate Inv(w: World, s: State) {
    && KeysOk(s.signer, s.ring)
    && JtisOk(w, s.db.meta, s.minted.Keys)
    && LinksOk(w, s.db.meta, s.db.deny.Keys)
    && DenyKnown(w, s.minted.Keys, s.db.deny.Keys)
    && TokensOk(s.minted, s.ring, s.db.meta)
    && DenyOutlivesExp(s.minted, s.db.deny)
    && ContentOk(w, s.minted, s.db.meta, s.requests)
    && PendingsOk(w, s.minted, s.db.meta, s.pending)
  }

  // -------------------------------------------- the two ways tables can grow

  lemma MoreDeniedKeepsLinks(w: World, meta: seq<MetaRow>, denied: set<Uuid>, more: set<Uuid>)
    requires LinksOk(w, meta, denied) && denied <= more
    ensures LinksOk(w, meta, more)
  {
    forall i | 0 <= i < |meta|
      ensures LinkOk(w, meta, more, i)
    {
      assert LinkOk(w, meta, denied, i);
      if !ChainEnd(w, meta[i], denied) {
        var k :| 0 <= k < i && Supersedes(meta, denied, i, k);
        assert Supersedes(meta, more, i, k);
      }
    }
  }

  lemma DenyKeepsInv(w: World, s: State, u: Uuid, row: DenyRow)
    requires Inv(w, s)
    requires Known(w, s.minted.Keys, u)
    requires u in s.minted ==> Outlives(row, s.minted[u])
    ensures Inv(w, Denied(s, u, row))
  {
    var s' := Denied(s, u, row);
    MoreDeniedKeepsLinks(w, s.db.meta, s.db.deny.Keys, s'.db.deny.Keys);
  }

  /** What a new row must satisfy to join the forest. */
  ghost predicate Attaches(w: World, s: State, row: MetaRow) {
    && FreshJti(w, s, row.jwtUuid) && FreshRow(s, row.id)
    && (ChainEnd(w, row, s.db.deny.Keys) || exists k :: AttachesTo(s, row, k))
  }

  predicate AttachesTo(s: State, row: MetaRow, k: nat) {
    && k < |s.db.meta|
    && row.supersedes == Some(s.db.meta[k].id)
    && s.db.meta[k].original == row.original
    && s.db.meta[k].jwtUuid in s.db.deny
  }

  lemma AppendKeepsLookups(w: World, s: State, row: MetaRow)
    requires JtisOk(w, s.db.meta, s.minted.Keys) && Attaches(w, s, row)
    ensures LatestRow(s.db.meta + [row], row.jwtUuid) == Some(row)
    ensures forall j :: j != row.jwtUuid ==> LatestRow(s.db.meta + [row], j) == LatestRow(s.db.meta, j)
  {
    forall j ensures j != row.jwtUuid ==> LatestRow(s.db.meta + [row], j) == LatestRow(s.db.meta, j) {
      LatestRowAfterAppend(s.db.meta, row, j);
    }
    LatestRowAfterAppend(s.db.meta, row, row.jwtUuid);
  }

  lemma AppendKeepsLinks(w: World, s: State, row: MetaRow)
    requires LinksOk(w, s.db.meta, s.db.deny.Keys) && Attaches(w, s, row)
    ensures LinksOk(w, s.db.meta + [row], s.db.deny.Keys)
  {
    var meta, denied := s.db.meta, s.db.deny.Keys;
    var meta' := meta + [row];
    forall i | 0 <= i < |meta'|
      ensures LinkOk(w, meta', denied, i)
    {
      if i < |meta| {
        assert LinkOk(w, meta, denied, i) && meta'[i] == meta[i];
        if !ChainEnd(w, meta[i], denied) {
          var k :| 0 <= k < i && Supersedes(meta, denied, i, k);
          assert Supersedes(meta', denied, i, k);
        }
      } else if !ChainEnd(w, row, denied) {
        var k :| AttachesTo(s, row, k);
        assert Supersedes(meta', denied, i, k);
      }
    }
  }

  lemma AppendKeepsJtis(w: World, s: State, row: MetaRow)
    requires JtisOk(w, s.db.meta, s.minted.Keys) && Attaches(w, s, row)
    ensures JtisOk(w, s.db.meta + [row], s.minted.Keys + {row.jwtUuid})
  {
    AppendKeepsLookups(w, s, row);
    LatestRowIsARow(s.db.meta, row.jwtUuid);
    var meta' := s.db.meta + [row];
    forall i, k | 0 <= i < k < |meta'|
      ensures meta'[i].id != meta'[k].id && meta'[i].jwtUuid != meta'[k].jwtUuid
    {
      assert meta'[i] == s.db.meta[i];
    }
  }

  /** A generate records its request under the new jti; an extend records none. */
  predicate Asks(row: MetaRow, before: map<Uuid, GenerateRequest>, after: map<Uuid, GenerateRequest>) {
    || after == before
    || (&& row.original == row.jwtUuid && row.jwtUuid in after
        && after == before[row.jwtUuid := after[row.jwtUuid]])
  }

  lemma AppendKeepsContent(w: World, minted: map<Uuid, Token>, meta: seq<MetaRow>, requests: map<Uuid, GenerateRequest>,
                           issue: Issue, meta': seq<MetaRow>, requests': map<Uuid, GenerateRequest>)
    requires ContentOk(w, minted, meta, requests) && Asks(issue.row, requests, requests')
    requires issue.row.jwtUuid !in minted && !OutsideJti(w, issue.row.jwtUuid)
    requires OriginalOf(meta', issue.row.jwtUuid) == issue.row.original
    requires SameOriginals(meta, meta', issue.row.jwtUuid)
    requires FromRequest(w, issue.token, issue.row.original, requests')
    ensures ContentOk(w, minted[issue.row.jwtUuid := issue.token], meta', requests')
  {
    var jti := issue.row.jwtUuid;
    forall j | j in minted
      ensures FromRequest(w, minted[j], OriginalOf(meta', j), requests')
    {
      OldTokenKeepsContent(w, minted, meta, requests, jti, meta', requests', j);
    }
    AppendKeepsHeads(minted, meta, requests, issue, meta', requests');
  }

  lemma AppendKeepsHeads(minted: map<Uuid, Token>, meta: seq<MetaRow>, requests: map<Uuid, GenerateRequest>,
                         issue: Issue, meta': seq<MetaRow>, requests': map<Uuid, GenerateRequest>)
    requires forall o :: o in requests ==> o in minted && OriginalOf(meta, o) == o
    requires Asks(issue.row, requests, requests')
    requires issue.row.jwtUuid !in minted && SameOriginals(meta, meta', issue.row.jwtUuid)
    requires OriginalOf(meta', issue.row.jwtUuid) == issue.row.original
    ensures forall o :: o in requests' ==> o in minted[issue.row.jwtUuid := issue.token] && OriginalOf(meta', o) == o
  {
    forall o | o in requests'
      ensures OriginalOf(meta', o) == o
    {
      assert o != issue.row.jwtUuid ==> o in requests && OriginalOf(meta', o) == OriginalOf(meta, o);
    }
  }

  lemma OldTokenKeepsContent(w: World, minted: map<Uuid, Token>, meta: seq<MetaRow>,
                             requests: map<Uuid, GenerateRequest>, jti: Uuid, meta': seq<MetaRow>,
                             requests': map<Uuid, GenerateRequest>, j: Uuid)
    requires ContentOk(w, minted, meta, requests) && j in minted
    requires jti !in minted && !OutsideJti(w, jti) && SameOriginals(meta, meta', jti)
    requires requests' == requests || (jti in requests' && requests' == requests[jti := requests'[jti]])
    ensures FromRequest(w, minted[j], OriginalOf(meta', j), requests')
  {
    assert jti !in requests;
    assert OriginalOf(meta', j) == OriginalOf(meta, j);
    OldTokenKeepsRequest(w, minted[j], OriginalOf(meta, j), jti, requests, requests');
  }

  /** A new row moves no other token to another chain. */
  ghost predicate SameOriginals(meta: seq<MetaRow>, meta': seq<MetaRow>, jti: Uuid) {
    forall j {:trigger OriginalOf(meta', j)} :: j != jti ==> OriginalOf(meta', j) == OriginalOf(meta, j)
  }

  lemma OldTokenKeepsRequest(w: World, t: Token, o: Uuid, jti: Uuid, requests: map<Uuid, GenerateRequest>,
                             requests': map<Uuid, GenerateRequest>)
    requires FromRequest(w, t, o, requests) && jti !in requests && !OutsideJti(w, jti)
    requires requests' == requests || (jti in requests' && requests' == requests[jti := requests'[jti]])
    ensures FromRequest(w, t, o, requests')
  {
  }

  lemma AppendKeepsTokens(minted: map<Uuid, Token>, ring: map<string, Key>, meta: seq<MetaRow>, issue: Issue,
                          meta': seq<MetaRow>)
    requires TokensOk(minted, ring, meta)
    requires LatestRow(meta', issue.row.jwtUuid) == Some(issue.row)
    requires forall j :: j != issue.row.jwtUuid ==> LatestRow(meta', j) == LatestRow(meta, j)
    requires MintedOk(issue.token, ring, issue.row, issue.row.jwtUuid)
    ensures TokensOk(minted[issue.row.jwtUuid := issue.token], ring, meta')
  {
    var minted' := minted[issue.row.jwtUuid := issue.token];
    forall j | j in minted'
      ensures LatestRow(meta', j).Some? && MintedOk(minted'[j], ring, LatestRow(meta', j).value, j)
    {
      assert j != issue.row.jwtUuid ==> j in minted && LatestRow(meta', j) == LatestRow(meta, j);
    }
  }

  lemma AppendKeepsPending(w: World, minted: map<Uuid, Token>, meta: seq<MetaRow>, jti: Uuid, token: Token,
                           meta': seq<MetaRow>, p: PendingExtend)
    requires PendingOk(w, minted, meta, p) && jti !in minted && !OutsideJti(w, jti)
    requires forall j :: j != jti ==> LatestRow(meta', j) == LatestRow(meta, j)
    ensures PendingOk(w, minted[jti := token], meta', p)
  {
    assert p.oldJti != jti;
    assert LatestRow(meta', p.oldJti) == LatestRow(meta, p.oldJti);
  }

  /** A fresh jti is not denylisted, so only older tokens have denylist rows. */
  lemma NewTokenKeepsDeny(w: World, minted: map<Uuid, Token>, deny: map<Uuid, DenyRow>, jti: Uuid, token: Token)
    requires DenyKnown(w, minted.Keys, deny.Keys) && DenyOutlivesExp(minted, deny)
    requires jti !in minted && !OutsideJti(w, jti)
    ensures DenyKnown(w, minted.Keys + {jti}, deny.Keys)
    ensures DenyOutlivesExp(minted[jti := token], deny)
  {
    assert jti !in deny.Keys by { assert !Known(w, minted.Keys, jti); }
    forall j | j in deny.Keys ensures Known(w, minted.Keys + {jti}, j) {
      assert Known(w, minted.Keys, j);
    }
    var minted' := minted[jti := token];
    forall j | j in minted' && j in deny ensures Outlives(deny[j], minted'[j]) {
      assert j in deny.Keys && j != jti;
    }
  }

  lemma IssueKeepsInv(w: World, s: State, issue: Issue, requests: map<Uuid, GenerateRequest>)
    requires Inv(w, s) && Attaches(w, s, issue.row)
    requires MintedOk(issue.token, s.ring, issue.row, issue.row.jwtUuid)
    requires Asks(issue.row, s.requests, requests)
    requires FromRequest(w, issue.token, issue.row.original, requests)
    ensures Inv(w, Issued(s, issue).(requests := requests))
  {
    var jti, meta' := issue.row.jwtUuid, s.db.meta + [issue.row];
    assert s.minted[jti := issue.token].Keys == s.minted.Keys + {jti};
    AppendKeepsJtis(w, s, issue.row);
    AppendKeepsLinks(w, s, issue.row);
    AppendKeepsLookups(w, s, issue.row);
    NewTokenKeepsDeny(w, s.minted, s.db.deny, jti, issue.token);
    AppendKeepsTokens(s.minted, s.ring, s.db.meta, issue, meta');
    assert SameOriginals(s.db.meta, meta', jti);
    AppendKeepsContent(w, s.minted, s.db.meta, s.requests, issue, meta', requests);
    forall call | call in s.pending
      ensures PendingOk(w, s.minted[jti := issue.token], meta', s.pending[call])
    {
      AppendKeepsPending(w, s.minted, s.db.meta, jti, issue.token, meta', s.pending[call]);
    }
  }
}
