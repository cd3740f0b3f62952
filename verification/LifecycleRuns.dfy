/** What every run of the token service keeps, and what holds over whole runs. */
module LifecycleRuns {
  import opened Prelude
  import opened Claims
  import opened Signer
  import opened TokenTables
  import opened Lifecycle

  // ---------------------------------------------- the invariant, step by step

  /** Whatever verifies is on record: minted here, as it was minted, or outside. */
  lemma VerifiedIsKnown(w: World, s: State, token: Token, c: StandardClaims)
    requires Inv(w, s) && Presentable(w, s, token)
    requires VerifyRaw(s.signer, token, Permissive(), s.clock) == Ok(c)
    ensures ClaimsOf(token) == Some(c) && c.extra.Keys !! TYPED
    ensures ParseUuid(c.jti).Some? ==> Known(w, s.minted.Keys, ParseUuid(c.jti).value)
    ensures ParseUuid(c.jti).Some? && ParseUuid(c.jti).value in s.minted
            ==> ClaimsOf(s.minted[ParseUuid(c.jti).value]) == Some(c)
  {
    assert token.key in s.ring.Values by {
      assert token.key == s.signer.current.key
             || (s.signer.previous.Some? && token.key == s.signer.previous.value.key);
    }
    if token in s.minted.Values {
      var j :| j in s.minted && s.minted[j] == token;
      assert MintedOk(token, s.ring, LatestRow(s.db.meta, j).value, j);
    } else {
      assert token in w.outside && TokenJti(token) == ParseUuid(c.jti);
    }
  }

  lemma SignedIsMintedOk(s: State, issue: Issue)
    requires KeysOk(s.signer, s.ring)
    requires issue.token == Sign(s.signer, issue.claims) && issue.claims.extra.Keys !! TYPED
    requires issue.claims.jti == UuidText(issue.row.jwtUuid, 0)
    requires issue.claims.exp == Timestamp(issue.row.expiresAt)
    requires issue.claims.sub == issue.row.subject
    requires issue.claims.extra.Keys == issue.row.claimKeys
    ensures MintedOk(issue.token, s.ring, issue.row, issue.row.jwtUuid)
    ensures ClaimsOf(issue.token) == Some(issue.claims)
  {
    RoundTrip(issue.claims);
  }

  lemma GenerateKeepsInv(w: World, s: State, req: GenerateRequest, jti: Uuid, rowId: Uuid)
    requires Inv(w, s) && FreshJti(w, s, jti) && FreshRow(s, rowId)
    ensures Inv(w, Apply(w, s, Generate(req, jti, rowId)))
  {
    var plan := PlanGenerate(w.cfg, s.signer, req, s.clock, jti, rowId);
    if plan.Ok? {
      var issue := plan.value;
      SignedIsMintedOk(s, issue);
      assert ChainEnd(w, issue.row, s.db.deny.Keys);
      IssueKeepsInv(w, s, issue, s.requests[jti := req]);
    }
  }

  /** What a check found still describes the tables. */
  lemma CheckedIsPending(w: World, s: State, token: Token, minutes: Option<int>)
    requires Inv(w, s) && Presentable(w, s, token)
    requires CheckExtend(s.signer, s.db, token, minutes, s.clock).Ok?
    ensures PendingOk(w, s.minted, s.db.meta, CheckExtend(s.signer, s.db, token, minutes, s.clock).value)
  {
    VerifiedIsKnown(w, s, token, CheckExtend(s.signer, s.db, token, minutes, s.clock).value.claims);
  }

  lemma MorePendingsKeepInv(w: World, s: State, call: nat, p: PendingExtend)
    requires Inv(w, s) && PendingOk(w, s.minted, s.db.meta, p)
    ensures Inv(w, s.(pending := s.pending[call := p]))
  {
  }

  lemma CheckKeepsInv(w: World, s: State, call: nat, token: Token, minutes: Option<int>)
    requires Inv(w, s) && Presentable(w, s, token)
    ensures Inv(w, Apply(w, s, ExtendCheck(call, token, minutes)))
  {
    var r := CheckExtend(s.signer, s.db, token, minutes, s.clock);
    if r.Ok? {
      CheckedIsPending(w, s, token, minutes);
      MorePendingsKeepInv(w, s, call, r.value);
    }
  }

  /** The old token is denylisted, then the new row attached to it. */
  lemma CommitInTwo(w: World, s: State, call: nat, jti: Uuid, rowId: Uuid) returns (mid: State, issue: Issue)
    requires call in s.pending && ExpInRange(s.pending[call].claims.exp)
    ensures mid == Denied(s, s.pending[call].oldJti, SupersededRow(s.pending[call], s.clock))
    ensures issue == PlanExtend(w.cfg, s.signer, s.pending[call], jti, rowId, s.clock)
    ensures Committed(w, s, call, jti, rowId) == Issued(mid, issue).(pending := s.pending - {call})
  {
    mid := Denied(s, s.pending[call].oldJti, SupersededRow(s.pending[call], s.clock));
    issue := PlanExtend(w.cfg, s.signer, s.pending[call], jti, rowId, s.clock);
  }

  lemma CommitAttaches(w: World, s: State, p: PendingExtend, mid: State, issue: Issue)
    requires JtisOk(w, s.db.meta, s.minted.Keys) && PendingOk(w, s.minted, s.db.meta, p)
    requires mid == Denied(s, p.oldJti, SupersededRow(p, s.clock))
    requires issue.row.supersedes == p.prevRow && issue.row.original == p.original
    requires FreshJti(w, s, issue.row.jwtUuid) && FreshRow(s, issue.row.id)
    ensures Attaches(w, mid, issue.row)
  {
    LatestRowIsARow(s.db.meta, p.oldJti);
    if p.prevRow.Some? {
      var k :| 0 <= k < |s.db.meta| && s.db.meta[k] == LatestRow(s.db.meta, p.oldJti).value
               && s.db.meta[k].jwtUuid == p.oldJti;
      assert AttachesTo(mid, issue.row, k);
    } else {
      assert ChainEnd(w, issue.row, mid.db.deny.Keys);
    }
  }

  lemma CommitKeepsContent(w: World, s: State, p: PendingExtend, jti: Uuid, rowId: Uuid)
    requires Inv(w, s) && PendingOk(w, s.minted, s.db.meta, p)
    ensures var issue := PlanExtend(w.cfg, s.signer, p, jti, rowId, s.clock);
            && MintedOk(issue.token, s.ring, issue.row, jti)
            && FromRequest(w, issue.token, p.original, s.requests)
  {
    var issue := PlanExtend(w.cfg, s.signer, p, jti, rowId, s.clock);
    SignedIsMintedOk(s, issue);
    if p.oldJti in s.minted {
      assert FromRequest(w, s.minted[p.oldJti], p.original, s.requests);
    } else {
      assert LatestRow(s.db.meta, p.oldJti).None?;
    }
  }

  lemma CommitKeepsInv(w: World, s: State, call: nat, jti: Uuid, rowId: Uuid)
    requires Inv(w, s) && call in s.pending && FreshJti(w, s, jti) && FreshRow(s, rowId)
    ensures Inv(w, Committed(w, s, call, jti, rowId))
  {
    var p := s.pending[call];
    assert PendingOk(w, s.minted, s.db.meta, p);
    if ExpInRange(p.claims.exp) {
      var mid, issue := CommitInTwo(w, s, call, jti, rowId);
      DenyKeepsInv(w, s, p.oldJti, SupersededRow(p, s.clock));
      CommitAttaches(w, s, p, mid, issue);
      CommitKeepsContent(w, s, p, jti, rowId);
      IssueKeepsInv(w, mid, issue, s.requests);
      FewerPendingsKeepInv(w, Issued(mid, issue), s.pending - {call});
    } else {
      FewerPendingsKeepInv(w, s, s.pending - {call});
    }
  }

  lemma FewerPendingsKeepInv(w: World, s: State, fewer: map<nat, PendingExtend>)
    requires Inv(w, s) && forall c :: c in fewer ==> c in s.pending && fewer[c] == s.pending[c]
    ensures Inv(w, s.(pending := fewer))
  {
  }

  function RevokeRow(s: State, r: Revocation, reason: Option<string>): DenyRow {
    DenyRow(s.clock, r.expiresAt, reason)
  }

  lemma RevokeIsDeny(w: World, s: State, token: Token, reason: Option<string>)
    ensures var r := CheckRevoke(s.signer, token, s.clock);
            Apply(w, s, Revoke(token, reason)) == if r.Ok? then Denied(s, r.value.jti, RevokeRow(s, r.value, reason))
              else s
  {
  }

  /** What is revoked is on record, and its row outlives it. */
  lemma RevokedIsKnown(w: World, s: State, token: Token, reason: Option<string>)
    requires Inv(w, s) && Presentable(w, s, token)
    requires CheckRevoke(s.signer, token, s.clock).Ok?
    ensures var r := CheckRevoke(s.signer, token, s.clock).value;
            && Known(w, s.minted.Keys, r.jti)
            && (r.jti in s.minted ==> Outlives(RevokeRow(s, r, reason), s.minted[r.jti]))
  {
    VerifiedIsKnown(w, s, token, VerifyRaw(s.signer, token, Permissive(), s.clock).value);
  }

  lemma RevokeKeepsInv(w: World, s: State, token: Token, reason: Option<string>)
    requires Inv(w, s) && Presentable(w, s, token)
    ensures Inv(w, Apply(w, s, Revoke(token, reason)))
  {
    RevokeIsDeny(w, s, token, reason);
    var r := CheckRevoke(s.signer, token, s.clock);
    if r.Ok? {
      RevokedIsKnown(w, s, token, reason);
      DenyKeepsInv(w, s, r.value.jti, RevokeRow(s, r.value, reason));
    }
  }

  lemma RevokeJtiKeepsInv(w: World, s: State, u: Uuid, reason: Option<string>)
    requires Inv(w, s)
    ensures Inv(w, Apply(w, s, RevokeJti(u, reason)))
  {
    if LatestRow(s.db.meta, u).Some? {
      var row := LatestRow(s.db.meta, u).value;
      assert u in s.minted.Keys && MintedOk(s.minted[u], s.ring, row, u);
      DenyKeepsInv(w, s, u, DenyRow(s.clock, row.expiresAt, reason));
    }
  }

  lemma RotateKeepsInv(w: World, s: State, pair: KeyPair, retiresAt: Instant)
    requires Inv(w, s) && Enabled(w, s, Rotate(pair, retiresAt))
    ensures Inv(w, Apply(w, s, Rotate(pair, retiresAt)))
  {
    var s' := Apply(w, s, Rotate(pair, retiresAt));
    forall j | j in s'.minted
      ensures MintedOk(s'.minted[j], s'.ring, LatestRow(s'.db.meta, j).value, j)
    {
      assert MintedOk(s.minted[j], s.ring, LatestRow(s.db.meta, j).value, j);
    }
  }

  lemma StepKeepsInv(w: World, s: State, e: Event)
    requires Inv(w, s) && Enabled(w, s, e)
    ensures Inv(w, Apply(w, s, e))
  {
    match e
    case Tick(_) =>
    case Rotate(pair, retiresAt) => RotateKeepsInv(w, s, pair, retiresAt);
    case Generate(req, jti, rowId) => GenerateKeepsInv(w, s, req, jti, rowId);
    case ExtendCheck(call, token, minutes) => CheckKeepsInv(w, s, call, token, minutes);
    case ExtendCommit(call, jti, rowId) => CommitKeepsInv(w, s, call, jti, rowId);
    case ExtendAbandon(_) =>
    case Revoke(token, reason) => RevokeKeepsInv(w, s, token, reason);
    case RevokeJti(u, reason) => RevokeJtiKeepsInv(w, s, u, reason);
  }

  lemma {:induction false} InvAlways(w: World, s0: State, events: seq<Event>, k: nat)
    requires IsRun(w, s0, events) && k <= |events|
    ensures Inv(w, StateAt(w, s0, events, k))
  {
    if k > 0 {
      InvAlways(w, s0, events, k - 1);
      StepKeepsInv(w, StateAt(w, s0, events, k - 1), events[k - 1]);
    }
  }
}
