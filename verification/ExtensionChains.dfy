/** Extension chains: the forest of metadata rows, one live token per chain,
    and what overlapping extends break. */
module ExtensionChains {
  import opened Prelude
  import opened Claims
  import opened Signer
  import opened TokenTables
  import opened Lifecycle
  import opened LifecycleRuns

  // ------------------------------------------------------------- the forest

  /** `path` follows `supersedes` from row to row, always to an earlier row. */
  ghost predicate Follows(meta: seq<MetaRow>, denied: set<Uuid>, path: seq<nat>) {
    && |path| > 0
    && (forall n :: 0 <= n < |path| ==> path[n] < |meta|)
    && (forall n :: 0 <= n < |path| - 1 ==> path[n + 1] < path[n] && Supersedes(meta, denied, path[n], path[n + 1]))
  }

  /** Starts at row `i`, stays on its chain, passes only denylisted rows, and
      ends where a chain may end. */
  ghost predicate LeadsToEnd(w: World, meta: seq<MetaRow>, denied: set<Uuid>, i: nat, path: seq<nat>) {
    && i < |meta|
    && Follows(meta, denied, path) && path[0] == i
    && (forall n :: 0 <= n < |path| ==> meta[path[n]].original == meta[i].original)
    && (forall n :: 1 <= n < |path| ==> meta[path[n]].jwtUuid in denied)
    && ChainEnd(w, meta[path[|path| - 1]], denied)
  }

  lemma ExtendPath(w: World, meta: seq<MetaRow>, denied: set<Uuid>, i: nat, k: nat, rest: seq<nat>)
    requires k < i < |meta| && Supersedes(meta, denied, i, k) && LeadsToEnd(w, meta, denied, k, rest)
    ensures LeadsToEnd(w, meta, denied, i, [i] + rest)
  {
    var path := [i] + rest;
    forall n | 0 <= n < |path| - 1
      ensures path[n + 1] < path[n] && Supersedes(meta, denied, path[n], path[n + 1])
    {
      assert path[n + 1] == rest[n];
      if n > 0 { assert path[n] == rest[n - 1]; }
    }
  }

  lemma {:induction false} FollowSupersedes(w: World, meta: seq<MetaRow>, denied: set<Uuid>, i: nat)
    returns (path: seq<nat>)
    requires LinksOk(w, meta, denied) && i < |meta|
    ensures LeadsToEnd(w, meta, denied, i, path)
    decreases i
  {
    assert LinkOk(w, meta, denied, i);
    if ChainEnd(w, meta[i], denied) {
      path := [i];
    } else {
      var k :| 0 <= k < i && Supersedes(meta, denied, i, k);
      var rest := FollowSupersedes(w, meta, denied, k);
      path := [i] + rest;
      ExtendPath(w, meta, denied, i, k, rest);
    }
  }

  /** In every reachable state, overlapping extends included: from any row,
      following `supersedes` ends after finitely many rows on one chain, and
      every row passed on the way is denylisted. */
  lemma MetadataRowsFormForest(w: World, s0: State, events: seq<Event>, k: nat, i: nat) returns (path: seq<nat>)
    requires IsRun(w, s0, events) && k <= |events|
    requires i < |StateAt(w, s0, events, k).db.meta|
    ensures var db := StateAt(w, s0, events, k).db;
            DistinctRows(db.meta) && LeadsToEnd(w, db.meta, db.deny.Keys, i, path)
  {
    InvAlways(w, s0, events, k);
    var db := StateAt(w, s0, events, k).db;
    path := FollowSupersedes(w, db.meta, db.deny.Keys, i);
  }

  // ------------------------------------------------ one live token per chain

  predicate Live(s: State, j: Uuid) {
    j !in s.db.deny
  }

  /** No two extends of the same token lie between their check and their commit. */
  predicate Exclusive(s: State) {
    forall c1, c2 :: c1 in s.pending && c2 in s.pending && c1 != c2 ==> s.pending[c1].oldJti != s.pending[c2].oldJti
  }

  ghost predicate AtMostOneLive(s: State) {
    forall j1, j2 :: Live(s, j1) && Live(s, j2) && OriginalOf(s.db.meta, j1) == OriginalOf(s.db.meta, j2) ==> j1 == j2
  }

  predicate BeingExtended(s: State, j: Uuid) {
    exists c :: c in s.pending && s.pending[c].oldJti == j
  }

  /** A jti that is live, or about to be replaced by one that will be. */
  predicate Holds(s: State, j: Uuid) {
    Live(s, j) || BeingExtended(s, j)
  }

  ghost predicate OneHolder(s: State) {
    forall j1, j2 :: Holds(s, j1) && Holds(s, j2) && OriginalOf(s.db.meta, j1) == OriginalOf(s.db.meta, j2) ==> j1 == j2
  }

  /** Fewer live tokens and fewer holders, of unchanged chains. */
  ghost predicate Shrinks(s: State, s': State) {
    && (forall j :: Live(s', j) ==> Live(s, j))
    && (forall j :: Holds(s', j) ==> Holds(s, j))
    && (forall j :: OriginalOf(s'.db.meta, j) == OriginalOf(s.db.meta, j))
  }

  /** The event is a commit that writes its two rows. */
  predicate Writes(s: State, e: Event) {
    e.ExtendCommit? && e.call in s.pending && ExpInRange(s.pending[e.call].claims.exp)
  }

  lemma GenerateShrinks(w: World, s: State, req: GenerateRequest, jti: Uuid, rowId: Uuid)
    requires Inv(w, s) && FreshJti(w, s, jti) && FreshRow(s, rowId)
    ensures Shrinks(s, Apply(w, s, Generate(req, jti, rowId)))
  {
    var plan := PlanGenerate(w.cfg, s.signer, req, s.clock, jti, rowId);
    if plan.Ok? {
      assert ChainEnd(w, plan.value.row, s.db.deny.Keys);
      AppendKeepsLookups(w, s, plan.value.row);
      assert jti !in s.minted && LatestRow(s.db.meta, jti).None?;
    }
  }

  lemma NewPendingShrinks(s: State, call: nat, p: PendingExtend)
    requires call !in s.pending && Live(s, p.oldJti)
    ensures Shrinks(s, s.(pending := s.pending[call := p]))
  {
    var s' := s.(pending := s.pending[call := p]);
    forall j | Holds(s', j) ensures Holds(s, j) {
      if !Live(s, j) {
        var c :| c in s'.pending && s'.pending[c].oldJti == j;
        assert c != call && s.pending[c].oldJti == j;
      }
    }
  }

  lemma CheckShrinks(w: World, s: State, call: nat, token: Token, minutes: Option<int>)
    requires call !in s.pending
    ensures Shrinks(s, Apply(w, s, ExtendCheck(call, token, minutes)))
  {
    var r := CheckExtend(s.signer, s.db, token, minutes, s.clock);
    if r.Ok? {
      NewPendingShrinks(s, call, r.value);
    }
  }

  lemma DenyShrinks(s: State, u: Uuid, row: DenyRow)
    ensures Shrinks(s, Denied(s, u, row))
  {
    var s' := Denied(s, u, row);
    forall j | Holds(s', j) ensures Holds(s, j) {
      if !Live(s, j) {
        var c :| c in s'.pending && s'.pending[c].oldJti == j;
        assert c in s.pending;
      }
    }
  }

  lemma FewerPendingsShrinks(s: State, fewer: map<nat, PendingExtend>)
    requires forall c :: c in fewer ==> c in s.pending && fewer[c] == s.pending[c]
    ensures Shrinks(s, s.(pending := fewer))
  {
    var s' := s.(pending := fewer);
    forall j | Holds(s', j) ensures Holds(s, j) {
      if !Live(s, j) {
        var c :| c in s'.pending && s'.pending[c].oldJti == j;
        assert s.pending[c].oldJti == j;
      }
    }
  }

  /** Every event but a commit that writes. */
  lemma OtherStepsShrink(w: World, s: State, e: Event)
    requires Inv(w, s) && Enabled(w, s, e) && !Writes(s, e)
    ensures Shrinks(s, Apply(w, s, e))
  {
    match e
    case Tick(_) =>
    case Rotate(_, _) =>
    case Generate(req, jti, rowId) => GenerateShrinks(w, s, req, jti, rowId);
    case ExtendCheck(call, token, minutes) => CheckShrinks(w, s, call, token, minutes);
    case ExtendCommit(call, jti, rowId) => FewerPendingsShrinks(s, s.pending - {call});
    case ExtendAbandon(call) => FewerPendingsShrinks(s, s.pending - {call});
    case Revoke(token, reason) =>
      RevokeIsDeny(w, s, token, reason);
      var r := CheckRevoke(s.signer, token, s.clock);
      if r.Ok? { DenyShrinks(s, r.value.jti, RevokeRow(s, r.value, reason)); }
    case RevokeJti(u, reason) =>
      var r := LatestRow(s.db.meta, u);
      if r.Some? { DenyShrinks(s, u, DenyRow(s.clock, r.value.expiresAt, reason)); }
  }

  lemma ShrinkKeepsOneHolder(s: State, s': State)
    requires OneHolder(s) && Shrinks(s, s')
    ensures OneHolder(s')
  {
  }

  lemma FreshIsNotDenied(w: World, s: State, jti: Uuid)
    requires DenyKnown(w, s.minted.Keys, s.db.deny.Keys) && FreshJti(w, s, jti)
    ensures jti !in s.db.deny
  {
    assert jti in s.db.deny.Keys ==> Known(w, s.minted.Keys, jti);
  }

  /** What a successful commit does to live tokens and to chains. */
  ghost predicate Replaces(s: State, s': State, call: nat, jti: Uuid)
    requires call in s.pending
  {
    var p := s.pending[call];
    && s'.db.deny.Keys == s.db.deny.Keys + {p.oldJti}
    && jti !in s'.db.deny
    && p.oldJti != jti
    && s'.pending == s.pending - {call}
    && p.original == OriginalOf(s.db.meta, p.oldJti)
    && OriginalOf(s'.db.meta, jti) == p.original
    && (forall j :: j != jti ==> OriginalOf(s'.db.meta, j) == OriginalOf(s.db.meta, j))
  }

  /** What a successful commit writes. */
  predicate CommitShape(s: State, s': State, call: nat, row: MetaRow)
    requires call in s.pending
  {
    && s'.db.meta == s.db.meta + [row]
    && s'.db.deny.Keys == s.db.deny.Keys + {s.pending[call].oldJti}
    && s'.pending == s.pending - {call}
    && s'.minted.Keys == s.minted.Keys + {row.jwtUuid}
    && row.original == s.pending[call].original
  }

  lemma CommitHasShape(w: World, s: State, call: nat, jti: Uuid, rowId: Uuid) returns (row: MetaRow)
    requires call in s.pending && ExpInRange(s.pending[call].claims.exp)
    ensures CommitShape(s, Committed(w, s, call, jti, rowId), call, row)
    ensures row.jwtUuid == jti && row.id == rowId
  {
    row := PlanExtend(w.cfg, s.signer, s.pending[call], jti, rowId, s.clock).row;
  }

  lemma ShapeReplaces(w: World, s: State, s': State, call: nat, row: MetaRow)
    requires call in s.pending && CommitShape(s, s', call, row)
    requires JtisOk(w, s.db.meta, s.minted.Keys) && DenyKnown(w, s.minted.Keys, s.db.deny.Keys)
    requires PendingOk(w, s.minted, s.db.meta, s.pending[call]) && FreshJti(w, s, row.jwtUuid)
    ensures Replaces(s, s', call, row.jwtUuid)
  {
    assert LatestRow(s.db.meta, row.jwtUuid).None? by { assert row.jwtUuid !in s.minted.Keys; }
    forall j
      ensures j != row.jwtUuid ==> OriginalOf(s'.db.meta, j) == OriginalOf(s.db.meta, j)
    {
      LatestRowAfterAppend(s.db.meta, row, j);
    }
    LatestRowAfterAppend(s.db.meta, row, row.jwtUuid);
    FreshIsNotDenied(w, s, row.jwtUuid);
  }

  lemma CommitEffect(w: World, s: State, call: nat, jti: Uuid, rowId: Uuid)
    requires Inv(w, s) && call in s.pending && ExpInRange(s.pending[call].claims.exp)
    requires FreshJti(w, s, jti)
    ensures Replaces(s, Committed(w, s, call, jti, rowId), call, jti)
  {
    var row := CommitHasShape(w, s, call, jti, rowId);
    ShapeReplaces(w, s, Committed(w, s, call, jti, rowId), call, row);
  }

  lemma ReplaceKeepsOneHolder(s: State, s': State, call: nat, jti: Uuid)
    requires OneHolder(s) && Exclusive(s) && call in s.pending && Replaces(s, s', call, jti)
    ensures OneHolder(s')
  {
    var p := s.pending[call];
    assert BeingExtended(s, p.oldJti);
    forall j | Holds(s', j) && OriginalOf(s'.db.meta, j) == p.original
      ensures j == jti
    {
      if j != jti {
        HolderBeforeCommit(s, s', call, j);
      }
    }
    forall j1, j2 | Holds(s', j1) && Holds(s', j2) && OriginalOf(s'.db.meta, j1) == OriginalOf(s'.db.meta, j2)
      ensures j1 == j2
    {
      if OriginalOf(s'.db.meta, j1) != p.original {
        HolderBeforeCommit(s, s', call, j1);
        HolderBeforeCommit(s, s', call, j2);
      }
    }
  }

  lemma HolderBeforeCommit(s: State, s': State, call: nat, j: Uuid)
    requires Exclusive(s) && call in s.pending && s'.pending == s.pending - {call}
    requires s'.db.deny.Keys == s.db.deny.Keys + {s.pending[call].oldJti}
    requires Holds(s', j)
    ensures Holds(s, j) && j != s.pending[call].oldJti
  {
    if !Live(s', j) {
      var c :| c in s'.pending && s'.pending[c].oldJti == j;
      assert c in s.pending && c != call;
    }
  }

  lemma StepKeepsOneHolder(w: World, s: State, e: Event)
    requires Inv(w, s) && OneHolder(s) && Exclusive(s) && Enabled(w, s, e)
    ensures OneHolder(Apply(w, s, e))
  {
    if Writes(s, e) {
      CommitEffect(w, s, e.call, e.jti, e.rowId);
      ReplaceKeepsOneHolder(s, Committed(w, s, e.call, e.jti, e.rowId), e.call, e.jti);
    } else {
      OtherStepsShrink(w, s, e);
      ShrinkKeepsOneHolder(s, Apply(w, s, e));
    }
  }

  lemma InitialOneHolder(s0: State)
    requires Initial(s0)
    ensures OneHolder(s0)
  {
    assert forall j :: OriginalOf(s0.db.meta, j) == j;
  }

  ghost predicate NeverOverlaps(w: World, s0: State, events: seq<Event>) {
    forall n {:trigger Exclusive(StateAt(w, s0, events, n))} ::
      0 <= n < |events| ==> Exclusive(StateAt(w, s0, events, n))
  }

  lemma StepOfRunKeepsOneHolder(w: World, s0: State, events: seq<Event>, k: nat)
    requires IsRun(w, s0, events) && k < |events|
    requires Exclusive(StateAt(w, s0, events, k)) && OneHolder(StateAt(w, s0, events, k))
    ensures OneHolder(StateAt(w, s0, events, k + 1))
  {
    InvAlways(w, s0, events, k);
    StepKeepsOneHolder(w, StateAt(w, s0, events, k), events[k]);
  }

  lemma {:induction false} OneHolderAlways(w: World, s0: State, events: seq<Event>, k: nat)
    requires IsRun(w, s0, events) && k <= |events|
    requires NeverOverlaps(w, s0, events)
    ensures OneHolder(StateAt(w, s0, events, k))
  {
    if k == 0 {
      InitialOneHolder(s0);
    } else {
      OneHolderAlways(w, s0, events, k - 1);
      assert Exclusive(StateAt(w, s0, events, k - 1));
      StepOfRunKeepsOneHolder(w, s0, events, k - 1);
    }
  }

  /** While extends of one token never overlap, every chain has at most one
      token that is not denylisted. */
  lemma AtMostOneLiveTokenPerChain(w: World, s0: State, events: seq<Event>, k: nat)
    requires IsRun(w, s0, events) && k <= |events|
    requires NeverOverlaps(w, s0, events)
    ensures AtMostOneLive(StateAt(w, s0, events, k))
  {
    OneHolderAlways(w, s0, events, k);
    var s := StateAt(w, s0, events, k);
    assert forall j :: Live(s, j) ==> Holds(s, j);
  }

  lemma ReplaceKeepsOneLiveIff(s: State, s': State, call: nat, jti: Uuid)
    requires AtMostOneLive(s) && call in s.pending && Replaces(s, s', call, jti)
    requires OriginalOf(s.db.meta, jti) != s.pending[call].original
    ensures AtMostOneLive(s')
            <==> forall j :: Live(s, j) && OriginalOf(s.db.meta, j) == s.pending[call].original
                             ==> j == s.pending[call].oldJti
  {
    var p := s.pending[call];
    if j :| Live(s, j) && OriginalOf(s.db.meta, j) == p.original && j != p.oldJti {
      assert Live(s', j) && Live(s', jti) && OriginalOf(s'.db.meta, j) == OriginalOf(s'.db.meta, jti);
    } else {
      forall j1, j2 | Live(s', j1) && Live(s', j2) && OriginalOf(s'.db.meta, j1) == OriginalOf(s'.db.meta, j2)
        ensures j1 == j2
      {
        assert j1 != jti ==> Live(s, j1);
        assert j2 != jti ==> Live(s, j2);
      }
    }
  }

  /** When overlap is allowed: a commit keeps one live token per chain exactly
      when, at that moment, the chain's only live token is the one it replaces. */
  lemma CommitKeepsOneLiveIff(w: World, s: State, call: nat, jti: Uuid, rowId: Uuid)
    requires Inv(w, s) && AtMostOneLive(s) && call in s.pending && ExpInRange(s.pending[call].claims.exp)
    requires FreshJti(w, s, jti) && FreshRow(s, rowId)
    ensures AtMostOneLive(Committed(w, s, call, jti, rowId))
            <==> forall j :: Live(s, j) && OriginalOf(s.db.meta, j) == s.pending[call].original
                             ==> j == s.pending[call].oldJti
  {
    CommitEffect(w, s, call, jti, rowId);
    NewJtiHeadsNoChain(w, s, jti, s.pending[call]);
    ReplaceKeepsOneLiveIff(s, Committed(w, s, call, jti, rowId), call, jti);
  }

  /** A fresh jti is on no existing chain. */
  lemma NewJtiHeadsNoChain(w: World, s: State, jti: Uuid, p: PendingExtend)
    requires Inv(w, s) && FreshJti(w, s, jti) && PendingOk(w, s.minted, s.db.meta, p)
    ensures OriginalOf(s.db.meta, jti) == jti && p.original != jti
  {
    assert LatestRow(s.db.meta, jti).None? by { assert jti !in s.minted.Keys; }
    var o := OriginalOf(s.db.meta, p.oldJti);
    if p.oldJti in s.minted {
      assert FromRequest(w, s.minted[p.oldJti], o, s.requests);
    } else {
      assert LatestRow(s.db.meta, p.oldJti).None?;
    }
  }

  lemma ShrinkKeepsOneLive(s: State, s': State)
    requires AtMostOneLive(s) && Shrinks(s, s')
    ensures AtMostOneLive(s')
  {
  }

  /** If this event is a commit that writes, the token it replaces is the only
      one of its chain still live. */
  ghost predicate ReplacesTheLiveOne(s: State, e: Event) {
    Writes(s, e) ==>
      forall j :: Live(s, j) && OriginalOf(s.db.meta, j) == s.pending[e.call].original ==> j == s.pending[e.call].oldJti
  }

  lemma StepKeepsOneLiveIff(w: World, s: State, e: Event)
    requires Inv(w, s) && AtMostOneLive(s) && Enabled(w, s, e)
    ensures AtMostOneLive(Apply(w, s, e)) <==> ReplacesTheLiveOne(s, e)
  {
    if Writes(s, e) {
      CommitKeepsOneLiveIff(w, s, e.call, e.jti, e.rowId);
    } else {
      OtherStepsShrink(w, s, e);
      ShrinkKeepsOneLive(s, Apply(w, s, e));
    }
  }

  lemma StepOfRunKeepsOneLiveIff(w: World, s0: State, events: seq<Event>, k: nat)
    requires IsRun(w, s0, events) && k < |events| && AtMostOneLive(StateAt(w, s0, events, k))
    ensures AtMostOneLive(StateAt(w, s0, events, k + 1)) <==> ReplacesTheLiveOne(StateAt(w, s0, events, k), events[k])
  {
    InvAlways(w, s0, events, k);
    StepKeepsOneLiveIff(w, StateAt(w, s0, events, k), events[k]);
  }

  /** One live token a chain in every state up to the `k`th. */
  ghost predicate OneLiveUpTo(w: World, s0: State, events: seq<Event>, k: nat)
    requires k <= |events|
  {
    AtMostOneLive(StateAt(w, s0, events, k)) && (k > 0 ==> OneLiveUpTo(w, s0, events, k - 1))
  }

  /** Each of the first `k` events that is a commit replaces its chain's live token. */
  ghost predicate ReplacesUpTo(w: World, s0: State, events: seq<Event>, k: nat)
    requires k <= |events|
  {
    k > 0 ==> ReplacesUpTo(w, s0, events, k - 1) && ReplacesTheLiveOne(StateAt(w, s0, events, k - 1), events[k - 1])
  }

  /** Over whole runs, overlap allowed: every state so far has at most one live
      token on every chain exactly when every commit so far found no live token on
      its chain but the one it replaced. */
  lemma {:induction false} OneLiveThroughoutIff(w: World, s0: State, events: seq<Event>, k: nat)
    requires IsRun(w, s0, events) && k <= |events|
    ensures OneLiveUpTo(w, s0, events, k) <==> ReplacesUpTo(w, s0, events, k)
  {
    if k == 0 {
      InitialOneHolder(s0);
      assert forall j :: Live(s0, j) ==> Holds(s0, j);
    } else {
      OneLiveThroughoutIff(w, s0, events, k - 1);
      if OneLiveUpTo(w, s0, events, k - 1) {
        assert AtMostOneLive(StateAt(w, s0, events, k - 1));
        StepOfRunKeepsOneLiveIff(w, s0, events, k - 1);
      }
    }
  }

  // --------------------------------------------------- when revocation is final

  /** No token of the chain is live, and none is being extended. */
  ghost predicate Ended(s: State, o: Uuid) {
    forall j :: Holds(s, j) ==> OriginalOf(s.db.meta, j) != o
  }

  lemma ShrinkKeepsEnded(s: State, s': State, o: Uuid)
    requires Ended(s, o) && Shrinks(s, s')
    ensures Ended(s', o)
  {
  }

  lemma ReplaceKeepsEnded(s: State, s': State, call: nat, jti: Uuid, o: Uuid)
    requires Ended(s, o) && call in s.pending && Replaces(s, s', call, jti)
    ensures Ended(s', o)
  {
    assert BeingExtended(s, s.pending[call].oldJti);
    forall j | Holds(s', j)
      ensures OriginalOf(s'.db.meta, j) != o
    {
      if j != jti && !Live(s', j) {
        var c :| c in s'.pending && s'.pending[c].oldJti == j;
        assert c in s.pending && s.pending[c].oldJti == j;
      }
    }
  }

  lemma StepKeepsEnded(w: World, s: State, e: Event, o: Uuid)
    requires Inv(w, s) && Enabled(w, s, e) && Ended(s, o)
    ensures Ended(Apply(w, s, e), o)
  {
    if Writes(s, e) {
      CommitEffect(w, s, e.call, e.jti, e.rowId);
      ReplaceKeepsEnded(s, Committed(w, s, e.call, e.jti, e.rowId), e.call, e.jti, o);
    } else {
      OtherStepsShrink(w, s, e);
      ShrinkKeepsEnded(s, Apply(w, s, e), o);
    }
  }

  lemma StepOfRunKeepsEnded(w: World, s0: State, events: seq<Event>, k: nat, o: Uuid)
    requires IsRun(w, s0, events) && k < |events| && Ended(StateAt(w, s0, events, k), o)
    ensures Ended(StateAt(w, s0, events, k + 1), o)
  {
    InvAlways(w, s0, events, k);
    StepKeepsEnded(w, StateAt(w, s0, events, k), events[k], o);
  }

  /** Revocation is final for the chain: once none of its tokens is live and none
      is being extended, none is live ever again, overlapping extends included. */
  lemma {:induction false} EndedChainStaysDead(w: World, s0: State, events: seq<Event>, i: nat, k: nat, o: Uuid)
    requires IsRun(w, s0, events) && i <= k <= |events| && Ended(StateAt(w, s0, events, i), o)
    ensures Ended(StateAt(w, s0, events, k), o)
    ensures forall j :: Live(StateAt(w, s0, events, k), j) ==> OriginalOf(StateAt(w, s0, events, k).db.meta, j) != o
    decreases k - i
  {
    if i < k {
      StepOfRunKeepsEnded(w, s0, events, i, o);
      EndedChainStaysDead(w, s0, events, i + 1, k, o);
    } else {
      var s := StateAt(w, s0, events, k);
      assert forall j :: Live(s, j) ==> Holds(s, j);
    }
  }

  /** While one is being extended it is not: its commit brings the chain back, even
      if every token of the chain has been revoked in between. */
  lemma CommitRevivesChain(w: World, s: State, call: nat, jti: Uuid, rowId: Uuid)
    requires Inv(w, s) && call in s.pending && ExpInRange(s.pending[call].claims.exp) && FreshJti(w, s, jti)
    ensures var s' := Committed(w, s, call, jti, rowId);
            Live(s', jti) && OriginalOf(s'.db.meta, jti) == OriginalOf(s.db.meta, s.pending[call].oldJti)
  {
    CommitEffect(w, s, call, jti, rowId);
  }

  /** After one commit, the other call can still commit. */
  lemma CommitLeavesOthers(w: World, s: State, s1: State, c1: nat, c2: nat, row: MetaRow, j2: Uuid, r2: Uuid)
    requires c1 in s.pending && c2 in s.pending && c1 != c2 && CommitShape(s, s1, c1, row)
    requires FreshJti(w, s, j2) && FreshRow(s, r2) && row.jwtUuid != j2 && row.id != r2
    ensures c2 in s1.pending && s1.pending[c2] == s.pending[c2]
    ensures FreshJti(w, s1, j2) && FreshRow(s1, r2)
  {
  }

  /** Two extends that both passed the check on one token and both commit leave
      two live tokens on its chain, from any reachable state. */
  lemma OverlapLeavesTwoLive(w: World, s: State, c1: nat, c2: nat, j1: Uuid, j2: Uuid, r1: Uuid, r2: Uuid)
    requires Inv(w, s) && c1 in s.pending && c2 in s.pending && c1 != c2
    requires s.pending[c1].oldJti == s.pending[c2].oldJti
    requires ExpInRange(s.pending[c1].claims.exp) && ExpInRange(s.pending[c2].claims.exp)
    requires FreshJti(w, s, j1) && FreshJti(w, s, j2) && j1 != j2
    requires FreshRow(s, r1) && FreshRow(s, r2) && r1 != r2
    ensures var s1 := Committed(w, s, c1, j1, r1);
            && c2 in s1.pending && FreshJti(w, s1, j2) && FreshRow(s1, r2)
            && var s2 := Committed(w, s1, c2, j2, r2);
               && Live(s2, j1) && Live(s2, j2) && j1 != j2
               && OriginalOf(s2.db.meta, j1) == OriginalOf(s2.db.meta, j2)
  {
    CommitEffect(w, s, c1, j1, r1);
    CommitKeepsInv(w, s, c1, j1, r1);
    var row := CommitHasShape(w, s, c1, j1, r1);
    var s1 := Committed(w, s, c1, j1, r1);
    CommitLeavesOthers(w, s, s1, c1, c2, row, j2, r2);
    assert s.pending[c2].original == OriginalOf(s.db.meta, s.pending[c2].oldJti) by {
      assert PendingOk(w, s.minted, s.db.meta, s.pending[c2]);
    }
    assert s.pending[c2].oldJti != j1;
    CommitEffect(w, s1, c2, j2, r2);
  }

  lemma RunWithCheck(w: World, s0: State, events: seq<Event>, s: State, call: nat, token: Token, p: PendingExtend,
                     s': State)
    returns (all: seq<Event>)
    requires Reaches(w, s0, events, s) && call !in s.pending && Presentable(w, s, token)
    requires CheckExtend(s.signer, s.db, token, None, s.clock) == Ok(p) && s' == s.(pending := s.pending[call := p])
    ensures Reaches(w, s0, all, s') && |all| == |events| + 1
  {
    all := RunOneMore(w, s0, events, s, ExtendCheck(call, token, None));
  }

  lemma RunWithCommit(w: World, s0: State, events: seq<Event>, s: State, call: nat, jti: Uuid, rowId: Uuid)
    returns (all: seq<Event>)
    requires Reaches(w, s0, events, s) && call in s.pending && FreshJti(w, s, jti) && FreshRow(s, rowId)
    ensures Reaches(w, s0, all, Committed(w, s, call, jti, rowId)) && |all| == |events| + 1
  {
    all := RunOneMore(w, s0, events, s, ExtendCommit(call, jti, rowId));
  }

  /** Two extend calls check the same live token before either commits. */
  lemma RunWithTwoChecks(w: World, s0: State, events: seq<Event>, s: State, token: Token, p: PendingExtend)
    returns (all: seq<Event>, s': State)
    requires Reaches(w, s0, events, s) && s.pending == map[] && token in s.minted.Values
    requires CheckExtend(s.signer, s.db, token, None, s.clock) == Ok(p)
    ensures Reaches(w, s0, all, s') && |all| == |events| + 2 && s' == s.(pending := map[0 := p, 1 := p])
  {
    var mid := s.(pending := map[0 := p]);
    s' := s.(pending := map[0 := p, 1 := p]);
    assert s.pending[0 := p] == map[0 := p] && map[0 := p][1 := p] == map[0 := p, 1 := p];
    var one := RunWithCheck(w, s0, events, s, 0, token, p, mid);
    all := RunWithCheck(w, s0, one, mid, 1, token, p, s');
  }

  /** A service with one freshly generated token. */
  lemma RunOfOneGenerate(w: World, s0: State, req: GenerateRequest, jti: Uuid, rowId: Uuid)
    returns (events: seq<Event>, issue: Issue, s1: State)
    requires Initial(s0) && !OutsideJti(w, jti)
    requires PlanGenerate(w.cfg, s0.signer, req, s0.clock, jti, rowId).Ok?
    ensures PlanGenerate(w.cfg, s0.signer, req, s0.clock, jti, rowId) == Ok(issue) && issue.row.id == rowId
    ensures s1 == s0.(db := Db([issue.row], map[]), minted := map[jti := issue.token], requests := map[jti := req])
    ensures Reaches(w, s0, events, s1) && |events| == 1
  {
    issue := PlanGenerate(w.cfg, s0.signer, req, s0.clock, jti, rowId).value;
    events := RunOneMore(w, s0, [], s0, Generate(req, jti, rowId));
    s1 := Apply(w, s0, Generate(req, jti, rowId));
  }

  lemma GeneratedTokenExtends(w: World, s0: State, s1: State, req: GenerateRequest, jti: Uuid, rowId: Uuid,
                              issue: Issue)
    requires Initial(s0) && s1.signer == s0.signer && s1.clock == s0.clock && s1.db.deny == map[]
    requires PlanGenerate(w.cfg, s0.signer, req, s0.clock, jti, rowId) == Ok(issue)
    ensures CheckExtend(s1.signer, s1.db, issue.token, None, s1.clock).Ok?
    ensures CheckExtend(s1.signer, s1.db, issue.token, None, s1.clock).value.claims.exp
            == Timestamp(s0.clock + req.minutes * MINUTE)
  {
    TimestampMonotone(s0.clock, s0.clock + req.minutes * MINUTE);
    FreshTokenExtends(s0, s1, issue);
  }

  /** Two overlapping extends of the token, one after the other to the end. */
  lemma RunWithTwoCommits(w: World, s0: State, events: seq<Event>, s: State, p: PendingExtend, j1: Uuid, j2: Uuid,
                          r1: Uuid, r2: Uuid)
    returns (all: seq<Event>, s': State)
    requires Reaches(w, s0, events, s) && s.pending == map[0 := p, 1 := p] && ExpInRange(p.claims.exp)
    requires FreshJti(w, s, j1) && FreshJti(w, s, j2) && j1 != j2 && FreshRow(s, r1) && FreshRow(s, r2) && r1 != r2
    ensures Reaches(w, s0, all, s') && |all| == |events| + 2 && !AtMostOneLive(s')
  {
    InvAlways(w, s0, events, |events|);
    OverlapLeavesTwoLive(w, s, 0, 1, j1, j2, r1, r2);
    var one := RunWithCommit(w, s0, events, s, 0, j1, r1);
    var mid := Committed(w, s, 0, j1, r1);
    all := RunWithCommit(w, s0, one, mid, 1, j2, r2);
    s' := Committed(w, mid, 1, j2, r2);
  }

  /** Such a state is reached in five steps by every service that can mint one token:
      generate it, start two extends of it, finish both. */
  lemma OverlappingExtendsFork(w: World, s0: State, req: GenerateRequest, j0: Uuid, j1: Uuid, j2: Uuid)
    returns (events: seq<Event>)
    requires Initial(s0) && j0 != j1 && j0 != j2 && j1 != j2
    requires !OutsideJti(w, j0) && !OutsideJti(w, j1) && !OutsideJti(w, j2)
    requires PlanGenerate(w.cfg, s0.signer, req, s0.clock, j0, 0).Ok?
    requires ExpInRange(Timestamp(s0.clock + req.minutes * MINUTE))
    ensures |events| == 5 && IsRun(w, s0, events) && !AtMostOneLive(StateAt(w, s0, events, |events|))
  {
    var one, issue, s1 := RunOfOneGenerate(w, s0, req, j0, 0);
    assert issue.token in s1.minted.Values by { assert s1.minted[j0] == issue.token; }
    GeneratedTokenExtends(w, s0, s1, req, j0, 0, issue);
    var p := CheckExtend(s1.signer, s1.db, issue.token, None, s1.clock).value;
    var three, s3 := RunWithTwoChecks(w, s0, one, s1, issue.token, p);
    var five, s5 := RunWithTwoCommits(w, s0, three, s3, p, j1, j2, 1, 2);
    events := five;
  }

  /** A token just generated passes the extend check. */
  lemma FreshTokenExtends(s0: State, s1: State, issue: Issue)
    requires Signer.Valid(s0.signer) && s1.signer == s0.signer && s1.clock == s0.clock
    requires issue.token == Sign(s0.signer, issue.claims) && issue.claims.extra.Keys !! TYPED
    requires issue.claims.exp >= Timestamp(s0.clock) && issue.claims.jti.UuidText?
    requires issue.claims.jti.uuid !in s1.db.deny
    ensures CheckExtend(s1.signer, s1.db, issue.token, None, s1.clock).Ok?
    ensures CheckExtend(s1.signer, s1.db, issue.token, None, s1.clock).value.claims == issue.claims
    ensures CheckExtend(s1.signer, s1.db, issue.token, None, s1.clock).value.oldJti == issue.claims.jti.uuid
  {
    SignVerifyRoundTrip(s0.signer, issue.claims, Permissive(), s0.clock);
  }

  // ------------------------------------------------------ content of a chain

  lemma ContentOfChain(w: World, s: State, j: Uuid)
    requires Inv(w, s) && j in s.minted && OriginalOf(s.db.meta, j) in s.requests
    ensures var o := OriginalOf(s.db.meta, j);
            && o in s.minted
            && SameContent(w.cfg, s.minted[j], s.requests[o])
            && SameContent(w.cfg, s.minted[o], s.requests[o])
  {
  }

  /** Every token on a chain that `generate` started says what that request
      asked for: its subject, its audience, its content without the registered
      names and with the token type. */
  lemma ChainKeepsContent(w: World, s0: State, events: seq<Event>, k: nat, j: Uuid)
    requires IsRun(w, s0, events) && k <= |events|
    requires var s := StateAt(w, s0, events, k); j in s.minted && OriginalOf(s.db.meta, j) in s.requests
    ensures var s := StateAt(w, s0, events, k);
            var o := OriginalOf(s.db.meta, j);
            && o in s.minted
            && SameContent(w.cfg, s.minted[j], s.requests[o])
            && SameContent(w.cfg, s.minted[o], s.requests[o])
  {
    InvAlways(w, s0, events, k);
    ContentOfChain(w, StateAt(w, s0, events, k), j);
  }
}
