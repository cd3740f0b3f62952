/** Both session stores against one naive account of a session's history. */
module SessionHistories {
  import opened Prelude
  import opened Sessions
  import opened SessionCipher
  import opened SessionStores

  /** The memory store removes an expired session some time after it saw that it
      was expired: `Get` and `Sweep` see, `Drop` removes. Other operations may
      come in between. For the database `Drop` does nothing. */
  datatype Op =
    | Create(session: Session, nonce: Bytes)
    | Get(id: string)
    | Touch(id: string)
    | Revoke(id: string)
    | Sweep
    | Drop(id: string)

  datatype Timed = Timed(op: Op, at: Instant)

  // ------------------------------------------------------------- the naive spec

  /** Created and not revoked since, with the time of the last touch before expiry. */
  function Lookup(h: seq<Timed>, id: string): Option<Session> {
    if h == [] then None
    else
      var before := Lookup(h[..|h| - 1], id);
      var last := h[|h| - 1];
      match last.op
      case Create(s, _) => if s.id == id then Some(s) else before
      case Touch(x) =>
        if x == id && before.Some? && !IsExpired(before.value, last.at)
        then Some(before.value.(lastActivity := last.at)) else before
      case Revoke(x) => if x == id then None else before
      case _ => before
  }

  /** Created, not revoked, expires later than now. */
  function Readable(h: seq<Timed>, id: string, now: Instant): Option<Session> {
    var s := Lookup(h, id);
    if s.Some? && !IsExpired(s.value, now) then s else None
  }

  /** Readable means created, not revoked, and ending strictly later than now. */
  lemma ReadableIff(h: seq<Timed>, id: string, now: Instant, s: Session)
    ensures Readable(h, id, now) == Some(s) <==> Lookup(h, id) == Some(s) && now < s.expiresAt
  {
  }

  // ------------------------------------------------------------ the two machines

  datatype Memory = Memory(entries: map<string, Session>, doomed: set<string>)

  function MemApply(m: Memory, t: Timed): Memory {
    match t.op
    case Create(s, _) => m.(entries := m.entries[s.id := s])
    case Get(id) => if id in m.entries && IsExpired(m.entries[id], t.at) then m.(doomed := m.doomed + {id}) else m
    case Touch(id) => m.(entries := MemTouch(m.entries, id, t.at))
    case Revoke(id) => m.(entries := m.entries - {id})
    case Sweep => m.(doomed := m.doomed + ExpiredIds(m.entries, t.at))
    case Drop(id) => if id in m.doomed then Memory(m.entries - {id}, m.doomed - {id}) else m
  }

  function PgApply(c: ProfileCodec, rows: map<string, SessionRow>, t: Timed): map<string, SessionRow> {
    match t.op
    case Create(s, nonce) => if s.id in rows then rows else rows[s.id := RowOf(c, s, nonce)]
    case Get(_) => rows
    case Touch(id) => PgTouch(rows, id, t.at)
    case Revoke(id) => rows - {id}
    case Sweep => PgSweep(rows, t.at)
    case Drop(_) => rows
  }

  function MemAfter(h: seq<Timed>): Memory {
    if h == [] then Memory(map[], {}) else MemApply(MemAfter(h[..|h| - 1]), h[|h| - 1])
  }

  function PgAfter(c: ProfileCodec, h: seq<Timed>): map<string, SessionRow> {
    if h == [] then map[] else PgApply(c, PgAfter(c, h[..|h| - 1]), h[|h| - 1])
  }

  /** The store's atomic operations are runs of these steps. */
  lemma AtomicGetIsGetThenDrop(m: Memory, id: string, now: Instant)
    requires id !in m.doomed
    ensures var after := MemApply(MemApply(m, Timed(Get(id), now)), Timed(Drop(id), now));
            after.entries == MemGet(m.entries, id, now).1 && after.doomed == m.doomed
  {
  }

  function AfterDrops(m: Memory, ids: seq<string>, now: Instant): Memory {
    if ids == [] then m else MemApply(AfterDrops(m, ids[..|ids| - 1], now), Timed(Drop(ids[|ids| - 1]), now))
  }

  lemma {:induction false} DropsRemoveDoomed(m: Memory, ids: seq<string>, now: Instant)
    requires forall id :: id in ids ==> id in m.doomed
    ensures AfterDrops(m, ids, now) == Memory(m.entries - (set id | id in ids), m.doomed - (set id | id in ids))
  {
    if ids != [] {
      var n := |ids| - 1;
      DropsRemoveDoomed(m, ids[..n], now);
      assert ids == ids[..n] + [ids[n]];
      assert (set id | id in ids) == (set id | id in ids[..n]) + {ids[n]};
    }
  }

  lemma AtomicSweepIsSweepThenDrops(m: Memory, ids: seq<string>, now: Instant)
    requires m.doomed == {} && (set id | id in ids) == ExpiredIds(m.entries, now)
    ensures var after := AfterDrops(MemApply(m, Timed(Sweep, now)), ids, now);
            after.entries == m.entries - ExpiredIds(m.entries, now) && after.doomed == {}
  {
    assert forall id :: id in ids ==> id in (set x | x in ids);
    DropsRemoveDoomed(MemApply(m, Timed(Sweep, now)), ids, now);
  }

  // ------------------------------------------------------------------ histories

  function CreatedIds(h: seq<Timed>): set<string> {
    set t | t in h && t.op.Create? :: t.op.session.id
  }

  /** Random ids, a clock that does not run back, nonces of the right length. */
  predicate WellFormed(h: seq<Timed>) {
    && (forall i, k :: 0 <= i < k < |h| ==> h[i].at <= h[k].at)
    && (forall i, k :: 0 <= i < k < |h| && h[i].op.Create? && h[k].op.Create? ==>
          h[i].op.session.id != h[k].op.session.id)
    && (forall i :: 0 <= i < |h| && h[i].op.Create? ==> |h[i].op.nonce| == NONCE_LEN)
  }

  function MemView(m: Memory, id: string, now: Instant): Option<Session> {
    MemGet(m.entries, id, now).0
  }

  /** From `since` on the memory store answers as the history says, and what it
      is about to drop is dead. */
  ghost predicate MemAgrees(m: Memory, h: seq<Timed>, since: Instant) {
    && (forall id, now :: now >= since ==> MemView(m, id, now) == Readable(h, id, now))
    && (forall id :: id in m.doomed ==> id in CreatedIds(h) && MemView(m, id, since).None?)
    && (forall id :: id in m.entries ==> id in CreatedIds(h) && Lookup(h, id).Some?)
  }

  /** Every row opens, and from `since` on the database answers as the history says. */
  ghost predicate PgAgrees(c: ProfileCodec, rows: map<string, SessionRow>, h: seq<Timed>, since: Instant) {
    && (forall id, now :: now >= since ==> PgGet(c, rows, id, now) == Ok(Readable(h, id, now)))
    && (forall id :: id in rows ==> id in CreatedIds(h) && Lookup(h, id).Some? && SessionOf(c, id, rows[id]).Ok?)
  }

  lemma CreatedIdsGrow(h: seq<Timed>, t: Timed)
    ensures CreatedIds(h) <= CreatedIds(h + [t])
    ensures t.op.Create? ==> t.op.session.id in CreatedIds(h + [t])
  {
    var all := h + [t];
    forall x | x in h && x.op.Create?
      ensures x.op.session.id in CreatedIds(all)
    {
      assert x in all;
    }
    assert t in all;
  }

  lemma LookupStep(h: seq<Timed>, t: Timed, id: string)
    ensures Lookup(h + [t], id) ==
            match t.op
            case Create(s, _) => if s.id == id then Some(s) else Lookup(h, id)
            case Touch(x) =>
              if x == id && Lookup(h, id).Some? && !IsExpired(Lookup(h, id).value, t.at)
              then Some(Lookup(h, id).value.(lastActivity := t.at)) else Lookup(h, id)
            case Revoke(x) => if x == id then None else Lookup(h, id)
            case _ => Lookup(h, id)
  {
    assert (h + [t])[..|h|] == h;
  }

  lemma MemStep(m: Memory, h: seq<Timed>, since: Instant, t: Timed)
    requires MemAgrees(m, h, since) && since <= t.at
    requires t.op.Create? ==> t.op.session.id !in CreatedIds(h)
    ensures MemAgrees(MemApply(m, t), h + [t], t.at)
  {
    CreatedIdsGrow(h, t);
    var m' := MemApply(m, t);
    forall id, now | now >= t.at
      ensures MemView(m', id, now) == Readable(h + [t], id, now)
    {
      LookupStep(h, t, id);
      assert MemView(m, id, now) == Readable(h, id, now);
      assert MemView(m, id, t.at) == Readable(h, id, t.at);
      if id in m.doomed { assert MemView(m, id, since).None?; }
    }
    forall id | id in m'.entries
      ensures Lookup(h + [t], id).Some?
    {
      LookupStep(h, t, id);
    }
    forall id | id in m'.doomed
      ensures id in CreatedIds(h + [t]) && MemView(m', id, t.at).None?
    {
      if id in m.doomed { assert MemView(m, id, since).None?; }
    }
  }

  lemma PgStep(c: ProfileCodec, rows: map<string, SessionRow>, h: seq<Timed>, since: Instant, t: Timed)
    requires CodecOk(c) && PgAgrees(c, rows, h, since) && since <= t.at
    requires t.op.Create? ==> t.op.session.id !in CreatedIds(h) && |t.op.nonce| == NONCE_LEN
    ensures PgAgrees(c, PgApply(c, rows, t), h + [t], t.at)
  {
    CreatedIdsGrow(h, t);
    if t.op.Create? { RowRoundTrip(c, t.op.session, t.op.nonce); }
    var rows' := PgApply(c, rows, t);
    forall id, now | now >= t.at
      ensures PgGet(c, rows', id, now) == Ok(Readable(h + [t], id, now))
    {
      LookupStep(h, t, id);
      assert PgGet(c, rows, id, now) == Ok(Readable(h, id, now));
      assert PgGet(c, rows, id, t.at) == Ok(Readable(h, id, t.at));
    }
    forall id | id in rows'
      ensures id in CreatedIds(h + [t]) && Lookup(h + [t], id).Some? && SessionOf(c, id, rows'[id]).Ok?
    {
      LookupStep(h, t, id);
    }
  }

  function LastAt(h: seq<Timed>): Instant
    requires h != []
  {
    h[|h| - 1].at
  }

  lemma PrefixWellFormed(h: seq<Timed>)
    requires WellFormed(h) && h != []
    ensures var before, last := h[..|h| - 1], h[|h| - 1];
            && WellFormed(before) && h == before + [last]
            && (last.op.Create? ==> last.op.session.id !in CreatedIds(before))
  {
    var before, last := h[..|h| - 1], h[|h| - 1];
    if last.op.Create? {
      forall t | t in before && t.op.Create?
        ensures t.op.session.id != last.op.session.id
      {
        var i :| 0 <= i < |before| && before[i] == t;
        assert h[i] == t;
      }
    }
  }

  lemma {:induction false} StoresAgree(c: ProfileCodec, h: seq<Timed>, since: Instant)
    requires CodecOk(c) && WellFormed(h) && (h == [] || since == LastAt(h))
    ensures MemAgrees(MemAfter(h), h, since) && PgAgrees(c, PgAfter(c, h), h, since)
    decreases |h|
  {
    if h != [] {
      var before, last := h[..|h| - 1], h[|h| - 1];
      PrefixWellFormed(h);
      var prior := if before == [] then since else LastAt(before);
      StoresAgree(c, before, prior);
      MemStep(MemAfter(before), before, prior, last);
      PgStep(c, PgAfter(c, before), before, prior, last);
    }
  }

  /** On every history both stores give the same answer to every read, down to
      last activity and profile, and it is the naive one. */
  lemma StoresAnswerAlike(c: ProfileCodec, h: seq<Timed>, id: string, now: Instant)
    requires CodecOk(c) && WellFormed(h) && (h == [] || LastAt(h) <= now)
    ensures MemGet(MemAfter(h).entries, id, now).0 == Readable(h, id, now)
    ensures PgGet(c, PgAfter(c, h), id, now) == Ok(Readable(h, id, now))
  {
    StoresAgree(c, h, if h == [] then now else LastAt(h));
  }

  /** Revoking answers alike except of a session that is expired, not revoked,
      and gone from one of the stores. */
  lemma RevokeAnswersDifferOnlyOnExpired(c: ProfileCodec, h: seq<Timed>, id: string, now: Instant)
    requires CodecOk(c) && WellFormed(h) && (h == [] || LastAt(h) <= now)
    requires (id in MemAfter(h).entries) != (id in PgAfter(c, h))
    ensures Lookup(h, id).Some? && IsExpired(Lookup(h, id).value, now)
  {
    StoresAgree(c, h, if h == [] then now else LastAt(h));
    assert MemView(MemAfter(h), id, now) == Readable(h, id, now);
    assert PgGet(c, PgAfter(c, h), id, now) == Ok(Readable(h, id, now));
  }

  /** Touching and reading never change when a session was made or ends. */
  lemma {:induction false} LookupKeepsTimes(h: seq<Timed>, id: string)
    ensures Lookup(h, id).Some? ==>
              exists i :: 0 <= i < |h| && h[i].op.Create?
                          && var s := h[i].op.session;
                             Lookup(h, id).value == s.(lastActivity := Lookup(h, id).value.lastActivity)
  {
    if h != [] {
      var before, last := h[..|h| - 1], h[|h| - 1];
      LookupKeepsTimes(before, id);
      if Lookup(before, id).Some? {
        var i :| 0 <= i < |before| && before[i].op.Create?
                 && Lookup(before, id).value
                    == before[i].op.session.(lastActivity := Lookup(before, id).value.lastActivity);
        assert h[i] == before[i];
      }
      if last.op.Create? { assert h[|h| - 1].op.Create?; }
    }
  }

  /** No sequence of operations keeps a session readable past its creation plus
      the cap (one second, if the cap is zero). */
  lemma TouchingDoesNotExtend(c: ProfileCodec, h: seq<Timed>, id: string, now: Instant, ttlCap: nat)
    requires CodecOk(c) && WellFormed(h) && (h == [] || LastAt(h) <= now)
    requires forall i :: 0 <= i < |h| && h[i].op.Create? ==> WithinCap(h[i].op.session, ttlCap)
    ensures var r := MemGet(MemAfter(h).entries, id, now).0;
            && PgGet(c, PgAfter(c, h), id, now) == Ok(r)
            && (r.Some? ==>
                  && WithinCap(r.value, ttlCap)
                  && now < r.value.createdAt + (if ttlCap < 1 then 1 else ttlCap) * SECOND)
  {
    StoresAnswerAlike(c, h, id, now);
    LookupKeepsTimes(h, id);
  }
}
