/** The two session stores (src/oauth2/session/memory.rs, postgres.rs). */
module SessionStores {
  import opened Prelude
  import opened Sessions
  import opened SessionCipher

  // ------------------------------------------------------------ in memory

  function MemGet(m: map<string, Session>, id: string, now: Instant): (Option<Session>, map<string, Session>) {
    if id !in m then (None, m)
    else if IsExpired(m[id], now) then (None, m - {id})
    else (Some(m[id]), m)
  }

  function MemTouch(m: map<string, Session>, id: string, now: Instant): map<string, Session> {
    if id in m then m[id := m[id].(lastActivity := now)] else m
  }

  function ExpiredIds(m: map<string, Session>, now: Instant): set<string> {
    set id | id in m && IsExpired(m[id], now)
  }

  class MemoryStore {
    var entries: map<string, Session>

    constructor ()
      ensures entries == map[]
    {
      entries := map[];
    }

    method Create(s: Session)
      modifies this
      ensures entries == old(entries)[s.id := s]
    {
      entries := entries[s.id := s];
    }

    /** An expired session is removed on sight. */
    method Get(id: string, now: Instant) returns (r: Option<Session>)
      modifies this
      ensures (r, entries) == MemGet(old(entries), id, now)
    {
      if id !in entries {
        return None;
      }
      var entry := entries[id];
      if IsExpired(entry, now) {
        entries := entries - {id};
        return None;
      }
      return Some(entry);
    }

    method Touch(id: string, now: Instant)
      modifies this
      ensures entries == MemTouch(old(entries), id, now)
    {
      if id in entries {
        entries := entries[id := entries[id].(lastActivity := now)];
      }
    }

    method Revoke(id: string) returns (existed: bool)
      modifies this
      ensures existed == (id in old(entries)) && entries == old(entries) - {id}
    {
      existed := id in entries;
      entries := entries - {id};
    }

    /** First the expired ids are collected, then they are removed one by one. */
    method SweepExpired(now: Instant) returns (n: nat)
      modifies this
      ensures entries == old(entries) - ExpiredIds(old(entries), now)
      ensures n == |ExpiredIds(old(entries), now)|
      ensures forall id :: id in entries ==> !IsExpired(entries[id], now)
    {
      var expired := CollectExpired(now);
      n := |expired|;
      RemoveAll(expired);
    }

    method CollectExpired(now: Instant) returns (expired: set<string>)
      ensures expired == ExpiredIds(entries, now)
    {
      expired := {};
      var rest := entries.Keys;
      while rest != {}
        invariant rest <= entries.Keys
        invariant expired == ExpiredIds(entries, now) - rest
        decreases |rest|
      {
        var id :| id in rest;
        rest := rest - {id};
        if IsExpired(entries[id], now) {
          expired := expired + {id};
        }
      }
    }

    method RemoveAll(ids: set<string>)
      modifies this
      ensures entries == old(entries) - ids
    {
      var rest := ids;
      ghost var removed: set<string> := {};
      while rest != {}
        invariant ids == removed + rest
        invariant entries == old(entries) - removed
        decreases |rest|
      {
        var id :| id in rest;
        rest := rest - {id};
        removed := removed + {id};
        entries := entries - {id};
      }
    }
  }

  // ---------------------------------------------------------- in the database

  /** How a profile becomes a stored blob: JSON, then the AEAD envelope. */
  datatype ProfileCodec = ProfileCodec(aead: Aead, toJson: Profile -> Bytes, fromJson: Bytes -> Option<Profile>)

  ghost predicate CodecOk(c: ProfileCodec) {
    Inverts(c.aead) && forall p: Profile :: c.fromJson(c.toJson(p)) == Some(p)
  }

  /** One row of auth.session, keyed by id. */
  datatype SessionRow = SessionRow(
    provider: string,
    userId: string,
    createdAt: Instant,
    lastActivity: Instant,
    expiresAt: Instant,
    profileEncrypted: Bytes)

  datatype StoreError = DuplicateId | ProfileUnreadable

  function RowOf(c: ProfileCodec, s: Session, nonce: Bytes): SessionRow {
    SessionRow(s.provider, s.userId, s.createdAt, s.lastActivity, s.expiresAt, Seal(c.aead, nonce, c.toJson(s.profile)))
  }

  function OpenProfile(c: ProfileCodec, blob: Bytes): Option<Profile> {
    match Open(c.aead, blob) case Err(_) => None case Ok(json) => c.fromJson(json)
  }

  function SessionOf(c: ProfileCodec, id: string, row: SessionRow): Result<Session, StoreError> {
    match OpenProfile(c, row.profileEncrypted)
    case None => Err(ProfileUnreadable)
    case Some(p) => Ok(Session(id, row.provider, row.userId, row.createdAt, row.lastActivity, row.expiresAt, p))
  }

  /** Sealing a session into a row and reading it back loses nothing. */
  lemma RowRoundTrip(c: ProfileCodec, s: Session, nonce: Bytes)
    requires CodecOk(c) && |nonce| == NONCE_LEN
    ensures SessionOf(c, s.id, RowOf(c, s, nonce)) == Ok(s)
  {
    OpenSeal(c.aead, nonce, c.toJson(s.profile));
  }

  /** SELECT ... WHERE id = $1 AND expires_at > now() */
  function PgGet(c: ProfileCodec, rows: map<string, SessionRow>, id: string, now: Instant)
    : Result<Option<Session>, StoreError>
  {
    if id !in rows || rows[id].expiresAt <= now then Ok(None)
    else match SessionOf(c, id, rows[id]) case Err(e) => Err(e) case Ok(s) => Ok(Some(s))
  }

  /** UPDATE ... SET last_activity = now() WHERE id = $1 AND expires_at > now() */
  function PgTouch(rows: map<string, SessionRow>, id: string, now: Instant): map<string, SessionRow> {
    if id in rows && rows[id].expiresAt > now then rows[id := rows[id].(lastActivity := now)] else rows
  }

  /** DELETE ... WHERE expires_at <= now() */
  function PgSweep(rows: map<string, SessionRow>, now: Instant): map<string, SessionRow> {
    rows - (set id | id in rows && rows[id].expiresAt <= now)
  }

  class PostgresStore {
    const codec: ProfileCodec
    var rows: map<string, SessionRow>

    constructor (codec: ProfileCodec)
      ensures this.codec == codec && rows == map[]
    {
      this.codec := codec;
      rows := map[];
    }

    method Create(s: Session, nonce: Bytes) returns (r: Result<(), StoreError>)
      modifies this`rows
      ensures s.id in old(rows) ==> r == Err(DuplicateId) && rows == old(rows)
      ensures s.id !in old(rows) ==> r == Ok(()) && rows == old(rows)[s.id := RowOf(codec, s, nonce)]
    {
      if s.id in rows {
        return Err(DuplicateId);
      }
      rows := rows[s.id := RowOf(codec, s, nonce)];
      return Ok(());
    }

    method Get(id: string, now: Instant) returns (r: Result<Option<Session>, StoreError>)
      ensures r == PgGet(codec, rows, id, now)
    {
      if id !in rows || rows[id].expiresAt <= now {
        return Ok(None);
      }
      var row := rows[id];
      var profile := OpenProfile(codec, row.profileEncrypted);
      if profile.None? {
        return Err(ProfileUnreadable);
      }
      return Ok(Some(Session(id, row.provider, row.userId, row.createdAt, row.lastActivity, row.expiresAt,
                             profile.value)));
    }

    method Touch(id: string, now: Instant)
      modifies this`rows
      ensures rows == PgTouch(old(rows), id, now)
    {
      if id in rows && rows[id].expiresAt > now {
        rows := rows[id := rows[id].(lastActivity := now)];
      }
    }

    method Revoke(id: string) returns (existed: bool)
      modifies this`rows
      ensures existed == (id in old(rows)) && rows == old(rows) - {id}
    {
      existed := id in rows;
      rows := rows - {id};
    }

    method SweepExpired(now: Instant) returns (n: nat)
      modifies this`rows
      ensures rows == PgSweep(old(rows), now)
      ensures n == |old(rows).Keys - rows.Keys|
    {
      var before := rows.Keys;
      rows := PgSweep(rows, now);
      n := |before - rows.Keys|;
    }
  }
}
