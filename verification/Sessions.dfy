/** The session record and its contract (src/oauth2/session/store.rs). */
module Sessions {
  import opened Prelude
  import opened Claims

  type Profile = map<string, Json>

  datatype Session = Session(
    id: string,
    provider: string,
    userId: string,
    createdAt: Instant,
    lastActivity: Instant,
    expiresAt: Instant,
    profile: Profile)

  predicate IsExpired(s: Session, now: Instant) {
    s.expiresAt <= now
  }

  /** Created by a login under this cap: lasts at least a second and no longer
      than the cap, or than one second if the cap is zero. */
  predicate WithinCap(s: Session, ttlCap: nat) {
    SECOND <= s.expiresAt - s.createdAt <= (if ttlCap < 1 then 1 else ttlCap) * SECOND
  }
}
