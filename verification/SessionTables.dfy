// Session records and Hydra's login sessions: internal/domain/identity/session.go, the
// sessions table of internal/infrastructure/postgres/session_repository.go and the part
// of Hydra behind RevokeLoginSessions and the consent requests.
module SessionTables {
  import opened Common

  datatype Session = Session(id: Id, userId: Id, hydraSessionId: string, deviceName: string, userAgent: string,
    ip: string,
                             location: string, createdAt: Time, lastSeenAt: Time, endedAt: Option<Time>)

  // A Hydra login session. Hydra never revives one and never reuses its sid.
  datatype Login = Login(subject: Id, revoked: bool)

  datatype Error = ErrSessionNotFound | ConsentFlowError | StoreError | HydraError

  datatype Db = Db(users: set<Id>, rows: map<Id, Session>, logins: map<string, Login>, accepted: set<string>,
    rejected: set<string>)

  const EMPTY := Db({}, map[], map[], {}, {})

  // The zero time.Time, year 1, as nanoseconds since the Unix epoch.
  const ZERO_TIME: Time := -62_135_596_800_000_000_000

  datatype Written = Written(db: Db, err: Option<Error>)

  function InsertSession(db: Db, s: Session): Written {
    if s.id in db.rows || s.userId !in db.users then Written(db, Some(StoreError))
    else Written(db.(rows := db.rows[s.id := s.(endedAt := None)]), None)
  }

  function FindSession(db: Db, id: Id): Option<Session> {
    if id in db.rows then Some(db.rows[id]) else None
  }

  // The WHERE clause of an end statement.
  datatype Target = ById(id: Id) | BySid(sid: string) | ByUser(user: Id)

  predicate Matches(target: Target, s: Session) {
    match target
    case ById(id) => s.id == id
    case BySid(sid) => s.hydraSessionId == sid
    case ByUser(user) => s.userId == user
  }

  function Ended(target: Target, s: Session, now: Time): Session {
    if Matches(target, s) && s.endedAt == None then s.(endedAt := Some(now)) else s
  }

  // UPDATE sessions SET ended_at = now() WHERE ... AND ended_at IS NULL
  function MarkEnded(db: Db, target: Target, now: Time): Db {
    db.(rows := map id | id in db.rows :: Ended(target, db.rows[id], now))
  }

  function ActiveIds(db: Db, user: Id): set<Id> {
    set id | id in db.rows && db.rows[id].userId == user && db.rows[id].endedAt == None
  }

  function RevokeById(db: Db, sid: string): Db {
    if sid in db.logins then db.(logins := db.logins[sid := db.logins[sid].(revoked := true)]) else db
  }

  function RevokeBySubject(db: Db, subject: Id): Db {
    db.(logins := map sid | sid in db.logins ::
      if db.logins[sid].subject == subject then db.logins[sid].(revoked := true) else db.logins[sid])
  }
}
