// Accounts and one-time tokens: internal/domain/identity, the users table of
// internal/infrastructure/postgres/user_repository.go and the two token maps that
// RedisKeyspace shows the shared Redis keyspace to contain.
module AccountTables {
  import opened Common
  import opened RedisKeyspace

  datatype User = User(id: Id, email: string, emailVerified: bool, passwordHash: string, name: string,
                       avatarUrl: string, locale: string, timezone: string, createdAt: Time)

  datatype Error =
    | ErrUserNotFound | ErrUserExists | ErrTokenInvalid | ErrWeakPassword | ErrInvalidEmail
    | ErrInvalidCredentials | ErrEmailNotVerified
    | HashError | StoreError | MailError

  type Byte = b: int | 0 <= b < 256

  // A password as Go sees it: len() counts bytes.
  type Password = seq<Byte>

  const MIN_PASSWORD_LEN := 8

  // bcrypt: a salted hash that may fail, and its check.
  datatype Hasher = Hasher(hash: (Password, string) -> Option<string>, check: (string, Password) -> bool)

  ghost predicate Sound(h: Hasher) {
    forall p, salt {:trigger h.hash(p, salt)} :: h.hash(p, salt).Some? ==> h.check(h.hash(p, salt).value, p)
  }

  // `emails` is the unique index on users.email.
  datatype Db = Db(users: map<Id, User>, emails: map<string, Id>, verify: Store, reset: Store)

  const EMPTY := Db(map[], map[], map[], map[])

  datatype Purpose = VerifyEmail | PasswordReset

  datatype Written = Written(db: Db, err: Option<Error>)

  function FindByEmail(db: Db, email: string): Option<User> {
    if email in db.emails && db.emails[email] in db.users then Some(db.users[db.emails[email]]) else None
  }

  function FindByID(db: Db, id: Id): Option<User> {
    if id in db.users then Some(db.users[id]) else None
  }

  // SQLSTATE 23505 on either key is reported as ErrUserExists.
  function InsertUser(db: Db, u: User): Written {
    if u.id in db.users || u.email in db.emails then Written(db, Some(ErrUserExists))
    else Written(db.(users := db.users[u.id := u], emails := db.emails[u.email := u.id]), None)
  }

  // UPDATE users SET every column but created_at WHERE id = u.id; no error when no row matches.
  function UpdateUser(db: Db, u: User): Written {
    if u.id !in db.users then Written(db, None)
    else if u.email in db.emails && db.emails[u.email] != u.id then Written(db, Some(StoreError))
    else
      var row := db.users[u.id];
      Written(db.(users := db.users[u.id := u.(createdAt := row.createdAt)],
                  emails := (db.emails - {row.email})[u.email := u.id]), None)
  }

  function TokensOf(db: Db, p: Purpose): Store {
    match p
    case VerifyEmail => db.verify
    case PasswordReset => db.reset
  }

  function WithTokens(db: Db, p: Purpose, s: Store): Db {
    match p
    case VerifyEmail => db.(verify := s)
    case PasswordReset => db.(reset := s)
  }

  function IssueToken(db: Db, p: Purpose, token: string, user: Id, ttl: nat, now: Time): Db {
    WithTokens(db, p, Do(TokensOf(db, p), Put(token, user, ttl), now).store)
  }

  function ConsumeToken(db: Db, p: Purpose, token: string, now: Time): (Db, Option<Id>) {
    var o := Do(TokensOf(db, p), Take(token), now);
    (WithTokens(db, p, o.store), o.answer)
  }
}
