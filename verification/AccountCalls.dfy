// The account use cases cut into atomic steps, one per statement on Postgres, Redis or
// the mailer: internal/application/identity.
module AccountCalls {
  import opened Common
  import opened Strings
  import opened AccountTables

  const VERIFY_TTL: nat := 24 * HOUR
  const RESET_TTL: nat := HOUR

  datatype Request =
    | Register(email: string, password: Password, name: string, locale: string, timezone: string)
    | RequestReset(email: string)
    | Verify(token: string)
    | Reset(token: string, password: Password)
    | Authenticate(email: string, password: Password)

  datatype Reply =
    | Done
    | Registered(user: User)
    | LoggedIn(user: User)
    | Failed(error: Error)

  // The next statement of a call, with the values it carries. `user` is always a copy
  // read or built earlier, not the row.
  datatype Pc =
    | Begin(req: Request)
    | RegisterInsert(user: User) | RegisterIssue(user: User) | RegisterMail(user: User, token: string)
      | RegisterEnd(user: User)
    | RequestIssue(user: User) | RequestMail(user: User, token: string) | RequestEnd(user: User)
    | VerifyRead(token: string, userId: Id) | VerifyWrite(token: string, user: User) | VerifyEnd(token: string)
    | ResetRead(token: string, userId: Id, password: Password) | ResetWrite(token: string, user: User, hash: string)
      | ResetEnd(token: string)
    | AuthenticateEnd

  datatype Env = Env(id: Id, token: string, salt: string, now: Time, mailOk: bool)

  datatype Turn = Turn(db: Db, pc: Pc, reply: Option<Reply>)

  // What the calls are built with.
  datatype Setup = Setup(text: Ops, hasher: Hasher)

  // WholeRow is what the code does: write back every column of the copy it read.
  // OneField is the update it stands for, used as the reference.
  datatype Mode = WholeRow | OneField

  function Stop(db: Db, pc: Pc, e: Error): Turn {
    Turn(db, pc, Some(Failed(e)))
  }

  function Go(db: Db, pc: Pc): Turn {
    Turn(db, pc, None)
  }

  function OrElse(s: string, default: string): string {
    if s == "" then default else s
  }

  function NewUser(w: Setup, req: Request, hash: string, env: Env): User
    requires req.Register?
  {
    User(env.id, w.text.normal(req.email), false, hash, w.text.trim(req.name), "",
         OrElse(req.locale, "en"), OrElse(req.timezone, "UTC"), env.now)
  }

  function AuthenticateNow(w: Setup, db: Db, email: string, password: Password): Reply {
    match FindByEmail(db, w.text.normal(email))
    case None => Failed(ErrInvalidCredentials)
    case Some(u) =>
      if !w.hasher.check(u.passwordHash, password) then Failed(ErrInvalidCredentials)
      else if !u.emailVerified then Failed(ErrEmailNotVerified)
      else LoggedIn(u)
  }

  function First(w: Setup, db: Db, pc: Pc, env: Env): (turn: Turn)
    requires pc.Begin?
    ensures turn.reply == None ==> Remaining(turn.pc) < Remaining(pc)
  {
    match pc.req
    case Register(rawEmail, password, _, _, _) =>
      var email := w.text.normal(rawEmail);
      if email == "" || '@' !in email then Stop(db, pc, ErrInvalidEmail)
      else if |password| < MIN_PASSWORD_LEN then Stop(db, pc, ErrWeakPassword)
      else if FindByEmail(db, email).Some? then Stop(db, pc, ErrUserExists)
      else (match w.hasher.hash(password, env.salt)
        case None => Stop(db, pc, HashError)
        case Some(hash) => Go(db, RegisterInsert(NewUser(w, pc.req, hash, env))))
    case RequestReset(rawEmail) =>
      (match FindByEmail(db, w.text.normal(rawEmail))
      case None => Turn(db, pc, Some(Done))
      case Some(u) => Go(db, RequestIssue(u)))
    case Verify(token) =>
      var c := ConsumeToken(db, VerifyEmail, token, env.now);
      if c.1 == None then Stop(c.0, pc, ErrTokenInvalid) else Go(c.0, VerifyRead(token, c.1.value))
    case Reset(token, password) =>
      if |password| < MIN_PASSWORD_LEN then Stop(db, pc, ErrWeakPassword)
      else
        var c := ConsumeToken(db, PasswordReset, token, env.now);
        if c.1 == None then Stop(c.0, pc, ErrTokenInvalid) else Go(c.0, ResetRead(token, c.1.value, password))
    case Authenticate(email, password) => Turn(db, AuthenticateEnd, Some(AuthenticateNow(w, db, email, password)))
  }

  // The row an update writes: the held copy with one field replaced, or in the
  // reference the current row with that field replaced.
  function Verified(mode: Mode, db: Db, copy: User): User {
    (if mode == OneField && copy.id in db.users then db.users[copy.id] else copy).(emailVerified := true)
  }

  function Rehashed(mode: Mode, db: Db, copy: User, hash: string): User {
    (if mode == OneField && copy.id in db.users then db.users[copy.id] else copy).(passwordHash := hash)
  }

  function Step(w: Setup, mode: Mode, db: Db, pc: Pc, env: Env): (turn: Turn)
    ensures turn.reply == None ==> Remaining(turn.pc) < Remaining(pc)
  {
    match pc
    case Begin(_) => First(w, db, pc, env)
    case RegisterInsert(u) =>
      var r := InsertUser(db, u);
      if r.err.Some? then Stop(db, pc, r.err.value) else Go(r.db, RegisterIssue(u))
    case RegisterIssue(u) =>
      Go(IssueToken(db, VerifyEmail, env.token, u.id, VERIFY_TTL, env.now), RegisterMail(u, env.token))
    case RegisterMail(u, _) =>
      if env.mailOk then Turn(db, RegisterEnd(u), Some(Registered(u))) else Stop(db, pc, MailError)
    case RequestIssue(u) =>
      Go(IssueToken(db, PasswordReset, env.token, u.id, RESET_TTL, env.now), RequestMail(u, env.token))
    case RequestMail(u, _) => if env.mailOk then Turn(db, RequestEnd(u), Some(Done)) else Stop(db, pc, MailError)
    case VerifyRead(token, userId) =>
      (match FindByID(db, userId)
      case None => Stop(db, pc, ErrUserNotFound)
      case Some(u) => Go(db, VerifyWrite(token, u)))
    case VerifyWrite(token, u) =>
      var r := UpdateUser(db, Verified(mode, db, u));
      if r.err.Some? then Stop(db, pc, r.err.value) else Turn(r.db, VerifyEnd(token), Some(Done))
    case ResetRead(token, userId, password) =>
      (match FindByID(db, userId)
      case None => Stop(db, pc, ErrUserNotFound)
      case Some(u) =>
        match w.hasher.hash(password, env.salt)
        case None => Stop(db, pc, HashError)
        case Some(hash) => Go(db, ResetWrite(token, u, hash)))
    case ResetWrite(token, u, hash) =>
      var r := UpdateUser(db, Rehashed(mode, db, u, hash));
      if r.err.Some? then Stop(db, pc, r.err.value) else Turn(r.db, ResetEnd(token), Some(Done))
    case _ => Turn(db, pc, Some(Done))
  }

  // How many statements a call may still execute.
  function Remaining(pc: Pc): nat {
    match pc
    case Begin(_) => 4
    case RegisterInsert(_) => 3
    case RegisterIssue(_) => 2
    case RequestIssue(_) => 2
    case VerifyRead(_, _) => 2
    case ResetRead(_, _, _) => 2
    case RegisterMail(_, _) => 1
    case RequestMail(_, _) => 1
    case VerifyWrite(_, _) => 1
    case ResetWrite(_, _, _) => 1
    case _ => 0
  }

  function RunAlone(w: Setup, db: Db, pc: Pc, inputs: nat -> Env): (out: Turn)
    ensures out.reply.Some?
    decreases Remaining(pc)
  {
    var turn := Step(w, WholeRow, db, pc, inputs(Remaining(pc)));
    if turn.reply.Some? then turn else RunAlone(w, turn.db, turn.pc, inputs)
  }

  function Execute(w: Setup, db: Db, req: Request, inputs: nat -> Env): Turn {
    RunAlone(w, db, Begin(req), inputs)
  }
}
