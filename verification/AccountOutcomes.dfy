// What each account call does from start to end when nothing interleaves: its reply, the
// rows and the tokens it leaves. The outcomes are written down without the statements
// and the steps, and every call is proved to have its own.
module AccountOutcomes {
  import opened Common
  import K = RedisKeyspace
  import opened AccountTables
  import opened AccountCalls
  import opened AccountInvariant
  import AccountSections

  // The tables without the unique index.
  datatype Contents = Contents(users: map<Id, User>, verify: K.Store, reset: K.Store)

  function ContentsOf(db: Db): Contents {
    Contents(db.users, db.verify, db.reset)
  }

  datatype Outcome = Outcome(after: Contents, reply: Reply)

  function Refused(c: Contents, e: Error): Outcome {
    Outcome(c, Failed(e))
  }

  predicate HasAddress(users: map<Id, User>, id: Id, address: string) {
    id in users && users[id].email == address
  }

  ghost predicate AddressTaken(users: map<Id, User>, address: string) {
    exists id :: HasAddress(users, id, address)
  }

  // The token is stored and its time is not up.
  predicate Usable(tokens: K.Store, token: string, now: Time) {
    token in tokens && (tokens[token].expires == None || now < tokens[token].expires.value)
  }

  // ---- The five outcomes ----

  // A new row, unverified, and a token for a day.
  ghost function RegisterOutcome(w: Setup, c: Contents, email: string, password: Password, name: string,
                                 locale: string, timezone: string, inputs: nat -> Env): Outcome
  {
    var address, hash := w.text.normal(email), w.hasher.hash(password, inputs(4).salt);
    if address == "" || '@' !in address then Refused(c, ErrInvalidEmail)
    else if |password| < 8 then Refused(c, ErrWeakPassword)
    else if AddressTaken(c.users, address) then Refused(c, ErrUserExists)
    else if hash == None then Refused(c, HashError)
    else if inputs(4).id in c.users then Refused(c, ErrUserExists)
    else
      var u := User(inputs(4).id, address, false, hash.value, w.text.trim(name), "",
                    if locale == "" then "en" else locale, if timezone == "" then "UTC" else timezone, inputs(4).now);
      var token := K.Entry(u.id, Some(inputs(2).now + 86_400_000_000_000));
      Outcome(c.(users := c.users[u.id := u], verify := c.verify[inputs(2).token := token]),
              if inputs(1).mailOk then Registered(u) else Failed(MailError))
  }

  // A token for an hour, or silent success when nobody has the address.
  ghost function RequestResetOutcome(w: Setup, c: Contents, email: string, inputs: nat -> Env): Outcome {
    if !AddressTaken(c.users, w.text.normal(email)) then Outcome(c, Done)
    else
      var id :| HasAddress(c.users, id, w.text.normal(email));
      var token := K.Entry(id, Some(inputs(2).now + 3_600_000_000_000));
      Outcome(c.(reset := c.reset[inputs(2).token := token]), if inputs(1).mailOk then Done else Failed(MailError))
  }

  // The token goes, and its user's row is marked.
  function VerifyOutcome(c: Contents, token: string, inputs: nat -> Env): Outcome {
    if !Usable(c.verify, token, inputs(4).now) then Refused(c, ErrTokenInvalid)
    else
      var id, c' := c.verify[token].value, c.(verify := c.verify - {token});
      if id !in c.users then Refused(c', ErrUserNotFound)
      else Outcome(c'.(users := c.users[id := c.users[id].(emailVerified := true)]), Done)
  }

  // The token goes, and its user's row gets the new hash.
  function ResetOutcome(w: Setup, c: Contents, token: string, password: Password, inputs: nat -> Env): Outcome {
    if |password| < 8 then Refused(c, ErrWeakPassword)
    else if !Usable(c.reset, token, inputs(4).now) then Refused(c, ErrTokenInvalid)
    else
      var id, c' := c.reset[token].value, c.(reset := c.reset - {token});
      var hash := w.hasher.hash(password, inputs(2).salt);
      if id !in c.users then Refused(c', ErrUserNotFound)
      else if hash == None then Refused(c', HashError)
      else Outcome(c'.(users := c.users[id := c.users[id].(passwordHash := hash.value)]), Done)
  }

  // One error for an unknown address and for a wrong password, verified or not.
  ghost function AuthenticateReply(w: Setup, users: map<Id, User>, email: string, password: Password): Reply {
    if !AddressTaken(users, w.text.normal(email)) then Failed(ErrInvalidCredentials)
    else
      var id :| HasAddress(users, id, w.text.normal(email));
      if !w.hasher.check(users[id].passwordHash, password) then Failed(ErrInvalidCredentials)
      else if !users[id].emailVerified then Failed(ErrEmailNotVerified)
      else LoggedIn(users[id])
  }

  ghost function OutcomeOf(w: Setup, c: Contents, req: Request, inputs: nat -> Env): Outcome {
    match req
    case Register(email, password, name, locale, timezone) =>
      RegisterOutcome(w, c, email, password, name, locale, timezone, inputs)
    case RequestReset(email) => RequestResetOutcome(w, c, email, inputs)
    case Verify(token) => VerifyOutcome(c, token, inputs)
    case Reset(token, password) => ResetOutcome(w, c, token, password, inputs)
    case Authenticate(email, password) => Outcome(c, AuthenticateReply(w, c.users, email, password))
  }

  // The call leaves these rows and tokens, the index in order, and gives this reply.
  ghost predicate Yields(w: Setup, db: Db, req: Request, inputs: nat -> Env, o: Outcome) {
    var turn := Execute(w, db, req, inputs);
    EmailsMatch(turn.db.users, turn.db.emails) && ContentsOf(turn.db) == o.after && turn.reply == Some(o.reply)
  }

  // ---- Every call has its outcome ----

  // The address lookup answers with the one row that has the address.
  lemma FindByEmailMeans(db: Db, address: string)
    requires EmailsMatch(db.users, db.emails)
    ensures match FindByEmail(db, address)
      case Some(u) => HasAddress(db.users, u.id, address) && db.users[u.id] == u
        && forall id | HasAddress(db.users, id, address) :: id == u.id
      case None => !AddressTaken(db.users, address)
    ensures address in db.emails <==> AddressTaken(db.users, address)
  {
    if address in db.emails {
      assert db.users[db.emails[address]].email == address;
      assert HasAddress(db.users, db.emails[address], address);
    }
    forall id | HasAddress(db.users, id, address) ensures address in db.emails && db.emails[address] == id {}
  }

  // A new row, unless its id or its address is taken.
  lemma InsertUserMeans(db: Db, u: User)
    requires EmailsMatch(db.users, db.emails)
    ensures var r := InsertUser(db, u);
      && EmailsMatch(r.db.users, r.db.emails)
      && r.err == (if u.id in db.users || AddressTaken(db.users, u.email) then Some(ErrUserExists) else None)
      && r.db.users == if r.err == None then db.users[u.id := u] else db.users
  {
    FindByEmailMeans(db, u.email);
    hide EmailsMatch, AddressTaken;
    if u.id !in db.users && u.email !in db.emails { EmailAdded(db.users, db.emails, u); }
  }

  // Another row has the address.
  ghost predicate TakenByOther(users: map<Id, User>, u: User) {
    exists id :: id != u.id && HasAddress(users, id, u.email)
  }

  lemma EmailChanged(users: map<Id, User>, emails: map<string, Id>, u: User)
    requires EmailsMatch(users, emails) && u.id in users && (u.email in emails ==> emails[u.email] == u.id)
    ensures EmailsMatch(users[u.id := u], (emails - {users[u.id].email})[u.email := u.id])
  {}

  // The row with this id gets every column but its time of creation.
  lemma UpdateUserMeans(db: Db, u: User)
    requires EmailsMatch(db.users, db.emails)
    ensures var r := UpdateUser(db, u);
      && EmailsMatch(r.db.users, r.db.emails)
      && r.err == (if u.id in db.users && TakenByOther(db.users, u) then Some(StoreError) else None)
      && r.db.users == if u.id in db.users && r.err == None
                       then db.users[u.id := u.(createdAt := db.users[u.id].createdAt)] else db.users
  {
    FindByEmailMeans(db, u.email);
    if u.email in db.emails && db.emails[u.email] != u.id {
      assert HasAddress(db.users, db.emails[u.email], u.email);
    }
    if u.id in db.users && (u.email in db.emails ==> db.emails[u.email] == u.id) {
      EmailChanged(db.users, db.emails, u.(createdAt := db.users[u.id].createdAt));
    }
    hide EmailsMatch;
  }

  // The statements of Register, run one after another.
  lemma RegisterSteps(w: Setup, db: Db, req: Request, inputs: nat -> Env)
    requires req.Register?
    ensures var turn := Execute(w, db, req, inputs);
      var address, hash := w.text.normal(req.email), w.hasher.hash(req.password, inputs(4).salt);
      if address == "" || '@' !in address then turn.db == db && turn.reply == Some(Failed(ErrInvalidEmail))
      else if |req.password| < MIN_PASSWORD_LEN then turn.db == db && turn.reply == Some(Failed(ErrWeakPassword))
      else if FindByEmail(db, address).Some? then turn.db == db && turn.reply == Some(Failed(ErrUserExists))
      else if hash == None then turn.db == db && turn.reply == Some(Failed(HashError))
      else
        var u := NewUser(w, req, hash.value, inputs(4));
        var r := InsertUser(db, u);
        if r.err.Some? then turn.db == db && turn.reply == Some(Failed(r.err.value))
        else
          && turn.db == IssueToken(r.db, VerifyEmail, inputs(2).token, u.id, VERIFY_TTL, inputs(2).now)
          && turn.reply == Some(if inputs(1).mailOk then Registered(u) else Failed(MailError))
  {
    hide AccountCalls.RunAlone, FindByEmail, InsertUser, IssueToken, NewUser;
    var hash := w.hasher.hash(req.password, inputs(4).salt);
    AccountSections.Unroll(w, db, Begin(req), inputs);
    if hash.Some? {
      var u := NewUser(w, req, hash.value, inputs(4));
      var r := InsertUser(db, u);
      var db' := IssueToken(r.db, VerifyEmail, inputs(2).token, u.id, VERIFY_TTL, inputs(2).now);
      AccountSections.Unroll(w, db, RegisterInsert(u), inputs);
      AccountSections.Unroll(w, r.db, RegisterIssue(u), inputs);
      AccountSections.Unroll(w, db', RegisterMail(u, inputs(2).token), inputs);
    }
  }

  lemma RegisterYields(w: Setup, db: Db, req: Request, inputs: nat -> Env)
    requires EmailsMatch(db.users, db.emails) && req.Register?
    ensures Yields(w, db, req, inputs, OutcomeOf(w, ContentsOf(db), req, inputs))
  {
    hide Execute, EmailsMatch, AddressTaken;
    RegisterSteps(w, db, req, inputs);
    var address, hash := w.text.normal(req.email), w.hasher.hash(req.password, inputs(4).salt);
    FindByEmailMeans(db, address);
    if hash.Some? {
      var u := NewUser(w, req, hash.value, inputs(4));
      if u.id !in db.users && u.email !in db.emails { EmailAdded(db.users, db.emails, u); }
    }
  }

  lemma RequestResetYields(w: Setup, db: Db, email: string, inputs: nat -> Env)
    requires EmailsMatch(db.users, db.emails)
    ensures Yields(w, db, RequestReset(email), inputs, RequestResetOutcome(w, ContentsOf(db), email, inputs))
  {
    FindByEmailMeans(db, w.text.normal(email));
    hide EmailsMatch, AccountCalls.RunAlone, FindByEmail, AddressTaken;
    var found := FindByEmail(db, w.text.normal(email));
    AccountSections.Unroll(w, db, Begin(RequestReset(email)), inputs);
    if found.Some? {
      assert AddressTaken(db.users, w.text.normal(email)) by {
        ShowTaken(db.users, found.value.id, w.text.normal(email));
      }
      var db' := IssueToken(db, PasswordReset, inputs(2).token, found.value.id, RESET_TTL, inputs(2).now);
      AccountSections.Unroll(w, db, RequestIssue(found.value), inputs);
      AccountSections.Unroll(w, db', RequestMail(found.value, inputs(2).token), inputs);
    }
  }

  lemma ShowTaken(users: map<Id, User>, id: Id, address: string)
    requires HasAddress(users, id, address)
    ensures AddressTaken(users, address)
  {}

  lemma VerifyYields(w: Setup, db: Db, token: string, inputs: nat -> Env)
    requires EmailsMatch(db.users, db.emails)
    ensures Yields(w, db, Verify(token), inputs, VerifyOutcome(ContentsOf(db), token, inputs))
  {
    AccountSections.VerifyRunsAlone(w, db, token, inputs);
    AccountSections.EffectsKeepEmails(w, db, token, [], inputs(4).now, "");
    hide EmailsMatch, Execute;
  }

  lemma ResetYields(w: Setup, db: Db, token: string, password: Password, inputs: nat -> Env)
    requires EmailsMatch(db.users, db.emails)
    ensures Yields(w, db, Reset(token, password), inputs, ResetOutcome(w, ContentsOf(db), token, password, inputs))
  {
    AccountSections.ResetRunsAlone(w, db, token, password, inputs);
    AccountSections.EffectsKeepEmails(w, db, token, password, inputs(4).now, inputs(2).salt);
    hide EmailsMatch, Execute;
  }

  lemma AuthenticateMeans(w: Setup, db: Db, email: string, password: Password)
    requires EmailsMatch(db.users, db.emails)
    ensures AuthenticateNow(w, db, email, password) == AuthenticateReply(w, db.users, email, password)
  {
    FindByEmailMeans(db, w.text.normal(email));
    hide EmailsMatch, FindByEmail, AddressTaken;
    var found := FindByEmail(db, w.text.normal(email));
    if found.Some? { ShowTaken(db.users, found.value.id, w.text.normal(email)); }
  }

  lemma AuthenticateYields(w: Setup, db: Db, email: string, password: Password, inputs: nat -> Env)
    requires EmailsMatch(db.users, db.emails)
    ensures Yields(w, db, Authenticate(email, password), inputs,
                   Outcome(ContentsOf(db), AuthenticateReply(w, db.users, email, password)))
  {
    AuthenticateMeans(w, db, email, password);
    hide EmailsMatch, AuthenticateNow, AuthenticateReply;
    AccountSections.Unroll(w, db, Begin(Authenticate(email, password)), inputs);
  }

  // Any complete call from any database whose index is in order, which every reachable
  // one is.
  lemma EveryCallHasItsOutcome(w: Setup, db: Db, req: Request, inputs: nat -> Env)
    requires EmailsMatch(db.users, db.emails)
    ensures Yields(w, db, req, inputs, OutcomeOf(w, ContentsOf(db), req, inputs))
  {
    hide EmailsMatch, Yields;
    match req
    case Register(_, _, _, _, _) => RegisterYields(w, db, req, inputs);
    case RequestReset(email) => RequestResetYields(w, db, email, inputs);
    case Verify(token) => VerifyYields(w, db, token, inputs);
    case Reset(token, password) => ResetYields(w, db, token, password, inputs);
    case Authenticate(email, password) => AuthenticateYields(w, db, email, password, inputs);
  }
}
