// What every account statement of every interleaving keeps, copies included.
module AccountInvariant {
  import opened Common
  import opened RedisKeyspace
  import opened AccountTables
  import opened AccountCalls
  import opened AccountSystem

  // An address in the form in which it is stored and looked up.
  ghost predicate Normal(w: Setup, email: string) {
    exists raw :: email == w.text.normal(raw)
  }

  // A hash that the hasher made from a password of at least eight bytes.
  ghost predicate FromHash(w: Setup, hash: string) {
    exists p: Password, salt :: |p| >= 8 && w.hasher.hash(p, salt) == Some(hash)
  }

  // A verification token issued to this user has been consumed.
  ghost predicate OwnTokenUsed(h: History, id: Id) {
    exists token :: UsedFor(h, Ticket(VerifyEmail, token), id)
  }

  predicate UsedFor(h: History, k: Ticket, id: Id) {
    k in h.consumed && h.consumed[k].user == id
  }

  // The facts a user value satisfies wherever it is stored or held.
  ghost predicate GoodUser(w: Setup, h: History, u: User) {
    && Normal(w, u.email) && u.email != "" && '@' in u.email
    && FromHash(w, u.passwordHash)
    && (u.emailVerified ==> OwnTokenUsed(h, u.id))
  }

  // Two values of one account differ at most in the two mutable fields.
  predicate SameAccount(a: User, b: User) {
    b == a.(emailVerified := b.emailVerified, passwordHash := b.passwordHash)
  }

  ghost predicate EmailsMatch(users: map<Id, User>, emails: map<string, Id>) {
    && (forall id {:trigger users[id]} | id in users ::
       users[id].id == id && users[id].email in emails && emails[users[id].email] == id)
    && (forall e {:trigger emails[e]} | e in emails :: emails[e] in users && users[emails[e]].email == e)
  }

  ghost predicate UsersOk(w: Setup, db: Db, h: History) {
    forall id {:trigger db.users[id]} | id in db.users :: GoodUser(w, h, db.users[id])
  }

  // A token is in the store exactly while issued and not consumed, with the user and
  // expiry it was issued with.
  ghost predicate TokensMatch(s: Store, p: Purpose, h: History) {
    && (forall x {:trigger s[x]} | x in s ::
          var k := Ticket(p, x);
          k in h.issued && k !in h.consumed && s[x] == Entry(h.issued[k].user, Some(h.issued[k].expires)))
    && (forall x {:trigger Ticket(p, x)} | Ticket(p, x) in h.issued && Ticket(p, x) !in h.consumed :: x in s)
  }

  ghost predicate IssuedOk(db: Db, h: History) {
    forall k {:trigger h.issued[k]} | k in h.issued :: h.issued[k].user in db.users && h.issued[k].at < h.tick
  }

  // A consumed token was issued before, for the same purpose and user, and had not
  // expired when it was consumed.
  ghost predicate ConsumedOk(h: History) {
    forall k {:trigger h.consumed[k]} | k in h.consumed ::
      && k in h.issued && h.consumed[k].user == h.issued[k].user
      && h.issued[k].at < h.consumed[k].at < h.tick
      && h.consumed[k].now < h.issued[k].expires
  }

  ghost predicate DbOk(w: Setup, db: Db, h: History) {
    && EmailsMatch(db.users, db.emails)
    && UsersOk(w, db, h)
    && TokensMatch(db.verify, VerifyEmail, h) && TokensMatch(db.reset, PasswordReset, h)
    && IssuedOk(db, h) && ConsumedOk(h)
  }

  // ---- What a call in flight holds ----

  ghost predicate CopyOk(w: Setup, db: Db, h: History, u: User) {
    u.id in db.users && SameAccount(db.users[u.id], u) && GoodUser(w, h, u)
  }

  // The call itself consumed this token, for this user.
  predicate Holds(db: Db, h: History, c: nat, k: Ticket, id: Id) {
    UsedFor(h, k, id) && h.consumed[k].call == c && id in db.users
  }

  ghost predicate PcOk(w: Setup, db: Db, h: History, c: nat, pc: Pc) {
    match pc
    case RegisterInsert(u) => GoodUser(w, h, u) && !u.emailVerified
    case RegisterIssue(u) => CopyOk(w, db, h, u)
    case RegisterMail(u, _) => CopyOk(w, db, h, u)
    case RegisterEnd(u) => CopyOk(w, db, h, u)
    case RequestIssue(u) => CopyOk(w, db, h, u)
    case RequestMail(u, _) => CopyOk(w, db, h, u)
    case RequestEnd(u) => CopyOk(w, db, h, u)
    case VerifyRead(token, id) => Holds(db, h, c, Ticket(VerifyEmail, token), id)
    case VerifyWrite(token, u) => CopyOk(w, db, h, u) && Holds(db, h, c, Ticket(VerifyEmail, token), u.id)
    case ResetRead(token, id, password) =>
      Holds(db, h, c, Ticket(PasswordReset, token), id) && |password| >= MIN_PASSWORD_LEN
    case ResetWrite(token, u, hash) =>
      CopyOk(w, db, h, u) && Holds(db, h, c, Ticket(PasswordReset, token), u.id) && FromHash(w, hash)
    case ResetEnd(token) =>
      Ticket(PasswordReset, token) in h.consumed && h.consumed[Ticket(PasswordReset, token)].call == c
    case _ => true
  }

  ghost predicate UsersExtend(u: map<Id, User>, u': map<Id, User>) {
    forall id {:trigger u'[id]} {:trigger u[id]} | id in u :: id in u' && SameAccount(u[id], u'[id])
  }

  // The rely condition of a call: accounts and history only grow.
  ghost predicate Grows(db: Db, h: History, db': Db, h': History) {
    && h.tick <= h'.tick && UsersExtend(db.users, db'.users)
    && Extends(h.issued, h'.issued) && Extends(h.consumed, h'.consumed)
  }

  lemma GoodUserStable(w: Setup, h: History, h': History, u: User)
    requires GoodUser(w, h, u) && Extends(h.consumed, h'.consumed)
    ensures GoodUser(w, h', u)
  {
    if u.emailVerified {
      var token :| UsedFor(h, Ticket(VerifyEmail, token), u.id);
      assert UsedFor(h', Ticket(VerifyEmail, token), u.id);
    }
  }

  lemma CopyStable(w: Setup, db: Db, h: History, db': Db, h': History, u: User)
    requires CopyOk(w, db, h, u) && Grows(db, h, db', h')
    ensures CopyOk(w, db', h', u)
  {
    GoodUserStable(w, h, h', u);
  }

  // What a call has read or consumed stays valid under every other call's steps.
  lemma HeldFactsAreStable(w: Setup, db: Db, h: History, db': Db, h': History, c: nat, pc: Pc)
    requires PcOk(w, db, h, c, pc) && Grows(db, h, db', h')
    ensures PcOk(w, db', h', c, pc)
  {
    hide GoodUser, SameAccount;
    match pc
    case RegisterInsert(u) => GoodUserStable(w, h, h', u);
    case RegisterIssue(u) => CopyStable(w, db, h, db', h', u);
    case RegisterMail(u, _) => CopyStable(w, db, h, db', h', u);
    case RegisterEnd(u) => CopyStable(w, db, h, db', h', u);
    case RequestIssue(u) => CopyStable(w, db, h, db', h', u);
    case RequestMail(u, _) => CopyStable(w, db, h, db', h', u);
    case RequestEnd(u) => CopyStable(w, db, h, db', h', u);
    case VerifyWrite(_, u) => CopyStable(w, db, h, db', h', u);
    case ResetWrite(_, u, _) => CopyStable(w, db, h, db', h', u);
    case _ =>
  }

  // ---- One lemma per kind of statement ----

  // The guarantee of one statement.
  ghost predicate Kept(w: Setup, db: Db, h: History, db': Db, h': History, c: nat, pc': Pc) {
    DbOk(w, db', h') && Grows(db, h, db', h') && PcOk(w, db', h', c, pc')
  }

  ghost predicate StepKept(w: Setup, mode: Mode, db: Db, h: History, c: nat, pc: Pc, env: Env) {
    var turn := Step(w, mode, db, pc, env);
    Kept(w, db, h, turn.db, Note(h, c, pc, turn.pc, env), c, turn.pc)
  }

  // Rows and index unchanged, history extended in the fields that rows do not use.
  lemma UsersStay(w: Setup, db: Db, h: History, db': Db, h': History)
    requires UsersOk(w, db, h) && Extends(h.consumed, h'.consumed) && db'.users == db.users
    ensures UsersOk(w, db', h')
  {
    forall id | id in db'.users ensures GoodUser(w, h', db'.users[id]) { GoodUserStable(w, h, h', db.users[id]); }
  }

  lemma Idle(w: Setup, db: Db, h: History, c: nat, pc': Pc, readAt: map<nat, nat>)
    requires DbOk(w, db, h) && PcOk(w, db, h, c, pc')
    ensures Kept(w, db, h, db, h.(tick := h.tick + 1, readAt := readAt), c, pc')
  {
    hide EmailsMatch, GoodUser, PcOk;
    var h' := h.(tick := h.tick + 1, readAt := readAt);
    UsersStay(w, db, h, db, h');
    HeldFactsAreStable(w, db, h, db, h', c, pc');
  }

  lemma EmailAdded(users: map<Id, User>, emails: map<string, Id>, u: User)
    requires EmailsMatch(users, emails) && u.id !in users && u.email !in emails
    ensures EmailsMatch(users[u.id := u], emails[u.email := u.id])
  {}

  lemma EmailKept(users: map<Id, User>, emails: map<string, Id>, u: User)
    requires EmailsMatch(users, emails) && u.id in users && users[u.id].email == u.email
    ensures EmailsMatch(users[u.id := u], emails) && (emails - {u.email})[u.email := u.id] == emails
  {}

  lemma InsertKeeps(w: Setup, db: Db, h: History, c: nat, u: User, writes: map<Id, nat>, settled: map<Id, string>)
    requires DbOk(w, db, h) && GoodUser(w, h, u) && InsertUser(db, u).err == None
    ensures var db' := InsertUser(db, u).db;
      Kept(w, db, h, db', h.(tick := h.tick + 1, writes := writes, settled := settled), c, RegisterIssue(u))
  {
    hide EmailsMatch, GoodUser;
    var db' := InsertUser(db, u).db;
    var h' := h.(tick := h.tick + 1, writes := writes, settled := settled);
    EmailAdded(db.users, db.emails, u);
    GoodUserStable(w, h, h', u);
    forall id | id in db'.users ensures GoodUser(w, h', db'.users[id]) {
      if id in db.users { GoodUserStable(w, h, h', db.users[id]); }
    }
  }

  lemma UpdateInPlace(db: Db, u: User)
    requires EmailsMatch(db.users, db.emails) && u.id in db.users && SameAccount(db.users[u.id], u)
    ensures UpdateUser(db, u) == Written(db.(users := db.users[u.id := u]), None)
  {
    EmailKept(db.users, db.emails, u);
  }

  // Any update of a row that keeps the account's identity and writes good fields.
  lemma UpdateKeeps(w: Setup, db: Db, h: History, u: User, h': History)
    requires DbOk(w, db, h) && u.id in db.users && SameAccount(db.users[u.id], u) && GoodUser(w, h, u)
    requires h' == h.(tick := h.tick + 1, writes := h'.writes, rewrites := h'.rewrites, settled := h'.settled)
    ensures var r := UpdateUser(db, u);
      && r.err == None && r.db == db.(users := db.users[u.id := u])
      && DbOk(w, r.db, h') && Grows(db, h, r.db, h')
  {
    hide GoodUser, EmailsMatch, UpdateUser, TokensMatch;
    UpdateInPlace(db, u);
    EmailKept(db.users, db.emails, u);
    var db' := UpdateUser(db, u).db;
    TokensStay(db.verify, VerifyEmail, h, h');
    TokensStay(db.reset, PasswordReset, h, h');
    forall id | id in db'.users ensures GoodUser(w, h', db'.users[id]) {
      GoodUserStable(w, h, h', if id == u.id then u else db.users[id]);
    }
  }

  lemma TokensStay(s: Store, p: Purpose, h: History, h': History)
    requires TokensMatch(s, p, h) && h'.issued == h.issued && h'.consumed == h.consumed
    ensures TokensMatch(s, p, h')
  {}

  lemma TokenIssued(s: Store, p: Purpose, q: Purpose, h: History, token: string, issue: Issue)
    requires TokensMatch(s, q, h) && ConsumedOk(h) && Ticket(p, token) !in h.issued
    ensures var h' := h.(tick := h.tick + 1, issued := h.issued[Ticket(p, token) := issue]);
      TokensMatch(if p == q then s[token := Entry(issue.user, Some(issue.expires))] else s, q, h')
  {
    assert Ticket(p, token) !in h.consumed;
  }

  lemma TokenConsumed(s: Store, p: Purpose, q: Purpose, h: History, token: string, use: Use)
    requires TokensMatch(s, q, h) && Ticket(p, token) !in h.consumed
    ensures var h' := h.(tick := h.tick + 1, consumed := h.consumed[Ticket(p, token) := use]);
      TokensMatch(if p == q then s - {token} else s, q, h')
  {}

  lemma IssueKeeps(w: Setup, db: Db, h: History, c: nat, p: Purpose, token: string, u: User, ttl: nat, now: Time,
          pc': Pc)
    requires DbOk(w, db, h) && CopyOk(w, db, h, u) && Ticket(p, token) !in h.issued && ttl > 0
    requires pc' == RegisterMail(u, token) || pc' == RequestMail(u, token)
    ensures Kept(w, db, h, IssueToken(db, p, token, u.id, ttl, now),
                 h.(tick := h.tick + 1, issued := h.issued[Ticket(p, token) := Issue(u.id, now + ttl, h.tick)]), c, pc')
  {
    hide TokensMatch, EmailsMatch, UsersOk, GoodUser;
    var db' := IssueToken(db, p, token, u.id, ttl, now);
    var issue := Issue(u.id, now + ttl, h.tick);
    var h' := h.(tick := h.tick + 1, issued := h.issued[Ticket(p, token) := issue]);
    TokenIssued(db.verify, p, VerifyEmail, h, token, issue);
    TokenIssued(db.reset, p, PasswordReset, h, token, issue);
    UsersStay(w, db, h, db', h');
    CopyStable(w, db, h, db', h', u);
  }

  lemma LiveTicket(db: Db, h: History, p: Purpose, token: string, now: Time)
    requires TokensMatch(db.verify, VerifyEmail, h) && TokensMatch(db.reset, PasswordReset, h)
    requires ConsumeToken(db, p, token, now).1.Some?
    ensures var k := Ticket(p, token);
      && k in h.issued && k !in h.consumed
      && ConsumeToken(db, p, token, now).1 == Some(h.issued[k].user) && now < h.issued[k].expires
      && ConsumeToken(db, p, token, now).0 == WithTokens(db, p, TokensOf(db, p) - {token})
  {
    assert TokensOf(db, p)[token] == Entry(h.issued[Ticket(p, token)].user, Some(h.issued[Ticket(p, token)].expires));
  }

  lemma ConsumeKeeps(w: Setup, db: Db, h: History, c: nat, p: Purpose, token: string, now: Time)
    requires DbOk(w, db, h) && ConsumeToken(db, p, token, now).1.Some?
    ensures var id := ConsumeToken(db, p, token, now).1.value;
      var db' := ConsumeToken(db, p, token, now).0;
      var h' := h.(tick := h.tick + 1, consumed := h.consumed[Ticket(p, token) := Use(id, now, h.tick, c)]);
      DbOk(w, db', h') && Grows(db, h, db', h') && Holds(db', h', c, Ticket(p, token), id)
  {
    hide TokensMatch, EmailsMatch, UsersOk, GoodUser, ConsumeToken;
    var id := ConsumeToken(db, p, token, now).1.value;
    var db' := ConsumeToken(db, p, token, now).0;
    var use := Use(id, now, h.tick, c);
    var h' := h.(tick := h.tick + 1, consumed := h.consumed[Ticket(p, token) := use]);
    LiveTicket(db, h, p, token, now);
    TokenConsumed(db.verify, p, VerifyEmail, h, token, use);
    TokenConsumed(db.reset, p, PasswordReset, h, token, use);
    UsersStay(w, db, h, db', h');
  }
}
