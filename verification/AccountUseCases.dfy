// internal/infrastructure/postgres/user_repository.go and internal/application/identity:
// the repository and the Execute methods over it and the token store. Each Execute is
// proved to do what the step-by-step call does when nothing interleaves, so the
// interleaved results speak about this code. inputs(n) is what clock, generators, hasher
// salt and mailer supply when n statements remain.
module AccountUseCases {
  import opened Common
  import opened RedisKeyspace
  import opened RedisStores
  import opened AccountTables
  import C = AccountCalls
  import AccountSections
  import AccountInvariant
  import O = AccountOutcomes

  class Pool {
    var users: map<Id, User>
    var emails: map<string, Id>

    constructor ()
      ensures Rows() == EMPTY && Indexed()
    {
      users, emails := map[], map[];
    }

    function Rows(): Db
      reads this
    {
      Db(users, emails, map[], map[])
    }

    // The unique index on users.email agrees with the rows.
    ghost predicate Indexed()
      reads this
    {
      AccountInvariant.EmailsMatch(users, emails)
    }
  }

  lemma AddressLookup(rows: Db, email: string)
    requires AccountInvariant.EmailsMatch(rows.users, rows.emails)
    ensures match FindByEmail(rows, email)
      case Some(u) => u.id in rows.users && rows.users[u.id] == u && u.email == email
      case None => forall id | id in rows.users :: rows.users[id].email != email
  {
    O.FindByEmailMeans(rows, email);
    hide AccountInvariant.EmailsMatch, FindByEmail;
    if FindByEmail(rows, email) == None {
      forall id | id in rows.users ensures rows.users[id].email != email {
        assert !O.HasAddress(rows.users, id, email);
      }
    }
  }

  class UserRepository {
    const pool: Pool

    constructor (pool: Pool)
      ensures this.pool == pool
    {
      this.pool := pool;
    }

    method Create(u: User) returns (err: Option<Error>)
      modifies pool
      ensures InsertUser(old(pool.Rows()), u) == Written(pool.Rows(), err)
      ensures old(pool.Indexed()) ==>
        && pool.Indexed()
        && err == (if u.id in old(pool.users) || O.AddressTaken(old(pool.users), u.email) then Some(ErrUserExists)
                   else None)
        && pool.users == if err == None then old(pool.users)[u.id := u] else old(pool.users)
    {
      if pool.Indexed() { O.InsertUserMeans(pool.Rows(), u); }
      hide AccountInvariant.EmailsMatch, O.AddressTaken;
      if u.id in pool.users || u.email in pool.emails {
        return Some(ErrUserExists);
      }
      pool.users := pool.users[u.id := u];
      pool.emails := pool.emails[u.email := u.id];
      err := None;
    }

    method FindByEmail(email: string) returns (r: Result<User, Error>)
      ensures r == match AccountTables.FindByEmail(pool.Rows(), email) case Some(u) => Ok(u)
        case None => Err(ErrUserNotFound)
      ensures pool.Indexed() ==>
        match r
        case Ok(u) => u.id in pool.users && pool.users[u.id] == u && u.email == email
        case Err(e) => e == ErrUserNotFound && forall id | id in pool.users :: pool.users[id].email != email
    {
      if pool.Indexed() { AddressLookup(pool.Rows(), email); }
      hide AccountInvariant.EmailsMatch;
      if email in pool.emails && pool.emails[email] in pool.users {
        r := Ok(pool.users[pool.emails[email]]);
      } else {
        r := Err(ErrUserNotFound);
      }
    }

    method FindByID(id: Id) returns (r: Result<User, Error>)
      ensures r == match AccountTables.FindByID(pool.Rows(), id) case Some(u) => Ok(u) case None => Err(ErrUserNotFound)
      ensures if id in pool.users then r == Ok(pool.users[id]) else r == Err(ErrUserNotFound)
    {
      r := if id in pool.users then Ok(pool.users[id]) else Err(ErrUserNotFound);
    }

    // Every column but created_at is written back.
    method Update(u: User) returns (err: Option<Error>)
      modifies pool
      ensures UpdateUser(old(pool.Rows()), u) == Written(pool.Rows(), err)
      ensures old(pool.Indexed()) ==>
        var rows := old(pool.users);
        && pool.Indexed()
        && err == (if u.id in rows && O.TakenByOther(rows, u) then Some(StoreError) else None)
        && pool.users == if u.id in rows && err == None then rows[u.id := u.(createdAt := rows[u.id].createdAt)]
                         else rows
    {
      if pool.Indexed() { O.UpdateUserMeans(pool.Rows(), u); }
      hide AccountInvariant.EmailsMatch, O.TakenByOther;
      err := None;
      if u.id in pool.users {
        if u.email in pool.emails && pool.emails[u.email] != u.id {
          return Some(StoreError);
        }
        var row := pool.users[u.id];
        pool.users := pool.users[u.id := u.(createdAt := row.createdAt)];
        pool.emails := (pool.emails - {row.email})[u.email := u.id];
      }
    }
  }

  // ---- The tables of a use case ----

  // Rows, and the two token spaces of the shared keyspace.
  ghost function Joined(rows: Db, s: Store): Db {
    rows.(verify := Sub(s, VerifyTokens), reset := Sub(s, ResetTokens))
  }

  ghost function View(users: UserRepository, tokens: TokenStore): Db
    reads users.pool, tokens.client
  {
    Joined(users.pool.Rows(), tokens.client.data)
  }

  lemma RowStatements(rows: Db, s: Store, u: User)
    ensures InsertUser(Joined(rows, s), u) == Written(Joined(InsertUser(rows, u).db, s), InsertUser(rows, u).err)
    ensures UpdateUser(Joined(rows, s), u) == Written(Joined(UpdateUser(rows, u).db, s), UpdateUser(rows, u).err)
    ensures InsertUser(rows, u).err.Some? ==> InsertUser(rows, u).db == rows
    ensures UpdateUser(rows, u).err.Some? ==> UpdateUser(rows, u).db == rows
  {
    hide Sub;
  }

  lemma RowLookups(rows: Db, s: Store)
    ensures forall e :: FindByEmail(Joined(rows, s), e) == FindByEmail(rows, e)
    ensures forall id :: FindByID(Joined(rows, s), id) == FindByID(rows, id)
  {
    hide Sub;
  }

  lemma IssueIsPut(rows: Db, s: Store, s': Store, p: Purpose, token: string, user: Id, ttl: nat, now: Time)
    requires ActsOn(s, s', SpaceOf(p), Put(token, user, ttl), now)
    ensures IssueToken(Joined(rows, s), p, token, user, ttl, now) == Joined(rows, s')
  {
    hide Sub, Do;
  }

  lemma ConsumeIsTake(rows: Db, s: Store, s': Store, p: Purpose, token: string, now: Time)
    requires ActsOn(s, s', SpaceOf(p), Take(token), now)
    ensures ConsumeToken(Joined(rows, s), p, token, now) == (Joined(rows, s'), Lookup(Sub(s, SpaceOf(p)), token, now))
  {
    hide Sub, Lookup;
  }

  // ---- Use cases ----

  // Database effect and reply are those of the uninterrupted steps.
  ghost predicate Performs(w: C.Setup, before: Db, req: C.Request, inputs: nat -> C.Env, after: Db, reply: C.Reply) {
    AccountSections.Whole(w, before, req, inputs) == AccountSections.Effect(after, reply)
  }

  // What remains of a call does this.
  ghost predicate Finishes(w: C.Setup, db: Db, pc: C.Pc, inputs: nat -> C.Env, after: Db, reply: C.Reply) {
    var out := C.RunAlone(w, db, pc, inputs);
    out.db == after && out.reply == Some(reply)
  }

  lemma Finish(w: C.Setup, db: Db, pc: C.Pc, inputs: nat -> C.Env, after: Db, reply: C.Reply)
    requires var turn := C.Step(w, C.WholeRow, db, pc, inputs(C.Remaining(pc)));
      if turn.reply.Some? then turn.db == after && turn.reply == Some(reply)
        else Finishes(w, turn.db, turn.pc, inputs, after, reply)
    ensures Finishes(w, db, pc, inputs, after, reply)
  {}

  // The rows and the two kinds of tokens, as the outcomes speak of them.
  ghost function Seen(users: UserRepository, tokens: TokenStore): O.Contents
    reads users.pool, tokens.client
  {
    O.ContentsOf(View(users, tokens))
  }

  // A call that did what its steps do has its outcome.
  lemma Concludes(w: C.Setup, rows: Db, s: Store, req: C.Request, inputs: nat -> C.Env, rows': Db, s': Store,
                  reply: C.Reply)
    requires AccountInvariant.EmailsMatch(rows.users, rows.emails)
    requires Performs(w, Joined(rows, s), req, inputs, Joined(rows', s'), reply)
    ensures AccountInvariant.EmailsMatch(rows'.users, rows'.emails)
    ensures O.Outcome(O.ContentsOf(Joined(rows', s')), reply) ==
      O.OutcomeOf(w, O.ContentsOf(Joined(rows, s)), req, inputs)
  {
    hide AccountInvariant.EmailsMatch, O.OutcomeOf, C.Execute, Sub;
    O.EveryCallHasItsOutcome(w, Joined(rows, s), req, inputs);
  }

  class VerifyEmail {
    const w: C.Setup
    const users: UserRepository
    const tokens: TokenStore

    constructor (w: C.Setup, users: UserRepository, tokens: TokenStore)
      ensures this.w == w && this.users == users && this.tokens == tokens
    {
      this.w, this.users, this.tokens := w, users, tokens;
    }

    method Execute(token: string, inputs: nat -> C.Env) returns (reply: C.Reply)
      modifies users.pool, tokens.client
      ensures Performs(w, old(View(users, tokens)), C.Verify(token), inputs, View(users, tokens), reply)
      ensures Sub(tokens.client.data, HubSessions) == Sub(old(tokens.client.data), HubSessions)
      ensures old(users.pool.Indexed()) ==>
        && users.pool.Indexed()
        && O.Outcome(Seen(users, tokens), reply) ==
             O.VerifyOutcome(old(Seen(users, tokens)), token, inputs)
    {
      hide AccountInvariant.EmailsMatch, O.AddressTaken, O.TakenByOther, O.ContentsOf;
      hide Sub, C.RunAlone, UpdateUser, ConsumeToken, Lookup, Joined, FindByID;
      ghost var rows, s := users.pool.Rows(), tokens.client.data;
      RowLookups(rows, tokens.client.data);
      var consumed := tokens.Consume(Purpose.VerifyEmail, token, inputs(4).now);
      ghost var s' := tokens.client.data;
      ConsumeIsTake(rows, s, s', Purpose.VerifyEmail, token, inputs(4).now);
      RowLookups(rows, s');
      if consumed.Ok? {
        var found := users.FindByID(consumed.value);
        if found.Ok? {
          RowStatements(rows, s', found.value.(emailVerified := true));
          var err := users.Update(found.value.(emailVerified := true));
          reply := if err.Some? then C.Failed(err.value) else C.Done;
          Finish(w, Joined(rows, s'), C.VerifyWrite(token, found.value), inputs, View(users, tokens), reply);
        } else {
          reply := C.Failed(found.error);
        }
        Finish(w, Joined(rows, s'), C.VerifyRead(token, consumed.value), inputs, View(users, tokens), reply);
      } else {
        reply := C.Failed(consumed.error);
      }
      Finish(w, Joined(rows, s), C.Begin(C.Verify(token)), inputs, View(users, tokens), reply);
      if old(users.pool.Indexed()) {
        Concludes(w, rows, s, C.Verify(token), inputs, users.pool.Rows(), tokens.client.data, reply);
      }
    }
  }

  class ResetPassword {
    const w: C.Setup
    const users: UserRepository
    const tokens: TokenStore

    constructor (w: C.Setup, users: UserRepository, tokens: TokenStore)
      ensures this.w == w && this.users == users && this.tokens == tokens
    {
      this.w, this.users, this.tokens := w, users, tokens;
    }

    // The token is spent even when the user lookup, the hasher or the update fails.
    method Execute(token: string, newPassword: Password, inputs: nat -> C.Env) returns (reply: C.Reply)
      modifies users.pool, tokens.client
      ensures Performs(w, old(View(users, tokens)), C.Reset(token, newPassword), inputs, View(users, tokens), reply)
      ensures Sub(tokens.client.data, HubSessions) == Sub(old(tokens.client.data), HubSessions)
      ensures old(users.pool.Indexed()) ==>
        && users.pool.Indexed()
        && O.Outcome(Seen(users, tokens), reply) ==
             O.ResetOutcome(w, old(Seen(users, tokens)), token, newPassword, inputs)
    {
      hide AccountInvariant.EmailsMatch, O.AddressTaken, O.TakenByOther, O.ContentsOf;
      hide Sub, UpdateUser, ConsumeToken, Lookup, Joined, FindByID, AccountSections.Whole;
      ghost var rows, s := users.pool.Rows(), tokens.client.data;
      if |newPassword| < MIN_PASSWORD_LEN {
        AccountSections.WeakPasswordFails(w, View(users, tokens), token, newPassword, inputs);
        reply := C.Failed(ErrWeakPassword);
      } else {
        AccountSections.ResetStatements(w, View(users, tokens), token, newPassword, inputs);
        var consumed := tokens.Consume(PasswordReset, token, inputs(4).now);
        ConsumeIsTake(rows, s, tokens.client.data, PasswordReset, token, inputs(4).now);
        if consumed.Err? {
          reply := C.Failed(consumed.error);
        } else {
          reply := Rehash(consumed.value, newPassword, inputs);
        }
      }
      if old(users.pool.Indexed()) {
        Concludes(w, rows, s, C.Reset(token, newPassword), inputs, users.pool.Rows(), tokens.client.data, reply);
      }
    }

    // The part of Execute from the user lookup on.
    method Rehash(userID: Id, newPassword: Password, inputs: nat -> C.Env) returns (reply: C.Reply)
      modifies users.pool
      ensures var db, after := old(View(users, tokens)), View(users, tokens);
        var hash := w.hasher.hash(newPassword, inputs(2).salt);
        if FindByID(db, userID) == None then reply == C.Failed(ErrUserNotFound) && after == db
        else if hash == None then reply == C.Failed(HashError) && after == db
        else
          var r := UpdateUser(db, FindByID(db, userID).value.(passwordHash := hash.value));
          if r.err.Some? then reply == C.Failed(r.err.value) && after == db else reply == C.Done && after == r.db
    {
      hide Sub, UpdateUser, Joined, FindByID, AccountInvariant.EmailsMatch, O.TakenByOther;
      RowLookups(users.pool.Rows(), tokens.client.data);
      var found := users.FindByID(userID);
      if found.Err? {
        return C.Failed(found.error);
      }
      var hash := w.hasher.hash(newPassword, inputs(2).salt);
      if hash == None {
        return C.Failed(HashError);
      }
      var u := found.value.(passwordHash := hash.value);
      RowStatements(users.pool.Rows(), tokens.client.data, u);
      var err := users.Update(u);
      reply := if err.Some? then C.Failed(err.value) else C.Done;
    }
  }

  class RequestPasswordReset {
    const w: C.Setup
    const users: UserRepository
    const tokens: TokenStore

    constructor (w: C.Setup, users: UserRepository, tokens: TokenStore)
      ensures this.w == w && this.users == users && this.tokens == tokens
    {
      this.w, this.users, this.tokens := w, users, tokens;
    }

    // Succeeds without issuing anything when the address is unknown.
    method Execute(email: string, inputs: nat -> C.Env) returns (reply: C.Reply)
      modifies tokens.client
      ensures Performs(w, old(View(users, tokens)), C.RequestReset(email), inputs, View(users, tokens), reply)
      ensures Sub(tokens.client.data, HubSessions) == Sub(old(tokens.client.data), HubSessions)
      ensures var row := FindByEmail(users.pool.Rows(), w.text.normal(email));
        if row == None then reply == C.Done && tokens.client.data == old(tokens.client.data)
        else ActsOn(old(tokens.client.data), tokens.client.data, ResetTokens,
          Put(inputs(2).token, row.value.id, C.RESET_TTL), inputs(2).now)
      ensures old(users.pool.Indexed()) ==>
        && users.pool.Indexed()
        && O.Outcome(Seen(users, tokens), reply) ==
             O.RequestResetOutcome(w, old(Seen(users, tokens)), email, inputs)
    {
      hide AccountInvariant.EmailsMatch, O.AddressTaken, O.TakenByOther, O.ContentsOf;
      hide Sub, C.RunAlone, IssueToken, Do, Joined, FindByEmail;
      ghost var rows, s := users.pool.Rows(), tokens.client.data;
      RowLookups(rows, s);
      var found := users.FindByEmail(w.text.normal(email));
      if found.Ok? {
        var u := found.value;
        var token := tokens.Issue(PasswordReset, u.id, C.RESET_TTL, inputs(2).token, inputs(2).now);
        ghost var s' := tokens.client.data;
        IssueIsPut(rows, s, s', PasswordReset, token, u.id, C.RESET_TTL, inputs(2).now);
        reply := if inputs(1).mailOk then C.Done else C.Failed(MailError);
        Finish(w, Joined(rows, s'), C.RequestMail(u, token), inputs, View(users, tokens), reply);
        Finish(w, Joined(rows, s), C.RequestIssue(u), inputs, View(users, tokens), reply);
      } else {
        reply := C.Done;
      }
      Finish(w, Joined(rows, s), C.Begin(C.RequestReset(email)), inputs, View(users, tokens), reply);
      if old(users.pool.Indexed()) {
        Concludes(w, rows, s, C.RequestReset(email), inputs, users.pool.Rows(), tokens.client.data, reply);
      }
    }
  }

  class RegisterUser {
    const w: C.Setup
    const users: UserRepository
    const tokens: TokenStore

    constructor (w: C.Setup, users: UserRepository, tokens: TokenStore)
      ensures this.w == w && this.users == users && this.tokens == tokens
    {
      this.w, this.users, this.tokens := w, users, tokens;
    }

    // After a failed issue or a refused mail the row stays.
    method Execute(rawEmail: string, password: Password, name: string, rawLocale: string, timezone: string,
            inputs: nat -> C.Env)
      returns (reply: C.Reply)
      modifies users.pool, tokens.client
      ensures Performs(w, old(View(users, tokens)), C.Register(rawEmail, password, name, rawLocale, timezone), inputs,
        View(users, tokens), reply)
      ensures Sub(tokens.client.data, HubSessions) == Sub(old(tokens.client.data), HubSessions)
      ensures old(users.pool.Indexed()) ==>
        && users.pool.Indexed()
        && O.Outcome(Seen(users, tokens), reply) ==
             O.RegisterOutcome(w, old(Seen(users, tokens)), rawEmail, password, name, rawLocale, timezone, inputs)
    {
      hide AccountInvariant.EmailsMatch, O.AddressTaken, O.TakenByOther, O.ContentsOf;
      hide Sub, C.RunAlone, IssueToken, Do, InsertUser, Joined, FindByEmail;
      ghost var rows, s := users.pool.Rows(), tokens.client.data;
      ghost var req := C.Register(rawEmail, password, name, rawLocale, timezone);
      RowLookups(rows, s);
      var email := w.text.normal(rawEmail);
      if email == "" || '@' !in email {
        reply := C.Failed(ErrInvalidEmail);
      } else if |password| < MIN_PASSWORD_LEN {
        reply := C.Failed(ErrWeakPassword);
      } else {
        var taken := users.FindByEmail(email);
        if taken.Ok? {
          reply := C.Failed(ErrUserExists);
        } else {
          var hash := w.hasher.hash(password, inputs(4).salt);
          if hash == None {
            reply := C.Failed(HashError);
          } else {
            var locale := if rawLocale == "" then "en" else rawLocale;
            var tz := if timezone == "" then "UTC" else timezone;
            var u := User(inputs(4).id, email, false, hash.value, w.text.trim(name), "", locale, tz, inputs(4).now);
            reply := CreateAndNotify(u, inputs);
          }
        }
      }
      Finish(w, Joined(rows, s), C.Begin(req), inputs, View(users, tokens), reply);
      if old(users.pool.Indexed()) {
        Concludes(w, rows, s, req, inputs, users.pool.Rows(), tokens.client.data, reply);
      }
    }

    // The part of Execute from the insert on.
    method CreateAndNotify(u: User, inputs: nat -> C.Env) returns (reply: C.Reply)
      modifies users.pool, tokens.client
      ensures Finishes(w, old(View(users, tokens)), C.RegisterInsert(u), inputs, View(users, tokens), reply)
      ensures Sub(tokens.client.data, HubSessions) == Sub(old(tokens.client.data), HubSessions)
    {
      hide Sub, C.RunAlone, IssueToken, Do, InsertUser, Joined;
      ghost var rows, s := users.pool.Rows(), tokens.client.data;
      RowStatements(rows, s, u);
      var err := users.Create(u);
      if err.Some? {
        reply := C.Failed(err.value);
      } else {
        ghost var rows' := users.pool.Rows();
        var token := tokens.Issue(Purpose.VerifyEmail, u.id, C.VERIFY_TTL, inputs(2).token, inputs(2).now);
        ghost var s' := tokens.client.data;
        IssueIsPut(rows', s, s', Purpose.VerifyEmail, token, u.id, C.VERIFY_TTL, inputs(2).now);
        reply := if inputs(1).mailOk then C.Registered(u) else C.Failed(MailError);
        Finish(w, Joined(rows', s'), C.RegisterMail(u, token), inputs, View(users, tokens), reply);
        Finish(w, Joined(rows', s), C.RegisterIssue(u), inputs, View(users, tokens), reply);
      }
      Finish(w, Joined(rows, s), C.RegisterInsert(u), inputs, View(users, tokens), reply);
    }
  }

  class Authenticate {
    const w: C.Setup
    const users: UserRepository

    constructor (w: C.Setup, users: UserRepository)
      ensures this.w == w && this.users == users
    {
      this.w, this.users := w, users;
    }

    method Execute(email: string, password: Password) returns (r: Result<User, Error>)
      ensures match r
        case Ok(u) =>
          && FindByEmail(users.pool.Rows(), w.text.normal(email)) == Some(u)
          && w.hasher.check(u.passwordHash, password) && u.emailVerified
        case Err(e) => C.AuthenticateNow(w, users.pool.Rows(), email, password) == C.Failed(e)
      ensures r.Ok? <==> C.AuthenticateNow(w, users.pool.Rows(), email, password).LoggedIn?
      ensures forall s ::
        C.AuthenticateNow(w, Joined(users.pool.Rows(), s), email, password)
          == C.AuthenticateNow(w, users.pool.Rows(), email, password)
      ensures users.pool.Indexed() ==>
        O.AuthenticateReply(w, users.pool.users, email, password) ==
          match r case Ok(u) => C.LoggedIn(u) case Err(e) => C.Failed(e)
    {
      if users.pool.Indexed() { O.AuthenticateMeans(w, users.pool.Rows(), email, password); }
      hide Sub, AccountInvariant.EmailsMatch, O.AuthenticateReply;
      var found := users.FindByEmail(w.text.normal(email));
      if found.Err? {
        return Err(ErrInvalidCredentials);
      }
      var u := found.value;
      if !w.hasher.check(u.passwordHash, password) {
        return Err(ErrInvalidCredentials);
      }
      if !u.emailVerified {
        return Err(ErrEmailNotVerified);
      }
      r := Ok(u);
    }
  }
}
