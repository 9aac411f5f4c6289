// VerifyEmail and ResetPassword as whole sections: one after the other they commute,
// overlapped they can undo each other.
module AccountSections {
  import opened Common
  import opened Strings
  import opened RedisKeyspace
  import opened AccountTables
  import opened AccountCalls
  import opened AccountSystem
  import opened AccountInvariant

  // ---- One after the other ----

  // What a call that runs from start to end leaves behind and answers.
  datatype Effect = Effect(db: Db, reply: Reply)

  function Whole(w: Setup, db: Db, req: Request, inputs: nat -> Env): Effect {
    var out := Execute(w, db, req, inputs);
    Effect(out.db, out.reply.value)
  }

  function MarkVerified(users: map<Id, User>, user: Option<Id>): map<Id, User> {
    if user.Some? && user.value in users then users[user.value := users[user.value].(emailVerified := true)] else users
  }

  function MarkRehashed(users: map<Id, User>, user: Option<Id>, hash: Option<string>): map<Id, User> {
    if user.Some? && user.value in users && hash.Some?
      then users[user.value := users[user.value].(passwordHash := hash.value)]
    else users
  }

  function VerifyReply(users: map<Id, User>, user: Option<Id>): Reply {
    if user == None then Failed(ErrTokenInvalid)
    else if user.value !in users then Failed(ErrUserNotFound)
    else Done
  }

  function ResetReply(users: map<Id, User>, user: Option<Id>, hash: Option<string>): Reply {
    if user == None then Failed(ErrTokenInvalid)
    else if user.value !in users then Failed(ErrUserNotFound)
    else if hash == None then Failed(HashError)
    else Done
  }

  function VerifyEffect(db: Db, token: string, now: Time): Effect {
    var (d, user) := ConsumeToken(db, VerifyEmail, token, now);
    Effect(d.(users := MarkVerified(db.users, user)), VerifyReply(db.users, user))
  }

  function ResetEffect(w: Setup, db: Db, token: string, password: Password, now: Time, salt: string): Effect {
    if |password| < MIN_PASSWORD_LEN then Effect(db, Failed(ErrWeakPassword))
    else
      var (d, user) := ConsumeToken(db, PasswordReset, token, now);
      var hash := w.hasher.hash(password, salt);
      Effect(d.(users := MarkRehashed(db.users, user, hash)), ResetReply(db.users, user, hash))
  }

  lemma Unroll(w: Setup, db: Db, pc: Pc, inputs: nat -> Env)
    ensures var turn := Step(w, WholeRow, db, pc, inputs(Remaining(pc)));
      AccountCalls.RunAlone(w, db, pc, inputs) ==
        if turn.reply.Some? then turn else AccountCalls.RunAlone(w, turn.db, turn.pc, inputs)
  {}

  lemma VerifyRunsAlone(w: Setup, db: Db, token: string, inputs: nat -> Env)
    requires EmailsMatch(db.users, db.emails)
    ensures Whole(w, db, Verify(token), inputs) == VerifyEffect(db, token, inputs(4).now)
  {
    var (db', user) := ConsumeToken(db, VerifyEmail, token, inputs(4).now);
    Unroll(w, db, Begin(Verify(token)), inputs);
    if user.Some? {
      Unroll(w, db', VerifyRead(token, user.value), inputs);
      if user.value in db.users {
        var u := db.users[user.value];
        UpdateInPlace(db', u.(emailVerified := true));
        Unroll(w, db', VerifyWrite(token, u), inputs);
      }
    }
    hide EmailsMatch, UpdateUser, ConsumeToken, AccountCalls.RunAlone;
  }

  // The statements of ResetPassword, run one after another.
  lemma ResetStatements(w: Setup, db: Db, token: string, password: Password, inputs: nat -> Env)
    requires |password| >= MIN_PASSWORD_LEN
    ensures var (d, user) := ConsumeToken(db, PasswordReset, token, inputs(4).now);
      var hash := w.hasher.hash(password, inputs(2).salt);
      Whole(w, db, Reset(token, password), inputs) ==
        if user == None then Effect(d, Failed(ErrTokenInvalid))
        else if FindByID(d, user.value) == None then Effect(d, Failed(ErrUserNotFound))
        else if hash == None then Effect(d, Failed(HashError))
        else
          var r := UpdateUser(d, FindByID(d, user.value).value.(passwordHash := hash.value));
          if r.err.Some? then Effect(d, Failed(r.err.value)) else Effect(r.db, Done)
  {
    hide UpdateUser, ConsumeToken, FindByID, AccountCalls.RunAlone;
    var (d, user) := ConsumeToken(db, PasswordReset, token, inputs(4).now);
    Unroll(w, db, Begin(Reset(token, password)), inputs);
    if user.Some? {
      Unroll(w, d, ResetRead(token, user.value, password), inputs);
      var found, hash := FindByID(d, user.value), w.hasher.hash(password, inputs(2).salt);
      if found.Some? && hash.Some? { Unroll(w, d, ResetWrite(token, found.value, hash.value), inputs); }
    }
  }

  lemma WeakPasswordFails(w: Setup, db: Db, token: string, password: Password, inputs: nat -> Env)
    requires |password| < MIN_PASSWORD_LEN
    ensures Whole(w, db, Reset(token, password), inputs) == Effect(db, Failed(ErrWeakPassword))
  {
    Unroll(w, db, Begin(Reset(token, password)), inputs);
  }

  lemma ResetRunsAlone(w: Setup, db: Db, token: string, password: Password, inputs: nat -> Env)
    requires EmailsMatch(db.users, db.emails)
    ensures Whole(w, db, Reset(token, password), inputs) ==
      ResetEffect(w, db, token, password, inputs(4).now, inputs(2).salt)
  {
    if |password| < MIN_PASSWORD_LEN {
      WeakPasswordFails(w, db, token, password, inputs);
    } else {
      ResetStatements(w, db, token, password, inputs);
      var (d, user) := ConsumeToken(db, PasswordReset, token, inputs(4).now);
      var hash := w.hasher.hash(password, inputs(2).salt);
      if user.Some? && user.value in db.users && hash.Some? {
        UpdateInPlace(d, db.users[user.value].(passwordHash := hash.value));
      }
    }
    hide Whole, UpdateUser, EmailsMatch;
  }

  lemma EffectsKeepEmails(w: Setup, db: Db, token: string, password: Password, now: Time, salt: string)
    requires EmailsMatch(db.users, db.emails)
    ensures var d := VerifyEffect(db, token, now).db; EmailsMatch(d.users, d.emails)
    ensures var d := ResetEffect(w, db, token, password, now, salt).db; EmailsMatch(d.users, d.emails)
  {}

  // The two kinds of tokens and the users table do not meet.
  lemma ConsumesAreIndependent(db: Db, token: string, now: Time, users: map<Id, User>, other: Store)
    ensures var (d, user) := ConsumeToken(db, VerifyEmail, token, now);
      d == db.(verify := d.verify)
        && ConsumeToken(db.(users := users, reset := other), VerifyEmail, token, now) ==
        (d.(users := users, reset := other), user)
    ensures var (d, user) := ConsumeToken(db, PasswordReset, token, now);
      d == db.(reset := d.reset)
        && ConsumeToken(db.(users := users, verify := other), PasswordReset, token, now) ==
        (d.(users := users, verify := other), user)
  {}

  lemma MarksCommute(users: map<Id, User>, v: Option<Id>, r: Option<Id>, hash: Option<string>)
    ensures MarkRehashed(MarkVerified(users, v), r, hash) == MarkVerified(MarkRehashed(users, r, hash), v)
    ensures MarkVerified(users, v).Keys == users.Keys == MarkRehashed(users, r, hash).Keys
  {}

  lemma EffectsCommute(w: Setup, db: Db, t: string, t': string, password: Password, now: Time, now': Time, salt: string)
    ensures var v, r := VerifyEffect(db, t, now), ResetEffect(w, db, t', password, now', salt);
      var vr, rv := ResetEffect(w, v.db, t', password, now', salt), VerifyEffect(r.db, t, now);
      vr.db == rv.db && vr.reply == r.reply && rv.reply == v.reply
  {
    hide ConsumeToken, MarkVerified, MarkRehashed;
    var v, r := VerifyEffect(db, t, now), ResetEffect(w, db, t', password, now', salt);
    ConsumesAreIndependent(db, t, now, r.db.users, r.db.reset);
    ConsumesAreIndependent(db, t', now', v.db.users, v.db.verify);
    MarksCommute(db.users, ConsumeToken(db, VerifyEmail, t, now).1, ConsumeToken(db, PasswordReset, t', now').1,
      w.hasher.hash(password, salt));
  }

  // For any two tokens, of the same user or not: verifying and then resetting leaves
  // the same tables as resetting and then verifying, and each call answers the same.
  lemma VerifyAndResetCommute(w: Setup, db: Db, token: string, token': string, password: Password, i: nat -> Env,
          j: nat -> Env)
    requires EmailsMatch(db.users, db.emails)
    ensures var v, r := Whole(w, db, Verify(token), i), Whole(w, db, Reset(token', password), j);
      var vr, rv := Whole(w, v.db, Reset(token', password), j), Whole(w, r.db, Verify(token), i);
      vr.db == rv.db && vr.reply == r.reply && rv.reply == v.reply
  {
    hide Whole, VerifyEffect, ResetEffect, EmailsMatch;
    var v, r := VerifyEffect(db, token, i(4).now), ResetEffect(w, db, token', password, j(4).now, j(2).salt);
    EffectsKeepEmails(w, db, token, password, i(4).now, j(2).salt);
    EffectsKeepEmails(w, db, token', password, j(4).now, j(2).salt);
    VerifyRunsAlone(w, db, token, i);
    ResetRunsAlone(w, db, token', password, j);
    ResetRunsAlone(w, v.db, token', password, j);
    VerifyRunsAlone(w, r.db, token, i);
    EffectsCommute(w, db, token, token', password, i(4).now, j(4).now, j(2).salt);
  }

  // ---- Overlapped ----

  const PLAIN := Setup(Ops(s => s, s => s, s => s), Hasher((p, salt) => Some(salt), (hash, p) => true))
  const SECRET: Password := [1, 2, 3, 4, 5, 6, 7, 8]

  function Input(token: string, salt: string): Env {
    Env("u", token, salt, 0, true)
  }

  // Calls 2 (verify) and 3 (reset) of one user both read the row before either writes.
  const OVERLAP: seq<Event> := [
    Start(0, Register("a@b", SECRET, "", "", "")), Advance(0, Input("", "old")), Advance(0, Input("", "")),
      Advance(0, Input("v", "")),
    Start(1, RequestReset("a@b")), Advance(1, Input("", "")), Advance(1, Input("r", "")),
    Start(2, Verify("v")), Advance(2, Input("", "")), Advance(2, Input("", "")),
    Start(3, Reset("r", SECRET)), Advance(3, Input("", "")), Advance(3, Input("", "new")),
    Advance(2, Input("", "")), Advance(3, Input("", ""))]

  function After(n: nat): Sys
    requires n <= |OVERLAP|
  {
    Run(PLAIN, WholeRow, INITIAL, OVERLAP[..n])
  }

  lemma Starts(n: nat)
    requires n < |OVERLAP| && OVERLAP[n].Start? && OVERLAP[n].call !in After(n).calls
    ensures After(n + 1) == After(n).(calls := After(n).calls[OVERLAP[n].call := Call(Begin(OVERLAP[n].req), None)])
  {
    assert OVERLAP[..n + 1][..n] == OVERLAP[..n];
  }

  lemma IssuesRecorded(h: History, c: nat, before: Pc, after: Pc, env: Env)
    ensures var issued := Note(h, c, before, after, env).issued;
      if before.RegisterIssue? && after.RegisterMail?
        then issued.Keys == h.issued.Keys + {Ticket(VerifyEmail, after.token)}
      else before.RequestIssue? || issued == h.issued
  {}

  lemma IssuePc(db: Db, pc: Pc, env: Env)
    requires pc.RegisterIssue?
    ensures Step(PLAIN, WholeRow, db, pc, env).pc == RegisterMail(pc.user, env.token)
  {}

  ghost predicate Performed(s: Sys, s': Sys, c: nat, pc: Pc, env: Env) {
    var turn := Step(PLAIN, WholeRow, s.db, pc, env);
    && s'.db == turn.db && s'.calls == s.calls[c := Call(turn.pc, turn.reply)]
    && (!pc.RegisterIssue? && !pc.RequestIssue? ==> s'.history.issued == s.history.issued)
    && (pc.RegisterIssue? ==> s'.history.issued.Keys == s.history.issued.Keys + {Ticket(VerifyEmail, env.token)})
  }

  lemma AdvancePerforms(s: Sys, c: nat, pc: Pc, env: Env)
    requires c in s.calls && s.calls[c] == Call(pc, None) && Allowed(s, c, env)
    ensures Performed(s, Next(PLAIN, WholeRow, s, Advance(c, env)), c, pc, env)
  {
    IssuesRecorded(s.history, c, pc, Step(PLAIN, WholeRow, s.db, pc, env).pc, env);
    if pc.RegisterIssue? { IssuePc(s.db, pc, env); }
    hide Note, Step, Allowed;
  }

  lemma Advances(n: nat, pc: Pc)
    requires n < |OVERLAP| && OVERLAP[n].Advance? && OVERLAP[n].call in After(n).calls
    requires After(n).calls[OVERLAP[n].call] == Call(pc, None) && Allowed(After(n), OVERLAP[n].call, OVERLAP[n].env)
    ensures Performed(After(n), After(n + 1), OVERLAP[n].call, pc, OVERLAP[n].env)
  {
    hide Next, Performed, Allowed;
    assert OVERLAP[..n + 1][..n] == OVERLAP[..n];
    AdvancePerforms(After(n), OVERLAP[n].call, pc, OVERLAP[n].env);
  }

  function Row(verified: bool, hash: string): User {
    User("u", "a@b", verified, hash, "", "", "en", "UTC", 0)
  }

  function Tables(u: User, verify: Store, reset: Store): Db {
    Db(map["u" := u], map["a@b" := "u"], verify, reset)
  }

  lemma FirstTwo()
    ensures After(2).db == EMPTY && After(2).history.issued == map[]
    ensures After(2).calls == map[0 := Call(RegisterInsert(Row(false, "old")), None)]
  {
    assert After(0) == INITIAL;
    hide After;
    Starts(0);
    Advances(1, Begin(Register("a@b", SECRET, "", "", "")));
  }

  lemma AccountRegistered()
    ensures After(4).db == Tables(Row(false, "old"), map["v" := Entry("u", Some(VERIFY_TTL))], map[])
    ensures After(4).calls.Keys == {0} && After(4).history.issued.Keys == {Ticket(VerifyEmail, "v")}
  {
    FirstTwo();
    hide After;
    Advances(2, RegisterInsert(Row(false, "old")));
    Advances(3, RegisterIssue(Row(false, "old")));
  }

  lemma ResetRequested()
    ensures After(7).db ==
      Tables(Row(false, "old"), map["v" := Entry("u", Some(VERIFY_TTL))], map["r" := Entry("u", Some(RESET_TTL))])
    ensures After(7).calls.Keys == {0, 1}
  {
    AccountRegistered();
    hide After;
    Starts(4);
    Advances(5, Begin(RequestReset("a@b")));
    Advances(6, RequestIssue(Row(false, "old")));
  }

  lemma VerifyHasRead()
    ensures After(10).db == Tables(Row(false, "old"), map[], map["r" := Entry("u", Some(RESET_TTL))])
    ensures After(10).calls.Keys == {0, 1, 2} && After(10).calls[2] == Call(VerifyWrite("v", Row(false, "old")), None)
  {
    ResetRequested();
    hide After;
    Starts(7);
    Advances(8, Begin(Verify("v")));
    Advances(9, VerifyRead("v", "u"));
  }

  lemma BothHaveRead()
    ensures After(13).db == Tables(Row(false, "old"), map[], map[])
    ensures After(13).calls.Keys == {0, 1, 2, 3}
    ensures After(13).calls[2] == Call(VerifyWrite("v", Row(false, "old")), None)
    ensures After(13).calls[3] == Call(ResetWrite("r", Row(false, "old"), "new"), None)
  {
    VerifyHasRead();
    hide After;
    Starts(10);
    Advances(11, Begin(Reset("r", SECRET)));
    Advances(12, ResetRead("r", "u", SECRET));
  }

  lemma VerifyWrites()
    ensures After(14).db == Tables(Row(true, "old"), map[], map[])
    ensures After(14).calls == After(13).calls[2 := Call(VerifyEnd("v"), Some(Done))]
  {
    BothHaveRead();
    hide After;
    Advances(13, VerifyWrite("v", Row(false, "old")));
  }

  lemma ResetWrites()
    ensures After(15).db == Tables(Row(false, "new"), map[], map[])
    ensures After(15).calls.Keys == {0, 1, 2, 3}
    ensures After(15).calls[2].reply == Some(Done) && After(15).calls[3].reply == Some(Done)
  {
    BothHaveRead();
    VerifyWrites();
    hide After;
    Advances(14, ResetWrite("r", Row(false, "old"), "new"));
  }

  // The run is reachable and both calls report success, yet the verification that the
  // first one made is gone: the reset wrote back the copy it had read before.
  lemma OverlapRevertsVerification()
    ensures var s := Run(PLAIN, WholeRow, INITIAL, OVERLAP[..14]);
      "u" in s.db.users && s.db.users["u"].emailVerified
    ensures var s := Run(PLAIN, WholeRow, INITIAL, OVERLAP);
      && 2 in s.calls && s.calls[2].reply == Some(Done) && 3 in s.calls && s.calls[3].reply == Some(Done)
      && "u" in s.db.users && s.db.users["u"] == Row(false, "new")
  {
    assert OVERLAP[..15] == OVERLAP;
    VerifyWrites();
    ResetWrites();
    hide Run;
  }
}
