// The account invariant over whole runs.
module AccountRuns {
  import opened Common
  import opened AccountTables
  import opened AccountCalls
  import opened AccountSystem
  import opened AccountInvariant

  // ---- Each statement, in either update mode ----

  lemma RegisterBegins(w: Setup, mode: Mode, db: Db, h: History, c: nat, pc: Pc, env: Env)
    requires DbOk(w, db, h) && pc.Begin? && pc.req.Register?
    ensures StepKept(w, mode, db, h, c, pc, env)
  {
    hide DbOk, Grows;
    Idle(w, db, h, c, Step(w, mode, db, pc, env).pc, h.readAt);
  }

  lemma RequestBegins(w: Setup, mode: Mode, db: Db, h: History, c: nat, pc: Pc, env: Env)
    requires DbOk(w, db, h) && pc.Begin? && (pc.req.RequestReset? || pc.req.Authenticate?)
    ensures StepKept(w, mode, db, h, c, pc, env)
  {
    hide GoodUser;
    Idle(w, db, h, c, Step(w, mode, db, pc, env).pc, h.readAt);
  }

  lemma ConsumeBegins(w: Setup, mode: Mode, db: Db, h: History, c: nat, pc: Pc, env: Env)
    requires DbOk(w, db, h) && pc.Begin? && (pc.req.Verify? || pc.req.Reset?)
    ensures StepKept(w, mode, db, h, c, pc, env)
  {
    hide DbOk, Grows, ConsumeToken;
    var p := if pc.req.Verify? then VerifyEmail else PasswordReset;
    Idle(w, db, h, c, pc, h.readAt);
    if ConsumeToken(db, p, pc.req.token, env.now).1.Some? {
      ConsumeKeeps(w, db, h, c, p, pc.req.token, env.now);
    } else {
      MissedConsume(db, p, pc.req.token, env.now);
    }
  }

  lemma MissedConsume(db: Db, p: Purpose, token: string, now: Time)
    ensures ConsumeToken(db, p, token, now).1 == None ==> ConsumeToken(db, p, token, now).0 == db
  {}

  lemma RegisterInserts(w: Setup, mode: Mode, db: Db, h: History, c: nat, pc: Pc, env: Env)
    requires DbOk(w, db, h) && PcOk(w, db, h, c, pc) && pc.RegisterInsert?
    ensures StepKept(w, mode, db, h, c, pc, env)
  {
    hide DbOk, Grows, GoodUser;
    var u := pc.user;
    if InsertUser(db, u).err == None {
      InsertKeeps(w, db, h, c, u, h.writes[u.id := 0], h.settled[u.id := u.passwordHash]);
    } else {
      Idle(w, db, h, c, pc, h.readAt);
    }
  }

  lemma TokenIssues(w: Setup, mode: Mode, db: Db, h: History, c: nat, pc: Pc, env: Env)
    requires DbOk(w, db, h) && PcOk(w, db, h, c, pc) && (pc.RegisterIssue? || pc.RequestIssue?)
    requires pc.RegisterIssue? ==> Ticket(VerifyEmail, env.token) !in h.issued
    requires pc.RequestIssue? ==> Ticket(PasswordReset, env.token) !in h.issued
    ensures StepKept(w, mode, db, h, c, pc, env)
  {
    hide DbOk, Grows, CopyOk, IssueToken;
    match pc
    case RegisterIssue(u) =>
      IssueKeeps(w, db, h, c, VerifyEmail, env.token, u, VERIFY_TTL, env.now, RegisterMail(u, env.token));
    case RequestIssue(u) =>
      IssueKeeps(w, db, h, c, PasswordReset, env.token, u, RESET_TTL, env.now, RequestMail(u, env.token));
  }

  lemma CopyRead(w: Setup, db: Db, h: History, id: Id)
    requires DbOk(w, db, h) && id in db.users
    ensures db.users[id].id == id && CopyOk(w, db, h, db.users[id])
  {}

  lemma RowReads(w: Setup, mode: Mode, db: Db, h: History, c: nat, pc: Pc, env: Env)
    requires DbOk(w, db, h) && PcOk(w, db, h, c, pc) && (pc.VerifyRead? || pc.ResetRead?)
    ensures StepKept(w, mode, db, h, c, pc, env)
  {
    hide DbOk, Grows, GoodUser, CopyOk;
    CopyRead(w, db, h, pc.userId);
    var turn := Step(w, mode, db, pc, env);
    Idle(w, db, h, c, turn.pc, Note(h, c, pc, turn.pc, env).readAt);
  }

  // The row that an update statement writes.
  function Image(mode: Mode, db: Db, pc: Pc): User
    requires pc.VerifyWrite? || pc.ResetWrite?
  {
    if pc.VerifyWrite? then Verified(mode, db, pc.user) else Rehashed(mode, db, pc.user, pc.hash)
  }

  // One field replaced by a good value, in a good user value of the same account.
  lemma VerifiedIsGood(w: Setup, h: History, row: User, u: User)
    requires SameAccount(row, u) && GoodUser(w, h, u) && OwnTokenUsed(h, u.id)
    ensures SameAccount(row, u.(emailVerified := true)) && GoodUser(w, h, u.(emailVerified := true))
  {
    hide Normal, FromHash;
  }

  lemma RehashedIsGood(w: Setup, h: History, row: User, u: User, hash: string)
    requires SameAccount(row, u) && GoodUser(w, h, u) && FromHash(w, hash)
    ensures SameAccount(row, u.(passwordHash := hash)) && GoodUser(w, h, u.(passwordHash := hash))
  {
    hide Normal, FromHash;
  }

  lemma ImageIsGood(w: Setup, mode: Mode, db: Db, h: History, c: nat, pc: Pc)
    requires DbOk(w, db, h) && PcOk(w, db, h, c, pc) && (pc.VerifyWrite? || pc.ResetWrite?)
    ensures var u := Image(mode, db, pc);
      u.id == pc.user.id && u.id in db.users && SameAccount(db.users[u.id], u) && GoodUser(w, h, u)
  {
    hide DbOk, GoodUser;
    CopyRead(w, db, h, pc.user.id);
    var row := db.users[pc.user.id];
    var base := if mode == OneField then row else pc.user;
    if pc.VerifyWrite? {
      assert UsedFor(h, Ticket(VerifyEmail, pc.token), pc.user.id);
      VerifiedIsGood(w, h, row, base);
    } else {
      RehashedIsGood(w, h, row, base, pc.hash);
    }
  }

  lemma RowWriteTurn(w: Setup, mode: Mode, db: Db, pc: Pc, env: Env, db': Db)
    requires (pc.VerifyWrite? || pc.ResetWrite?) && UpdateUser(db, Image(mode, db, pc)) == Written(db', None)
    ensures Step(w, mode, db, pc, env) == Turn(db', AfterWrite(pc), Some(Done))
  {
    hide UpdateUser, Verified, Rehashed;
  }

  function AfterWrite(pc: Pc): Pc
    requires pc.VerifyWrite? || pc.ResetWrite?
  {
    if pc.VerifyWrite? then VerifyEnd(pc.token) else ResetEnd(pc.token)
  }

  lemma RowWriteNote(w: Setup, db: Db, db': Db, h: History, c: nat, pc: Pc, env: Env)
    requires PcOk(w, db, h, c, pc) && (pc.VerifyWrite? || pc.ResetWrite?)
    ensures var h' := Note(h, c, pc, AfterWrite(pc), env);
      && h' == h.(tick := h.tick + 1, writes := h'.writes, rewrites := h'.rewrites, settled := h'.settled)
      && PcOk(w, db', h', c, AfterWrite(pc))
  {
    hide CopyOk, FromHash;
  }

  lemma RowWrites(w: Setup, mode: Mode, db: Db, h: History, c: nat, pc: Pc, env: Env)
    requires DbOk(w, db, h) && PcOk(w, db, h, c, pc) && (pc.VerifyWrite? || pc.ResetWrite?)
    ensures StepKept(w, mode, db, h, c, pc, env)
    ensures Step(w, mode, db, pc, env) ==
      Turn(db.(users := db.users[pc.user.id := Image(mode, db, pc)]), AfterWrite(pc), Some(Done))
  {
    ImageIsGood(w, mode, db, h, c, pc);
    hide DbOk, Grows, GoodUser, SameAccount, UpdateUser, Image, Step, PcOk, Note;
    var db' := db.(users := db.users[pc.user.id := Image(mode, db, pc)]);
    RowWriteNote(w, db, db', h, c, pc, env);
    UpdateKeeps(w, db, h, Image(mode, db, pc), Note(h, c, pc, AfterWrite(pc), env));
    RowWriteTurn(w, mode, db, pc, env, db');
  }

  lemma MailSends(w: Setup, mode: Mode, db: Db, h: History, c: nat, pc: Pc, env: Env)
    requires DbOk(w, db, h) && PcOk(w, db, h, c, pc) && Remaining(pc) <= 1 && !pc.VerifyWrite? && !pc.ResetWrite?
    ensures StepKept(w, mode, db, h, c, pc, env)
  {
    hide DbOk, Grows, CopyOk;
    Idle(w, db, h, c, Step(w, mode, db, pc, env).pc, h.readAt);
  }

  lemma StatementKeeps(w: Setup, mode: Mode, s: Sys, c: nat, env: Env)
    requires c in s.calls && Allowed(s, c, env)
    requires DbOk(w, s.db, s.history) && PcOk(w, s.db, s.history, c, s.calls[c].pc)
    ensures StepKept(w, mode, s.db, s.history, c, s.calls[c].pc, env)
  {
    hide DbOk, PcOk, StepKept;
    var db, h, pc := s.db, s.history, s.calls[c].pc;
    match pc
    case Begin(req) =>
      if req.Register? {
        RegisterBegins(w, mode, db, h, c, pc, env);
      } else if req.Verify? || req.Reset? {
        ConsumeBegins(w, mode, db, h, c, pc, env);
      } else {
        RequestBegins(w, mode, db, h, c, pc, env);
      }
    case RegisterInsert(_) => RegisterInserts(w, mode, db, h, c, pc, env);
    case RegisterIssue(_) => TokenIssues(w, mode, db, h, c, pc, env);
    case RequestIssue(_) => TokenIssues(w, mode, db, h, c, pc, env);
    case VerifyRead(_, _) => RowReads(w, mode, db, h, c, pc, env);
    case ResetRead(_, _, _) => RowReads(w, mode, db, h, c, pc, env);
    case VerifyWrite(_, _) => RowWrites(w, mode, db, h, c, pc, env);
    case ResetWrite(_, _, _) => RowWrites(w, mode, db, h, c, pc, env);
    case _ => MailSends(w, mode, db, h, c, pc, env);
  }

  // ---- System invariant ----

  // Every password rewrite used a reset token of that user, and each a different one.
  ghost predicate RewriteOk(s: Sys, i: nat)
    requires i < |s.history.rewrites|
  {
    var r := s.history.rewrites[i];
    && UsedFor(s.history, Ticket(PasswordReset, r.token), r.user)
    && s.history.consumed[Ticket(PasswordReset, r.token)].call == r.call
    && r.call in s.calls && s.calls[r.call].pc == ResetEnd(r.token)
  }

  ghost predicate RewritesOk(s: Sys) {
    && (forall i: nat {:trigger RewriteOk(s, i)} | i < |s.history.rewrites| :: RewriteOk(s, i))
    && (forall i, j | 0 <= i < j < |s.history.rewrites| :: s.history.rewrites[i].token != s.history.rewrites[j].token)
  }

  // A held copy is the row itself as long as nobody wrote the row since.
  ghost predicate CopyFresh(s: Sys, c: nat)
    requires c in s.calls
  {
    var pc := s.calls[c].pc;
    pc.VerifyWrite? || pc.ResetWrite? ==>
      && c in s.history.readAt && s.history.readAt[c] <= Count(s.history.writes, pc.user.id)
      && (Untouched(s, c) ==> pc.user.id in s.db.users && s.db.users[pc.user.id] == pc.user)
  }

  // No update of the row since this call read it.
  predicate Untouched(s: Sys, c: nat)
    requires c in s.calls && (s.calls[c].pc.VerifyWrite? || s.calls[c].pc.ResetWrite?)
  {
    c in s.history.readAt && s.history.readAt[c] == Count(s.history.writes, s.calls[c].pc.user.id)
  }

  ghost predicate CallOk(w: Setup, s: Sys, c: nat)
    requires c in s.calls
  {
    PcOk(w, s.db, s.history, c, s.calls[c].pc) && CopyFresh(s, c)
  }

  ghost predicate SysOk(w: Setup, s: Sys) {
    && DbOk(w, s.db, s.history)
    && (forall c {:trigger CallOk(w, s, c)} | c in s.calls :: CallOk(w, s, c))
    && RewritesOk(s)
  }

  // What the recorder does, by kind of transition.
  lemma Recorded(h: History, c: nat, before: Pc, after: Pc, env: Env)
    ensures var h' := Note(h, c, before, after, env);
      var wrote := (before.VerifyWrite? && after.VerifyEnd?) || (before.ResetWrite? && after.ResetEnd?);
      && h'.rewrites == (if before.ResetWrite? && after.ResetEnd?
         then h.rewrites + [Rewrite(before.user.id, after.token, c)] else h.rewrites)
      && h'.writes == (if before.RegisterInsert? && after.RegisterIssue? then h.writes[after.user.id := 0]
                       else if wrote then h.writes[before.user.id := Count(h.writes, before.user.id) + 1] else h.writes)
      && h'.readAt == (if (before.VerifyRead? && after.VerifyWrite?) || (before.ResetRead? && after.ResetWrite?)
                       then h.readAt[c := Count(h.writes, after.user.id)] else h.readAt)
  {}

  // Only three kinds of statement touch the users table.
  lemma RowsStay(w: Setup, mode: Mode, db: Db, pc: Pc, env: Env)
    requires !pc.RegisterInsert? && !pc.VerifyWrite? && !pc.ResetWrite?
    ensures var turn := Step(w, mode, db, pc, env);
      && turn.db.users == db.users && turn.db.emails == db.emails
      && (turn.pc.ResetEnd? ==> turn.pc == pc)
      && (pc.ResetEnd? ==> turn.pc == pc)
  {}

  lemma InsertEffect(w: Setup, mode: Mode, db: Db, u: User, env: Env, id: Id)
    requires id in db.users
    ensures var turn := Step(w, mode, db, RegisterInsert(u), env);
      && id in turn.db.users && turn.db.users[id] == db.users[id]
      && (turn.pc.RegisterIssue? ==> turn.pc.user == u && u.id != id)
  {}

  // A row can change only together with its write count, which never falls.
  lemma RowEffect(w: Setup, mode: Mode, db: Db, h: History, c: nat, pc: Pc, env: Env, id: Id)
    requires DbOk(w, db, h) && PcOk(w, db, h, c, pc) && id in db.users
    ensures var turn := Step(w, mode, db, pc, env);
      var writes := Note(h, c, pc, turn.pc, env).writes;
      && id in turn.db.users && Count(h.writes, id) <= Count(writes, id)
      && (Count(writes, id) == Count(h.writes, id) ==> turn.db.users[id] == db.users[id])
  {
    hide DbOk, PcOk, StepKept, Step, Note, Image;
    Recorded(h, c, pc, Step(w, mode, db, pc, env).pc, env);
    if pc.VerifyWrite? || pc.ResetWrite? {
      RowWrites(w, mode, db, h, c, pc, env);
    } else if pc.RegisterInsert? {
      InsertEffect(w, mode, db, pc.user, env, id);
    } else {
      RowsStay(w, mode, db, pc, env);
    }
  }

  lemma HeldRowExists(w: Setup, s: Sys, d: nat)
    requires d in s.calls && CallOk(w, s, d) && (s.calls[d].pc.VerifyWrite? || s.calls[d].pc.ResetWrite?)
    ensures s.calls[d].pc.user.id in s.db.users
  {
    hide GoodUser, SameAccount;
  }

  lemma OthersStayFresh(w: Setup, mode: Mode, s: Sys, c: nat, env: Env, lost: bool, d: nat)
    requires c in s.calls && d in s.calls && d != c
    requires DbOk(w, s.db, s.history) && CallOk(w, s, c) && CallOk(w, s, d)
    ensures CopyFresh(Perform(w, mode, s, c, env, lost), d)
  {
    hide DbOk, PcOk, Step, Note;
    var pc, pd := s.calls[c].pc, s.calls[d].pc;
    if pd.VerifyWrite? || pd.ResetWrite? {
      HeldRowExists(w, s, d);
      RowEffect(w, mode, s.db, s.history, c, pc, env, pd.user.id);
      Recorded(s.history, c, pc, Step(w, mode, s.db, pc, env).pc, env);
    }
  }

  lemma ReadIsFresh(w: Setup, mode: Mode, db: Db, h: History, c: nat, pc: Pc, env: Env)
    requires pc.VerifyRead? || pc.ResetRead?
    requires pc.userId in db.users ==> db.users[pc.userId].id == pc.userId
    ensures var turn := Step(w, mode, db, pc, env);
      && turn.db == db
      && if turn.pc.VerifyWrite? then pc.VerifyRead? && pc.userId in db.users && turn.pc.user == db.users[pc.userId]
         else if turn.pc.ResetWrite? then pc.ResetRead? && pc.userId in db.users && turn.pc.user == db.users[pc.userId]
         else turn.pc == pc
  {}

  lemma ReaderIsFresh(w: Setup, mode: Mode, s: Sys, c: nat, env: Env, lost: bool)
    requires c in s.calls && DbOk(w, s.db, s.history) && CallOk(w, s, c)
    ensures CopyFresh(Perform(w, mode, s, c, env, lost), c)
  {
    hide DbOk, PcOk, CopyOk, StepKept, Step, Note;
    var pc := s.calls[c].pc;
    Recorded(s.history, c, pc, Step(w, mode, s.db, pc, env).pc, env);
    if pc.VerifyWrite? || pc.ResetWrite? {
      RowWrites(w, mode, s.db, s.history, c, pc, env);
    } else if pc.VerifyRead? || pc.ResetRead? {
      if pc.userId in s.db.users { CopyRead(w, s.db, s.history, pc.userId); }
      ReadIsFresh(w, mode, s.db, s.history, c, pc, env);
    } else {
      NoCopy(w, mode, s.db, pc, env);
    }
  }

  lemma NoCopy(w: Setup, mode: Mode, db: Db, pc: Pc, env: Env)
    requires !pc.VerifyRead? && !pc.ResetRead? && !pc.VerifyWrite? && !pc.ResetWrite?
    ensures !Step(w, mode, db, pc, env).pc.VerifyWrite? && !Step(w, mode, db, pc, env).pc.ResetWrite?
  {}

  // Old log entries stay valid: the call of each one has finished.
  lemma LogStays(s: Sys, s': Sys, c: nat, i: nat)
    requires i < |s.history.rewrites| <= |s'.history.rewrites| && RewriteOk(s, i)
    requires s'.history.rewrites[i] == s.history.rewrites[i] && Extends(s.history.consumed, s'.history.consumed)
    requires forall d | d in s.calls ::
      d in s'.calls && (d != c || s.calls[d].pc.ResetEnd? ==> s'.calls[d].pc == s.calls[d].pc)
    ensures RewriteOk(s', i)
  {}

  lemma LogGrows(w: Setup, s: Sys, s': Sys, c: nat)
    requires RewritesOk(s) && c in s.calls && CallOk(w, s, c) && Extends(s.history.consumed, s'.history.consumed)
    requires forall d | d in s.calls ::
      d in s'.calls && (d != c || s.calls[d].pc.ResetEnd? ==> s'.calls[d].pc == s.calls[d].pc)
    requires if s.calls[c].pc.ResetWrite? then
        && s'.calls[c].pc == ResetEnd(s.calls[c].pc.token)
        && s'.history.rewrites == s.history.rewrites + [Rewrite(s.calls[c].pc.user.id, s.calls[c].pc.token, c)]
      else s'.history.rewrites == s.history.rewrites
    ensures RewritesOk(s')
  {
    hide RewriteOk, Extends, CallOk;
    forall i: nat | i < |s.history.rewrites| ensures RewriteOk(s', i) { LogStays(s, s', c, i); }
    if s.calls[c].pc.ResetWrite? { NewRewrite(w, s, s', c); }
  }

  lemma ConsumedExtends(w: Setup, mode: Mode, db: Db, h: History, c: nat, pc: Pc, env: Env)
    requires StepKept(w, mode, db, h, c, pc, env)
    ensures Extends(h.consumed, Note(h, c, pc, Step(w, mode, db, pc, env).pc, env).consumed)
  {
    hide DbOk, PcOk, Step, Note, Extends;
  }

  lemma RewritesKeep(w: Setup, mode: Mode, s: Sys, c: nat, env: Env, lost: bool)
    requires SysOk(w, s) && c in s.calls && StepKept(w, mode, s.db, s.history, c, s.calls[c].pc, env)
    ensures RewritesOk(Perform(w, mode, s, c, env, lost))
  {
    hide DbOk, PcOk, Step, Note, StepKept, RewritesOk, Extends, CopyFresh;
    var s' := Perform(w, mode, s, c, env, lost);
    var pc := s.calls[c].pc;
    assert CallOk(w, s, c);
    ConsumedExtends(w, mode, s.db, s.history, c, pc, env);
    Recorded(s.history, c, pc, s'.calls[c].pc, env);
    if pc.ResetWrite? {
      RowWrites(w, mode, s.db, s.history, c, pc, env);
    } else if pc.ResetEnd? {
      RowsStay(w, mode, s.db, pc, env);
    }
    LogGrows(w, s, s', c);
  }

  lemma NewRewrite(w: Setup, s: Sys, s': Sys, c: nat)
    requires c in s.calls && s.calls[c].pc.ResetWrite? && CallOk(w, s, c) && RewritesOk(s)
    requires Extends(s.history.consumed, s'.history.consumed)
    requires c in s'.calls && s'.calls[c].pc == ResetEnd(s.calls[c].pc.token)
    requires s'.history.rewrites == s.history.rewrites + [Rewrite(s.calls[c].pc.user.id, s.calls[c].pc.token, c)]
    ensures RewriteOk(s', |s.history.rewrites|)
    ensures forall i | 0 <= i < |s.history.rewrites| :: s.history.rewrites[i].token != s.calls[c].pc.token
  {
    hide CopyOk, FromHash, CopyFresh;
    forall i: nat | i < |s.history.rewrites| ensures s.history.rewrites[i].token != s.calls[c].pc.token {
      assert RewriteOk(s, i);
    }
  }

  lemma PerformKeeps(w: Setup, mode: Mode, s: Sys, c: nat, env: Env, lost: bool)
    requires SysOk(w, s) && Live(s, c) && Allowed(s, c, env)
    ensures SysOk(w, Perform(w, mode, s, c, env, lost))
    ensures StepKept(w, mode, s.db, s.history, c, s.calls[c].pc, env)
  {
    var s' := Perform(w, mode, s, c, env, lost);
    assert CallOk(w, s, c);
    StatementKeeps(w, mode, s, c, env);
    RewritesKeep(w, mode, s, c, env, lost);
    forall d | d in s'.calls ensures CallOk(w, s', d) {
      assert CallOk(w, s, d);
      if d == c {
        ReaderIsFresh(w, mode, s, c, env, lost);
      } else {
        OthersStayFresh(w, mode, s, c, env, lost, d);
        HeldFactsAreStable(w, s.db, s.history, s'.db, s'.history, d, s.calls[d].pc);
      }
      hide DbOk, PcOk, Grows, Step, Note, CopyFresh, RewritesOk;
    }
    hide DbOk, PcOk, Grows, Step, Note, CopyFresh, RewritesOk, CallOk;
  }

  // A call appears, or gets its reply, without a statement.
  lemma CallReplaced(w: Setup, s: Sys, c: nat, call: Call)
    requires SysOk(w, s)
    requires if c in s.calls then call.pc == s.calls[c].pc else call.pc.Begin?
    ensures SysOk(w, s.(calls := s.calls[c := call]))
  {
    hide DbOk, GoodUser, CopyOk;
    var s' := s.(calls := s.calls[c := call]);
    forall d | d in s'.calls ensures CallOk(w, s', d) {
      if d in s.calls { assert CallOk(w, s, d); }
    }
    forall i: nat | i < |s'.history.rewrites| ensures RewriteOk(s', i) { assert RewriteOk(s, i); }
  }

  lemma NextKeeps(w: Setup, mode: Mode, s: Sys, e: Event)
    requires SysOk(w, s)
    ensures SysOk(w, Next(w, mode, s, e))
  {
    hide SysOk, Perform, Allowed;
    match e
    case Start(c, req) => if c !in s.calls { CallReplaced(w, s, c, Call(Begin(req), None)); }
    case Advance(c, env) => if Live(s, c) && Allowed(s, c, env) { PerformKeeps(w, mode, s, c, env, false); }
    case LoseAck(c, env) => if Live(s, c) && Allowed(s, c, env) { PerformKeeps(w, mode, s, c, env, true); }
    case Fail(c) => if Live(s, c) { CallReplaced(w, s, c, s.calls[c].(reply := Some(Failed(StoreError)))); }
  }

  lemma {:induction false} RunKeepsFrom(w: Setup, mode: Mode, s: Sys, events: seq<Event>)
    requires SysOk(w, s)
    ensures SysOk(w, Run(w, mode, s, events))
  {
    hide SysOk, Next;
    if events != [] {
      RunKeepsFrom(w, mode, s, events[..|events| - 1]);
      NextKeeps(w, mode, Run(w, mode, s, events[..|events| - 1]), events[|events| - 1]);
    }
  }

  // The invariant holds after every run from the empty tables.
  lemma RunKeeps(w: Setup, mode: Mode, events: seq<Event>)
    ensures SysOk(w, Run(w, mode, INITIAL, events))
  {
    RunKeepsFrom(w, mode, INITIAL, events);
  }
}
