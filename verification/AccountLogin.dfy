// Register, verify, authenticate: what a caller who never resets the password can rely
// on, with any other calls going on meanwhile.
module AccountLogin {
  import opened Common
  import opened AccountTables
  import opened AccountCalls
  import opened AccountSystem
  import opened AccountInvariant
  import opened AccountRuns
  import opened AccountRefinement
  import opened AccountTheorems

  // The row has this hash, and so has every copy that could still be written over it.
  ghost predicate HashHeld(s: Sys, id: Id, hash: string) {
    && id in s.db.users && s.db.users[id].passwordHash == hash
    && forall c {:trigger s.calls[c]} | c in s.calls && Writing(s.calls[c].pc) && s.calls[c].pc.user.id == id ::
         s.calls[c].pc.user.passwordHash == hash
  }

  lemma WholeRowImage(db: Db, pc: Pc)
    requires Writing(pc) && pc.user.id in db.users && SameAccount(db.users[pc.user.id], pc.user)
    ensures var u := Image(WholeRow, db, pc);
      && (pc.VerifyWrite? ==> u.emailVerified && u.passwordHash == pc.user.passwordHash)
      && u.id == pc.user.id
  {}

  // A statement that is not a reset write of this user.
  lemma StatementKeepsHash(w: Setup, s: Sys, c: nat, env: Env, lost: bool, id: Id, hash: string)
    requires SysOk(w, s) && c in s.calls && HashHeld(s, id, hash)
    requires !(s.calls[c].pc.ResetWrite? && s.calls[c].pc.user.id == id)
    ensures var s' := Perform(w, WholeRow, s, c, env, lost);
      && HashHeld(s', id, hash)
      && (s'.db.users[id].emailVerified <==>
            s.db.users[id].emailVerified || (s.calls[c].pc.VerifyWrite? && s.calls[c].pc.user.id == id))
  {
    hide SysOk, DbOk, PcOk, Step, Note, StepKept, Image, SameAccount;
    var pc := s.calls[c].pc;
    WriterHasRow(w, s, c);
    if Writing(pc) {
      WholeRowImage(s.db, pc);
      RowWrites(w, WholeRow, s.db, s.history, c, pc, env);
    } else if pc.VerifyRead? || pc.ResetRead? {
      if pc.userId in s.db.users { CopyRead(w, s.db, s.history, pc.userId); }
      ReadIsFresh(w, WholeRow, s.db, s.history, c, pc, env);
    } else {
      NoCopy(w, WholeRow, s.db, pc, env);
      if pc.RegisterInsert? {
        InsertEffect(w, WholeRow, s.db, pc.user, env, id);
      } else {
        RowsStay(w, WholeRow, s.db, pc, env);
      }
    }
  }

  lemma NextKeepsHash(w: Setup, s: Sys, e: Event, id: Id, hash: string)
    requires SysOk(w, s) && HashHeld(s, id, hash) && !ResetsRow(s, e, id)
    ensures var s' := Next(w, WholeRow, s, e);
      && HashHeld(s', id, hash)
      && (s'.db.users[id].emailVerified <==> s.db.users[id].emailVerified || VerifiesRow(s, e, id))
  {
    hide SysOk, Perform, Allowed;
    if Actor(s, e).Some? { StatementKeepsHash(w, s, Actor(s, e).value, e.env, e.LoseAck?, id, hash); }
  }

  // A verification write of this user happens in the run.
  ghost predicate VerifiedIn(w: Setup, s: Sys, events: seq<Event>, id: Id) {
    exists n: nat {:trigger events[n]} :: n < |events| && VerifiesRow(Run(w, WholeRow, s, events[..n]), events[n], id)
  }

  // No reset write of this user happens in the run.
  ghost predicate NeverReset(w: Setup, s: Sys, events: seq<Event>, id: Id) {
    forall n: nat {:trigger events[n]} | n < |events| :: !ResetsRow(Run(w, WholeRow, s, events[..n]), events[n], id)
  }

  lemma LastEvent(w: Setup, s: Sys, events: seq<Event>, id: Id)
    requires events != []
    ensures var n := |events| - 1;
      && (VerifiedIn(w, s, events, id) <==>
            VerifiedIn(w, s, events[..n], id) || VerifiesRow(Run(w, WholeRow, s, events[..n]), events[n], id))
      && (NeverReset(w, s, events, id) ==> NeverReset(w, s, events[..n], id))
  {
    hide Run, VerifiesRow, ResetsRow;
    var n := |events| - 1;
    var front := events[..n];
    assert forall i: nat | i < n :: front[i] == events[i] && front[..i] == events[..i];
    if VerifiedIn(w, s, events, id) {
      var i: nat :| i < |events| && VerifiesRow(Run(w, WholeRow, s, events[..i]), events[i], id);
      assert i < n ==> front[i] == events[i];
    }
    if VerifiedIn(w, s, front, id) {
      var i: nat :| i < |front| && VerifiesRow(Run(w, WholeRow, s, front[..i]), front[i], id);
      assert front[i] == events[i];
    }
    assert events[n] == events[n];
    if NeverReset(w, s, events, id) {
      forall i: nat | i < n ensures !ResetsRow(Run(w, WholeRow, s, front[..i]), front[i], id) {
        assert front[i] == events[i];
      }
    }
  }

  lemma {:induction false} RunKeepsHash(w: Setup, s: Sys, events: seq<Event>, id: Id, hash: string)
    requires SysOk(w, s) && HashHeld(s, id, hash) && NeverReset(w, s, events, id)
    ensures var s' := Run(w, WholeRow, s, events);
      && HashHeld(s', id, hash)
      && (s'.db.users[id].emailVerified <==> s.db.users[id].emailVerified || VerifiedIn(w, s, events, id))
  {
    if events != [] {
      var n := |events| - 1;
      LastEvent(w, s, events, id);
      RunKeepsHash(w, s, events[..n], id, hash);
      RunKeepsFrom(w, WholeRow, s, events[..n]);
      assert events[n] == events[n];
      hide SysOk, Next, HashHeld, VerifiedIn, VerifiesRow, ResetsRow;
      NextKeepsHash(w, Run(w, WholeRow, s, events[..n]), events[n], id, hash);
    }
  }

  // A new row is unverified, and no older copy of it exists.
  lemma InsertHoldsHash(w: Setup, s: Sys, c: nat, env: Env)
    requires SysOk(w, s) && Live(s, c) && s.calls[c].pc.RegisterInsert?
    ensures var s' := Next(w, WholeRow, s, Advance(c, env));
      var u := s.calls[c].pc.user;
      s'.calls[c].pc == RegisterIssue(u) ==>
        HashHeld(s', u.id, u.passwordHash) && s'.db.users[u.id] == u && !u.emailVerified
  {
    var u := s.calls[c].pc.user;
    var s' := Next(w, WholeRow, s, Advance(c, env));
    assert CallOk(w, s, c);
    hide SysOk, DbOk, Note, GoodUser;
    forall d | d in s.calls && Writing(s.calls[d].pc) ensures s.calls[d].pc.user.id in s.db.users {
      WriterHasRow(w, s, d);
      hide PcOk, CallOk;
    }
  }

  // Address and password decide the answer, in every reachable state.
  lemma AuthenticateFindsRow(w: Setup, s: Sys, id: Id, raw: string, password: Password)
    requires SysOk(w, s) && id in s.db.users && w.text.normal(raw) == s.db.users[id].email
    requires w.hasher.check(s.db.users[id].passwordHash, password)
    ensures AuthenticateNow(w, s.db, raw, password) ==
      if s.db.users[id].emailVerified then LoggedIn(s.db.users[id]) else Failed(ErrEmailNotVerified)
  {}

  // Whoever inserted the row with a hash of this password, and whatever runs next, as
  // long as it does not reset this user's password: any spelling of the address with
  // the same normal form logs in if and only if a verification write has happened, and
  // is told that the address is unverified otherwise.
  lemma LoginFollowsVerification(w: Setup, s: Sys, c: nat, env: Env, events: seq<Event>, raw: string,
          password: Password, salt: string)
    requires SysOk(w, s) && Live(s, c) && s.calls[c].pc.RegisterInsert?
    requires Next(w, WholeRow, s, Advance(c, env)).calls[c].pc == RegisterIssue(s.calls[c].pc.user)
    requires Sound(w.hasher) && w.hasher.hash(password, salt) == Some(s.calls[c].pc.user.passwordHash)
    requires w.text.normal(raw) == s.calls[c].pc.user.email
    requires NeverReset(w, Next(w, WholeRow, s, Advance(c, env)), events, s.calls[c].pc.user.id)
    ensures var id := s.calls[c].pc.user.id;
      var s1 := Next(w, WholeRow, s, Advance(c, env));
      var s2 := Run(w, WholeRow, s1, events);
      && id in s2.db.users && s2.db.users[id].id == id
      && AuthenticateNow(w, s2.db, raw, password) ==
           if VerifiedIn(w, s1, events, id) then LoggedIn(s2.db.users[id]) else Failed(ErrEmailNotVerified)
  {
    var u := s.calls[c].pc.user;
    var s1 := Next(w, WholeRow, s, Advance(c, env));
    var s2 := Run(w, WholeRow, s1, events);
    InsertHoldsHash(w, s, c, env);
    NextKeeps(w, WholeRow, s, Advance(c, env));
    RunKeepsHash(w, s1, events, u.id, u.passwordHash);
    RunGrows(w, WholeRow, s1, events);
    RunKeepsFrom(w, WholeRow, s1, events);
    assert SameAccount(s1.db.users[u.id], s2.db.users[u.id]);
    assert w.hasher.check(w.hasher.hash(password, salt).value, password);
    hide SysOk, Run, Next, VerifiedIn, NeverReset, Sound, AuthenticateNow;
    AuthenticateFindsRow(w, s2, u.id, raw, password);
    assert SysOk(w, s2);
    RowsCarryTheirIds(w, s2, u.id);
  }

  lemma RowsCarryTheirIds(w: Setup, s: Sys, id: Id)
    requires SysOk(w, s) && id in s.db.users
    ensures s.db.users[id].id == id
  {}

  // ---- One register call, one verify call, in any reachable state ----

  function Steps(w: Setup, s: Sys, c: nat, inputs: nat -> Env, n: nat): Sys
    decreases n
  {
    if n == 0 then s else Steps(w, Next(w, WholeRow, s, Advance(c, inputs(n))), c, inputs, n - 1)
  }

  // The call starts and executes four statements with nothing in between.
  function CallRun(w: Setup, s: Sys, c: nat, req: Request, inputs: nat -> Env): Sys {
    Steps(w, Next(w, WholeRow, s, Start(c, req)), c, inputs, 4)
  }

  lemma StatementOf(w: Setup, s: Sys, c: nat, env: Env)
    requires SysOk(w, s) && Live(s, c)
    ensures var s' := Next(w, WholeRow, s, Advance(c, env));
      var turn := Step(w, WholeRow, s.db, s.calls[c].pc, env);
      && SysOk(w, s') && Grows(s.db, s.history, s'.db, s'.history)
      && if Allowed(s, c, env) then s'.db == turn.db && s'.calls == s.calls[c := Call(turn.pc, turn.reply)] else s' == s
  {
    NextKeeps(w, WholeRow, s, Advance(c, env));
    NextGrows(w, WholeRow, s, Advance(c, env));
    hide SysOk, Grows, Step, Note, Allowed;
  }

  lemma Started(w: Setup, s: Sys, c: nat, req: Request)
    requires SysOk(w, s) && c !in s.calls
    ensures var s' := Next(w, WholeRow, s, Start(c, req));
      SysOk(w, s') && s' == s.(calls := s.calls[c := Call(Begin(req), None)])
  {
    NextKeeps(w, WholeRow, s, Start(c, req));
    hide SysOk;
  }

  lemma StepsUnroll(w: Setup, s: Sys, c: nat, inputs: nat -> Env, n: nat)
    requires n > 0
    ensures Steps(w, s, c, inputs, n) == Steps(w, Next(w, WholeRow, s, Advance(c, inputs(n))), c, inputs, n - 1)
  {}

  lemma AlwaysAllowed(s: Sys, c: nat, env: Env)
    requires c in s.calls && !s.calls[c].pc.RegisterIssue? && !s.calls[c].pc.RequestIssue?
    ensures Allowed(s, c, env)
  {}

  lemma VerifyReads(w: Setup, s: Sys, c: nat, env: Env, token: string, id: Id)
    requires SysOk(w, s) && c in s.calls && s.calls[c] == Call(VerifyRead(token, id), None) && id in s.db.users
    ensures var s' := Next(w, WholeRow, s, Advance(c, env));
      SysOk(w, s') && s'.db == s.db && c in s'.calls && s'.calls[c] == Call(VerifyWrite(token, s.db.users[id]), None)
  {
    hide SysOk, Next, Grows, Step, Allowed;
    AlwaysAllowed(s, c, env);
    StatementOf(w, s, c, env);
    ReadStep(w, s.db, token, id, env);
  }

  lemma VerifyWrites(w: Setup, s: Sys, c: nat, env: Env, token: string, u: User)
    requires SysOk(w, s) && c in s.calls && s.calls[c] == Call(VerifyWrite(token, u), None)
    ensures var s' := Next(w, WholeRow, s, Advance(c, env));
      && SysOk(w, s') && c in s'.calls && s'.calls[c] == Call(VerifyEnd(token), Some(Done))
      && s'.db == s.db.(users := s.db.users[u.id := u.(emailVerified := true)])
  {
    hide SysOk, DbOk, PcOk, Next, StepKept, Grows, Step, Allowed, SameAccount;
    AlwaysAllowed(s, c, env);
    StatementOf(w, s, c, env);
    WriterHasRow(w, s, c);
    RowWrites(w, WholeRow, s.db, s.history, c, s.calls[c].pc, env);
  }

  lemma ReadsAndWrites(w: Setup, s: Sys, c: nat, j: nat -> Env, token: string, id: Id)
    requires SysOk(w, s) && c in s.calls && s.calls[c] == Call(VerifyRead(token, id), None) && id in s.db.users
    ensures var s' := Steps(w, s, c, j, 3);
      && SysOk(w, s') && c in s'.calls && s'.calls[c] == Call(VerifyEnd(token), Some(Done))
      && s'.db == s.db.(users := s.db.users[id := s.db.users[id].(emailVerified := true)])
  {
    RowsCarryTheirIds(w, s, id);
    hide SysOk, Next, Steps;
    var s1 := Next(w, WholeRow, s, Advance(c, j(3)));
    var s2 := Next(w, WholeRow, s1, Advance(c, j(2)));
    VerifyReads(w, s, c, j(3), token, id);
    VerifyWrites(w, s1, c, j(2), token, s.db.users[id]);
    StepsUnroll(w, s, c, j, 3);
    StepsUnroll(w, s1, c, j, 2);
    Finished(w, s2, c, j, 1);
  }

  lemma ReadStep(w: Setup, db: Db, token: string, id: Id, env: Env)
    requires id in db.users
    ensures Step(w, WholeRow, db, VerifyRead(token, id), env) == Turn(db, VerifyWrite(token, db.users[id]), None)
  {}

  lemma Finished(w: Setup, s: Sys, c: nat, inputs: nat -> Env, n: nat)
    requires c in s.calls && s.calls[c].reply.Some?
    ensures Steps(w, s, c, inputs, n) == s
  {}

  lemma TicketOfToken(w: Setup, s: Sys, token: string, now: Time)
    requires SysOk(w, s)
    ensures var k := Ticket(VerifyEmail, token);
      var (db', user) := ConsumeToken(s.db, VerifyEmail, token, now);
      if k in s.history.issued && k !in s.history.consumed && now < s.history.issued[k].expires then
        && s.history.issued[k].user in s.db.users
        && db' == s.db.(verify := s.db.verify - {token}) && user == Some(s.history.issued[k].user)
      else db' == s.db && user == None
  {
    var k := Ticket(VerifyEmail, token);
    assert k in s.history.issued && k !in s.history.consumed <==> token in s.db.verify;
    hide CallOk, UsersOk, EmailsMatch, ConsumedOk, RewritesOk;
  }

  lemma VerifyBegins(w: Setup, s: Sys, token: string, env: Env)
    requires SysOk(w, s)
    ensures var k := Ticket(VerifyEmail, token);
      var turn := Step(w, WholeRow, s.db, Begin(Verify(token)), env);
      if k in s.history.issued && k !in s.history.consumed && env.now < s.history.issued[k].expires then
        && s.history.issued[k].user in s.db.users
        && turn == Turn(s.db.(verify := s.db.verify - {token}), VerifyRead(token, s.history.issued[k].user), None)
      else turn == Turn(s.db, Begin(Verify(token)), Some(Failed(ErrTokenInvalid)))
  {
    hide SysOk, ConsumeToken;
    TicketOfToken(w, s, token, env.now);
  }

  // A verify call succeeds exactly for a token that was issued, has not been consumed
  // and is within its time; then its user is verified and nothing else in the users
  // table changes. Otherwise nothing changes at all.
  lemma VerifySucceedsIff(w: Setup, s: Sys, c: nat, token: string, j: nat -> Env)
    requires SysOk(w, s) && c !in s.calls
    ensures var k := Ticket(VerifyEmail, token);
      var s' := CallRun(w, s, c, Verify(token), j);
      && c in s'.calls
      && if k in s.history.issued && k !in s.history.consumed && j(4).now < s.history.issued[k].expires then
           var id := s.history.issued[k].user;
           && id in s.db.users && s'.calls[c].reply == Some(Done)
           && s'.db.users == s.db.users[id := s.db.users[id].(emailVerified := true)]
         else s'.calls[c].reply == Some(Failed(ErrTokenInvalid)) && s'.db == s.db
  {
    var k := Ticket(VerifyEmail, token);
    hide SysOk, Next, Grows, Step, Steps, Allowed;
    var s1 := Next(w, WholeRow, s, Start(c, Verify(token)));
    var s2 := Next(w, WholeRow, s1, Advance(c, j(4)));
    Started(w, s, c, Verify(token));
    AlwaysAllowed(s1, c, j(4));
    StatementOf(w, s1, c, j(4));
    VerifyBegins(w, s1, token, j(4));
    StepsUnroll(w, s1, c, j, 4);
    if k in s.history.issued && k !in s.history.consumed && j(4).now < s.history.issued[k].expires {
      ReadsAndWrites(w, s2, c, j, token, s.history.issued[k].user);
    } else {
      Finished(w, s2, c, j, 3);
    }
  }

  ghost predicate Pending(s: Sys, c: nat, pc: Pc) {
    c in s.calls && s.calls[c] == Call(pc, None)
  }

  ghost predicate Failing(s: Sys, c: nat) {
    c in s.calls && s.calls[c].reply.Some? && s.calls[c].reply.value.Failed?
  }

  lemma RegisterChecks(w: Setup, db: Db, req: Request, env: Env)
    requires req.Register?
    ensures var turn := Step(w, WholeRow, db, Begin(req), env);
      if turn.reply == None then
        && turn.pc.RegisterInsert? && turn.pc.user.email == w.text.normal(req.email)
        && w.hasher.hash(req.password, env.salt) == Some(turn.pc.user.passwordHash)
      else turn.reply.value.Failed?
  {
    hide FindByEmail;
  }

  lemma RegisterPrepares(w: Setup, s: Sys, c: nat, req: Request, env: Env)
    requires SysOk(w, s) && req.Register? && Pending(s, c, Begin(req))
    ensures var s' := Next(w, WholeRow, s, Advance(c, env));
      && SysOk(w, s')
      && (Failing(s', c) ||
          exists u :: Pending(s', c, RegisterInsert(u)) && u.email == w.text.normal(req.email)
                      && w.hasher.hash(req.password, env.salt) == Some(u.passwordHash))
  {
    hide SysOk, Next, Grows, Allowed, Step;
    AlwaysAllowed(s, c, env);
    StatementOf(w, s, c, env);
    RegisterChecks(w, s.db, req, env);
    var turn := Step(w, WholeRow, s.db, Begin(req), env);
    if turn.reply == None { assert Pending(Next(w, WholeRow, s, Advance(c, env)), c, RegisterInsert(turn.pc.user)); }
  }

  lemma RegisterInserted(w: Setup, s: Sys, c: nat, u: User, env: Env)
    requires SysOk(w, s) && Pending(s, c, RegisterInsert(u))
    ensures var s' := Next(w, WholeRow, s, Advance(c, env));
      && SysOk(w, s')
      && (Failing(s', c) || (Pending(s', c, RegisterIssue(u)) && HashHeld(s', u.id, u.passwordHash)
           && u.id in s'.db.users && s'.db.users[u.id] == u && !u.emailVerified))
  {
    AlwaysAllowed(s, c, env);
    StatementOf(w, s, c, env);
    InsertHoldsHash(w, s, c, env);
    hide SysOk, Next, Grows, Allowed, HashHeld, FindByEmail;
  }

  lemma IssueNoted(h: History, c: nat, u: User, env: Env)
    ensures Note(h, c, RegisterIssue(u), RegisterMail(u, env.token), env) ==
      h.(tick := h.tick + 1,
        issued := h.issued[Ticket(VerifyEmail, env.token) := Issue(u.id, env.now + VERIFY_TTL, h.tick)])
  {}

  lemma MailNoted(h: History, c: nat, before: Pc, after: Pc, env: Env)
    requires before.RegisterMail?
    ensures var h' := Note(h, c, before, after, env);
      h'.issued == h.issued && h'.consumed == h.consumed
  {}

  ghost predicate TokenOut(s: Sys, token: string, id: Id, expires: Time) {
    var k := Ticket(VerifyEmail, token);
    k in s.history.issued && k !in s.history.consumed && s.history.issued[k].user == id
      && s.history.issued[k].expires == expires
  }

  lemma RegisterIssued(w: Setup, s: Sys, c: nat, u: User, env: Env)
    requires SysOk(w, s) && Pending(s, c, RegisterIssue(u)) && HashHeld(s, u.id, u.passwordHash)
    ensures var s' := Next(w, WholeRow, s, Advance(c, env));
      && SysOk(w, s') && HashHeld(s', u.id, u.passwordHash) && s'.db.users == s.db.users
      && (Allowed(s, c, env) ==>
         Pending(s', c, RegisterMail(u, env.token)) && TokenOut(s', env.token, u.id, env.now + VERIFY_TTL))
      && (!Allowed(s, c, env) ==> s' == s)
  {
    hide SysOk, Grows, HashHeld, Note;
    StatementOf(w, s, c, env);
    NextKeepsHash(w, s, Advance(c, env), u.id, u.passwordHash);
    IssueNoted(s.history, c, u, env);
    RowsStay(w, WholeRow, s.db, RegisterIssue(u), env);
    NewTicketIsUnspent(w, s, Ticket(VerifyEmail, env.token));
  }

  lemma NewTicketIsUnspent(w: Setup, s: Sys, k: Ticket)
    requires SysOk(w, s)
    ensures k !in s.history.issued ==> k !in s.history.consumed
  {
    hide UsersOk, EmailsMatch, TokensMatch, IssuedOk, CallOk, RewritesOk;
  }

  lemma RegisterMailed(w: Setup, s: Sys, c: nat, u: User, token: string, env: Env)
    requires SysOk(w, s) && Pending(s, c, RegisterMail(u, token)) && HashHeld(s, u.id, u.passwordHash)
    ensures var s' := Next(w, WholeRow, s, Advance(c, env));
      && SysOk(w, s') && HashHeld(s', u.id, u.passwordHash) && s'.db.users == s.db.users
      && s'.history.issued == s.history.issued && s'.history.consumed == s.history.consumed
      && (Failing(s', c) || (c in s'.calls && s'.calls[c] == Call(RegisterEnd(u), Some(Registered(u)))))
  {
    AlwaysAllowed(s, c, env);
    StatementOf(w, s, c, env);
    NextKeepsHash(w, s, Advance(c, env), u.id, u.passwordHash);
    RowsStay(w, WholeRow, s.db, RegisterMail(u, token), env);
    MailNoted(s.history, c, RegisterMail(u, token), Step(w, WholeRow, s.db, RegisterMail(u, token), env).pc, env);
    hide SysOk, Grows, HashHeld, Note;
  }

  // What a successful registration has left behind.
  ghost predicate Enrolled(w: Setup, s: Sys, req: Request, i: nat -> Env, u: User)
    requires req.Register?
  {
    && SysOk(w, s) && HashHeld(s, u.id, u.passwordHash) && u.id in s.db.users && s.db.users[u.id] == u
       && !u.emailVerified
    && u.email == w.text.normal(req.email) && w.hasher.hash(req.password, i(4).salt) == Some(u.passwordHash)
    && TokenOut(s, i(2).token, u.id, i(2).now + 86_400_000_000_000)
  }

  lemma RegisterSucceeds(w: Setup, s: Sys, c: nat, req: Request, i: nat -> Env, u: User)
    requires SysOk(w, s) && req.Register? && c !in s.calls
    requires var s' := CallRun(w, s, c, req, i); c in s'.calls && s'.calls[c].reply == Some(Registered(u))
    ensures Enrolled(w, CallRun(w, s, c, req, i), req, i, u)
  {
    hide SysOk, Next, Steps, HashHeld, Allowed, TokenOut;
    var s1 := Next(w, WholeRow, s, Start(c, req));
    var s2 := Next(w, WholeRow, s1, Advance(c, i(4)));
    var s3 := Next(w, WholeRow, s2, Advance(c, i(3)));
    var s4 := Next(w, WholeRow, s3, Advance(c, i(2)));
    var s5 := Next(w, WholeRow, s4, Advance(c, i(1)));
    Started(w, s, c, req);
    RegisterPrepares(w, s1, c, req, i(4));
    StepsUnroll(w, s1, c, i, 4);
    if Failing(s2, c) {
      Finished(w, s2, c, i, 3);
    } else {
      var v :| Pending(s2, c, RegisterInsert(v)) && v.email == w.text.normal(req.email)
        && w.hasher.hash(req.password, i(4).salt) == Some(v.passwordHash);
      RegisterInserted(w, s2, c, v, i(3));
      StepsUnroll(w, s2, c, i, 3);
      if Failing(s3, c) {
        Finished(w, s3, c, i, 2);
      } else {
        RegisterIssued(w, s3, c, v, i(2));
        StepsUnroll(w, s3, c, i, 2);
        StepsUnroll(w, s4, c, i, 1);
        StepsEnd(w, s5, c, i);
        if Allowed(s3, c, i(2)) {
          RegisterMailed(w, s4, c, v, i(2).token, i(1));
          TokenStaysOut(s4, s5, i(2).token, v.id, i(2).now + VERIFY_TTL);
        } else {
          RegisterIssued(w, s4, c, v, i(1));
        }
      }
    }
  }

  lemma StepsEnd(w: Setup, s: Sys, c: nat, inputs: nat -> Env)
    ensures Steps(w, s, c, inputs, 0) == s
  {}

  lemma TokenStaysOut(s: Sys, s': Sys, token: string, id: Id, expires: Time)
    requires TokenOut(s, token, id, expires) && s'.history.issued == s.history.issued
      && s'.history.consumed == s.history.consumed
    ensures TokenOut(s', token, id, expires)
  {}

  // ---- The whole story ----

  predicate OfVerify(pc: Pc) {
    (pc.Begin? && pc.req.Verify?) || pc.VerifyRead? || pc.VerifyWrite? || pc.VerifyEnd?
  }

  lemma VerifyStaysVerify(w: Setup, db: Db, pc: Pc, env: Env)
    requires OfVerify(pc)
    ensures OfVerify(Step(w, WholeRow, db, pc, env).pc)
  {}

  lemma VerifyAdvances(w: Setup, s: Sys, c: nat, env: Env, id: Id, hash: string)
    requires SysOk(w, s) && HashHeld(s, id, hash) && c in s.calls && OfVerify(s.calls[c].pc)
    ensures var s' := Next(w, WholeRow, s, Advance(c, env));
      && SysOk(w, s') && HashHeld(s', id, hash) && c in s'.calls && OfVerify(s'.calls[c].pc)
      && Grows(s.db, s.history, s'.db, s'.history)
  {
    NextKeeps(w, WholeRow, s, Advance(c, env));
    NextKeepsHash(w, s, Advance(c, env), id, hash);
    NextGrows(w, WholeRow, s, Advance(c, env));
    VerifyStaysVerify(w, s.db, s.calls[c].pc, env);
    hide SysOk, HashHeld, Grows, Step, Note, Allowed;
  }

  lemma GrowsOn(a: Sys, b: Sys, c: Sys)
    requires Grows(a.db, a.history, b.db, b.history) && Grows(b.db, b.history, c.db, c.history)
    ensures Grows(a.db, a.history, c.db, c.history)
  {}

  lemma {:induction false} VerifyKeepsHash(w: Setup, s: Sys, c: nat, inputs: nat -> Env, n: nat, id: Id, hash: string)
    requires SysOk(w, s) && HashHeld(s, id, hash) && c in s.calls && OfVerify(s.calls[c].pc)
    ensures SysOk(w, Steps(w, s, c, inputs, n)) && HashHeld(Steps(w, s, c, inputs, n), id, hash)
    ensures Grows(s.db, s.history, Steps(w, s, c, inputs, n).db, Steps(w, s, c, inputs, n).history)
    decreases n
  {
    if n == 0 {
      StepsEnd(w, s, c, inputs);
      hide SysOk, HashHeld, Steps;
    } else {
      hide SysOk, HashHeld, Next, Grows, Steps, OfVerify;
      var s' := Next(w, WholeRow, s, Advance(c, inputs(n)));
      StepsUnroll(w, s, c, inputs, n);
      VerifyAdvances(w, s, c, inputs(n), id, hash);
      VerifyKeepsHash(w, s', c, inputs, n - 1, id, hash);
      GrowsOn(s, s', Steps(w, s, c, inputs, n));
    }
  }

  // Row and password of this user, as authentication needs them.
  lemma LoginWorks(w: Setup, s: Sys, u: User, s': Sys, raw: string, password: Password, salt: string)
    requires SysOk(w, s') && HashHeld(s', u.id, u.passwordHash)
    requires u.id in s.db.users && s.db.users[u.id].email == u.email && UsersExtend(s.db.users, s'.db.users)
    requires Sound(w.hasher) && w.hasher.hash(password, salt) == Some(u.passwordHash) && w.text.normal(raw) == u.email
    ensures u.id in s'.db.users && s'.db.users[u.id].id == u.id && s'.db.users[u.id].email == u.email
    ensures AuthenticateNow(w, s'.db, raw, password) ==
      if s'.db.users[u.id].emailVerified then LoggedIn(s'.db.users[u.id]) else Failed(ErrEmailNotVerified)
  {
    assert SameAccount(s.db.users[u.id], s'.db.users[u.id]);
    assert w.hasher.check(w.hasher.hash(password, salt).value, password);
    RowsCarryTheirIds(w, s', u.id);
    hide SysOk, Sound, AuthenticateNow;
    AuthenticateFindsRow(w, s', u.id, raw, password);
  }

  // In any reachable state, register successfully; let anything but a password reset of
  // this user happen; verify with the mailed token within 24 hours of its issue, if
  // nobody used it; let anything but a reset happen again. Then the same password and
  // any spelling of the address with the same normal form log this user in, and between
  // the two they do so exactly if another verification happened, and otherwise report
  // the unverified address.
  lemma RegisterVerifyAuthenticate(w: Setup, before: seq<Event>, c: nat, req: Request, i: nat -> Env, u: User,
                                   between: seq<Event>, d: nat, j: nat -> Env, after: seq<Event>, raw: string)
    requires Sound(w.hasher) && req.Register? && w.text.normal(raw) == w.text.normal(req.email)
    requires c !in Run(w, WholeRow, INITIAL, before).calls
    requires var s1 := CallRun(w, Run(w, WholeRow, INITIAL, before), c, req, i);
      var s2 := Run(w, WholeRow, s1, between);
      var s3 := CallRun(w, s2, d, Verify(i(2).token), j);
      && c in s1.calls && s1.calls[c].reply == Some(Registered(u))
      && NeverReset(w, s1, between, u.id)
      && Ticket(VerifyEmail, i(2).token) !in s2.history.consumed && d !in s2.calls
         && j(4).now < i(2).now + 86_400_000_000_000
      && NeverReset(w, s3, after, u.id)
    ensures var s1 := CallRun(w, Run(w, WholeRow, INITIAL, before), c, req, i);
      var s2 := Run(w, WholeRow, s1, between);
      var s4 := Run(w, WholeRow, CallRun(w, s2, d, Verify(i(2).token), j), after);
      && u.id in s2.db.users && u.id in s4.db.users && s4.db.users[u.id].id == u.id
      && AuthenticateNow(w, s2.db, raw, req.password) ==
           (if VerifiedIn(w, s1, between, u.id) then LoggedIn(s2.db.users[u.id]) else Failed(ErrEmailNotVerified))
      && AuthenticateNow(w, s4.db, raw, req.password) == LoggedIn(s4.db.users[u.id])
  {
    hide Run, CallRun, SysOk, HashHeld, NeverReset, VerifiedIn, Sound, AuthenticateNow;
    var s0 := Run(w, WholeRow, INITIAL, before);
    RunKeeps(w, WholeRow, before);
    RegisterSucceeds(w, s0, c, req, i, u);
    var s1 := CallRun(w, s0, c, req, i);
    Stretch(w, s1, between, u);
    var s2 := Run(w, WholeRow, s1, between);
    LoginWorks(w, s1, u, s2, raw, req.password, i(4).salt);
    var s3 := CallRun(w, s2, d, Verify(i(2).token), j);
    VerifySucceedsIff(w, s2, d, i(2).token, j);
    VerifyRunKeeps(w, s2, d, i(2).token, j, u);
    Stretch(w, s3, after, u);
    var s4 := Run(w, WholeRow, s3, after);
    LoginWorks(w, s3, u, s4, raw, req.password, i(4).salt);
  }

  // Any run without a reset of this user.
  lemma Stretch(w: Setup, s: Sys, events: seq<Event>, u: User)
    requires SysOk(w, s) && HashHeld(s, u.id, u.passwordHash) && NeverReset(w, s, events, u.id)
    ensures var s' := Run(w, WholeRow, s, events);
      && SysOk(w, s') && HashHeld(s', u.id, u.passwordHash) && Grows(s.db, s.history, s'.db, s'.history)
      && (s'.db.users[u.id].emailVerified <==> s.db.users[u.id].emailVerified || VerifiedIn(w, s, events, u.id))
  {
    RunKeepsHash(w, s, events, u.id, u.passwordHash);
    RunGrows(w, WholeRow, s, events);
    RunKeepsFrom(w, WholeRow, s, events);
    hide SysOk, Run, Grows, NeverReset, VerifiedIn;
  }

  lemma VerifyRunKeeps(w: Setup, s: Sys, d: nat, token: string, j: nat -> Env, u: User)
    requires SysOk(w, s) && HashHeld(s, u.id, u.passwordHash) && d !in s.calls
    ensures var s' := CallRun(w, s, d, Verify(token), j);
      && SysOk(w, s') && HashHeld(s', u.id, u.passwordHash)
      && UsersExtend(s.db.users, s'.db.users)
  {
    var s1 := Next(w, WholeRow, s, Start(d, Verify(token)));
    Started(w, s, d, Verify(token));
    NextKeepsHash(w, s, Start(d, Verify(token)), u.id, u.passwordHash);
    hide SysOk, HashHeld, Steps;
    VerifyKeepsHash(w, s1, d, j, 4, u.id, u.passwordHash);
  }
}
