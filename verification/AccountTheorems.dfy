// What the account machine guarantees over every run, whatever the interleaving.
module AccountTheorems {
  import opened Common
  import opened AccountTables
  import opened AccountCalls
  import opened AccountSystem
  import opened AccountInvariant
  import opened AccountRuns

  // ---- Rows and copies ----

  // The user value a call holds at this point, stored or not.
  function Copy(pc: Pc): Option<User> {
    match pc
    case RegisterInsert(u) => Some(u)
    case RegisterIssue(u) => Some(u)
    case RegisterMail(u, _) => Some(u)
    case RegisterEnd(u) => Some(u)
    case RequestIssue(u) => Some(u)
    case RequestMail(u, _) => Some(u)
    case RequestEnd(u) => Some(u)
    case VerifyWrite(_, u) => Some(u)
    case ResetWrite(_, u, _) => Some(u)
    case _ => None
  }

  ghost predicate HeldCopyIsSound(w: Setup, s: Sys, c: nat)
    requires c in s.calls && Copy(s.calls[c].pc).Some?
  {
    var u := Copy(s.calls[c].pc).value;
    && GoodUser(w, s.history, u)
    && (!s.calls[c].pc.RegisterInsert? ==> u.id in s.db.users && SameAccount(s.db.users[u.id], u))
  }

  // In every interleaved or stopped run: addresses are pairwise distinct, and every
  // user value, stored or held by an unfinished call, has a normalised address with an
  // '@', a hash made from at least eight bytes, and, if verified, a verification token
  // of its own consumed.
  lemma AccountsUnderInterleaving(w: Setup, mode: Mode, events: seq<Event>)
    ensures var s := Run(w, mode, INITIAL, events);
      && (forall id | id in s.db.users :: s.db.users[id].id == id && GoodUser(w, s.history, s.db.users[id]))
      && (forall a, b | a in s.db.users && b in s.db.users && s.db.users[a].email == s.db.users[b].email :: a == b)
      && (forall c | c in s.calls && Copy(s.calls[c].pc).Some? :: HeldCopyIsSound(w, s, c))
  {
    RunKeeps(w, mode, events);
    hide Run, GoodUser, SameAccount;
    var s := Run(w, mode, INITIAL, events);
    forall c | c in s.calls && Copy(s.calls[c].pc).Some? ensures HeldCopyIsSound(w, s, c) { assert CallOk(w, s, c); }
  }

  lemma NextGrows(w: Setup, mode: Mode, s: Sys, e: Event)
    requires SysOk(w, s)
    ensures var s' := Next(w, mode, s, e);
      Grows(s.db, s.history, s'.db, s'.history)
  {
    hide SysOk, DbOk, PcOk, Note, Step;
    match e
    case Advance(c, env) => if Live(s, c) && Allowed(s, c, env) { PerformKeeps(w, mode, s, c, env, false); }
    case LoseAck(c, env) => if Live(s, c) && Allowed(s, c, env) { PerformKeeps(w, mode, s, c, env, true); }
    case _ =>
  }

  lemma {:induction false} RunGrows(w: Setup, mode: Mode, s: Sys, events: seq<Event>)
    requires SysOk(w, s)
    ensures var s' := Run(w, mode, s, events);
      Grows(s.db, s.history, s'.db, s'.history)
  {
    if events != [] {
      var before := Run(w, mode, s, events[..|events| - 1]);
      RunGrows(w, mode, s, events[..|events| - 1]);
      RunKeepsFrom(w, mode, s, events[..|events| - 1]);
      NextGrows(w, mode, before, events[|events| - 1]);
      hide SysOk, Next;
    }
  }

  // From any reachable state on, an account never disappears and nothing about it but
  // the verified flag and the hash ever changes; in particular not its address.
  lemma AccountsKeepIdentity(w: Setup, mode: Mode, events: seq<Event>, more: seq<Event>, id: Id)
    ensures var s := Run(w, mode, INITIAL, events);
      var s' := Run(w, mode, s, more);
      id in s.db.users ==>
        id in s'.db.users && s'.db.users[id] ==
          s.db.users[id].(emailVerified := s'.db.users[id].emailVerified, passwordHash := s'.db.users[id].passwordHash)
  {
    RunKeeps(w, mode, events);
    RunGrows(w, mode, Run(w, mode, INITIAL, events), more);
    hide Run, SysOk;
  }

  // ---- Tokens ----

  // A consume succeeds exactly for a token that was issued for that purpose, has not
  // been consumed and has not expired, and it then answers the user it was issued to.
  lemma ConsumeSucceedsIff(w: Setup, mode: Mode, events: seq<Event>, p: Purpose, token: string, now: Time)
    ensures var s := Run(w, mode, INITIAL, events);
      var k := Ticket(p, token);
      ConsumeToken(s.db, p, token, now).1 ==
        if k in s.history.issued && k !in s.history.consumed && now < s.history.issued[k].expires
        then Some(s.history.issued[k].user) else None
  {
    RunKeeps(w, mode, events);
    hide Run, UsersOk, EmailsMatch, IssuedOk, ConsumedOk;
    var s := Run(w, mode, INITIAL, events);
    var k := Ticket(p, token);
    assert k in s.history.issued && k !in s.history.consumed <==> token in TokensOf(s.db, p);
  }

  // Every successful consume belongs to an earlier issue of the same token, for the
  // same purpose and user, that had not expired.
  lemma ConsumesFollowIssues(w: Setup, mode: Mode, events: seq<Event>)
    ensures var h := Run(w, mode, INITIAL, events).history;
      forall k | k in h.consumed ::
        && k in h.issued && h.issued[k].at < h.consumed[k].at
        && h.consumed[k].user == h.issued[k].user && h.consumed[k].now < h.issued[k].expires
  {
    RunKeeps(w, mode, events);
    hide Run, UsersOk, EmailsMatch, IssuedOk, TokensMatch;
  }

  function RewritesOf(h: History, id: Id): set<nat> {
    set i: nat | i < |h.rewrites| && h.rewrites[i].user == id
  }

  function ResetTokensOf(h: History, id: Id): set<Ticket> {
    set k | k in h.issued && k.purpose == PasswordReset && h.issued[k].user == id
  }

  // Password rewrites of a user never outnumber the reset tokens issued to that user.
  lemma RewritesNeverOutnumberResetTokens(w: Setup, mode: Mode, events: seq<Event>, id: Id)
    ensures var h := Run(w, mode, INITIAL, events).history;
      |RewritesOf(h, id)| <= |ResetTokensOf(h, id)|
  {
    RunKeeps(w, mode, events);
    hide Run, UsersOk, EmailsMatch, IssuedOk, TokensMatch, CallOk;
    var s := Run(w, mode, INITIAL, events);
    var h := s.history;
    var ticket := map i: nat | i < |h.rewrites| :: Ticket(PasswordReset, h.rewrites[i].token);
    forall i | i in RewritesOf(h, id) ensures ticket[i] in ResetTokensOf(h, id) {
      assert RewriteOk(s, i);
    }
    InjectionBounds(RewritesOf(h, id), ResetTokensOf(h, id), ticket);
  }
}
