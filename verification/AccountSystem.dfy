// Any number of account calls in flight over one users table and one token store. The
// scheduler may let a statement fail, lose its acknowledgement, or abandon a call.
// Generated tokens are assumed fresh: an issue with a used token does not happen.
module AccountSystem {
  import opened Common
  import opened AccountTables
  import opened AccountCalls

  datatype Call = Call(pc: Pc, reply: Option<Reply>)

  datatype Ticket = Ticket(purpose: Purpose, token: string)

  datatype Issue = Issue(user: Id, expires: Time, at: nat)

  // A successful consume: for whom, at which clock reading, when, and by which call.
  datatype Use = Use(user: Id, now: Time, at: nat, call: nat)

  // A row update executed by ResetPassword.
  datatype Rewrite = Rewrite(user: Id, token: string, call: nat)

  // Observations; no statement reads them.
  datatype History = History(
    tick: nat,
    issued: map<Ticket, Issue>,
    consumed: map<Ticket, Use>,
    rewrites: seq<Rewrite>,
    writes: map<Id, nat>,          // updates of a user's row so far
    readAt: map<nat, nat>,         // that count when the call read its copy
    settled: map<Id, string>)      // hash from registration or the latest reset update

  datatype Sys = Sys(db: Db, calls: map<nat, Call>, history: History)

  const INITIAL := Sys(EMPTY, map[], History(0, map[], map[], [], map[], map[], map[]))

  datatype Event =
    | Start(call: nat, req: Request)
    | Advance(call: nat, env: Env)
    | Fail(call: nat)
    | LoseAck(call: nat, env: Env)

  function Count(writes: map<Id, nat>, id: Id): nat {
    if id in writes then writes[id] else 0
  }

  function Note(h: History, c: nat, before: Pc, after: Pc, env: Env): History {
    var next := h.(tick := h.tick + 1);
    match after
    case RegisterIssue(u) =>
      if before.RegisterInsert? then next.(writes := h.writes[u.id := 0], settled := h.settled[u.id := u.passwordHash])
        else next
    case RegisterMail(u, token) =>
      if before.RegisterIssue?
        then next.(issued := h.issued[Ticket(VerifyEmail, token) := Issue(u.id, env.now + VERIFY_TTL, h.tick)])
        else next
    case RequestMail(u, token) =>
      if before.RequestIssue?
        then next.(issued := h.issued[Ticket(PasswordReset, token) := Issue(u.id, env.now + RESET_TTL, h.tick)])
        else next
    case VerifyRead(token, userId) =>
      if before.Begin? then next.(consumed := h.consumed[Ticket(VerifyEmail, token) := Use(userId, env.now, h.tick,
        c)]) else next
    case ResetRead(token, userId, _) =>
      if before.Begin? then next.(consumed := h.consumed[Ticket(PasswordReset, token) := Use(userId, env.now, h.tick,
        c)]) else next
    case VerifyWrite(_, u) =>
      if before.VerifyRead? then next.(readAt := h.readAt[c := Count(h.writes, u.id)]) else next
    case ResetWrite(_, u, _) =>
      if before.ResetRead? then next.(readAt := h.readAt[c := Count(h.writes, u.id)]) else next
    case VerifyEnd(_) =>
      if before.VerifyWrite? then next.(writes := h.writes[before.user.id := Count(h.writes, before.user.id) + 1])
        else next
    case ResetEnd(token) =>
      if before.ResetWrite? then
        next.(writes := h.writes[before.user.id := Count(h.writes, before.user.id) + 1],
              rewrites := h.rewrites + [Rewrite(before.user.id, token, c)],
              settled := h.settled[before.user.id := before.hash])
      else next
    case _ => next
  }

  // The freshness assumption on generated tokens.
  predicate Allowed(s: Sys, c: nat, env: Env)
    requires c in s.calls
  {
    && (s.calls[c].pc.RegisterIssue? ==> Ticket(VerifyEmail, env.token) !in s.history.issued)
    && (s.calls[c].pc.RequestIssue? ==> Ticket(PasswordReset, env.token) !in s.history.issued)
  }

  function Perform(w: Setup, mode: Mode, s: Sys, c: nat, env: Env, lost: bool): Sys
    requires c in s.calls
  {
    var turn := Step(w, mode, s.db, s.calls[c].pc, env);
    var reply := if lost then Some(Failed(StoreError)) else turn.reply;
    Sys(turn.db, s.calls[c := Call(turn.pc, reply)], Note(s.history, c, s.calls[c].pc, turn.pc, env))
  }

  predicate Live(s: Sys, c: nat) {
    c in s.calls && s.calls[c].reply == None
  }

  function Next(w: Setup, mode: Mode, s: Sys, e: Event): Sys {
    match e
    case Start(c, req) => if c in s.calls then s else s.(calls := s.calls[c := Call(Begin(req), None)])
    case Advance(c, env) => if Live(s, c) && Allowed(s, c, env) then Perform(w, mode, s, c, env, false) else s
    case LoseAck(c, env) => if Live(s, c) && Allowed(s, c, env) then Perform(w, mode, s, c, env, true) else s
    case Fail(c) => if Live(s, c) then s.(calls := s.calls[c := s.calls[c].(reply := Some(Failed(StoreError)))]) else s
  }

  function Run(w: Setup, mode: Mode, s: Sys, events: seq<Event>): Sys {
    if events == [] then s else Next(w, mode, Run(w, mode, s, events[..|events| - 1]), events[|events| - 1])
  }
}
