// Any number of session calls in flight, with logins happening in Hydra meanwhile. A
// statement may fail, its acknowledgement may be lost, and a call may stop anywhere.
module SessionSystem {
  import opened Common
  import opened SessionTables
  import opened SessionCalls

  datatype Call = Call(pc: Pc, reply: Option<Reply>)

  // What happened to the sessions table, in order.
  datatype Entry = Recorded(session: Session) | EndStatement(target: Target, now: Time)

  // Observations; no statement reads them.
  datatype History = History(
    tick: nat,
    loggedIn: map<string, nat>,                       // when each sid was created
    revokedAll: map<nat, nat>,                        // when a TerminateAll call revoked
    origins: map<Id, (string, ConsentRequest)>,       // the consent each row came from
    log: seq<Entry>)

  datatype Sys = Sys(db: Db, calls: map<nat, Call>, history: History)

  const INITIAL := Sys(EMPTY, map[], History(0, map[], map[], map[], []))

  datatype Event =
    | NewUser(user: Id)
    | Login(sid: string, subject: Id)
    | Start(call: nat, req: Request)
    | Advance(call: nat, env: Env)
    | LoseAck(call: nat, env: Env)
    | Fail(call: nat)

  function Note(h: History, c: nat, db: Db, pc: Pc, env: Env): History {
    var next := h.(tick := h.tick + 1);
    match pc
    case Begin(TerminateAll(_)) => if env.hydraOk then next.(revokedAll := h.revokedAll[c := h.tick]) else next
    case Begin(EndBySid(sid)) => next.(log := h.log + [EndStatement(BySid(sid), env.now)])
    case TermMark(session) => next.(log := h.log + [EndStatement(ById(session), env.now)])
    case AllMark(user) => next.(log := h.log + [EndStatement(ByUser(user), env.now)])
    case ConsentRecord(challenge, consent, userAgent, ip) =>
      var s := NewSession(consent, userAgent, ip, env);
      if InsertSession(db, s).err == None then
        next.(log := h.log + [Recorded(s)], origins := h.origins[s.id := (challenge, consent)])
      else next
    case _ => next
  }

  // A consent request names no login session, or one of its own subject.
  predicate Allowed(s: Sys, c: nat, env: Env)
    requires c in s.calls
  {
    s.calls[c].pc.Begin? && s.calls[c].pc.req.Consent? && env.consent.loginSessionId != "" ==>
      env.consent.loginSessionId in s.db.logins
        && s.db.logins[env.consent.loginSessionId].subject == env.consent.subject
  }

  function Perform(s: Sys, c: nat, env: Env, lost: bool): Sys
    requires c in s.calls
  {
    var turn := Step(s.db, s.calls[c].pc, env);
    var reply := if lost then Some(Failed(StoreError)) else turn.reply;
    Sys(turn.db, s.calls[c := Call(turn.pc, reply)], Note(s.history, c, s.db, s.calls[c].pc, env))
  }

  predicate Live(s: Sys, c: nat) {
    c in s.calls && s.calls[c].reply == None
  }

  function Next(s: Sys, e: Event): Sys {
    match e
    case NewUser(u) => s.(db := s.db.(users := s.db.users + {u}))
    case Login(sid, subject) =>
      if sid == "" || sid in s.db.logins then s
      else s.(db := s.db.(logins := s.db.logins[sid := SessionTables.Login(subject, false)]),
              history := s.history.(tick := s.history.tick + 1, loggedIn := s.history.loggedIn[sid := s.history.tick]))
    case Start(c, req) => if c in s.calls then s else s.(calls := s.calls[c := Call(Begin(req), None)])
    case Advance(c, env) => if Live(s, c) && Allowed(s, c, env) then Perform(s, c, env, false) else s
    case LoseAck(c, env) => if Live(s, c) && Allowed(s, c, env) then Perform(s, c, env, true) else s
    case Fail(c) => if Live(s, c) then s.(calls := s.calls[c := s.calls[c].(reply := Some(Failed(StoreError)))]) else s
  }

  function Run(s: Sys, events: seq<Event>): Sys {
    if events == [] then s else Next(Run(s, events[..|events| - 1]), events[|events| - 1])
  }
}
