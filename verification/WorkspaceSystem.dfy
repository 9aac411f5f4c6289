// Any number of workspace calls in flight at once over one database. A scheduler
// chooses which call executes its next statement; it may let a statement fail, let
// it take effect and then report an error, or never return to a call at all.
module WorkspaceSystem {
  import opened Common
  import opened Strings
  import opened WorkspaceTables
  import opened WorkspaceCalls

  datatype Call = Call(pc: Pc, reply: Option<Reply>)

  // How a member row came about: through which invite, if any, and when.
  datatype Join = Join(at: nat, via: Option<Id>)

  // Who issued an invite, and when.
  datatype Sent = Sent(at: nat, sender: Id)

  // What an observer of the run writes down; no statement reads it.
  datatype History = History(
    tick: nat,
    makers: map<Id, nat>,        // workspace -> the call that inserted it
    joins: map<Id, Join>,        // member row
    sent: map<Id, Sent>,         // invite row
    acceptedBy: map<Id, Id>,     // accepted invite -> a member row made from it
    unitAt: map<Id, nat>)        // org unit row -> when it was inserted

  datatype Sys = Sys(db: Db, calls: map<nat, Call>, history: History)

  const INITIAL := Sys(EMPTY, map[], History(0, map[], map[], map[], map[], map[]))

  datatype Event =
    | NewUser(user: Id)
    | Start(call: nat, req: Request)
    | Advance(call: nat, env: Env)      // execute the call's next statement
    | Fail(call: nat)                   // that statement fails: the call returns an error
    | LoseAck(call: nat, env: Env)      // the statement takes effect, yet the call sees an error

  function Note(h: History, call: nat, before: Pc, after: Pc): History {
    var next := h.(tick := h.tick + 1);
    match after
    case OwnerInsert(ws) => if before.WsInsert? then next.(makers := h.makers[ws.id := call]) else next
    case AcceptMark(i, memberId) =>
      if before.AcceptInsert? then next.(joins := h.joins[memberId := Join(h.tick, Some(i.id))]) else next
    case InviteMail(i) =>
      if before.InviteInsert? then next.(sent := h.sent[i.id := Sent(h.tick, before.user)]) else next
    case Accepted(i, memberId) =>
      if before.AcceptMark? then next.(acceptedBy := h.acceptedBy[i.id := memberId]) else next
    case UnitCreated(u) => if before.UnitInsert? then next.(unitAt := h.unitAt[u.id := h.tick]) else next
    case _ => next
  }

  function NoteOwner(h: History, before: Pc, after: Pc, env: Env): History {
    if before.OwnerInsert? && after.WsCreated? then h.(joins := h.joins[env.id := Join(h.tick, None)]) else h
  }

  function Perform(t: Ops, s: Sys, c: nat, env: Env, lost: bool): Sys
    requires c in s.calls
  {
    var turn := Step(t, s.db, s.calls[c].pc, env);
    var reply := if lost then Some(Failed(DatabaseError)) else turn.reply;
    Sys(turn.db, s.calls[c := Call(turn.pc, reply)],
        Note(NoteOwner(s.history, s.calls[c].pc, turn.pc, env), c, s.calls[c].pc, turn.pc))
  }

  predicate Live(s: Sys, c: nat) {
    c in s.calls && s.calls[c].reply == None
  }

  function Next(t: Ops, s: Sys, e: Event): Sys {
    match e
    case NewUser(u) => s.(db := s.db.(users := s.db.users + {u}))
    case Start(c, req) => if c in s.calls then s else s.(calls := s.calls[c := Call(Begin(req), None)])
    case Advance(c, env) => if Live(s, c) then Perform(t, s, c, env, false) else s
    case LoseAck(c, env) => if Live(s, c) then Perform(t, s, c, env, true) else s
    case Fail(c) => if Live(s, c) then s.(calls := s.calls[c := s.calls[c].(reply := Some(Failed(DatabaseError)))])
      else s
  }

  function Run(t: Ops, s: Sys, events: seq<Event>): Sys {
    if events == [] then s else Next(t, Run(t, s, events[..|events| - 1]), events[|events| - 1])
  }
}
