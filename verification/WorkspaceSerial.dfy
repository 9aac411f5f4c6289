// Serial runs: each call completes before the next one starts, no statement fails
// for outside reasons and no acknowledgement is lost.
module WorkspaceSerial {
  import opened Common
  import opened Strings
  import opened WorkspaceTables
  import opened WorkspaceCalls
  import opened WorkspaceSystem
  import opened WorkspaceInvariant
  import opened WorkspaceRuns
  import opened WorkspaceTheorems

  // One call: what is asked, and what the outside supplies at each of its statements.
  datatype Job = Job(req: Request, inputs: nat -> Env)

  // A call let run to its return, inside the system.
  function Complete(t: Ops, s: Sys, c: nat, inputs: nat -> Env): (r: Sys)
    requires Live(s, c)
    ensures r.calls.Keys == s.calls.Keys
    decreases Remaining(s.calls[c].pc)
  {
    var s' := Perform(t, s, c, inputs(Remaining(s.calls[c].pc)), false);
    if s'.calls[c].reply.Some? then s' else Complete(t, s', c, inputs)
  }

  function Serial(t: Ops, users: set<Id>, jobs: seq<Job>): (s: Sys)
    ensures forall c | c in s.calls :: c < |jobs|
    decreases |jobs|
  {
    if jobs == [] then INITIAL.(db := EMPTY.(users := users))
    else
      var n := |jobs| - 1;
      var s := Serial(t, users, jobs[..n]);
      Complete(t, s.(calls := s.calls[n := Call(Begin(jobs[n].req), None)]), n, jobs[n].inputs)
  }

  // ---- A serial run is one of the runs of the system ----

  lemma {:induction false} RunAppends(t: Ops, s: Sys, a: seq<Event>, b: seq<Event>)
    ensures Run(t, s, a + b) == Run(t, Run(t, s, a), b)
  {
    if b == [] {
      assert a + b == a;
    } else {
      var n := |b| - 1;
      RunAppends(t, s, a, b[..n]);
      assert (a + b)[..|a + b| - 1] == a + b[..n];
    }
  }

  lemma {:induction false} CompleteIsARun(t: Ops, s: Sys, c: nat, inputs: nat -> Env) returns (events: seq<Event>)
    requires Live(s, c)
    ensures Run(t, s, events) == Complete(t, s, c, inputs)
    decreases Remaining(s.calls[c].pc)
  {
    var e := Advance(c, inputs(Remaining(s.calls[c].pc)));
    var s' := Next(t, s, e);
    assert Run(t, s, [e]) == s' by { assert [e][..0] == []; }
    if s'.calls[c].reply.Some? {
      events := [e];
    } else {
      var rest := CompleteIsARun(t, s', c, inputs);
      RunAppends(t, s, [e], rest);
      events := [e] + rest;
    }
  }

  lemma {:induction false} UsersAreARun(t: Ops, users: set<Id>) returns (events: seq<Event>)
    ensures Run(t, INITIAL, events) == INITIAL.(db := EMPTY.(users := users))
  {
    if users == {} {
      events := [];
    } else {
      var u :| u in users;
      var front := UsersAreARun(t, users - {u});
      events := front + [NewUser(u)];
      assert events[..|events| - 1] == front;
      assert users - {u} + {u} == users;
    }
  }

  lemma {:induction false} SerialIsARun(t: Ops, users: set<Id>, jobs: seq<Job>) returns (events: seq<Event>)
    ensures Run(t, INITIAL, events) == Serial(t, users, jobs)
  {
    if jobs == [] {
      events := UsersAreARun(t, users);
    } else {
      var n := |jobs| - 1;
      var front := SerialIsARun(t, users, jobs[..n]);
      var s := Serial(t, users, jobs[..n]);
      var e := Start(n, jobs[n].req);
      var s' := Next(t, s, e);
      assert Run(t, s, [e]) == s' by { assert [e][..0] == []; }
      var rest := CompleteIsARun(t, s', n, jobs[n].inputs);
      RunAppends(t, s, [e], rest);
      RunAppends(t, INITIAL, front, [e] + rest);
      events := front + ([e] + rest);
    }
  }

  // ---- Invite accounting is exact in serial runs ----

  // A row made from invite i is the one recorded as its acceptance.
  ghost predicate Closed(db: Db, h: History, k: Id, i: Id) {
    i in db.invites && db.invites[i].acceptedAt.Some? && i in h.acceptedBy && h.acceptedBy[i] == k
  }

  // Every member that came through an invite has closed it, except for the one call
  // that is between its insert and its update.
  ghost predicate ClosedBut(db: Db, h: History, pc: Pc) {
    && (forall k {:trigger h.joins[k]} | k in h.joins && h.joins[k].via.Some? ::
          Closed(db, h, k, h.joins[k].via.value)
            || (pc.AcceptMark? && k == pc.memberId && pc.invite.id == h.joins[k].via.value))
    && (pc.AcceptInsert? || pc.AcceptMark? ==>
       pc.invite.id in db.invites && db.invites[pc.invite.id].acceptedAt == None)
  }

  // A position that relies on nothing, for a call that has returned.
  function Finished(): Pc {
    Assigned("", "")
  }

  function Where(turn: Turn): Pc {
    if turn.reply.Some? then Finished() else turn.pc
  }

  lemma ReadsClose(t: Ops, db: Db, h: History, c: nat, pc: Pc, env: Env)
    requires Indexed(db) && ClosedBut(db, h, pc) && !Writes(pc)
    ensures var turn := Step(t, db, pc, env); ClosedBut(turn.db, Noted(h, c, pc, turn.pc, env), Where(turn))
  {
    hide ClosedBut;
    ReadsChangeNothing(t, db, h, c, pc, env);
    var turn := Step(t, db, pc, env);
    if turn.pc.AcceptInsert? && turn.reply == None {
      assert db.invites[db.tokens[pc.req.token]].id == db.tokens[pc.req.token];
      SameRowsClosed(db, h, pc, turn.pc);
    } else {
      SameRowsClosed(db, h, pc, Where(turn));
    }
  }

  lemma SameRowsClosed(db: Db, h: History, pc: Pc, pc': Pc)
    requires ClosedBut(db, h, pc) && !pc.AcceptMark? && !pc'.AcceptMark?
    requires pc'.AcceptInsert? ==> pc'.invite.id in db.invites && db.invites[pc'.invite.id].acceptedAt == None
    ensures ClosedBut(db, h.(tick := h.tick + 1), pc')
  {}

  // Inserting a row keeps what is closed; the newcomer is closed or about to be.
  lemma ClosedWithMember(db: Db, h: History, pc: Pc, m: Member, join: Join, pc': Pc)
    requires HistoryFits(db, h) && ClosedBut(db, h, pc) && !pc.AcceptMark? && m.id !in db.members
    requires if join.via.Some? then pc'.AcceptMark? && pc'.memberId == m.id && pc'.invite.id == join.via.value
               && pc.AcceptInsert? && pc.invite == pc'.invite
             else !pc'.AcceptInsert? && !pc'.AcceptMark?
    ensures ClosedBut(WithMember(db, m), h.(tick := h.tick + 1, joins := h.joins[m.id := join]), pc')
  {}

  lemma OwnerInsertSteps(t: Ops, db: Db, h: History, c: nat, pc: Pc, env: Env)
    requires pc.OwnerInsert?
    ensures var turn := Step(t, db, pc, env);
      if InsertMember(db, NewOwner(pc.ws, env)).err == None then
        && turn == Turn(WithMember(db, NewOwner(pc.ws, env)), WsCreated(pc.ws), Some(Made(pc.ws)))
           && env.id !in db.members
        && Noted(h, c, pc, turn.pc, env) == h.(tick := h.tick + 1, joins := h.joins[env.id := Join(h.tick, None)])
      else turn.db == db && turn.pc == pc && turn.reply.Some? && Noted(h, c, pc, turn.pc, env) == h.(tick := h.tick + 1)
  {}

  lemma AcceptInsertSteps(t: Ops, db: Db, h: History, c: nat, pc: Pc, env: Env)
    requires pc.AcceptInsert?
    ensures var turn := Step(t, db, pc, env);
      if InsertMember(db, Invited(pc.invite, pc.user, env)).err == None then
        && turn == Turn(WithMember(db, Invited(pc.invite, pc.user, env)), AcceptMark(pc.invite, env.id), None)
           && env.id !in db.members
        && Noted(h, c, pc, turn.pc, env) ==
           h.(tick := h.tick + 1, joins := h.joins[env.id := Join(h.tick, Some(pc.invite.id))])
      else turn.db == db && turn.pc == pc && turn.reply.Some? && Noted(h, c, pc, turn.pc, env) == h.(tick := h.tick + 1)
  {}

  lemma InsertsClose(t: Ops, db: Db, h: History, c: nat, pc: Pc, env: Env)
    requires HistoryFits(db, h) && ClosedBut(db, h, pc) && (pc.OwnerInsert? || pc.AcceptInsert?)
    ensures var turn := Step(t, db, pc, env); ClosedBut(turn.db, Noted(h, c, pc, turn.pc, env), Where(turn))
  {
    hide ClosedBut, HistoryFits, Step, Noted, InsertMember, WithMember;
    if pc.OwnerInsert? {
      OwnerInsertSteps(t, db, h, c, pc, env);
      if InsertMember(db, NewOwner(pc.ws, env)).err == None {
        ClosedWithMember(db, h, pc, NewOwner(pc.ws, env), Join(h.tick, None), Finished());
      } else {
        SameRowsClosed(db, h, pc, Finished());
      }
    } else {
      AcceptInsertSteps(t, db, h, c, pc, env);
      if InsertMember(db, Invited(pc.invite, pc.user, env)).err == None {
        ClosedWithMember(db, h, pc, Invited(pc.invite, pc.user, env), Join(h.tick, Some(pc.invite.id)),
          AcceptMark(pc.invite, env.id));
      } else {
        SameRowsClosed(db, h, pc, Finished());
      }
    }
  }

  lemma MarkCloses(t: Ops, db: Db, h: History, c: nat, pc: Pc, env: Env)
    requires ClosedBut(db, h, pc) && pc.AcceptMark?
    ensures var turn := Step(t, db, pc, env); ClosedBut(turn.db, Noted(h, c, pc, turn.pc, env), Where(turn))
  {}

  lemma OtherWritesSpareInvites(t: Ops, db: Db, h: History, c: nat, pc: Pc, env: Env)
    requires Writes(pc) && !pc.OwnerInsert? && !pc.AcceptInsert? && !pc.AcceptMark?
    ensures var turn := Step(t, db, pc, env);
      var h' := Noted(h, c, pc, turn.pc, env);
      && Extends(db.invites, turn.db.invites) && h'.joins == h.joins && h'.acceptedBy == h.acceptedBy
      && !Where(turn).AcceptInsert? && !Where(turn).AcceptMark?
  {}

  lemma ClosedGrows(db: Db, h: History, db': Db, h': History, pc: Pc, pc': Pc)
    requires ClosedBut(db, h, pc) && !pc.AcceptMark? && !pc'.AcceptInsert? && !pc'.AcceptMark?
    requires Extends(db.invites, db'.invites) && h'.joins == h.joins && h'.acceptedBy == h.acceptedBy
    ensures ClosedBut(db', h', pc')
  {}

  lemma OtherWritesClose(t: Ops, db: Db, h: History, c: nat, pc: Pc, env: Env)
    requires ClosedBut(db, h, pc) && Writes(pc) && !pc.OwnerInsert? && !pc.AcceptInsert? && !pc.AcceptMark?
    ensures var turn := Step(t, db, pc, env); ClosedBut(turn.db, Noted(h, c, pc, turn.pc, env), Where(turn))
  {
    hide Step, Noted, ClosedBut, Extends;
    var turn := Step(t, db, pc, env);
    OtherWritesSpareInvites(t, db, h, c, pc, env);
    ClosedGrows(db, h, turn.db, Noted(h, c, pc, turn.pc, env), pc, Where(turn));
  }

  lemma StepCloses(t: Ops, db: Db, h: History, c: nat, pc: Pc, env: Env)
    requires Indexed(db) && HistoryFits(db, h) && ClosedBut(db, h, pc)
    ensures var turn := Step(t, db, pc, env); ClosedBut(turn.db, Noted(h, c, pc, turn.pc, env), Where(turn))
  {
    hide ClosedBut, Indexed, HistoryFits, Step, Noted;
    if !Writes(pc) {
      ReadsClose(t, db, h, c, pc, env);
    } else if pc.OwnerInsert? || pc.AcceptInsert? {
      InsertsClose(t, db, h, c, pc, env);
    } else if pc.AcceptMark? {
      MarkCloses(t, db, h, c, pc, env);
    } else {
      OtherWritesClose(t, db, h, c, pc, env);
    }
  }

  lemma {:induction false} CompleteCloses(t: Ops, s: Sys, c: nat, inputs: nat -> Env)
    requires SysOk(s) && Live(s, c) && ClosedBut(s.db, s.history, s.calls[c].pc)
    ensures var s' := Complete(t, s, c, inputs); SysOk(s') && ClosedBut(s'.db, s'.history, Finished())
    decreases Remaining(s.calls[c].pc)
  {
    var env := inputs(Remaining(s.calls[c].pc));
    var s' := Perform(t, s, c, env, false);
    StepCloses(t, s.db, s.history, c, s.calls[c].pc, env);
    PerformKeeps(t, s, c, env, false);
    if s'.calls[c].reply == None { CompleteCloses(t, s', c, inputs); }
  }

  lemma {:induction false} SerialCloses(t: Ops, users: set<Id>, jobs: seq<Job>)
    ensures var s := Serial(t, users, jobs); SysOk(s) && ClosedBut(s.db, s.history, Finished())
    decreases |jobs|
  {
    if jobs != [] {
      var n := |jobs| - 1;
      SerialCloses(t, users, jobs[..n]);
      var s := Serial(t, users, jobs[..n]);
      CallReplaced(s, n, Call(Begin(jobs[n].req), None));
      CompleteCloses(t, s.(calls := s.calls[n := Call(Begin(jobs[n].req), None)]), n, jobs[n].inputs);
    } else {
      var events := SerialIsARun(t, users, []);
      RunKeeps(t, events);
    }
  }

  // In a serial run the accepted invites of a workspace are exactly one fewer than
  // its members, and no two members came through the same invite.
  lemma SerialInviteAccounting(t: Ops, users: set<Id>, jobs: seq<Job>, wsId: Id)
    ensures var s := Serial(t, users, jobs);
      && (HasMember(s.db, wsId) ==> |AcceptedOf(s.db, wsId)| == |MembersOf(s.db, wsId)| - 1)
      && (!HasMember(s.db, wsId) ==> AcceptedOf(s.db, wsId) == {})
      && (forall k, k' | k in s.db.members && k' in s.db.members && k in s.history.joins && k' in s.history.joins ::
            s.history.joins[k].via.Some? && s.history.joins[k].via == s.history.joins[k'].via ==> k == k')
  {
    SerialCloses(t, users, jobs);
    var s := Serial(t, users, jobs);
    AcceptedNeedsMember(s.db, s.history, wsId);
    if HasMember(s.db, wsId) {
      AcceptedBelowMembers(s.db, s.history, wsId);
      MembersBelowAccepted(s.db, s.history, wsId);
    }
  }

  lemma MembersBelowAccepted(db: Db, h: History, wsId: Id)
    requires DbOk(db, h) && ClosedBut(db, h, Finished()) && HasMember(db, wsId)
    ensures |MembersOf(db, wsId)| - 1 <= |AcceptedOf(db, wsId)|
  {
    OwnersComeFirst(db, h, wsId);
    var p := (wsId, db.workspaces[wsId].createdBy);
    var owner := db.seats[p];
    assert Seat(db.members[owner]) == p;
    var xs := MembersOf(db, wsId) - {owner};
    var via := map k | k in xs && k in h.joins && h.joins[k].via.Some? :: h.joins[k].via.value;
    forall k | k in xs ensures k in via && via[k] in AcceptedOf(db, wsId) {
      assert MemberOk(db, h, k);
      assert db.seats[Seat(db.members[k])] == k;
    }
    InjectionBounds(xs, AcceptedOf(db, wsId), via);
  }
}
