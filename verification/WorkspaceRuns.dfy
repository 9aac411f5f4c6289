// The invariant over whole runs: every reachable state of every interleaving,
// failures included.
module WorkspaceRuns {
  import opened Common
  import opened Strings
  import opened WorkspaceTables
  import opened WorkspaceCalls
  import opened WorkspaceSystem
  import opened WorkspaceInvariant

  // Each workspace row remembers the call that inserted it; that call stands before
  // its second insert exactly as long as the creator has no member row.
  ghost predicate MakerOk(s: Sys, w: Id)
    requires w in s.db.workspaces
  {
    && w in s.history.makers && s.history.makers[w] in s.calls
    && var ws := s.db.workspaces[w];
    if (w, ws.createdBy) in s.db.seats
    then s.calls[s.history.makers[w]].pc == WsCreated(ws)
    else s.calls[s.history.makers[w]].pc == OwnerInsert(ws)
  }

  ghost predicate CallOk(s: Sys, c: nat)
    requires c in s.calls
  {
    && PcOk(s.db, s.history, s.calls[c].pc)
    && (s.calls[c].pc.OwnerInsert? ==>
          var ws := s.calls[c].pc.ws;
          && ws.id in s.db.workspaces && s.db.workspaces[ws.id] == ws
          && ws.id in s.history.makers && s.history.makers[ws.id] == c)
  }

  ghost predicate SysOk(s: Sys) {
    && DbOk(s.db, s.history)
    && (forall w {:trigger MakerOk(s, w)} | w in s.db.workspaces :: MakerOk(s, w))
    && (forall c {:trigger CallOk(s, c)} | c in s.calls :: CallOk(s, c))
  }

  // What one statement guarantees, whoever executes it.
  ghost predicate Kept(db: Db, h: History, db': Db, h': History, pc': Pc) {
    DbOk(db', h') && Grows(db, h, db', h') && PcOk(db', h', pc')
  }

  function Noted(h: History, c: nat, pc: Pc, pc': Pc, env: Env): History {
    Note(NoteOwner(h, pc, pc', env), c, pc, pc')
  }

  // The obligations of one statement, by group.
  ghost predicate StepKept(t: Ops, db: Db, h: History, c: nat, pc: Pc, env: Env) {
    var turn := Step(t, db, pc, env);
    Kept(db, h, turn.db, Noted(h, c, pc, turn.pc, env), turn.pc)
  }

  ghost predicate Ready(db: Db, h: History, pc: Pc) {
    && DbOk(db, h) && PcOk(db, h, pc)
    && (pc.OwnerInsert? ==> pc.ws.id in db.workspaces && db.workspaces[pc.ws.id] == pc.ws)
  }

  predicate Writes(pc: Pc) {
    || pc.WsInsert? || pc.OwnerInsert? || pc.InviteInsert? || pc.AcceptInsert? || pc.AcceptMark?
    || pc.UnitInsert? || pc.PositionInsert? || pc.AssignWrite?
  }

  lemma ReadsChangeNothing(t: Ops, db: Db, h: History, c: nat, pc: Pc, env: Env)
    requires !Writes(pc)
    ensures var turn := Step(t, db, pc, env);
      turn.db == db && Noted(h, c, pc, turn.pc, env) == h.(tick := h.tick + 1)
  {}

  // A role check that passes has seen a row that is there.
  lemma ManagerSeen(db: Db, h: History, wsId: Id, user: Id)
    requires DbOk(db, h) && RequireManager(db, wsId, user) == None
    ensures ManagerBefore(db, h, wsId, user, h.tick)
  {
    assert MemberOk(db, h, db.seats[(wsId, user)]);
    hide DbOk, HasOwner;
  }

  lemma InviteSeen(db: Db, h: History, token: string, now: Time)
    requires DbOk(db, h) && FindInvite(db, token, now).Some?
    ensures var i := FindInvite(db, token, now).value; i.id in db.invites && db.invites[i.id] == i
  {
    hide SeatsMatch, SlugsMatch, MembersOk, InvitesOk, AllPlaced, UnitsOk;
  }

  lemma ReadsLearn(t: Ops, db: Db, h: History, pc: Pc, env: Env)
    requires Ready(db, h, pc) && !Writes(pc)
    ensures PcOk(db, h, Step(t, db, pc, env).pc)
  {
    hide DbOk, ManagerBefore, RequireManager, FindInvite;
    if pc.Begin? && pc.req.InviteMember? {
      if RequireManager(db, pc.req.wsId, pc.req.user) == None { ManagerSeen(db, h, pc.req.wsId, pc.req.user); }
    } else if pc.Begin? && pc.req.AcceptInvite? {
      if FindInvite(db, pc.req.token, env.now).Some? { InviteSeen(db, h, pc.req.token, env.now); }
    }
  }

  lemma ReadsKeep(t: Ops, db: Db, h: History, c: nat, pc: Pc, env: Env)
    requires Ready(db, h, pc) && !Writes(pc)
    ensures StepKept(t, db, h, c, pc, env)
  {
    hide DbOk, Grows, PcOk, Step, Noted;
    ReadsChangeNothing(t, db, h, c, pc, env);
    ReadsLearn(t, db, h, pc, env);
    IdleKeeps(db, h, Step(t, db, pc, env).pc);
  }

  lemma IdleKeeps(db: Db, h: History, pc': Pc)
    requires DbOk(db, h) && PcOk(db, h, pc')
    ensures Kept(db, h, db, h.(tick := h.tick + 1), pc')
  {
    hide DbOk, Grows;
    NothingChanged(db, h);
    PassedChecksAreStable(db, h, db, h.(tick := h.tick + 1), pc');
  }

  lemma WsInsertKeeps(t: Ops, db: Db, h: History, c: nat, pc: Pc, env: Env)
    requires Ready(db, h, pc) && pc.WsInsert?
    ensures StepKept(t, db, h, c, pc, env)
  {
    hide DbOk, Grows;
    var ws := Workspace(env.id, pc.name, pc.slug, pc.user, env.now);
    if InsertWorkspace(db, ws).err == None { WorkspaceRowKeeps(db, h, ws, c); } else { IdleKeeps(db, h, pc); }
  }

  lemma OwnerInsertKeeps(t: Ops, db: Db, h: History, c: nat, pc: Pc, env: Env)
    requires Ready(db, h, pc) && pc.OwnerInsert?
    ensures StepKept(t, db, h, c, pc, env)
  {
    hide DbOk, Grows;
    if InsertMember(db, NewOwner(pc.ws, env)).err == None {
      OwnerRowKeeps(db, h, pc.ws, env);
    } else {
      IdleKeeps(db, h, pc);
    }
  }

  lemma InviteInsertKeeps(t: Ops, db: Db, h: History, c: nat, pc: Pc, env: Env)
    requires Ready(db, h, pc) && pc.InviteInsert?
    ensures StepKept(t, db, h, c, pc, env)
  {
    hide DbOk, Grows;
    var i := NewInvite(t, pc.wsId, pc.email, pc.role, env);
    if InsertInvite(db, i).err == None { InviteRowKeeps(db, h, i, pc.user); } else { IdleKeeps(db, h, pc); }
  }

  lemma AcceptInsertKeeps(t: Ops, db: Db, h: History, c: nat, pc: Pc, env: Env)
    requires Ready(db, h, pc) && pc.AcceptInsert?
    ensures StepKept(t, db, h, c, pc, env)
  {
    hide DbOk, Grows;
    if InsertMember(db, Invited(pc.invite, pc.user, env)).err == None {
      MemberRowKeeps(db, h, pc.invite, pc.user, env);
    } else {
      IdleKeeps(db, h, pc);
    }
  }

  lemma AcceptMarkKeeps(t: Ops, db: Db, h: History, c: nat, pc: Pc, env: Env)
    requires Ready(db, h, pc) && pc.AcceptMark?
    ensures StepKept(t, db, h, c, pc, env)
  {
    hide DbOk, Grows;
    MarkKeeps(db, h, pc.invite.id, pc.memberId, env.now);
  }

  lemma UnitInsertKeeps(t: Ops, db: Db, h: History, c: nat, pc: Pc, env: Env)
    requires Ready(db, h, pc) && pc.UnitInsert?
    ensures StepKept(t, db, h, c, pc, env)
  {
    hide DbOk, Grows;
    var u := OrgUnit(env.id, pc.wsId, pc.parent, pc.name, 0, env.now);
    if InsertUnit(db, u).err == None { UnitRowKeeps(db, h, u); } else { IdleKeeps(db, h, pc); }
  }

  lemma PositionInsertKeeps(t: Ops, db: Db, h: History, c: nat, pc: Pc, env: Env)
    requires Ready(db, h, pc) && pc.PositionInsert?
    ensures StepKept(t, db, h, c, pc, env)
  {
    hide DbOk, Grows;
    var p := Position(env.id, pc.wsId, pc.title, env.now);
    if InsertPosition(db, p).err == None { PositionRowKeeps(db, h, p); } else { IdleKeeps(db, h, pc); }
  }

  lemma AssignWriteSteps(t: Ops, db: Db, pc: Pc, env: Env)
    requires pc.AssignWrite?
    ensures var turn := Step(t, db, pc, env);
      turn.db == UpdateAssignment(db, pc.wsId, pc.target, pc.unit, pc.position).db
        && (turn.pc == pc || turn.pc.Assigned?)
  {}

  lemma AssignWriteNoted(h: History, c: nat, pc: Pc, pc': Pc, env: Env)
    requires pc.AssignWrite? && (pc' == pc || pc'.Assigned?)
    ensures Noted(h, c, pc, pc', env) == h.(tick := h.tick + 1)
  {}

  lemma AssignWriteKeeps(t: Ops, db: Db, h: History, c: nat, pc: Pc, env: Env)
    requires Ready(db, h, pc) && pc.AssignWrite?
    ensures StepKept(t, db, h, c, pc, env)
  {
    hide DbOk, Grows, Step, Noted, UpdateAssignment;
    var turn := Step(t, db, pc, env);
    AssignWriteSteps(t, db, pc, env);
    AssignWriteNoted(h, c, pc, turn.pc, env);
    AssignmentKeeps(db, h, pc.wsId, pc.target, pc.unit, pc.position);
    PassedChecksAreStable(db, h, turn.db, h.(tick := h.tick + 1), pc);
  }

  lemma StatementKeeps(t: Ops, db: Db, h: History, c: nat, pc: Pc, env: Env)
    requires Ready(db, h, pc)
    ensures StepKept(t, db, h, c, pc, env)
  {
    hide StepKept, Ready;
    match pc
    case WsInsert(_, _, _) => WsInsertKeeps(t, db, h, c, pc, env);
    case OwnerInsert(_) => OwnerInsertKeeps(t, db, h, c, pc, env);
    case InviteInsert(_, _, _, _) => InviteInsertKeeps(t, db, h, c, pc, env);
    case AcceptInsert(_, _) => AcceptInsertKeeps(t, db, h, c, pc, env);
    case AcceptMark(_, _) => AcceptMarkKeeps(t, db, h, c, pc, env);
    case UnitInsert(_, _, _) => UnitInsertKeeps(t, db, h, c, pc, env);
    case PositionInsert(_, _) => PositionInsertKeeps(t, db, h, c, pc, env);
    case AssignWrite(_, _, _, _) => AssignWriteKeeps(t, db, h, c, pc, env);
    case _ => ReadsKeep(t, db, h, c, pc, env);
  }

  // ---- The whole system ----

  lemma OtherCallsKeep(s: Sys, s': Sys, c: nat)
    requires c in s.calls && CallOk(s, c) && c in s'.calls && s'.calls[c] == s.calls[c]
    requires Grows(s.db, s.history, s'.db, s'.history)
    requires forall w | w in s.db.workspaces && w in s.history.makers ::
      w in s'.history.makers && s'.history.makers[w] == s.history.makers[w]
    ensures CallOk(s', c)
  {
    PassedChecksAreStable(s.db, s.history, s'.db, s'.history, s.calls[c].pc);
  }

  // Only the two inserts of CreateWorkspace touch the maker records.
  lemma MakersNoted(t: Ops, s: Sys, c: nat, env: Env)
    requires c in s.calls
    ensures var pc, turn := s.calls[c].pc, Step(t, s.db, s.calls[c].pc, env);
      var h' := Noted(s.history, c, pc, turn.pc, env);
      if pc.WsInsert? && turn.pc.OwnerInsert?
      then turn.pc.ws.id !in s.db.workspaces && turn.db == WithWorkspace(s.db, turn.pc.ws)
        && turn.pc.ws.createdBy == pc.user
        && h'.makers == s.history.makers[turn.pc.ws.id := c]
      else turn.db.workspaces == s.db.workspaces && h'.makers == s.history.makers
  {
    hide Step, Noted;
    var pc := s.calls[c].pc;
    MakersNote(s.history, c, pc, Step(t, s.db, pc, env).pc, env);
    if pc.WsInsert? { WorkspaceInserted(t, s.db, pc, env); } else { WorkspacesStay(t, s.db, pc, env); }
  }

  lemma MakersNote(h: History, c: nat, pc: Pc, pc': Pc, env: Env)
    ensures Noted(h, c, pc, pc', env).makers ==
      if pc.WsInsert? && pc'.OwnerInsert? then h.makers[pc'.ws.id := c] else h.makers
  {
    assert NoteOwner(h, pc, pc', env).makers == h.makers;
    hide NoteOwner;
  }

  lemma WorkspaceInserted(t: Ops, db: Db, pc: Pc, env: Env)
    requires pc.WsInsert?
    ensures var turn := Step(t, db, pc, env);
      if turn.pc.OwnerInsert?
      then turn.pc.ws.id !in db.workspaces && turn.db == WithWorkspace(db, turn.pc.ws)
        && turn.pc.ws.createdBy == pc.user
      else turn.db.workspaces == db.workspaces
  {}

  lemma WorkspacesStay(t: Ops, db: Db, pc: Pc, env: Env)
    requires !pc.WsInsert?
    ensures Step(t, db, pc, env).db.workspaces == db.workspaces
  {}

  // Which seats a statement may add.
  lemma SeatsNoted(t: Ops, db: Db, pc: Pc, env: Env, p: (Id, Id))
    requires var turn := Step(t, db, pc, env); p in turn.db.seats && p !in db.seats
    ensures var turn := Step(t, db, pc, env);
      || (pc.OwnerInsert? && p == (pc.ws.id, pc.ws.createdBy) && turn.pc == WsCreated(pc.ws))
      || (pc.AcceptInsert? && p == (pc.invite.workspaceId, pc.user))
  {}

  lemma CallMoves(t: Ops, db: Db, pc: Pc, env: Env)
    ensures var pc' := Step(t, db, pc, env).pc;
      && (pc'.OwnerInsert? ==> pc.WsInsert? || pc' == pc)
      && (pc.WsCreated? ==> pc' == pc)
      && (pc.OwnerInsert? ==>
         pc' == pc || (pc' == WsCreated(pc.ws) && (pc.ws.id, pc.ws.createdBy) in Step(t, db, pc, env).db.seats))
  {}

  lemma MakerKeeps(t: Ops, s: Sys, c: nat, env: Env, lost: bool, w: Id)
    requires SysOk(s) && c in s.calls && w in s.db.workspaces
    requires var s' := Perform(t, s, c, env, lost); Grows(s.db, s.history, s'.db, s'.history)
    ensures MakerOk(Perform(t, s, c, env, lost), w)
  {
    hide DbOk, Step;
    var s' := Perform(t, s, c, env, lost);
    var ws, pc := s.db.workspaces[w], s.calls[c].pc;
    assert MakerOk(s, w) && CallOk(s, c);
    MakersNoted(t, s, c, env);
    CallMoves(t, s.db, pc, env);
    var p := (w, ws.createdBy);
    if p in s'.db.seats && p !in s.db.seats {
      SeatsNoted(t, s.db, pc, env, p);
      if pc.AcceptInsert? { NoSeatBeforeOwner(s, c); }
    }
    assert w in s.history.makers && s'.db.workspaces[w] == ws;
    assert w in s'.history.makers && s'.history.makers[w] == s.history.makers[w];
    if s.history.makers[w] == c { WorkspaceKey(s.db, s.history, w); }
  }

  lemma WorkspaceKey(db: Db, h: History, w: Id)
    requires DbOk(db, h) && w in db.workspaces
    ensures db.workspaces[w].id == w
  {}

  lemma NoSeatBeforeOwner(s: Sys, c: nat)
    requires SysOk(s) && c in s.calls && s.calls[c].pc.AcceptInsert?
    ensures HasOwner(s.db, s.history, s.calls[c].pc.invite.workspaceId)
  {
    assert CallOk(s, c);
    assert InviteOk(s.db, s.history, s.calls[c].pc.invite.id);
  }

  lemma SeatsHaveWorkspaces(db: Db, h: History, p: (Id, Id))
    requires DbOk(db, h) && p in db.seats
    ensures p.0 in db.workspaces && HasOwner(db, h, p.0)
  {
    assert MemberOk(db, h, db.seats[p]);
  }

  lemma PerformKeeps(t: Ops, s: Sys, c: nat, env: Env, lost: bool)
    requires SysOk(s) && c in s.calls
    ensures SysOk(Perform(t, s, c, env, lost))
    ensures var s' := Perform(t, s, c, env, lost); Grows(s.db, s.history, s'.db, s'.history)
  {
    hide DbOk, Grows, PcOk;
    var s' := Perform(t, s, c, env, lost);
    var pc, pc' := s.calls[c].pc, s'.calls[c].pc;
    assert CallOk(s, c);
    StatementKeeps(t, s.db, s.history, c, pc, env);
    assert Kept(s.db, s.history, s'.db, s'.history, pc');
    MakersNoted(t, s, c, env);
    CallMoves(t, s.db, pc, env);
    forall w | w in s'.db.workspaces ensures MakerOk(s', w) {
      if w in s.db.workspaces {
        MakerKeeps(t, s, c, env, lost, w);
      } else if (w, s'.db.workspaces[w].createdBy) in s.db.seats {
        SeatsHaveWorkspaces(s.db, s.history, (w, s'.db.workspaces[w].createdBy));
      }
    }
    forall d | d in s'.calls ensures CallOk(s', d) {
      if d != c {
        assert CallOk(s, d);
        OtherCallsKeep(s, s', d);
      }
    }
  }

  lemma UsersGrow(db: Db, h: History, u: Id)
    requires DbOk(db, h)
    ensures var db' := db.(users := db.users + {u}); DbOk(db', h) && Grows(db, h, db', h)
  {
    hide MembersOk, InvitesOk, AllPlaced, UnitsOk, SeatsMatch, TokensMatch, SlugsMatch;
    RowsGrow(db, h, db.(users := db.users + {u}), h);
  }

  lemma UserAdded(s: Sys, u: Id)
    requires SysOk(s)
    ensures SysOk(s.(db := s.db.(users := s.db.users + {u})))
  {
    hide DbOk, Grows, PcOk;
    var s' := s.(db := s.db.(users := s.db.users + {u}));
    UsersGrow(s.db, s.history, u);
    forall w | w in s'.db.workspaces ensures MakerOk(s', w) { assert MakerOk(s, w); }
    forall c | c in s'.calls ensures CallOk(s', c) {
      assert CallOk(s, c);
      OtherCallsKeep(s, s', c);
    }
  }

  // A started call and a stopped one rely on no more than before.
  lemma CallReplaced(s: Sys, c: nat, call: Call)
    requires SysOk(s)
    requires if c in s.calls then call.pc == s.calls[c].pc else call.pc.Begin?
    ensures SysOk(s.(calls := s.calls[c := call]))
  {
    hide DbOk;
    var s' := s.(calls := s.calls[c := call]);
    forall w | w in s'.db.workspaces ensures MakerOk(s', w) { assert MakerOk(s, w); }
    forall d | d in s'.calls ensures CallOk(s', d) {
      if d in s.calls { assert CallOk(s, d); }
    }
  }

  lemma NextKeeps(t: Ops, s: Sys, e: Event)
    requires SysOk(s)
    ensures SysOk(Next(t, s, e))
  {
    hide SysOk, Perform;
    match e
    case NewUser(u) => UserAdded(s, u);
    case Start(c, req) => if c !in s.calls { CallReplaced(s, c, Call(Begin(req), None)); }
    case Advance(c, env) => if Live(s, c) { PerformKeeps(t, s, c, env, false); }
    case LoseAck(c, env) => if Live(s, c) { PerformKeeps(t, s, c, env, true); }
    case Fail(c) => if Live(s, c) { CallReplaced(s, c, s.calls[c].(reply := Some(Failed(DatabaseError)))); }
  }

  // The invariant holds in every state of every run.
  lemma {:induction false} RunKeeps(t: Ops, events: seq<Event>)
    ensures SysOk(Run(t, INITIAL, events))
  {
    if events != [] {
      RunKeeps(t, events[..|events| - 1]);
      NextKeeps(t, Run(t, INITIAL, events[..|events| - 1]), events[|events| - 1]);
    }
  }
}
