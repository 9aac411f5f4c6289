// Tenant isolation under interleaving: for any schedule, what a workspace holds and what
// its calls are told is what the sub-schedule of those calls alone produces.
module TenantInterleaving {
  import opened Common
  import opened Strings
  import opened WorkspaceTables
  import opened WorkspaceCalls
  import opened WorkspaceInvariant
  import opened WorkspaceSystem
  import opened WorkspaceRuns
  import opened TenantProjection

  // ---- The sub-schedule of a workspace ----

  // A call under way works on the workspace, the call that creates it included.
  ghost predicate WorksOn(db: Db, pc: Pc, wsId: Id) {
    Anchored(db, pc, wsId) || (pc.OwnerInsert? && pc.ws.id == wsId)
  }

  // A schedule followed so far: where it has led, which calls have turned out to work on
  // the workspace, and the events kept for them.
  datatype Followed = Followed(s: Sys, own: set<nat>, kept: seq<Event>)

  // An event of a call that is under way.
  predicate Touches(s: Sys, e: Event) {
    (e.Advance? || e.LoseAck? || e.Fail?) && Live(s, e.call)
  }

  // The call works on the workspace already, or its request now turns out to.
  ghost predicate Admits(f: Followed, e: Event, wsId: Id) {
    && Touches(f.s, e)
    && (e.call in f.own || (f.s.calls[e.call].pc.Begin? && Target(f.s.db, f.s.calls[e.call].pc.req) == Some(wsId)))
  }

  // Users and starts are kept for everybody: a call that only starts has no effect.
  ghost predicate Keeps(f: Followed, e: Event, wsId: Id) {
    e.NewUser? || e.Start? || Admits(f, e, wsId)
  }

  ghost function FollowNext(t: Ops, f: Followed, e: Event, wsId: Id): Followed {
    Followed(Next(t, f.s, e), if Admits(f, e, wsId) then f.own + {e.call} else f.own,
             if Keeps(f, e, wsId) then f.kept + [e] else f.kept)
  }

  ghost function Outset(s: Sys, wsId: Id): Followed {
    Followed(s, set c | c in s.calls && s.calls[c].reply == None && !s.calls[c].pc.Begin?
      && WorksOn(s.db, s.calls[c].pc, wsId), [])
  }

  ghost function Follow(t: Ops, s: Sys, events: seq<Event>, wsId: Id): Followed {
    if events == [] then Outset(s, wsId)
    else FollowNext(t, Follow(t, s, events[..|events| - 1], wsId), events[|events| - 1], wsId)
  }

  // The keys and tokens that the statement generates do not occur yet.
  predicate FreshNow(s: Sys, e: Event) {
    (e.Advance? || e.LoseAck?) && Live(s, e.call) ==>
      && FreshHere(s.db, s.calls[e.call].pc, e.env)
      && (s.calls[e.call].pc.OwnerInsert? ==> e.env.id !in s.db.members)
  }

  predicate FreshRun(t: Ops, s: Sys, events: seq<Event>) {
    events == [] ||
    var n := |events| - 1;
    FreshRun(t, s, events[..n]) && FreshNow(Run(t, s, events[..n]), events[n])
  }

  // ---- The two runs side by side ----

  ghost predicate CallMirrored(f: Followed, s2: Sys, c: nat, wsId: Id)
    requires c in f.s.calls && c in s2.calls
  {
    var call := f.s.calls[c];
    if c in f.own then
      s2.calls[c] == call && (call.reply == None ==> !call.pc.Begin? && WorksOn(f.s.db, call.pc, wsId))
    else
      call.reply == None ==> if call.pc.Begin? then s2.calls[c] == call else Away(f.s.db, call.pc, wsId)
  }

  ghost predicate Mirrors(f: Followed, s2: Sys, wsId: Id) {
    && Alike(f.s.db, s2.db, wsId)
    && s2.calls.Keys == f.s.calls.Keys && f.own <= f.s.calls.Keys
    && forall c {:trigger CallMirrored(f, s2, c, wsId)} | c in f.s.calls :: CallMirrored(f, s2, c, wsId)
  }

  // What a waiting call works on does not change under it.
  lemma PlaceIsStable(db: Db, h: History, db': Db, h': History, pc: Pc, wsId: Id)
    requires Grows(db, h, db', h') && !pc.Begin?
    ensures WorksOn(db, pc, wsId) ==> WorksOn(db', pc, wsId)
    ensures Away(db, pc, wsId) ==> Away(db', pc, wsId)
  {}

  lemma OtherMirrored(f: Followed, s2: Sys, f': Followed, s2': Sys, d: nat, wsId: Id)
    requires d in f.s.calls && d in s2.calls && CallMirrored(f, s2, d, wsId)
    requires d in f'.s.calls && f'.s.calls[d] == f.s.calls[d] && d in s2'.calls && s2'.calls[d] == s2.calls[d]
    requires d in f'.own <==> d in f.own
    requires Grows(f.s.db, f.s.history, f'.s.db, f'.s.history)
    ensures CallMirrored(f', s2', d, wsId)
  {
    hide Grows, WorksOn, Away;
    if !f.s.calls[d].pc.Begin? {
      PlaceIsStable(f.s.db, f.s.history, f'.s.db, f'.s.history, f.s.calls[d].pc, wsId);
    }
  }

  // ---- Statements ----

  lemma OwnerAgrees(t: Ops, db1: Db, db2: Db, pc: Pc, env: Env, wsId: Id)
    requires Alike(db1, db2, wsId) && pc.OwnerInsert? && pc.ws.id == wsId && env.id !in db1.members
    ensures StepsAgree(t, db1, db2, pc, env, wsId)
  {
    hide Alike;
    var m := NewOwner(pc.ws, env);
    SeatsAgree(db1, db2, wsId, pc.ws.createdBy);
    ChecksAgree(db1, db2, wsId, env.id);
    if InsertMember(db1, m).err == None { MemberInBoth(db1, db2, wsId, m); }
  }

  lemma WorkingStatementAgrees(t: Ops, f: Followed, db2: Db, e: Event, wsId: Id)
    requires (e.Advance? || e.LoseAck?) && Live(f.s, e.call) && FreshNow(f.s, e)
    requires Alike(f.s.db, db2, wsId) && WorksOn(f.s.db, f.s.calls[e.call].pc, wsId)
    ensures StepsAgree(t, f.s.db, db2, f.s.calls[e.call].pc, e.env, wsId)
  {
    hide Alike, StepsAgree, FreshHere;
    var pc := f.s.calls[e.call].pc;
    if pc.OwnerInsert? && pc.ws.id == wsId {
      OwnerAgrees(t, f.s.db, db2, pc, e.env, wsId);
    } else {
      StatementAgrees(t, f.s.db, db2, pc, e.env, wsId);
    }
  }

  lemma BeginIsLeft(t: Ops, db: Db, pc: Pc, env: Env)
    ensures Step(t, db, pc, env).reply == None ==> !Step(t, db, pc, env).pc.Begin?
  {
    hide Step;
  }

  // The call is one of the workspace's: both runs execute the event.
  lemma AdmittedMirrors(t: Ops, f: Followed, s2: Sys, e: Event, wsId: Id)
    requires Mirrors(f, s2, wsId) && SysOk(f.s) && Admits(f, e, wsId) && FreshNow(f.s, e)
    ensures Mirrors(FollowNext(t, f, e, wsId), Next(t, s2, e), wsId)
  {
    hide SysOk, Alike, Grows, WorksOn, Away, Step, Note, NoteOwner, FreshNow, Target;
    var c, f', s2' := e.call, FollowNext(t, f, e, wsId), Next(t, s2, e);
    assert CallMirrored(f, s2, c, wsId);
    assert s2.calls[c] == f.s.calls[c];
    if e.Fail? {
      NothingGrows(f.s);
    } else {
      AdmittedWorks(f, s2, e, wsId);
      WorkingStatementAgrees(t, f, s2.db, e, wsId);
      WorkerGoesOn(t, f.s.db, s2.db, f.s.calls[c].pc, e.env, wsId);
      PerformKeeps(t, f.s, c, e.env, e.LoseAck?);
      hide StepsAgree;
    }
    forall d | d in f'.s.calls ensures CallMirrored(f', s2', d, wsId) {
      assert CallMirrored(f, s2, d, wsId);
      if d != c { OtherMirrored(f, s2, f', s2', d, wsId); }
    }
  }

  lemma AdmittedWorks(f: Followed, s2: Sys, e: Event, wsId: Id)
    requires Mirrors(f, s2, wsId) && Admits(f, e, wsId)
    ensures WorksOn(f.s.db, f.s.calls[e.call].pc, wsId)
  {
    assert CallMirrored(f, s2, e.call, wsId);
  }

  lemma WorkerGoesOn(t: Ops, db1: Db, db2: Db, pc: Pc, env: Env, wsId: Id)
    requires StepsAgree(t, db1, db2, pc, env, wsId)
    ensures var t1, t2 := Step(t, db1, pc, env), Step(t, db2, pc, env);
      && t1.pc == t2.pc && t1.reply == t2.reply && Alike(t1.db, t2.db, wsId)
      && (t1.reply == None ==> WorksOn(t1.db, t1.pc, wsId) && !t1.pc.Begin?)
  {
    hide Alike, Step, Anchored;
    BeginIsLeft(t, db1, pc, env);
  }

  lemma NothingGrows(s: Sys)
    ensures Grows(s.db, s.history, s.db, s.history)
  {}

  // The call works elsewhere, or nowhere yet: only the full run executes the event.
  lemma RefusedMirrors(t: Ops, f: Followed, s2: Sys, e: Event, wsId: Id)
    requires Mirrors(f, s2, wsId) && SysOk(f.s) && Touches(f.s, e) && !Admits(f, e, wsId)
    ensures Mirrors(FollowNext(t, f, e, wsId), s2, wsId)
  {
    hide SysOk, Alike, Grows, WorksOn, Step, Note, NoteOwner, Target;
    var c, f' := e.call, FollowNext(t, f, e, wsId);
    assert CallMirrored(f, s2, c, wsId);
    assert c !in f.own && Away(f.s.db, f.s.calls[c].pc, wsId);
    hide Away;
    if e.Fail? {
      NothingGrows(f.s);
    } else {
      StatementStaysAway(t, f.s.db, s2.db, f.s.calls[c].pc, e.env, wsId);
      BeginIsLeft(t, f.s.db, f.s.calls[c].pc, e.env);
      PerformKeeps(t, f.s, c, e.env, e.LoseAck?);
    }
    forall d | d in f'.s.calls ensures CallMirrored(f', s2, d, wsId) {
      assert CallMirrored(f, s2, d, wsId);
      if d != c { OtherMirrored(f, s2, f', s2, d, wsId); }
    }
  }

  lemma UserInBoth(db1: Db, db2: Db, wsId: Id, u: Id)
    requires Alike(db1, db2, wsId)
    ensures Alike(db1.(users := db1.users + {u}), db2.(users := db2.users + {u}), wsId)
  {
    hide MembersAlike, InvitesAlike, UnitsAlike, PositionsAlike, SeatsMatch, TokensMatch, SlugsMatch;
  }

  lemma UserMirrors(t: Ops, f: Followed, s2: Sys, u: Id, wsId: Id)
    requires Mirrors(f, s2, wsId) && SysOk(f.s)
    ensures Mirrors(FollowNext(t, f, NewUser(u), wsId), Next(t, s2, NewUser(u)), wsId)
  {
    hide DbOk, Alike, Grows, WorksOn, Away;
    var f', s2' := FollowNext(t, f, NewUser(u), wsId), Next(t, s2, NewUser(u));
    UsersGrow(f.s.db, f.s.history, u);
    UserInBoth(f.s.db, s2.db, wsId, u);
    forall d | d in f'.s.calls ensures CallMirrored(f', s2', d, wsId) {
      assert CallMirrored(f, s2, d, wsId);
      OtherMirrored(f, s2, f', s2', d, wsId);
    }
  }

  lemma StartMirrors(t: Ops, f: Followed, s2: Sys, e: Event, wsId: Id)
    requires Mirrors(f, s2, wsId) && e.Start?
    ensures Mirrors(FollowNext(t, f, e, wsId), Next(t, s2, e), wsId)
  {
    hide Alike, WorksOn, Away;
    var f', s2' := FollowNext(t, f, e, wsId), Next(t, s2, e);
    forall d | d in f'.s.calls ensures CallMirrored(f', s2', d, wsId) {
      if d in f.s.calls { assert CallMirrored(f, s2, d, wsId); }
    }
  }

  lemma NextMirrors(t: Ops, f: Followed, s2: Sys, e: Event, wsId: Id)
    requires Mirrors(f, s2, wsId) && SysOk(f.s) && FreshNow(f.s, e)
    ensures Mirrors(FollowNext(t, f, e, wsId), if Keeps(f, e, wsId) then Next(t, s2, e) else s2, wsId)
  {
    hide Mirrors, SysOk, FreshNow;
    if e.NewUser? {
      UserMirrors(t, f, s2, e.user, wsId);
    } else if e.Start? {
      StartMirrors(t, f, s2, e, wsId);
    } else if Admits(f, e, wsId) {
      AdmittedMirrors(t, f, s2, e, wsId);
    } else if Touches(f.s, e) {
      RefusedMirrors(t, f, s2, e, wsId);
    } else {
      assert FollowNext(t, f, e, wsId) == f;
    }
  }

  // ---- The outset ----

  lemma EveryCallHasAPlace(db: Db, h: History, pc: Pc, wsId: Id)
    requires PcOk(db, h, pc)
    ensures WorksOn(db, pc, wsId) || Away(db, pc, wsId)
  {}

  lemma AlikeItself(db: Db, h: History, wsId: Id)
    requires DbOk(db, h) && wsId in db.workspaces
    ensures Alike(db, db, wsId)
  {
    hide MembersOk, InvitesOk, UnitsOk, AllPlaced, SeatsMatch, TokensMatch, SlugsMatch;
  }

  lemma OutsetMirrors(s: Sys, wsId: Id)
    requires SysOk(s) && wsId in s.db.workspaces
    ensures Mirrors(Outset(s, wsId), s, wsId)
  {
    hide DbOk, Alike, WorksOn, Away, PcOk;
    AlikeItself(s.db, s.history, wsId);
    forall c | c in s.calls ensures CallMirrored(Outset(s, wsId), s, c, wsId) {
      assert CallOk(s, c);
      EveryCallHasAPlace(s.db, s.history, s.calls[c].pc, wsId);
    }
  }

  // ---- The theorem ----

  lemma {:induction false} FollowMirrors(t: Ops, s: Sys, events: seq<Event>, wsId: Id)
    requires SysOk(s) && wsId in s.db.workspaces && FreshRun(t, s, events)
    ensures var f := Follow(t, s, events, wsId);
      f.s == Run(t, s, events) && SysOk(f.s) && Mirrors(f, Run(t, s, f.kept), wsId)
  {
    hide SysOk, Mirrors, Next, Keeps, FreshNow;
    if events == [] {
      OutsetMirrors(s, wsId);
    } else {
      var n := |events| - 1;
      FollowMirrors(t, s, events[..n], wsId);
      var f := Follow(t, s, events[..n], wsId);
      NextMirrors(t, f, Run(t, s, f.kept), events[n], wsId);
      NextKeeps(t, f.s, events[n]);
      assert (f.kept + [events[n]])[..|f.kept|] == f.kept;
    }
  }

  // From any reachable state that has the workspace, calls under way included, let any
  // schedule follow whose generated ids and tokens are fresh; statements may fail, lose
  // their acknowledgement or never come. Executing only the events kept for the
  // workspace leaves the same rows in it, and every call that turned out to work on it
  // stands at the same point with the same reply.
  lemma InterleavedTenantIsolation(t: Ops, before: seq<Event>, events: seq<Event>, wsId: Id)
    requires wsId in Run(t, INITIAL, before).db.workspaces && FreshRun(t, Run(t, INITIAL, before), events)
    ensures var s := Run(t, INITIAL, before);
      var f := Follow(t, s, events, wsId);
      var full, alone := Run(t, s, events), Run(t, s, f.kept);
      && RowsOf(full.db, wsId) == RowsOf(alone.db, wsId)
      && (forall c | c in f.own :: c in full.calls && c in alone.calls && alone.calls[c] == full.calls[c])
  {
    hide Run, Follow, SysOk, Alike, FreshRun;
    var s := Run(t, INITIAL, before);
    var f := Follow(t, s, events, wsId);
    RunKeeps(t, before);
    FollowMirrors(t, s, events, wsId);
    AlikeRows(f.s.db, Run(t, s, f.kept).db, wsId);
    forall c | c in f.own ensures c in f.s.calls && Run(t, s, f.kept).calls[c] == f.s.calls[c] {
      assert CallMirrored(f, Run(t, s, f.kept), c, wsId);
    }
  }
}
