// Tenant isolation: what a workspace holds, and what its callers are told, depends
// only on the calls addressed to it.
module TenantProjection {
  import opened Common
  import opened Strings
  import opened WorkspaceTables
  import opened WorkspaceCalls
  import opened WorkspaceInvariant
  import opened WorkspaceSystem
  import opened WorkspaceRuns
  import opened WorkspaceSerial

  // ---- What belongs to a workspace ----

  datatype Tenant = Tenant(members: map<Id, Member>, invites: map<Id, Invite>, units: map<Id, OrgUnit>,
    positions: map<Id, Position>)

  function RowsOf(db: Db, wsId: Id): Tenant {
    Tenant(map k | k in db.members && db.members[k].workspaceId == wsId :: db.members[k],
           map i | i in db.invites && db.invites[i].workspaceId == wsId :: db.invites[i],
           map u | u in db.units && db.units[u].workspaceId == wsId :: db.units[u],
           map p | p in db.positions && db.positions[p].workspaceId == wsId :: db.positions[p])
  }

  // The workspace a request is addressed to; for AcceptInvite, the one whose invite
  // carries the token.
  function Target(db: Db, req: Request): Option<Id> {
    match req
    case CreateWorkspace(_, _) => None
    case AcceptInvite(token, _) =>
      if token in db.tokens && db.tokens[token] in db.invites then Some(db.invites[db.tokens[token]].workspaceId)
        else None
    case InviteMember(wsId, _, _, _) => Some(wsId)
    case CreateOrgUnit(wsId, _, _, _) => Some(wsId)
    case CreatePosition(wsId, _, _) => Some(wsId)
    case AssignMember(wsId, _, _, _, _) => Some(wsId)
  }

  // The statement's generated key and token do not occur yet.
  predicate FreshHere(db: Db, pc: Pc, env: Env) {
    && (pc.AcceptInsert? ==> env.id !in db.members)
    && (pc.InviteInsert? ==> env.id !in db.invites && env.token !in db.tokens)
    && (pc.UnitInsert? ==> env.id !in db.units)
    && (pc.PositionInsert? ==> env.id !in db.positions)
  }

  predicate FreshAlone(t: Ops, db: Db, pc: Pc, inputs: nat -> Env)
    decreases Remaining(pc)
  {
    var env := inputs(Remaining(pc));
    var turn := Step(t, db, pc, env);
    FreshHere(db, pc, env) && (turn.reply == None ==> FreshAlone(t, turn.db, turn.pc, inputs))
  }

  // ---- A script of complete calls ----

  datatype Played = Played(db: Db, replies: seq<Reply>)

  function Play(t: Ops, db: Db, jobs: seq<Job>): (p: Played)
    ensures |p.replies| == |jobs|
  {
    if jobs == [] then Played(db, [])
    else
      var n := |jobs| - 1;
      var before := Play(t, db, jobs[..n]);
      var turn := Execute(t, before.db, jobs[n].req, jobs[n].inputs);
      Played(turn.db, before.replies + [turn.reply.value])
  }

  // Generated ids and tokens are fresh where the script uses them.
  predicate FreshScript(t: Ops, db: Db, jobs: seq<Job>) {
    jobs == [] ||
    var n := |jobs| - 1;
    FreshScript(t, db, jobs[..n]) && FreshAlone(t, Play(t, db, jobs[..n]).db, Begin(jobs[n].req), jobs[n].inputs)
  }

  // The part of the script addressed to one workspace, and the replies it got.
  function Addressed(t: Ops, db: Db, jobs: seq<Job>, wsId: Id): seq<Job> {
    if jobs == [] then []
    else
      var n := |jobs| - 1;
      var front := Addressed(t, db, jobs[..n], wsId);
      if Target(Play(t, db, jobs[..n]).db, jobs[n].req) == Some(wsId) then front + [jobs[n]] else front
  }

  function AddressedReplies(t: Ops, db: Db, jobs: seq<Job>, wsId: Id): seq<Reply> {
    if jobs == [] then []
    else
      var n := |jobs| - 1;
      var front := AddressedReplies(t, db, jobs[..n], wsId);
      if Target(Play(t, db, jobs[..n]).db, jobs[n].req) == Some(wsId) then front + [Play(t, db, jobs).replies[n]]
        else front
  }

  // ---- Two databases that a workspace cannot tell apart ----

  ghost predicate MembersAlike(m1: map<Id, Member>, m2: map<Id, Member>, wsId: Id) {
    && m2.Keys <= m1.Keys
    && (forall k {:trigger m1[k]} | k in m1 && m1[k].workspaceId == wsId :: k in m2 && m2[k] == m1[k])
    && (forall k {:trigger m2[k]} | k in m2 && m2[k].workspaceId == wsId :: m1[k] == m2[k])
  }

  ghost predicate InvitesAlike(i1: map<Id, Invite>, i2: map<Id, Invite>, wsId: Id) {
    && i2.Keys <= i1.Keys
    && (forall i {:trigger i1[i]} | i in i1 && i1[i].workspaceId == wsId :: i in i2 && i2[i] == i1[i])
    && (forall i {:trigger i2[i]} | i in i2 && i2[i].workspaceId == wsId :: i1[i] == i2[i])
  }

  ghost predicate UnitsAlike(u1: map<Id, OrgUnit>, u2: map<Id, OrgUnit>, wsId: Id) {
    && u2.Keys <= u1.Keys
    && (forall u {:trigger u1[u]} | u in u1 && u1[u].workspaceId == wsId :: u in u2 && u2[u] == u1[u])
    && (forall u {:trigger u2[u]} | u in u2 && u2[u].workspaceId == wsId :: u1[u] == u2[u])
  }

  ghost predicate PositionsAlike(p1: map<Id, Position>, p2: map<Id, Position>, wsId: Id) {
    && p2.Keys <= p1.Keys
    && (forall p {:trigger p1[p]} | p in p1 && p1[p].workspaceId == wsId :: p in p2 && p2[p] == p1[p])
    && (forall p {:trigger p2[p]} | p in p2 && p2[p].workspaceId == wsId :: p1[p] == p2[p])
  }

  ghost predicate SameHost(db1: Db, db2: Db, wsId: Id) {
    && db1.users == db2.users
    && wsId in db1.workspaces && wsId in db2.workspaces && db1.workspaces[wsId] == db2.workspaces[wsId]
  }

  // db1 is the full run, db2 the workspace's own run: same users, same rows of the
  // workspace, and no key or token in db2 that db1 lacks.
  ghost predicate Alike(db1: Db, db2: Db, wsId: Id) {
    && Indexed(db1) && Indexed(db2)
    && SameHost(db1, db2, wsId)
    && MembersAlike(db1.members, db2.members, wsId)
    && InvitesAlike(db1.invites, db2.invites, wsId) && db2.tokens.Keys <= db1.tokens.Keys
    && UnitsAlike(db1.units, db2.units, wsId)
    && PositionsAlike(db1.positions, db2.positions, wsId)
  }

  // What a call in progress holds about the workspace it works on.
  ghost predicate Anchored(db: Db, pc: Pc, wsId: Id) {
    match pc
    case Begin(req) => Target(db, req) == Some(wsId)
    case InviteLookup(w, _, _, _) => w == wsId
    case InviteInsert(w, _, _, _) => w == wsId
    case InviteMail(_) => true
    case AcceptInsert(i, _) => i.workspaceId == wsId && i.id in db.invites && db.invites[i.id].workspaceId == wsId
    case AcceptMark(i, _) => i.id in db.invites && db.invites[i.id].workspaceId == wsId
    case UnitParent(w, _, _) => w == wsId
    case UnitInsert(w, _, parent) => w == wsId && (parent.Some? ==> UnitExists(db, w, parent.value))
    case PositionInsert(w, _) => w == wsId
    case AssignTarget(w, _, _, _) => w == wsId
    case AssignUnit(w, _, _, _) => w == wsId
    case AssignPosition(w, _, unit, _) => w == wsId && (unit.Some? ==> UnitExists(db, w, unit.value))
    case AssignWrite(w, _, unit, position) =>
      w == wsId && (unit.Some? ==> UnitExists(db, w, unit.value))
        && (position.Some? ==> PositionExists(db, w, position.value))
    case _ => false
  }

  lemma SeatsAgree(db1: Db, db2: Db, wsId: Id, user: Id)
    requires Alike(db1, db2, wsId)
    ensures FindMember(db1, wsId, user) == FindMember(db2, wsId, user)
    ensures (wsId, user) in db1.seats <==> (wsId, user) in db2.seats
    ensures (wsId, user) in db1.seats ==> db1.seats[(wsId, user)] == db2.seats[(wsId, user)]
    ensures (wsId, user) in db1.seats ==>
      db1.seats[(wsId, user)] in db1.members && db1.members[db1.seats[(wsId, user)]].workspaceId == wsId
  {
    if (wsId, user) in db1.seats {
      var k := db1.seats[(wsId, user)];
      assert Seat(db1.members[k]) == (wsId, user);
      assert db2.seats[Seat(db2.members[k])] == k;
    }
    if (wsId, user) in db2.seats {
      var k := db2.seats[(wsId, user)];
      assert Seat(db2.members[k]) == (wsId, user);
      assert db1.seats[Seat(db1.members[k])] == k;
    }
  }

  lemma TokensAgree(db1: Db, db2: Db, wsId: Id, token: string, now: Time)
    requires Alike(db1, db2, wsId) && Target(db1, AcceptInvite(token, "")) == Some(wsId)
    ensures FindInvite(db1, token, now) == FindInvite(db2, token, now)
    ensures FindInvite(db1, token, now).Some? ==>
      Anchored(db1, AcceptInsert(FindInvite(db1, token, now).value, ""), wsId)
  {
    var i := db1.tokens[token];
    assert db2.invites[i] == db1.invites[i];
    assert db1.invites[i].token == token;
    assert db2.tokens[db2.invites[i].token] == i;
  }

  // ---- The same row added to, or changed in, both databases ----

  lemma MembersStayAlike(m1: map<Id, Member>, m2: map<Id, Member>, wsId: Id, m: Member)
    requires MembersAlike(m1, m2, wsId) && m.workspaceId == wsId
    ensures MembersAlike(m1[m.id := m], m2[m.id := m], wsId)
  {}

  lemma InvitesStayAlike(i1: map<Id, Invite>, i2: map<Id, Invite>, wsId: Id, i: Invite)
    requires InvitesAlike(i1, i2, wsId) && i.workspaceId == wsId
    ensures InvitesAlike(i1[i.id := i], i2[i.id := i], wsId)
  {}

  lemma RowsAreShared(db1: Db, db2: Db, wsId: Id, id: Id)
    requires Alike(db1, db2, wsId)
    ensures id in db1.members && db1.members[id].workspaceId == wsId ==>
      id in db2.members && db2.members[id] == db1.members[id] && db1.members[id].id == id
    ensures id in db1.invites && db1.invites[id].workspaceId == wsId ==>
      id in db2.invites && db2.invites[id] == db1.invites[id] && db1.invites[id].id == id
  {}

  lemma MemberInBoth(db1: Db, db2: Db, wsId: Id, m: Member)
    requires Alike(db1, db2, wsId) && m.workspaceId == wsId
    requires m.id !in db1.members && Seat(m) !in db1.seats && Seat(m) !in db2.seats
    ensures Alike(WithMember(db1, m), WithMember(db2, m), wsId)
  {
    assert m.id !in db2.members;
    hide MembersAlike, InvitesAlike, UnitsAlike, PositionsAlike, SeatsMatch, TokensMatch, SlugsMatch;
    NewSeat(db1.members, db1.seats, m);
    NewSeat(db2.members, db2.seats, m);
    MembersStayAlike(db1.members, db2.members, wsId, m);
  }

  lemma InviteInBoth(db1: Db, db2: Db, wsId: Id, i: Invite)
    requires Alike(db1, db2, wsId) && i.workspaceId == wsId
    requires i.id !in db1.invites && i.token !in db1.tokens
    ensures Alike(WithInvite(db1, i), WithInvite(db2, i), wsId)
  {
    assert i.id !in db2.invites && i.token !in db2.tokens;
    hide MembersAlike, InvitesAlike, UnitsAlike, PositionsAlike, SeatsMatch, TokensMatch, SlugsMatch;
    NewToken(db1.invites, db1.tokens, i);
    NewToken(db2.invites, db2.tokens, i);
    InvitesStayAlike(db1.invites, db2.invites, wsId, i);
  }

  lemma MarkInBoth(db1: Db, db2: Db, wsId: Id, i: Id, now: Time)
    requires Alike(db1, db2, wsId) && i in db1.invites && db1.invites[i].workspaceId == wsId
    ensures i in db2.invites && Alike(Marked(db1, i, now), Marked(db2, i, now), wsId)
  {
    hide MembersAlike, InvitesAlike, UnitsAlike, PositionsAlike, SeatsMatch, TokensMatch, SlugsMatch;
    RowsAreShared(db1, db2, wsId, i);
    var row := db1.invites[i].(acceptedAt := Some(now));
    SameToken(db1.invites, db1.tokens, row);
    SameToken(db2.invites, db2.tokens, row);
    InvitesStayAlike(db1.invites, db2.invites, wsId, row);
  }

  lemma MoveInBoth(db1: Db, db2: Db, wsId: Id, k: Id, unit: Option<Id>, position: Option<Id>)
    requires Alike(db1, db2, wsId) && k in db1.members && db1.members[k].workspaceId == wsId
    ensures k in db2.members && Alike(Moved(db1, k, unit, position), Moved(db2, k, unit, position), wsId)
  {
    hide MembersAlike, InvitesAlike, UnitsAlike, PositionsAlike, SeatsMatch, TokensMatch, SlugsMatch;
    RowsAreShared(db1, db2, wsId, k);
    var row := db1.members[k].(orgUnitId := unit, positionId := position);
    SameSeat(db1.members, db1.seats, row);
    SameSeat(db2.members, db2.seats, row);
    MembersStayAlike(db1.members, db2.members, wsId, row);
  }

  lemma UnitInBoth(db1: Db, db2: Db, wsId: Id, u: OrgUnit)
    requires Alike(db1, db2, wsId) && u.workspaceId == wsId && u.id !in db1.units
    ensures Alike(WithUnit(db1, u), WithUnit(db2, u), wsId)
  {
    hide MembersAlike, InvitesAlike, PositionsAlike, SeatsMatch, TokensMatch, SlugsMatch;
  }

  lemma PositionInBoth(db1: Db, db2: Db, wsId: Id, p: Position)
    requires Alike(db1, db2, wsId) && p.workspaceId == wsId && p.id !in db1.positions
    ensures Alike(db1.(positions := db1.positions[p.id := p]), db2.(positions := db2.positions[p.id := p]), wsId)
  {
    hide MembersAlike, InvitesAlike, UnitsAlike, SeatsMatch, TokensMatch, SlugsMatch;
  }

  // What the checks of a statement see.
  lemma ChecksAgree(db1: Db, db2: Db, wsId: Id, id: Id)
    requires Alike(db1, db2, wsId)
    ensures db1.users == db2.users && wsId in db1.workspaces && wsId in db2.workspaces
    ensures UnitExists(db1, wsId, id) <==> UnitExists(db2, wsId, id)
    ensures PositionExists(db1, wsId, id) <==> PositionExists(db2, wsId, id)
    ensures id !in db1.members ==> id !in db2.members
    ensures id !in db1.invites ==> id !in db2.invites
    ensures id !in db1.tokens ==> id !in db2.tokens
    ensures id !in db1.units ==> id !in db2.units
    ensures id !in db1.positions ==> id !in db2.positions
  {}

  // ---- One statement addressed to the workspace ----

  ghost predicate StepsAgree(t: Ops, db1: Db, db2: Db, pc: Pc, env: Env, wsId: Id) {
    var t1, t2 := Step(t, db1, pc, env), Step(t, db2, pc, env);
    && t1.pc == t2.pc && t1.reply == t2.reply
    && Alike(t1.db, t2.db, wsId)
    && (t1.reply == None ==> Anchored(t1.db, t1.pc, wsId))
  }

  lemma FirstAgrees(t: Ops, db1: Db, db2: Db, pc: Pc, env: Env, wsId: Id)
    requires Alike(db1, db2, wsId) && Anchored(db1, pc, wsId) && pc.Begin?
    ensures StepsAgree(t, db1, db2, pc, env, wsId)
  {
    hide Alike;
    if pc.req.AcceptInvite? {
      TokensAgree(db1, db2, wsId, pc.req.token, env.now);
    } else {
      SeatsAgree(db1, db2, wsId, pc.req.user);
    }
  }

  lemma TargetAgrees(t: Ops, db1: Db, db2: Db, pc: Pc, env: Env, wsId: Id)
    requires Alike(db1, db2, wsId) && Anchored(db1, pc, wsId) && pc.AssignTarget?
    ensures StepsAgree(t, db1, db2, pc, env, wsId)
  {
    hide Alike, FindMember;
    SeatsAgree(db1, db2, wsId, pc.target);
  }

  lemma ExistsAgrees(t: Ops, db1: Db, db2: Db, pc: Pc, env: Env, wsId: Id)
    requires Alike(db1, db2, wsId) && Anchored(db1, pc, wsId)
      && (pc.UnitParent? || pc.AssignUnit? || pc.AssignPosition?)
    ensures StepsAgree(t, db1, db2, pc, env, wsId)
  {
    hide Alike, UnitExists, PositionExists;
    ChecksAgree(db1, db2, wsId, if pc.UnitParent? then pc.parentId else if pc.AssignUnit? then pc.unitId
      else pc.positionId);
  }

  lemma LookupAgrees(t: Ops, db1: Db, db2: Db, pc: Pc, env: Env, wsId: Id)
    requires Alike(db1, db2, wsId) && Anchored(db1, pc, wsId) && (pc.InviteLookup? || pc.InviteMail?)
    ensures StepsAgree(t, db1, db2, pc, env, wsId)
  {
    hide Alike;
    ChecksAgree(db1, db2, wsId, "");
  }

  lemma ReadAgrees(t: Ops, db1: Db, db2: Db, pc: Pc, env: Env, wsId: Id)
    requires Alike(db1, db2, wsId) && Anchored(db1, pc, wsId) && !pc.Begin? && !Writes(pc)
    ensures StepsAgree(t, db1, db2, pc, env, wsId)
  {
    hide Alike, StepsAgree;
    if pc.AssignTarget? {
      TargetAgrees(t, db1, db2, pc, env, wsId);
    } else if pc.InviteLookup? || pc.InviteMail? {
      LookupAgrees(t, db1, db2, pc, env, wsId);
    } else {
      ExistsAgrees(t, db1, db2, pc, env, wsId);
    }
  }

  lemma AcceptAgrees(t: Ops, db1: Db, db2: Db, pc: Pc, env: Env, wsId: Id)
    requires Alike(db1, db2, wsId) && Anchored(db1, pc, wsId) && pc.AcceptInsert? && FreshHere(db1, pc, env)
    ensures StepsAgree(t, db1, db2, pc, env, wsId)
  {
    hide Alike;
    var m := Invited(pc.invite, pc.user, env);
    SeatsAgree(db1, db2, wsId, pc.user);
    ChecksAgree(db1, db2, wsId, env.id);
    if InsertMember(db1, m).err == None { MemberInBoth(db1, db2, wsId, m); }
  }

  lemma MarkAgrees(t: Ops, db1: Db, db2: Db, pc: Pc, env: Env, wsId: Id)
    requires Alike(db1, db2, wsId) && Anchored(db1, pc, wsId) && pc.AcceptMark?
    ensures StepsAgree(t, db1, db2, pc, env, wsId)
  {
    hide Alike;
    MarkInBoth(db1, db2, wsId, pc.invite.id, env.now);
  }

  lemma InviteAgrees(t: Ops, db1: Db, db2: Db, pc: Pc, env: Env, wsId: Id)
    requires Alike(db1, db2, wsId) && Anchored(db1, pc, wsId) && pc.InviteInsert? && FreshHere(db1, pc, env)
    ensures StepsAgree(t, db1, db2, pc, env, wsId)
  {
    hide Alike;
    ChecksAgree(db1, db2, wsId, env.id);
    ChecksAgree(db1, db2, wsId, env.token);
    InviteInBoth(db1, db2, wsId, NewInvite(t, wsId, pc.email, pc.role, env));
  }

  lemma OrgAgrees(t: Ops, db1: Db, db2: Db, pc: Pc, env: Env, wsId: Id)
    requires Alike(db1, db2, wsId) && Anchored(db1, pc, wsId) && (pc.UnitInsert? || pc.PositionInsert?)
      && FreshHere(db1, pc, env)
    ensures StepsAgree(t, db1, db2, pc, env, wsId)
  {
    hide Alike;
    ChecksAgree(db1, db2, wsId, env.id);
    match pc
    case UnitInsert(_, name, parent) =>
      if parent.Some? { ChecksAgree(db1, db2, wsId, parent.value); }
      UnitInBoth(db1, db2, wsId, OrgUnit(env.id, wsId, parent, name, 0, env.now));
    case PositionInsert(_, title) => PositionInBoth(db1, db2, wsId, Position(env.id, wsId, title, env.now));
  }

  lemma AssignAgrees(t: Ops, db1: Db, db2: Db, pc: Pc, env: Env, wsId: Id)
    requires Alike(db1, db2, wsId) && Anchored(db1, pc, wsId) && pc.AssignWrite?
    ensures StepsAgree(t, db1, db2, pc, env, wsId)
  {
    hide Alike;
    SeatsAgree(db1, db2, wsId, pc.target);
    if pc.unit.Some? { ChecksAgree(db1, db2, wsId, pc.unit.value); }
    if pc.position.Some? { ChecksAgree(db1, db2, wsId, pc.position.value); }
    if (wsId, pc.target) in db1.seats {
      MoveInBoth(db1, db2, wsId, db1.seats[(wsId, pc.target)], pc.unit, pc.position);
    }
  }

  lemma StatementAgrees(t: Ops, db1: Db, db2: Db, pc: Pc, env: Env, wsId: Id)
    requires Alike(db1, db2, wsId) && Anchored(db1, pc, wsId) && FreshHere(db1, pc, env)
    ensures StepsAgree(t, db1, db2, pc, env, wsId)
  {
    hide StepsAgree, Alike, FreshHere;
    match pc
    case Begin(_) => FirstAgrees(t, db1, db2, pc, env, wsId);
    case AcceptInsert(_, _) => AcceptAgrees(t, db1, db2, pc, env, wsId);
    case AcceptMark(_, _) => MarkAgrees(t, db1, db2, pc, env, wsId);
    case InviteInsert(_, _, _, _) => InviteAgrees(t, db1, db2, pc, env, wsId);
    case UnitInsert(_, _, _) => OrgAgrees(t, db1, db2, pc, env, wsId);
    case PositionInsert(_, _) => OrgAgrees(t, db1, db2, pc, env, wsId);
    case AssignWrite(_, _, _, _) => AssignAgrees(t, db1, db2, pc, env, wsId);
    case _ => ReadAgrees(t, db1, db2, pc, env, wsId);
  }

  // A whole call addressed to the workspace fares alike in both databases.
  lemma {:induction false} CallAgrees(t: Ops, db1: Db, db2: Db, pc: Pc, inputs: nat -> Env, wsId: Id)
    requires Alike(db1, db2, wsId) && Anchored(db1, pc, wsId) && FreshAlone(t, db1, pc, inputs)
    ensures var r1, r2 := RunAlone(t, db1, pc, inputs), RunAlone(t, db2, pc, inputs);
      r1.reply == r2.reply && Alike(r1.db, r2.db, wsId)
    decreases Remaining(pc)
  {
    hide Alike, Anchored, FreshHere, Step, Remaining;
    var env := inputs(Remaining(pc));
    var t1, t2 := Step(t, db1, pc, env), Step(t, db2, pc, env);
    StatementAgrees(t, db1, db2, pc, env, wsId);
    if t1.reply == None { CallAgrees(t, t1.db, t2.db, t1.pc, inputs, wsId); }
  }

  // ---- Statements addressed elsewhere ----

  // Where a call in progress works, when that is not the workspace at hand.
  ghost predicate Away(db: Db, pc: Pc, wsId: Id) {
    match pc
    case Begin(req) => Target(db, req) != Some(wsId)
    case WsInsert(_, _, _) => true
    case OwnerInsert(ws) => ws.id != wsId
    case WsCreated(_) => true
    case InviteLookup(w, _, _, _) => w != wsId
    case InviteInsert(w, _, _, _) => w != wsId
    case InviteMail(_) => true
    case AcceptInsert(i, _) => i.workspaceId != wsId && i.id in db.invites && db.invites[i.id].workspaceId != wsId
    case AcceptMark(i, _) => i.id in db.invites && db.invites[i.id].workspaceId != wsId
    case UnitParent(w, _, _) => w != wsId
    case UnitInsert(w, _, _) => w != wsId
    case PositionInsert(w, _) => w != wsId
    case AssignTarget(w, _, _, _) => w != wsId
    case AssignUnit(w, _, _, _) => w != wsId
    case AssignPosition(w, _, _, _) => w != wsId
    case AssignWrite(w, _, _, _) => w != wsId
    case _ => true
  }

  ghost predicate StaysAway(t: Ops, db1: Db, db2: Db, pc: Pc, env: Env, wsId: Id) {
    var turn := Step(t, db1, pc, env);
    Alike(turn.db, db2, wsId) && (turn.reply == None ==> Away(turn.db, turn.pc, wsId))
  }

  lemma TokenKeys(db: Db, token: string)
    requires Indexed(db)
    ensures token in db.tokens && db.tokens[token] in db.invites ==> db.invites[db.tokens[token]].id == db.tokens[token]
  {}

  lemma ReadsStayAway(t: Ops, db1: Db, db2: Db, pc: Pc, env: Env, wsId: Id)
    requires Alike(db1, db2, wsId) && Away(db1, pc, wsId) && !Writes(pc)
    ensures StaysAway(t, db1, db2, pc, env, wsId)
  {
    hide SameHost, MembersAlike, InvitesAlike, UnitsAlike, PositionsAlike, Indexed;
    if pc.Begin? && pc.req.AcceptInvite? { TokenKeys(db1, pc.req.token); }
    hide Alike;
  }

  // ---- A row of another workspace added or changed in the full run only ----

  lemma MembersElsewhere(m1: map<Id, Member>, m2: map<Id, Member>, wsId: Id, m: Member)
    requires MembersAlike(m1, m2, wsId) && m.workspaceId != wsId && (m.id in m1 ==> m1[m.id].workspaceId != wsId)
    ensures MembersAlike(m1[m.id := m], m2, wsId)
  {}

  lemma InvitesElsewhere(i1: map<Id, Invite>, i2: map<Id, Invite>, wsId: Id, i: Invite)
    requires InvitesAlike(i1, i2, wsId) && i.workspaceId != wsId && (i.id in i1 ==> i1[i.id].workspaceId != wsId)
    ensures InvitesAlike(i1[i.id := i], i2, wsId)
  {}

  lemma KeyOfMember(db: Db, k: Id)
    requires Indexed(db) && k in db.members
    ensures db.members[k].id == k
  {}

  lemma KeyOfInvite(db: Db, i: Id)
    requires Indexed(db) && i in db.invites
    ensures db.invites[i].id == i
  {}

  lemma MemberElsewhere(db1: Db, db2: Db, wsId: Id, m: Member)
    requires Alike(db1, db2, wsId) && m.workspaceId != wsId && m.id !in db1.members && Seat(m) !in db1.seats
    ensures Alike(WithMember(db1, m), db2, wsId)
  {
    hide MembersAlike, InvitesAlike, UnitsAlike, PositionsAlike, SeatsMatch, TokensMatch, SlugsMatch;
    NewSeat(db1.members, db1.seats, m);
    MembersElsewhere(db1.members, db2.members, wsId, m);
  }

  lemma MoveElsewhere(db1: Db, db2: Db, wsId: Id, k: Id, unit: Option<Id>, position: Option<Id>)
    requires Alike(db1, db2, wsId) && k in db1.members && db1.members[k].workspaceId != wsId
    ensures Alike(Moved(db1, k, unit, position), db2, wsId)
  {
    hide MembersAlike, InvitesAlike, UnitsAlike, PositionsAlike, SeatsMatch, TokensMatch, SlugsMatch;
    KeyOfMember(db1, k);
    var row := db1.members[k].(orgUnitId := unit, positionId := position);
    SameSeat(db1.members, db1.seats, row);
    MembersElsewhere(db1.members, db2.members, wsId, row);
  }

  lemma MarkElsewhere(db1: Db, db2: Db, wsId: Id, i: Id, now: Time)
    requires Alike(db1, db2, wsId) && i in db1.invites && db1.invites[i].workspaceId != wsId
    ensures Alike(Marked(db1, i, now), db2, wsId)
  {
    hide MembersAlike, InvitesAlike, UnitsAlike, PositionsAlike, SeatsMatch, TokensMatch, SlugsMatch;
    KeyOfInvite(db1, i);
    var row := db1.invites[i].(acceptedAt := Some(now));
    SameToken(db1.invites, db1.tokens, row);
    InvitesElsewhere(db1.invites, db2.invites, wsId, row);
  }

  lemma InviteElsewhere(db1: Db, db2: Db, wsId: Id, i: Invite)
    requires Alike(db1, db2, wsId) && i.workspaceId != wsId && i.id !in db1.invites && i.token !in db1.tokens
    ensures Alike(WithInvite(db1, i), db2, wsId)
  {
    hide MembersAlike, InvitesAlike, UnitsAlike, PositionsAlike, SeatsMatch, TokensMatch, SlugsMatch;
    NewToken(db1.invites, db1.tokens, i);
    InvitesElsewhere(db1.invites, db2.invites, wsId, i);
  }

  lemma MembershipStaysAway(t: Ops, db1: Db, db2: Db, pc: Pc, env: Env, wsId: Id)
    requires Alike(db1, db2, wsId) && Away(db1, pc, wsId) && (pc.OwnerInsert? || pc.AcceptInsert?)
    ensures StaysAway(t, db1, db2, pc, env, wsId)
  {
    hide Alike;
    var m := if pc.OwnerInsert? then NewOwner(pc.ws, env) else Invited(pc.invite, pc.user, env);
    if InsertMember(db1, m).err == None { MemberElsewhere(db1, db2, wsId, m); }
  }

  lemma InvitesStayAway(t: Ops, db1: Db, db2: Db, pc: Pc, env: Env, wsId: Id)
    requires Alike(db1, db2, wsId) && Away(db1, pc, wsId) && (pc.InviteInsert? || pc.AcceptMark?)
    ensures StaysAway(t, db1, db2, pc, env, wsId)
  {
    hide Alike;
    match pc
    case InviteInsert(w, _, email, role) =>
      var i := NewInvite(t, w, email, role, env);
      if InsertInvite(db1, i).err == None { InviteElsewhere(db1, db2, wsId, i); }
    case AcceptMark(i, _) => MarkElsewhere(db1, db2, wsId, i.id, env.now);
  }

  lemma SeatedInside(db: Db, wsId: Id, user: Id)
    requires Indexed(db) && FindMember(db, wsId, user).Some?
    ensures db.members[db.seats[(wsId, user)]].workspaceId == wsId
  {
    assert Seat(db.members[db.seats[(wsId, user)]]) == (wsId, user);
    hide TokensMatch, SlugsMatch;
  }

  lemma AssignmentElsewhere(db1: Db, db2: Db, w: Id, target: Id, unit: Option<Id>, position: Option<Id>, wsId: Id)
    requires Alike(db1, db2, wsId) && w != wsId
    ensures Alike(UpdateAssignment(db1, w, target, unit, position).db, db2, wsId)
  {
    hide SameHost, MembersAlike, InvitesAlike, UnitsAlike, PositionsAlike, Indexed;
    if FindMember(db1, w, target).Some? {
      SeatedInside(db1, w, target);
      MoveElsewhere(db1, db2, wsId, db1.seats[(w, target)], unit, position);
    }
    hide Alike;
  }

  lemma AssignStaysAway(t: Ops, db1: Db, db2: Db, pc: Pc, env: Env, wsId: Id)
    requires Alike(db1, db2, wsId) && Away(db1, pc, wsId) && pc.AssignWrite?
    ensures StaysAway(t, db1, db2, pc, env, wsId)
  {
    hide Alike, Step, UpdateAssignment;
    AssignWriteSteps(t, db1, pc, env);
    AssignmentElsewhere(db1, db2, pc.wsId, pc.target, pc.unit, pc.position, wsId);
  }

  lemma UnitElsewhere(db1: Db, db2: Db, wsId: Id, u: OrgUnit)
    requires Alike(db1, db2, wsId) && u.workspaceId != wsId && u.id !in db1.units
    ensures Alike(WithUnit(db1, u), db2, wsId)
  {
    hide MembersAlike, InvitesAlike, PositionsAlike, SeatsMatch, TokensMatch, SlugsMatch;
  }

  lemma PositionElsewhere(db1: Db, db2: Db, wsId: Id, p: Position)
    requires Alike(db1, db2, wsId) && p.workspaceId != wsId && p.id !in db1.positions
    ensures Alike(db1.(positions := db1.positions[p.id := p]), db2, wsId)
  {
    hide MembersAlike, InvitesAlike, UnitsAlike, SeatsMatch, TokensMatch, SlugsMatch;
  }

  lemma WorkspaceElsewhere(db1: Db, db2: Db, wsId: Id, ws: Workspace)
    requires Alike(db1, db2, wsId) && ws.id !in db1.workspaces && ws.slug !in db1.slugs
    ensures Alike(WithWorkspace(db1, ws), db2, wsId) && ws.id != wsId
  {
    hide MembersAlike, InvitesAlike, UnitsAlike, PositionsAlike, SeatsMatch, TokensMatch, SlugsMatch;
    NewSlug(db1.workspaces, db1.slugs, ws);
  }

  lemma OthersStayAway(t: Ops, db1: Db, db2: Db, pc: Pc, env: Env, wsId: Id)
    requires Alike(db1, db2, wsId) && Away(db1, pc, wsId) && (pc.WsInsert? || pc.UnitInsert? || pc.PositionInsert?)
    ensures StaysAway(t, db1, db2, pc, env, wsId)
  {
    hide Alike;
    match pc
    case WsInsert(user, name, slug) =>
      var ws := Workspace(env.id, name, slug, user, env.now);
      if InsertWorkspace(db1, ws).err == None { WorkspaceElsewhere(db1, db2, wsId, ws); }
    case UnitInsert(w, name, parent) =>
      var u := OrgUnit(env.id, w, parent, name, 0, env.now);
      if InsertUnit(db1, u).err == None { UnitElsewhere(db1, db2, wsId, u); }
    case PositionInsert(w, title) =>
      var p := Position(env.id, w, title, env.now);
      if InsertPosition(db1, p).err == None { PositionElsewhere(db1, db2, wsId, p); }
  }

  lemma StatementStaysAway(t: Ops, db1: Db, db2: Db, pc: Pc, env: Env, wsId: Id)
    requires Alike(db1, db2, wsId) && Away(db1, pc, wsId)
    ensures StaysAway(t, db1, db2, pc, env, wsId)
  {
    hide StaysAway, Alike, Away;
    if !Writes(pc) {
      ReadsStayAway(t, db1, db2, pc, env, wsId);
    } else if pc.OwnerInsert? || pc.AcceptInsert? {
      MembershipStaysAway(t, db1, db2, pc, env, wsId);
    } else if pc.InviteInsert? || pc.AcceptMark? {
      InvitesStayAway(t, db1, db2, pc, env, wsId);
    } else if pc.AssignWrite? {
      AssignStaysAway(t, db1, db2, pc, env, wsId);
    } else {
      OthersStayAway(t, db1, db2, pc, env, wsId);
    }
  }

  // A whole call addressed elsewhere leaves the workspace's rows as they are.
  lemma {:induction false} CallStaysAway(t: Ops, db1: Db, db2: Db, pc: Pc, inputs: nat -> Env, wsId: Id)
    requires Alike(db1, db2, wsId) && Away(db1, pc, wsId)
    ensures Alike(RunAlone(t, db1, pc, inputs).db, db2, wsId)
    decreases Remaining(pc)
  {
    hide Alike, Away, Step, Remaining;
    var env := inputs(Remaining(pc));
    var turn := Step(t, db1, pc, env);
    StatementStaysAway(t, db1, db2, pc, env, wsId);
    if turn.reply == None { CallStaysAway(t, turn.db, db2, turn.pc, inputs, wsId); }
  }

  // ---- The theorem ----

  lemma {:induction false} ProjectionAlike(t: Ops, db: Db, jobs: seq<Job>, wsId: Id)
    requires Indexed(db) && wsId in db.workspaces && FreshScript(t, db, jobs)
    ensures var own := Addressed(t, db, jobs, wsId);
      && Alike(Play(t, db, jobs).db, Play(t, db, own).db, wsId)
      && AddressedReplies(t, db, jobs, wsId) == Play(t, db, own).replies
  {
    hide Indexed;
    if jobs != [] {
      var n := |jobs| - 1;
      ProjectionAlike(t, db, jobs[..n], wsId);
      var own := Addressed(t, db, jobs[..n], wsId);
      var before1, before2 := Play(t, db, jobs[..n]), Play(t, db, own);
      if Target(before1.db, jobs[n].req) == Some(wsId) {
        CallAgrees(t, before1.db, before2.db, Begin(jobs[n].req), jobs[n].inputs, wsId);
        assert (own + [jobs[n]])[..|own|] == own;
      } else {
        CallStaysAway(t, before1.db, before2.db, Begin(jobs[n].req), jobs[n].inputs, wsId);
      }
    }
  }

  lemma AlikeRows(db1: Db, db2: Db, wsId: Id)
    requires Alike(db1, db2, wsId)
    ensures RowsOf(db1, wsId) == RowsOf(db2, wsId)
  {
    hide Indexed, SameHost;
    assert RowsOf(db1, wsId).members == RowsOf(db2, wsId).members by { hide InvitesAlike, UnitsAlike, PositionsAlike; }
    assert RowsOf(db1, wsId).invites == RowsOf(db2, wsId).invites by { hide MembersAlike, UnitsAlike, PositionsAlike; }
    assert RowsOf(db1, wsId).units == RowsOf(db2, wsId).units by { hide MembersAlike, InvitesAlike, PositionsAlike; }
    assert RowsOf(db1, wsId).positions == RowsOf(db2, wsId).positions by {
      hide MembersAlike, InvitesAlike, UnitsAlike;
    }
  }

  // From any reachable database that has the workspace: run any script of complete
  // calls with fresh ids and tokens, or only the calls addressed to the workspace.
  // Its rows end up the same, and its calls get the same replies.
  lemma TenantIsolation(t: Ops, events: seq<Event>, jobs: seq<Job>, wsId: Id)
    requires var db := Run(t, INITIAL, events).db; wsId in db.workspaces && FreshScript(t, db, jobs)
    ensures var db := Run(t, INITIAL, events).db;
      var own := Addressed(t, db, jobs, wsId);
      && RowsOf(Play(t, db, jobs).db, wsId) == RowsOf(Play(t, db, own).db, wsId)
      && AddressedReplies(t, db, jobs, wsId) == Play(t, db, own).replies
  {
    RunKeeps(t, events);
    var db := Run(t, INITIAL, events).db;
    ProjectionAlike(t, db, jobs, wsId);
    AlikeRows(Play(t, db, jobs).db, Play(t, db, Addressed(t, db, jobs, wsId)).db, wsId);
  }
}
