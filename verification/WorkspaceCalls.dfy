// The workspace use cases cut into their atomic steps: one step per SQL statement
// (or mail), with the Go code between two statements folded into the earlier one.
// Sources: internal/application/workspace/*.go.
module WorkspaceCalls {
  import opened Common
  import opened Strings
  import opened WorkspaceTables

  const INVITE_TTL: Time := 7 * 24 * HOUR

  datatype Request =
    | CreateWorkspace(user: Id, name: string)
    | InviteMember(wsId: Id, user: Id, email: string, role: string)
    | AcceptInvite(token: string, user: Id)
    | CreateOrgUnit(wsId: Id, user: Id, name: string, parent: Option<Id>)
    | CreatePosition(wsId: Id, user: Id, title: string)
    | AssignMember(wsId: Id, user: Id, target: Id, unit: Option<Id>, position: Option<Id>)

  datatype Reply =
    | Done
    | Made(ws: Workspace)
    | MadeUnit(orgUnit: OrgUnit)
    | MadePosition(pos: Position)
    | Failed(error: Error)

  // Where a call stands: each constructor names the next statement to execute and
  // holds the local variables alive there. The last of each group is "all done".
  datatype Pc =
    | Begin(req: Request)
    | WsInsert(user: Id, name: string, slug: string) | OwnerInsert(ws: Workspace) | WsCreated(ws: Workspace)
    | InviteLookup(wsId: Id, user: Id, email: string, role: string)
    | InviteInsert(wsId: Id, user: Id, email: string, role: string) | InviteMail(invite: Invite)
      | InviteSent(invite: Invite)
    | AcceptInsert(invite: Invite, user: Id) | AcceptMark(invite: Invite, memberId: Id)
      | Accepted(invite: Invite, memberId: Id)
    | UnitParent(wsId: Id, name: string, parentId: Id) | UnitInsert(wsId: Id, name: string, parent: Option<Id>)
      | UnitCreated(orgUnit: OrgUnit)
    | PositionInsert(wsId: Id, title: string) | PositionCreated(pos: Position)
    | AssignTarget(wsId: Id, target: Id, unit: Option<Id>, position: Option<Id>)
    | AssignUnit(wsId: Id, target: Id, unitId: Id, position: Option<Id>)
    | AssignPosition(wsId: Id, target: Id, unit: Option<Id>, positionId: Id)
    | AssignWrite(wsId: Id, target: Id, unit: Option<Id>, position: Option<Id>)
    | Assigned(wsId: Id, target: Id)

  // What a step may take from outside: a generated id, a generated token, the two
  // slug suffixes, the clock, and whether the mailer accepts the message.
  datatype Env = Env(id: Id, token: string, suffix: string, retrySuffix: string, now: Time, mailOk: bool)

  // The state after a step. A call that returns an error stays where it was.
  datatype Turn = Turn(db: Db, pc: Pc, reply: Option<Reply>)

  function Stop(db: Db, pc: Pc, e: Error): Turn {
    Turn(db, pc, Some(Failed(e)))
  }

  function Go(db: Db, pc: Pc): Turn {
    Turn(db, pc, None)
  }

  // requireManager, shared by CreateOrgUnit, CreatePosition and AssignMember.
  function RequireManager(db: Db, wsId: Id, user: Id): Option<Error> {
    match FindMember(db, wsId, user)
    case None => Some(ErrNotMember)
    case Some(m) => if CanManageMembers(m.role) then None else Some(ErrForbidden)
  }

  function NewOwner(ws: Workspace, env: Env): Member {
    Member(env.id, ws.id, ws.createdBy, ROLE_OWNER, STATUS_ACTIVE, env.now, None, None)
  }

  function NewInvite(t: Ops, wsId: Id, email: string, role: string, env: Env): Invite {
    Invite(env.id, wsId, t.normal(email), role, env.token, env.now + INVITE_TTL, None)
  }

  function Invited(i: Invite, user: Id, env: Env): Member {
    Member(env.id, i.workspaceId, user, i.role, STATUS_ACTIVE, env.now, None, None)
  }

  function AfterTarget(wsId: Id, target: Id, unit: Option<Id>, position: Option<Id>): Pc {
    match unit
    case Some(u) => AssignUnit(wsId, target, u, position)
    case None => AfterUnit(wsId, target, unit, position)
  }

  function AfterUnit(wsId: Id, target: Id, unit: Option<Id>, position: Option<Id>): Pc {
    match position
    case Some(p) => AssignPosition(wsId, target, unit, p)
    case None => AssignWrite(wsId, target, unit, position)
  }

  function First(t: Ops, db: Db, pc: Pc, env: Env): (turn: Turn)
    requires pc.Begin?
    ensures turn.reply == None ==> Remaining(turn.pc) < Remaining(pc)
  {
    match pc.req
    case CreateWorkspace(user, rawName) =>
      var name := t.trim(rawName);
      if name == "" then Stop(db, pc, ErrInvalidName)
      else
        var base := t.slug(name);
        var slug := base + "-" + env.suffix;
        Go(db, WsInsert(user, name, if slug in db.slugs then base + "-" + env.retrySuffix else slug))
    case InviteMember(wsId, user, email, role) =>
      if !ValidRole(role) then Stop(db, pc, ErrInvalidRole)
      else
        var e := RequireManager(db, wsId, user);
        if e.Some? then Stop(db, pc, e.value) else Go(db, InviteLookup(wsId, user, email, role))
    case AcceptInvite(token, user) =>
      var i := FindInvite(db, token, env.now);
      if i == None then Stop(db, pc, ErrInviteNotFound) else Go(db, AcceptInsert(i.value, user))
    case CreateOrgUnit(wsId, user, rawName, parent) =>
      var e := RequireManager(db, wsId, user);
      var name := t.trim(rawName);
      if e.Some? then Stop(db, pc, e.value)
      else if name == "" then Stop(db, pc, ErrInvalidName)
      else if parent.Some? then Go(db, UnitParent(wsId, name, parent.value))
      else Go(db, UnitInsert(wsId, name, None))
    case CreatePosition(wsId, user, rawTitle) =>
      var e := RequireManager(db, wsId, user);
      var title := t.trim(rawTitle);
      if e.Some? then Stop(db, pc, e.value)
      else if title == "" then Stop(db, pc, ErrInvalidTitle)
      else Go(db, PositionInsert(wsId, title))
    case AssignMember(wsId, user, target, unit, position) =>
      var e := RequireManager(db, wsId, user);
      if e.Some? then Stop(db, pc, e.value) else Go(db, AssignTarget(wsId, target, unit, position))
  }

  function Step(t: Ops, db: Db, pc: Pc, env: Env): (turn: Turn)
    ensures turn.reply == None ==> Remaining(turn.pc) < Remaining(pc)
  {
    match pc
    case Begin(_) => First(t, db, pc, env)
    case WsInsert(user, name, slug) =>
      var ws := Workspace(env.id, name, slug, user, env.now);
      var w := InsertWorkspace(db, ws);
      if w.err.Some? then Stop(db, pc, w.err.value) else Go(w.db, OwnerInsert(ws))
    case OwnerInsert(ws) =>
      var w := InsertMember(db, NewOwner(ws, env));
      if w.err.Some? then Stop(db, pc, w.err.value) else Turn(w.db, WsCreated(ws), Some(Made(ws)))
    case InviteLookup(wsId, user, email, role) =>
      if FindWorkspace(db, wsId) == None then Stop(db, pc, ErrWorkspaceNotFound)
        else Go(db, InviteInsert(wsId, user, email, role))
    case InviteInsert(wsId, user, email, role) =>
      var i := NewInvite(t, wsId, email, role, env);
      var w := InsertInvite(db, i);
      if w.err.Some? then Stop(db, pc, w.err.value) else Go(w.db, InviteMail(i))
    case InviteMail(i) =>
      if env.mailOk then Turn(db, InviteSent(i), Some(Done)) else Stop(db, pc, MailError)
    case AcceptInsert(i, user) =>
      var w := InsertMember(db, Invited(i, user, env));
      if w.err.Some? then Stop(db, pc, w.err.value) else Go(w.db, AcceptMark(i, env.id))
    case AcceptMark(i, memberId) =>
      Turn(MarkInviteAccepted(db, i.id, env.now), Accepted(i, memberId), Some(Done))
    case UnitParent(wsId, name, parentId) =>
      if UnitExists(db, wsId, parentId) then Go(db, UnitInsert(wsId, name, Some(parentId)))
        else Stop(db, pc, ErrOrgUnitNotFound)
    case UnitInsert(wsId, name, parent) =>
      var u := OrgUnit(env.id, wsId, parent, name, 0, env.now);
      var w := InsertUnit(db, u);
      if w.err.Some? then Stop(db, pc, w.err.value) else Turn(w.db, UnitCreated(u), Some(MadeUnit(u)))
    case PositionInsert(wsId, title) =>
      var p := Position(env.id, wsId, title, env.now);
      var w := InsertPosition(db, p);
      if w.err.Some? then Stop(db, pc, w.err.value) else Turn(w.db, PositionCreated(p), Some(MadePosition(p)))
    case AssignTarget(wsId, target, unit, position) =>
      if FindMember(db, wsId, target) == None then Stop(db, pc, ErrNotMember)
        else Go(db, AfterTarget(wsId, target, unit, position))
    case AssignUnit(wsId, target, unitId, position) =>
      if UnitExists(db, wsId, unitId) then Go(db, AfterUnit(wsId, target, Some(unitId), position))
        else Stop(db, pc, ErrOrgUnitNotFound)
    case AssignPosition(wsId, target, unit, positionId) =>
      if PositionExists(db, wsId, positionId) then Go(db, AssignWrite(wsId, target, unit, Some(positionId)))
        else Stop(db, pc, ErrPositionNotFound)
    case AssignWrite(wsId, target, unit, position) =>
      var w := UpdateAssignment(db, wsId, target, unit, position);
      if w.err.Some? then Stop(db, pc, w.err.value) else Turn(w.db, Assigned(wsId, target), Some(Done))
    case _ => Turn(db, pc, Some(Done))
  }

  // How many statements a call may still execute.
  function Remaining(pc: Pc): nat {
    match pc
    case Begin(_) => 5
    case AssignTarget(_, _, _, _) => 4
    case AssignUnit(_, _, _, _) => 3
    case InviteLookup(_, _, _, _) => 3
    case AssignPosition(_, _, _, _) => 2
    case WsInsert(_, _, _) => 2
    case InviteInsert(_, _, _, _) => 2
    case AcceptInsert(_, _) => 2
    case UnitParent(_, _, _) => 2
    case OwnerInsert(_) => 1
    case InviteMail(_) => 1
    case AcceptMark(_, _) => 1
    case UnitInsert(_, _, _) => 1
    case PositionInsert(_, _) => 1
    case AssignWrite(_, _, _, _) => 1
    case _ => 0
  }

  // A call left alone until it returns; inputs(n) is what the outside supplies when
  // n statements remain.
  function RunAlone(t: Ops, db: Db, pc: Pc, inputs: nat -> Env): (out: Turn)
    ensures out.reply.Some?
    decreases Remaining(pc)
  {
    var turn := Step(t, db, pc, inputs(Remaining(pc)));
    if turn.reply.Some? then turn else RunAlone(t, turn.db, turn.pc, inputs)
  }

  function Execute(t: Ops, db: Db, req: Request, inputs: nat -> Env): Turn {
    RunAlone(t, db, Begin(req), inputs)
  }
}
