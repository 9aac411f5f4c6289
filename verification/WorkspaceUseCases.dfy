// internal/application/workspace: the Execute methods over the repositories. Each is
// proved to do what the step-by-step call does when nothing interleaves, so the
// interleaved results speak about this code, and to leave the rows and the reply of the
// call's outcome, which is written down without the code's own statements and checks.
// inputs(n) is what clock, generators and mailer supply when n statements remain.
module WorkspaceUseCases {
  import opened Common
  import opened Strings
  import opened WorkspaceTables
  import opened WorkspaceRepositories
  import C = WorkspaceCalls
  import O = WorkspaceOutcomes
  import WorkspaceInvariant
  import WorkspaceRows

  // The call's database effect and reply are those of the uninterrupted steps.
  ghost predicate Performs(t: Ops, before: Db, req: C.Request, inputs: nat -> C.Env, after: Db, reply: C.Reply) {
    var turn := C.Execute(t, before, req, inputs);
    turn.db == after && turn.reply == Some(reply)
  }

  method RequireManager(members: MemberRepository, wsID: Id, userID: Id) returns (err: Option<Error>)
    ensures err == C.RequireManager(members.pool.Snapshot(), wsID, userID)
    ensures members.pool.Indexed() ==>
      var c := members.pool.Rows();
      err == if !WorkspaceRows.HasSeat(c, wsID, userID) then Some(ErrNotMember)
             else if !WorkspaceRows.SeatAs(c, wsID, userID, "owner") && !WorkspaceRows.SeatAs(c, wsID, userID, "admin")
               then Some(ErrForbidden)
             else None
  {
    if members.pool.Indexed() { O.ManagerMeans(members.pool.Snapshot(), wsID, userID); }
    hide WorkspaceInvariant.Indexed, WorkspaceRows.HasSeat, WorkspaceRows.SeatAs;
    var m := members.Find(wsID, userID);
    if m.Err? {
      return Some(m.error);
    }
    if !CanManageMembers(m.value.role) {
      return Some(ErrForbidden);
    }
    err := None;
  }

  // A member row that goes in is the one its seat shows afterwards, also once the invite is marked.
  lemma InsertedMember(db: Db, m: Member, invite: Id, now: Time)
    ensures var w := InsertMember(db, m);
      if w.err.Some? then w.db == db && w.err != Some(ErrInvalidName)
      else
        && FindMember(w.db, m.workspaceId, m.userId) == Some(m)
        && FindMember(MarkInviteAccepted(w.db, invite, now), m.workspaceId, m.userId) == Some(m)
  {}

  lemma InsertedWorkspace(db: Db, ws: Workspace, m: Member)
    ensures var w := InsertWorkspace(db, ws);
      var o := InsertMember(w.db, m);
      && w.err != Some(ErrInvalidName)
      && (w.err == None && o.err == None ==> ws.id in o.db.workspaces && o.db.workspaces[ws.id] == ws)
  {}

  // An assignment that has passed its checks is written.
  lemma CheckedAssignment(db: Db, wsID: Id, target: Id, unit: Option<Id>, position: Option<Id>)
    requires FindMember(db, wsID, target).Some?
    requires unit.Some? ==> UnitExists(db, wsID, unit.value)
    requires position.Some? ==> PositionExists(db, wsID, position.value)
    ensures (wsID, target) in db.seats && db.seats[(wsID, target)] in db.members
    ensures UpdateAssignment(db, wsID, target, unit, position)
      == Written(Moved(db, db.seats[(wsID, target)], unit, position), None)
  {}

  lemma InsertedUnit(db: Db, u: OrgUnit)
    ensures var w := InsertUnit(db, u);
      if w.err.Some? then w.db == db else u.id !in db.units && w.db == WithUnit(db, u)
  {}

  class AcceptInvite {
    const t: Ops
    const invites: InviteRepository
    const members: MemberRepository

    constructor (t: Ops, invites: InviteRepository, members: MemberRepository)
      ensures this.t == t && this.invites == invites && this.members == members
    {
      this.t, this.invites, this.members := t, invites, members;
    }

    method Execute(token: string, userID: Id, inputs: nat -> C.Env) returns (reply: C.Reply)
      requires invites.pool == members.pool
      modifies members.pool
      ensures Performs(t, old(members.pool.Snapshot()), C.AcceptInvite(token, userID), inputs, members.pool.Snapshot(),
        reply)
      ensures FindInvite(old(members.pool.Snapshot()), token, inputs(5).now) == None ==>
        reply == C.Failed(ErrInviteNotFound) && members.pool.Snapshot() == old(members.pool.Snapshot())
      ensures reply == C.Done ==>
        var inv := FindInvite(old(members.pool.Snapshot()), token, inputs(5).now).value;
        var m := FindMember(members.pool.Snapshot(), inv.workspaceId, userID);
        m.Some? && m.value.role == inv.role && m.value.status == STATUS_ACTIVE && m.value.userId == userID
      ensures reply.Failed? ==> members.pool.Snapshot() == old(members.pool.Snapshot())
      ensures old(members.pool.Indexed()) ==>
        && members.pool.Indexed()
        && O.Outcome(members.pool.Rows(), reply) ==
           O.AcceptInviteOutcome(old(members.pool.Rows()), token, userID, inputs)
    {
      if members.pool.Indexed() { O.AcceptInviteYields(t, members.pool.Snapshot(), token, userID, inputs); }
      hide WorkspaceInvariant.Indexed, WorkspaceRows.HasSeat, O.AcceptInviteOutcome;
      O.AcceptSteps(t, members.pool.Snapshot(), token, userID, inputs);
      hide C.Execute, FindInvite, InsertMember, FindMember, MarkInviteAccepted;
      var found := invites.FindByToken(token, inputs(5).now);
      if found.Err? {
        return C.Failed(found.error);
      }
      var inv := found.value;
      var m := Member(inputs(2).id, inv.workspaceId, userID, inv.role, STATUS_ACTIVE, inputs(2).now, None, None);
      InsertedMember(members.pool.Snapshot(), m, inv.id, inputs(1).now);
      var err := members.Create(m);
      if err.Some? {
        return C.Failed(err.value);
      }
      invites.MarkAccepted(inv.id, inputs(1).now);
      reply := C.Done;
    }
  }

  class InviteMember {
    const t: Ops
    const workspaces: WorkspaceRepository
    const members: MemberRepository
    const invites: InviteRepository

    constructor (t: Ops, workspaces: WorkspaceRepository, members: MemberRepository, invites: InviteRepository)
      ensures this.t == t && this.workspaces == workspaces && this.members == members && this.invites == invites
    {
      this.t, this.workspaces, this.members, this.invites := t, workspaces, members, invites;
    }

    // The mailer's answer is inputs(1).mailOk; the row is in even when it is false.
    method Execute(workspaceID: Id, inviterID: Id, email: string, role: string, inputs: nat -> C.Env)
            returns (reply: C.Reply)
      requires workspaces.pool == members.pool == invites.pool
      modifies members.pool
      ensures Performs(t, old(members.pool.Snapshot()), C.InviteMember(workspaceID, inviterID, email, role), inputs,
        members.pool.Snapshot(), reply)
      ensures !ValidRole(role) ==> reply == C.Failed(ErrInvalidRole)
      ensures var before, after := old(members.pool.Snapshot()), members.pool.Snapshot();
        after != before ==>
          && ValidRole(role) && C.RequireManager(before, workspaceID, inviterID) == None
             && workspaceID in before.workspaces
          && inputs(2).id !in before.invites && inputs(2).token !in before.tokens
          && after == WithInvite(before,
             Invite(inputs(2).id, workspaceID, t.normal(email), role, inputs(2).token, inputs(2).now + C.INVITE_TTL,
             None))
      ensures reply == C.Done ==> members.pool.Snapshot() != old(members.pool.Snapshot())
      ensures old(members.pool.Indexed()) ==>
        && members.pool.Indexed()
        && O.Outcome(members.pool.Rows(), reply) ==
           O.InviteMemberOutcome(t, old(members.pool.Rows()), workspaceID, inviterID, email, role, inputs)
    {
      if members.pool.Indexed() {
        O.InviteMemberYields(t, members.pool.Snapshot(), workspaceID, inviterID, email, role, inputs);
      }
      hide WorkspaceInvariant.Indexed, O.InviteMemberOutcome;
      O.InviteSteps(t, members.pool.Snapshot(), workspaceID, inviterID, email, role, inputs);
      hide C.Execute;
      ghost var db := members.pool.Snapshot();
      if !ValidRole(role) {
        return C.Failed(ErrInvalidRole);
      }
      var inviter := members.Find(workspaceID, inviterID);
      if inviter.Err? {
        return C.Failed(inviter.error);
      }
      if !CanManageMembers(inviter.value.role) {
        return C.Failed(ErrForbidden);
      }
      var ws := workspaces.FindByID(workspaceID);
      if ws.Err? {
        return C.Failed(ws.error);
      }
      var inv := Invite(inputs(2).id, workspaceID, t.normal(email), role, inputs(2).token,
        inputs(2).now + C.INVITE_TTL, None);
      var err := invites.Create(inv);
      if err.Some? {
        return C.Failed(err.value);
      }
      assert members.pool.invites != db.invites;
      reply := if inputs(1).mailOk then C.Done else C.Failed(MailError);
    }
  }

  class CreateWorkspace {
    const t: Ops
    const workspaces: WorkspaceRepository
    const members: MemberRepository

    constructor (t: Ops, workspaces: WorkspaceRepository, members: MemberRepository)
      ensures this.t == t && this.workspaces == workspaces && this.members == members
    {
      this.t, this.workspaces, this.members := t, workspaces, members;
    }

    method Execute(userID: Id, rawName: string, inputs: nat -> C.Env) returns (reply: C.Reply)
      requires workspaces.pool == members.pool
      modifies members.pool
      ensures Performs(t, old(members.pool.Snapshot()), C.CreateWorkspace(userID, rawName), inputs,
        members.pool.Snapshot(), reply)
      ensures reply == C.Failed(ErrInvalidName) <==> t.trim(rawName) == ""
      ensures reply.Made? ==>
        var db := members.pool.Snapshot();
        var m := FindMember(db, reply.ws.id, userID);
        && reply.ws.id in db.workspaces && db.workspaces[reply.ws.id] == reply.ws
        && reply.ws.name == t.trim(rawName) && reply.ws.createdBy == userID
        && (exists suffix :: reply.ws.slug == t.slug(t.trim(rawName)) + "-" + suffix)
        && m.Some? && m.value.role == ROLE_OWNER && m.value.status == STATUS_ACTIVE
      ensures old(members.pool.Indexed()) ==>
        && members.pool.Indexed()
        && O.Outcome(members.pool.Rows(), reply) ==
           O.CreateWorkspaceOutcome(t, old(members.pool.Rows()), userID, rawName, inputs)
    {
      if members.pool.Indexed() { O.CreateWorkspaceYields(t, members.pool.Snapshot(), userID, rawName, inputs); }
      hide WorkspaceInvariant.Indexed, WorkspaceRows.HasSeat, WorkspaceRows.SlugTaken, O.CreateWorkspaceOutcome;
      O.CreateSteps(t, members.pool.Snapshot(), userID, rawName, inputs);
      hide C.Execute, InsertWorkspace, InsertMember, FindMember;
      ghost var db := members.pool.Snapshot();
      var name := t.trim(rawName);
      if name == "" {
        return C.Failed(ErrInvalidName);
      }
      var base := t.slug(name);
      var suffix := inputs(5).suffix;
      var taken := workspaces.SlugExists(base + "-" + suffix);
      if taken {
        suffix := inputs(5).retrySuffix;
      }
      var slug := base + "-" + suffix;
      var w := Workspace(inputs(2).id, name, slug, userID, inputs(2).now);
      var owner := Member(inputs(1).id, w.id, userID, ROLE_OWNER, STATUS_ACTIVE, inputs(1).now, None, None);
      InsertedWorkspace(db, w, owner);
      var err := workspaces.Create(w);
      if err.Some? {
        return C.Failed(err.value);
      }
      InsertedMember(members.pool.Snapshot(), owner, "", 0);
      err := members.Create(owner);
      if err.Some? {
        return C.Failed(err.value);
      }
      reply := C.Made(w);
    }
  }

  class CreateOrgUnit {
    const t: Ops
    const members: MemberRepository
    const units: OrgUnitRepository

    constructor (t: Ops, members: MemberRepository, units: OrgUnitRepository)
      ensures this.t == t && this.members == members && this.units == units
    {
      this.t, this.members, this.units := t, members, units;
    }

    method Execute(wsID: Id, requesterID: Id, rawName: string, parentID: Option<Id>, inputs: nat -> C.Env)
            returns (reply: C.Reply)
      requires members.pool == units.pool
      modifies members.pool
      ensures Performs(t, old(members.pool.Snapshot()), C.CreateOrgUnit(wsID, requesterID, rawName, parentID), inputs,
        members.pool.Snapshot(), reply)
      ensures var before, after := old(members.pool.Snapshot()), members.pool.Snapshot();
        if reply.MadeUnit? then
          && C.RequireManager(before, wsID, requesterID) == None && t.trim(rawName) != ""
          && (parentID.Some? ==> UnitExists(before, wsID, parentID.value))
          && reply.orgUnit == OrgUnit(inputs(1).id, wsID, parentID, t.trim(rawName), 0, inputs(1).now)
          && reply.orgUnit.id !in before.units && after == WithUnit(before, reply.orgUnit)
        else reply.Failed? && after == before
      ensures old(members.pool.Indexed()) ==>
        && members.pool.Indexed()
        && O.Outcome(members.pool.Rows(), reply) ==
           O.CreateOrgUnitOutcome(t, old(members.pool.Rows()), wsID, requesterID, rawName, parentID, inputs)
    {
      if members.pool.Indexed() {
        O.CreateOrgUnitYields(t, members.pool.Snapshot(), wsID, requesterID, rawName, parentID, inputs);
      }
      hide WorkspaceInvariant.Indexed, WorkspaceRows.HasSeat, WorkspaceRows.SeatAs, O.CreateOrgUnitOutcome;
      O.UnitSteps(t, members.pool.Snapshot(), wsID, requesterID, rawName, parentID, inputs);
      hide C.Execute, C.RequireManager, InsertUnit, UnitExists;
      var denied := RequireManager(members, wsID, requesterID);
      if denied.Some? {
        return C.Failed(denied.value);
      }
      var name := t.trim(rawName);
      if name == "" {
        return C.Failed(ErrInvalidName);
      }
      if parentID.Some? {
        var ok := units.Exists(wsID, parentID.value);
        if !ok {
          return C.Failed(ErrOrgUnitNotFound);
        }
      }
      var u := OrgUnit(inputs(1).id, wsID, parentID, name, 0, inputs(1).now);
      InsertedUnit(members.pool.Snapshot(), u);
      var err := units.Create(u);
      if err.Some? {
        return C.Failed(err.value);
      }
      reply := C.MadeUnit(u);
    }
  }

  class CreatePosition {
    const t: Ops
    const members: MemberRepository
    const positions: PositionRepository

    constructor (t: Ops, members: MemberRepository, positions: PositionRepository)
      ensures this.t == t && this.members == members && this.positions == positions
    {
      this.t, this.members, this.positions := t, members, positions;
    }

    method Execute(wsID: Id, requesterID: Id, rawTitle: string, inputs: nat -> C.Env) returns (reply: C.Reply)
      requires members.pool == positions.pool
      modifies members.pool
      ensures Performs(t, old(members.pool.Snapshot()), C.CreatePosition(wsID, requesterID, rawTitle), inputs,
        members.pool.Snapshot(), reply)
      ensures var before, after := old(members.pool.Snapshot()), members.pool.Snapshot();
        if reply.MadePosition? then
          && C.RequireManager(before, wsID, requesterID) == None && t.trim(rawTitle) != ""
          && reply.pos == Position(inputs(1).id, wsID, t.trim(rawTitle), inputs(1).now)
          && reply.pos.id !in before.positions
             && after == before.(positions := before.positions[reply.pos.id := reply.pos])
        else reply.Failed? && after == before
      ensures old(members.pool.Indexed()) ==>
        && members.pool.Indexed()
        && O.Outcome(members.pool.Rows(), reply) ==
           O.CreatePositionOutcome(t, old(members.pool.Rows()), wsID, requesterID, rawTitle, inputs)
    {
      if members.pool.Indexed() {
        O.CreatePositionYields(t, members.pool.Snapshot(), wsID, requesterID, rawTitle, inputs);
      }
      hide WorkspaceInvariant.Indexed, WorkspaceRows.HasSeat, WorkspaceRows.SeatAs, O.CreatePositionOutcome;
      O.PositionSteps(t, members.pool.Snapshot(), wsID, requesterID, rawTitle, inputs);
      hide C.Execute, C.RequireManager;
      var denied := RequireManager(members, wsID, requesterID);
      if denied.Some? {
        return C.Failed(denied.value);
      }
      var title := t.trim(rawTitle);
      if title == "" {
        return C.Failed(ErrInvalidTitle);
      }
      var p := Position(inputs(1).id, wsID, title, inputs(1).now);
      var err := positions.Create(p);
      if err.Some? {
        return C.Failed(err.value);
      }
      reply := C.MadePosition(p);
    }
  }

  class AssignMember {
    const t: Ops
    const members: MemberRepository
    const units: OrgUnitRepository
    const positions: PositionRepository

    constructor (t: Ops, members: MemberRepository, units: OrgUnitRepository, positions: PositionRepository)
      ensures this.t == t && this.members == members && this.units == units && this.positions == positions
    {
      this.t, this.members, this.units, this.positions := t, members, units, positions;
    }

    // None clears the field; an id must name a row of the same workspace.
    method Execute(wsID: Id, requesterID: Id, targetUserID: Id, orgUnitID: Option<Id>, positionID: Option<Id>,
            inputs: nat -> C.Env)
      returns (reply: C.Reply)
      requires members.pool == units.pool == positions.pool
      modifies members.pool
      ensures Performs(t, old(members.pool.Snapshot()),
        C.AssignMember(wsID, requesterID, targetUserID, orgUnitID, positionID), inputs,
                       members.pool.Snapshot(), reply)
      ensures var before, after := old(members.pool.Snapshot()), members.pool.Snapshot();
        if reply == C.Done then
          && C.RequireManager(before, wsID, requesterID) == None && FindMember(before, wsID, targetUserID).Some?
          && (orgUnitID.Some? ==> UnitExists(before, wsID, orgUnitID.value))
          && (positionID.Some? ==> PositionExists(before, wsID, positionID.value))
          && after == Moved(before, before.seats[(wsID, targetUserID)], orgUnitID, positionID)
        else
          && after == before
          && (C.RequireManager(before, wsID, requesterID).Some? || FindMember(before, wsID, targetUserID) == None
              || (orgUnitID.Some? && !UnitExists(before, wsID, orgUnitID.value))
              || (positionID.Some? && !PositionExists(before, wsID, positionID.value)))
      ensures old(members.pool.Indexed()) ==>
        && members.pool.Indexed()
        && O.Outcome(members.pool.Rows(), reply) ==
           O.AssignMemberOutcome(old(members.pool.Rows()), wsID, requesterID, targetUserID, orgUnitID, positionID)
    {
      if members.pool.Indexed() {
        O.AssignMemberYields(t, members.pool.Snapshot(), wsID, requesterID, targetUserID, orgUnitID, positionID,
          inputs);
      }
      hide WorkspaceInvariant.Indexed, WorkspaceRows.HasSeat, WorkspaceRows.SeatAs, WorkspaceRows.PlacesOnly;
      hide O.AssignMemberOutcome;
      O.AssignSteps(t, members.pool.Snapshot(), wsID, requesterID, targetUserID, orgUnitID, positionID, inputs);
      hide C.Execute, C.RequireManager, UpdateAssignment, FindMember, UnitExists, PositionExists;
      var denied := RequireManager(members, wsID, requesterID);
      if denied.Some? {
        return C.Failed(denied.value);
      }
      var target := members.Find(wsID, targetUserID);
      if target.Err? {
        return C.Failed(target.error);
      }
      if orgUnitID.Some? {
        var ok := units.Exists(wsID, orgUnitID.value);
        if !ok {
          return C.Failed(ErrOrgUnitNotFound);
        }
      }
      if positionID.Some? {
        var ok := positions.Exists(wsID, positionID.value);
        if !ok {
          return C.Failed(ErrPositionNotFound);
        }
      }
      CheckedAssignment(members.pool.Snapshot(), wsID, targetUserID, orgUnitID, positionID);
      var err := members.Assign(wsID, targetUserID, orgUnitID, positionID);
      reply := if err == None then C.Done else C.Failed(DatabaseError);
    }
  }
}
