// What each workspace call does from start to end when nothing interleaves: its reply
// and the rows it leaves, as a caller sees them. The outcomes are written down without
// the statements, the indexes and the steps, and every call is proved to have its own.
module WorkspaceOutcomes {
  import opened Common
  import opened Strings
  import opened WorkspaceTables
  import opened WorkspaceCalls
  import opened WorkspaceInvariant
  import opened WorkspaceRows

  datatype Outcome = Outcome(after: Contents, reply: Reply)

  function Refused(c: Contents, e: Error): Outcome {
    Outcome(c, Failed(e))
  }

  // ---- The six outcomes ----

  ghost function CreateWorkspaceOutcome(t: Ops, c: Contents, user: Id, rawName: string, inputs: nat -> Env): Outcome {
    var name := t.trim(rawName);
    var wish := t.slug(name) + "-" + inputs(5).suffix;
    var slug := if SlugTaken(c, wish) then t.slug(name) + "-" + inputs(5).retrySuffix else wish;
    var ws := Workspace(inputs(2).id, name, slug, user, inputs(2).now);
    var c' := c.(workspaces := c.workspaces[ws.id := ws]);
    if name == "" then Refused(c, ErrInvalidName)
    else if ws.id in c.workspaces || SlugTaken(c, slug) || user !in c.users then Refused(c, DatabaseError)
    else if inputs(1).id in c.members || HasSeat(c, ws.id, user) then Refused(c', ErrAlreadyMember)
    else
      var owner := Member(inputs(1).id, ws.id, user, "owner", "active", inputs(1).now, None, None);
      Outcome(c'.(members := c.members[owner.id := owner]), Made(ws))
  }

  // Seven days, in nanoseconds.
  const SEVEN_DAYS := 604_800_000_000_000

  ghost function InviteMemberOutcome(t: Ops, c: Contents, wsId: Id, user: Id, email: string, role: string,
                                     inputs: nat -> Env): Outcome
  {
    if role != "owner" && role != "admin" && role != "member" then Refused(c, ErrInvalidRole)
    else if !HasSeat(c, wsId, user) then Refused(c, ErrNotMember)
    else if !SeatAs(c, wsId, user, "owner") && !SeatAs(c, wsId, user, "admin") then Refused(c, ErrForbidden)
    else if wsId !in c.workspaces then Refused(c, ErrWorkspaceNotFound)
    else if inputs(2).id in c.invites || TokenTaken(c, inputs(2).token) then Refused(c, DatabaseError)
    else
      var i := Invite(inputs(2).id, wsId, t.normal(email), role, inputs(2).token, inputs(2).now + SEVEN_DAYS, None);
      Outcome(c.(invites := c.invites[i.id := i]), if inputs(1).mailOk then Done else Failed(MailError))
  }

  ghost function AcceptInviteOutcome(c: Contents, token: string, user: Id, inputs: nat -> Env): Outcome {
    if !exists i :: OpenInvite(c, i, token, inputs(5).now) then Refused(c, ErrInviteNotFound)
    else
      var i :| OpenInvite(c, i, token, inputs(5).now);
      var inv := c.invites[i];
      if inputs(2).id in c.members || HasSeat(c, inv.workspaceId, user) then Refused(c, ErrAlreadyMember)
      else if inv.workspaceId !in c.workspaces || user !in c.users then Refused(c, DatabaseError)
      else
        var m := Member(inputs(2).id, inv.workspaceId, user, inv.role, "active", inputs(2).now, None, None);
        Outcome(c.(members := c.members[m.id := m],
                   invites := c.invites[i := inv.(acceptedAt := Some(inputs(1).now))]), Done)
  }

  ghost function CreateOrgUnitOutcome(t: Ops, c: Contents, wsId: Id, user: Id, rawName: string, parent: Option<Id>,
                                      inputs: nat -> Env): Outcome
  {
    var u := OrgUnit(inputs(1).id, wsId, parent, t.trim(rawName), 0, inputs(1).now);
    if !HasSeat(c, wsId, user) then Refused(c, ErrNotMember)
    else if !SeatAs(c, wsId, user, "owner") && !SeatAs(c, wsId, user, "admin") then Refused(c, ErrForbidden)
    else if t.trim(rawName) == "" then Refused(c, ErrInvalidName)
    else if parent.Some? && !UnitWithin(c, wsId, parent.value) then Refused(c, ErrOrgUnitNotFound)
    else if u.id in c.units || wsId !in c.workspaces then Refused(c, DatabaseError)
    else Outcome(c.(units := c.units[u.id := u]), MadeUnit(u))
  }

  ghost function CreatePositionOutcome(t: Ops, c: Contents, wsId: Id, user: Id, rawTitle: string,
                                       inputs: nat -> Env): Outcome
  {
    var p := Position(inputs(1).id, wsId, t.trim(rawTitle), inputs(1).now);
    if !HasSeat(c, wsId, user) then Refused(c, ErrNotMember)
    else if !SeatAs(c, wsId, user, "owner") && !SeatAs(c, wsId, user, "admin") then Refused(c, ErrForbidden)
    else if t.trim(rawTitle) == "" then Refused(c, ErrInvalidTitle)
    else if p.id in c.positions || wsId !in c.workspaces then Refused(c, DatabaseError)
    else Outcome(c.(positions := c.positions[p.id := p]), MadePosition(p))
  }

  // On success the target's row, and no other, gets both placement columns.
  ghost function AssignMemberOutcome(c: Contents, wsId: Id, user: Id, target: Id, unit: Option<Id>,
                                     position: Option<Id>): Outcome
  {
    if !HasSeat(c, wsId, user) then Refused(c, ErrNotMember)
    else if !SeatAs(c, wsId, user, "owner") && !SeatAs(c, wsId, user, "admin") then Refused(c, ErrForbidden)
    else if !HasSeat(c, wsId, target) then Refused(c, ErrNotMember)
    else if unit.Some? && !UnitWithin(c, wsId, unit.value) then Refused(c, ErrOrgUnitNotFound)
    else if position.Some? && !PositionWithin(c, wsId, position.value) then Refused(c, ErrPositionNotFound)
    else
      Outcome(c.(members := map k | k in c.members ::
                   if c.members[k].workspaceId == wsId && c.members[k].userId == target
                   then c.members[k].(orgUnitId := unit, positionId := position) else c.members[k]),
              Done)
  }

  ghost function OutcomeOf(t: Ops, c: Contents, req: Request, inputs: nat -> Env): Outcome {
    match req
    case CreateWorkspace(user, name) => CreateWorkspaceOutcome(t, c, user, name, inputs)
    case InviteMember(wsId, user, email, role) => InviteMemberOutcome(t, c, wsId, user, email, role, inputs)
    case AcceptInvite(token, user) => AcceptInviteOutcome(c, token, user, inputs)
    case CreateOrgUnit(wsId, user, name, parent) => CreateOrgUnitOutcome(t, c, wsId, user, name, parent, inputs)
    case CreatePosition(wsId, user, title) => CreatePositionOutcome(t, c, wsId, user, title, inputs)
    case AssignMember(wsId, user, target, unit, position) => AssignMemberOutcome(c, wsId, user, target, unit, position)
  }

  // The call leaves these rows, its indexes in order, and gives this reply.
  ghost predicate Yields(t: Ops, db: Db, req: Request, inputs: nat -> Env, o: Outcome) {
    var turn := Execute(t, db, req, inputs);
    Indexed(turn.db) && ContentsOf(turn.db) == o.after && turn.reply == Some(o.reply)
  }

  // ---- The statements of each call, run one after another ----

  lemma Unroll(t: Ops, db: Db, pc: Pc, inputs: nat -> Env)
    ensures var turn := Step(t, db, pc, inputs(Remaining(pc)));
      RunAlone(t, db, pc, inputs) == if turn.reply.Some? then turn else RunAlone(t, turn.db, turn.pc, inputs)
  {}

  // The three statements of AcceptInvite, run one after another.
  lemma AcceptSteps(t: Ops, db: Db, token: string, user: Id, inputs: nat -> Env)
    ensures var turn := Execute(t, db, AcceptInvite(token, user), inputs);
      match FindInvite(db, token, inputs(5).now)
      case None => turn.db == db && turn.reply == Some(Failed(ErrInviteNotFound))
      case Some(inv) =>
        var w := InsertMember(db, Invited(inv, user, inputs(2)));
        if w.err.Some? then turn.db == db && turn.reply == Some(Failed(w.err.value))
        else turn.db == MarkInviteAccepted(w.db, inv.id, inputs(1).now) && turn.reply == Some(Done)
  {
    hide RunAlone, FindInvite, InsertMember, MarkInviteAccepted;
    Unroll(t, db, Begin(AcceptInvite(token, user)), inputs);
    var found := FindInvite(db, token, inputs(5).now);
    if found.Some? {
      Unroll(t, db, AcceptInsert(found.value, user), inputs);
      var w := InsertMember(db, Invited(found.value, user, inputs(2)));
      Unroll(t, w.db, AcceptMark(found.value, inputs(2).id), inputs);
    }
  }

  // The statements of CreateOrgUnit, run one after another.
  lemma UnitSteps(t: Ops, db: Db, wsId: Id, user: Id, rawName: string, parent: Option<Id>, inputs: nat -> Env)
    ensures var turn := Execute(t, db, CreateOrgUnit(wsId, user, rawName, parent), inputs);
      var denied := RequireManager(db, wsId, user);
      var u := OrgUnit(inputs(1).id, wsId, parent, t.trim(rawName), 0, inputs(1).now);
      var w := InsertUnit(db, u);
      if denied.Some? then turn.db == db && turn.reply == Some(Failed(denied.value))
      else if t.trim(rawName) == "" then turn.db == db && turn.reply == Some(Failed(ErrInvalidName))
      else if parent.Some? && !UnitExists(db, wsId, parent.value)
        then turn.db == db && turn.reply == Some(Failed(ErrOrgUnitNotFound))
      else if w.err.Some? then turn.db == db && turn.reply == Some(Failed(w.err.value))
      else turn.db == w.db && turn.reply == Some(MadeUnit(u))
  {
    hide RunAlone, RequireManager, InsertUnit, UnitExists;
    var name := t.trim(rawName);
    Unroll(t, db, Begin(CreateOrgUnit(wsId, user, rawName, parent)), inputs);
    if parent.Some? { Unroll(t, db, UnitParent(wsId, name, parent.value), inputs); }
    Unroll(t, db, UnitInsert(wsId, name, parent), inputs);
  }

  // The statements of AssignMember after the check of the unit.
  lemma AssignLast(t: Ops, db: Db, wsId: Id, target: Id, unit: Option<Id>, position: Option<Id>, inputs: nat -> Env)
    ensures var turn := RunAlone(t, db, AfterUnit(wsId, target, unit, position), inputs);
      var w := UpdateAssignment(db, wsId, target, unit, position);
      if position.Some? && !PositionExists(db, wsId, position.value)
        then turn.db == db && turn.reply == Some(Failed(ErrPositionNotFound))
      else if w.err.Some? then turn.db == db && turn.reply == Some(Failed(w.err.value))
      else turn.db == w.db && turn.reply == Some(Done)
  {
    hide RunAlone, UpdateAssignment, PositionExists;
    if position.Some? { Unroll(t, db, AssignPosition(wsId, target, unit, position.value), inputs); }
    Unroll(t, db, AssignWrite(wsId, target, unit, position), inputs);
  }

  // The statements of AssignMember after the lookup of the target.
  lemma AssignTail(t: Ops, db: Db, wsId: Id, target: Id, unit: Option<Id>, position: Option<Id>, inputs: nat -> Env)
    ensures var turn := RunAlone(t, db, AfterTarget(wsId, target, unit, position), inputs);
      var w := UpdateAssignment(db, wsId, target, unit, position);
      if unit.Some? && !UnitExists(db, wsId, unit.value)
        then turn.db == db && turn.reply == Some(Failed(ErrOrgUnitNotFound))
      else if position.Some? && !PositionExists(db, wsId, position.value)
        then turn.db == db && turn.reply == Some(Failed(ErrPositionNotFound))
      else if w.err.Some? then turn.db == db && turn.reply == Some(Failed(w.err.value))
      else turn.db == w.db && turn.reply == Some(Done)
  {
    hide RunAlone, AfterUnit, UpdateAssignment, UnitExists, PositionExists;
    AssignLast(t, db, wsId, target, unit, position, inputs);
    if unit.Some? { Unroll(t, db, AssignUnit(wsId, target, unit.value, position), inputs); }
  }

  lemma CheckedAssignmentWrites(db: Db, wsId: Id, target: Id, unit: Option<Id>, position: Option<Id>)
    requires unit.Some? ==> UnitExists(db, wsId, unit.value)
    requires position.Some? ==> PositionExists(db, wsId, position.value)
    ensures UpdateAssignment(db, wsId, target, unit, position).err == None
  {}

  // All statements of AssignMember, run one after another.
  lemma AssignSteps(t: Ops, db: Db, wsId: Id, user: Id, target: Id, unit: Option<Id>, position: Option<Id>,
          inputs: nat -> Env)
    ensures var turn := Execute(t, db, AssignMember(wsId, user, target, unit, position), inputs);
      var denied := RequireManager(db, wsId, user);
      if denied.Some? then turn.db == db && turn.reply == Some(Failed(denied.value))
      else if FindMember(db, wsId, target) == None then turn.db == db && turn.reply == Some(Failed(ErrNotMember))
      else if unit.Some? && !UnitExists(db, wsId, unit.value)
        then turn.db == db && turn.reply == Some(Failed(ErrOrgUnitNotFound))
      else if position.Some? && !PositionExists(db, wsId, position.value)
        then turn.db == db && turn.reply == Some(Failed(ErrPositionNotFound))
      else turn.db == UpdateAssignment(db, wsId, target, unit, position).db && turn.reply == Some(Done)
  {
    hide RequireManager, FindMember, RunAlone, UpdateAssignment, UnitExists, PositionExists, AfterTarget;
    Unroll(t, db, Begin(AssignMember(wsId, user, target, unit, position)), inputs);
    Unroll(t, db, AssignTarget(wsId, target, unit, position), inputs);
    AssignTail(t, db, wsId, target, unit, position, inputs);
    if (unit.Some? ==> UnitExists(db, wsId, unit.value))
      && (position.Some? ==> PositionExists(db, wsId, position.value)) {
      CheckedAssignmentWrites(db, wsId, target, unit, position);
    }
  }

  lemma InviteSteps(t: Ops, db: Db, wsId: Id, user: Id, email: string, role: string, inputs: nat -> Env)
    ensures var turn := Execute(t, db, InviteMember(wsId, user, email, role), inputs);
      var denied := RequireManager(db, wsId, user);
      var w := InsertInvite(db, NewInvite(t, wsId, email, role, inputs(2)));
      if !ValidRole(role) then turn.db == db && turn.reply == Some(Failed(ErrInvalidRole))
      else if denied.Some? then turn.db == db && turn.reply == Some(Failed(denied.value))
      else if FindWorkspace(db, wsId) == None then turn.db == db && turn.reply == Some(Failed(ErrWorkspaceNotFound))
      else if w.err.Some? then turn.db == db && turn.reply == Some(Failed(w.err.value))
      else turn.db == w.db && turn.reply == Some(if inputs(1).mailOk then Done else Failed(MailError))
  {
    hide RunAlone, RequireManager, InsertInvite, FindWorkspace, NewInvite;
    Unroll(t, db, Begin(InviteMember(wsId, user, email, role)), inputs);
    Unroll(t, db, InviteLookup(wsId, user, email, role), inputs);
    Unroll(t, db, InviteInsert(wsId, user, email, role), inputs);
    var i := NewInvite(t, wsId, email, role, inputs(2));
    Unroll(t, InsertInvite(db, i).db, InviteMail(i), inputs);
  }

  lemma PositionSteps(t: Ops, db: Db, wsId: Id, user: Id, rawTitle: string, inputs: nat -> Env)
    ensures var turn := Execute(t, db, CreatePosition(wsId, user, rawTitle), inputs);
      var denied := RequireManager(db, wsId, user);
      var p := Position(inputs(1).id, wsId, t.trim(rawTitle), inputs(1).now);
      var w := InsertPosition(db, p);
      if denied.Some? then turn.db == db && turn.reply == Some(Failed(denied.value))
      else if t.trim(rawTitle) == "" then turn.db == db && turn.reply == Some(Failed(ErrInvalidTitle))
      else if w.err.Some? then turn.db == db && turn.reply == Some(Failed(w.err.value))
      else turn.db == w.db && turn.reply == Some(MadePosition(p))
  {
    hide RunAlone, RequireManager, InsertPosition;
    Unroll(t, db, Begin(CreatePosition(wsId, user, rawTitle)), inputs);
    Unroll(t, db, PositionInsert(wsId, t.trim(rawTitle)), inputs);
  }

  lemma CreateSteps(t: Ops, db: Db, user: Id, rawName: string, inputs: nat -> Env)
    ensures var turn := Execute(t, db, CreateWorkspace(user, rawName), inputs);
      var name := t.trim(rawName);
      var wish := t.slug(name) + "-" + inputs(5).suffix;
      var slug := if wish in db.slugs then t.slug(name) + "-" + inputs(5).retrySuffix else wish;
      var ws := Workspace(inputs(2).id, name, slug, user, inputs(2).now);
      var w := InsertWorkspace(db, ws);
      var m := InsertMember(w.db, NewOwner(ws, inputs(1)));
      if name == "" then turn.db == db && turn.reply == Some(Failed(ErrInvalidName))
      else if w.err.Some? then turn.db == db && turn.reply == Some(Failed(w.err.value))
      else if m.err.Some? then turn.db == w.db && turn.reply == Some(Failed(m.err.value))
      else turn.db == m.db && turn.reply == Some(Made(ws))
  {
    hide RunAlone, InsertWorkspace, InsertMember, NewOwner;
    var name := t.trim(rawName);
    var wish := t.slug(name) + "-" + inputs(5).suffix;
    var slug := if wish in db.slugs then t.slug(name) + "-" + inputs(5).retrySuffix else wish;
    var ws := Workspace(inputs(2).id, name, slug, user, inputs(2).now);
    Unroll(t, db, Begin(CreateWorkspace(user, rawName)), inputs);
    Unroll(t, db, WsInsert(user, name, slug), inputs);
    Unroll(t, InsertWorkspace(db, ws).db, OwnerInsert(ws), inputs);
  }

  // ---- Every call has its outcome ----

  // The manager check looks for a seat and then for one of two roles on it.
  lemma ManagerMeans(db: Db, wsId: Id, user: Id)
    requires Indexed(db)
    ensures var c := ContentsOf(db);
      RequireManager(db, wsId, user) ==
        if !HasSeat(c, wsId, user) then Some(ErrNotMember)
        else if !SeatAs(c, wsId, user, "owner") && !SeatAs(c, wsId, user, "admin") then Some(ErrForbidden)
        else None
  {
    SeatsMean(db, wsId, user);
    hide Indexed;
    var c := ContentsOf(db);
    if (wsId, user) in db.seats {
      var k := db.seats[(wsId, user)];
      assert SeatRow(c, k, wsId, user);
      forall role ensures SeatAs(c, wsId, user, role) <==> c.members[k].role == role {}
    }
  }

  lemma CreateWorkspaceYields(t: Ops, db: Db, user: Id, rawName: string, inputs: nat -> Env)
    requires Indexed(db)
    ensures Yields(t, db, CreateWorkspace(user, rawName), inputs,
                   CreateWorkspaceOutcome(t, ContentsOf(db), user, rawName, inputs))
  {
    hide Indexed, Execute, InsertWorkspace, InsertMember, SlugTaken, HasSeat;
    CreateSteps(t, db, user, rawName, inputs);
    var name := t.trim(rawName);
    var wish := t.slug(name) + "-" + inputs(5).suffix;
    SlugsMean(db, wish);
    var slug := if wish in db.slugs then t.slug(name) + "-" + inputs(5).retrySuffix else wish;
    var ws := Workspace(inputs(2).id, name, slug, user, inputs(2).now);
    InsertWorkspaceMeans(db, ws);
    var w := InsertWorkspace(db, ws);
    InsertMemberMeans(w.db, NewOwner(ws, inputs(1)));
    SameSeats(ContentsOf(db), ContentsOf(w.db), ws.id, user);
  }

  lemma SameSeats(c: Contents, c': Contents, wsId: Id, user: Id)
    requires c'.members == c.members
    ensures HasSeat(c', wsId, user) <==> HasSeat(c, wsId, user)
  {
    forall k ensures SeatRow(c', k, wsId, user) <==> SeatRow(c, k, wsId, user) {}
  }

  lemma InviteMemberYields(t: Ops, db: Db, wsId: Id, user: Id, email: string, role: string, inputs: nat -> Env)
    requires Indexed(db)
    ensures Yields(t, db, InviteMember(wsId, user, email, role), inputs,
                   InviteMemberOutcome(t, ContentsOf(db), wsId, user, email, role, inputs))
  {
    hide Indexed, Execute, RequireManager, InsertInvite, HasSeat, SeatAs, TokenTaken;
    InviteSteps(t, db, wsId, user, email, role, inputs);
    ManagerMeans(db, wsId, user);
    InsertInviteMeans(db, NewInvite(t, wsId, email, role, inputs(2)));
  }

  lemma AcceptInviteYields(t: Ops, db: Db, token: string, user: Id, inputs: nat -> Env)
    requires Indexed(db)
    ensures Yields(t, db, AcceptInvite(token, user), inputs, AcceptInviteOutcome(ContentsOf(db), token, user, inputs))
  {
    hide Indexed, Execute, FindInvite, InsertMember, MarkInviteAccepted, HasSeat;
    AcceptSteps(t, db, token, user, inputs);
    var c, now := ContentsOf(db), inputs(5).now;
    FindInviteMeans(db, token, now);
    var found := FindInvite(db, token, now);
    if found == None {
      forall i ensures !OpenInvite(c, i, token, now) {}
    } else {
      var inv := found.value;
      assert OpenInvite(c, inv.id, token, now);
      var m := Invited(inv, user, inputs(2));
      InsertMemberMeans(db, m);
      MarkMeans(InsertMember(db, m).db, inv.id, inputs(1).now);
    }
  }

  lemma CreateOrgUnitYields(t: Ops, db: Db, wsId: Id, user: Id, rawName: string, parent: Option<Id>, inputs: nat -> Env)
    requires Indexed(db)
    ensures Yields(t, db, CreateOrgUnit(wsId, user, rawName, parent), inputs,
                   CreateOrgUnitOutcome(t, ContentsOf(db), wsId, user, rawName, parent, inputs))
  {
    hide Indexed, Execute, RequireManager, InsertUnit, HasSeat, SeatAs;
    UnitSteps(t, db, wsId, user, rawName, parent, inputs);
    ManagerMeans(db, wsId, user);
    InsertUnitMeans(db, OrgUnit(inputs(1).id, wsId, parent, t.trim(rawName), 0, inputs(1).now));
  }

  lemma CreatePositionYields(t: Ops, db: Db, wsId: Id, user: Id, rawTitle: string, inputs: nat -> Env)
    requires Indexed(db)
    ensures Yields(t, db, CreatePosition(wsId, user, rawTitle), inputs,
                   CreatePositionOutcome(t, ContentsOf(db), wsId, user, rawTitle, inputs))
  {
    hide Indexed, Execute, RequireManager, InsertPosition, HasSeat, SeatAs;
    PositionSteps(t, db, wsId, user, rawTitle, inputs);
    ManagerMeans(db, wsId, user);
    InsertPositionMeans(db, Position(inputs(1).id, wsId, t.trim(rawTitle), inputs(1).now));
  }

  lemma AssignMemberYields(t: Ops, db: Db, wsId: Id, user: Id, target: Id, unit: Option<Id>, position: Option<Id>,
                           inputs: nat -> Env)
    requires Indexed(db)
    ensures Yields(t, db, AssignMember(wsId, user, target, unit, position), inputs,
                   AssignMemberOutcome(ContentsOf(db), wsId, user, target, unit, position))
  {
    hide Indexed, Execute, RequireManager, UpdateAssignment, HasSeat, SeatAs, FindMember;
    AssignSteps(t, db, wsId, user, target, unit, position, inputs);
    ManagerMeans(db, wsId, user);
    AssignMeans(db, wsId, target, unit, position);
    SeatFound(db, wsId, target);
    var r := UpdateAssignment(db, wsId, target, unit, position);
    if r.err == None {
      PlacedRows(ContentsOf(db), ContentsOf(r.db), wsId, target, unit, position);
    }
  }

  lemma SeatFound(db: Db, wsId: Id, user: Id)
    requires Indexed(db)
    ensures FindMember(db, wsId, user) == None <==> !HasSeat(ContentsOf(db), wsId, user)
  {
    SeatsMean(db, wsId, user);
    hide Indexed;
  }

  lemma PlacedRows(c: Contents, c': Contents, wsId: Id, target: Id, unit: Option<Id>, position: Option<Id>)
    requires PlacesOnly(c, c', wsId, target, Some((unit, position)))
    ensures c' == c.(members := map k | k in c.members ::
                       if c.members[k].workspaceId == wsId && c.members[k].userId == target
                       then c.members[k].(orgUnitId := unit, positionId := position) else c.members[k])
  {}

  // Any complete call from any indexed database, which every reachable one is.
  lemma EveryCallHasItsOutcome(t: Ops, db: Db, req: Request, inputs: nat -> Env)
    requires Indexed(db)
    ensures Yields(t, db, req, inputs, OutcomeOf(t, ContentsOf(db), req, inputs))
  {
    hide Indexed, Yields;
    match req
    case CreateWorkspace(user, name) => CreateWorkspaceYields(t, db, user, name, inputs);
    case InviteMember(wsId, user, email, role) => InviteMemberYields(t, db, wsId, user, email, role, inputs);
    case AcceptInvite(token, user) => AcceptInviteYields(t, db, token, user, inputs);
    case CreateOrgUnit(wsId, user, name, parent) => CreateOrgUnitYields(t, db, wsId, user, name, parent, inputs);
    case CreatePosition(wsId, user, title) => CreatePositionYields(t, db, wsId, user, title, inputs);
    case AssignMember(wsId, user, target, unit, position) =>
      AssignMemberYields(t, db, wsId, user, target, unit, position, inputs);
  }
}
