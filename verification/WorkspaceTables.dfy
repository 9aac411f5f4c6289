// Entities (internal/domain/workspace/workspace.go) and tables with their SQL
// statements (internal/infrastructure/postgres/workspace_repository.go and the
// constraints of migrations 0003 and 0004).
module WorkspaceTables {
  import opened Common

  const ROLE_OWNER := "owner"
  const ROLE_ADMIN := "admin"
  const ROLE_MEMBER := "member"
  const STATUS_ACTIVE := "active"

  predicate CanManageMembers(role: string) {
    role == ROLE_OWNER || role == ROLE_ADMIN
  }

  predicate ValidRole(role: string) {
    role == ROLE_OWNER || role == ROLE_ADMIN || role == ROLE_MEMBER
  }

  datatype Workspace = Workspace(id: Id, name: string, slug: string, createdBy: Id, createdAt: Time)

  datatype Member = Member(id: Id, workspaceId: Id, userId: Id, role: string, status: string, createdAt: Time,
                           orgUnitId: Option<Id>, positionId: Option<Id>)

  datatype OrgUnit = OrgUnit(id: Id, workspaceId: Id, parentId: Option<Id>, name: string, sortOrder: int,
    createdAt: Time)

  datatype Position = Position(id: Id, workspaceId: Id, title: string, createdAt: Time)

  datatype Invite = Invite(id: Id, workspaceId: Id, email: string, role: string, token: string,
                           expiresAt: Time, acceptedAt: Option<Time>)

  // DatabaseError stands for every wrapped driver error, MailError for a mailer's.
  datatype Error =
    | ErrWorkspaceNotFound | ErrInviteNotFound | ErrNotMember | ErrAlreadyMember | ErrForbidden
    | ErrInvalidName | ErrInvalidRole | ErrOrgUnitNotFound | ErrPositionNotFound | ErrInvalidTitle
    | DatabaseError | MailError

  // Tables are keyed by primary key. `slugs`, `seats` and `tokens` are the unique
  // indexes on workspaces.slug, workspace_members(workspace_id, user_id) and
  // workspace_invites.token.
  datatype Db = Db(
    users: set<Id>,
    workspaces: map<Id, Workspace>, slugs: map<string, Id>,
    members: map<Id, Member>, seats: map<(Id, Id), Id>,
    invites: map<Id, Invite>, tokens: map<string, Id>,
    units: map<Id, OrgUnit>,
    positions: map<Id, Position>)

  const EMPTY := Db({}, map[], map[], map[], map[], map[], map[], map[], map[])

  // The effect of one writing statement: the new tables and the error, if any.
  datatype Written = Written(db: Db, err: Option<Error>)

  predicate NullOrIn<V>(id: Option<Id>, table: map<Id, V>) {
    id.Some? ==> id.value in table
  }

  // ---- Row images: the tables after a statement that succeeds ----

  function WithWorkspace(db: Db, w: Workspace): Db {
    db.(workspaces := db.workspaces[w.id := w], slugs := db.slugs[w.slug := w.id])
  }

  function WithMember(db: Db, m: Member): Db {
    db.(members := db.members[m.id := m], seats := db.seats[(m.workspaceId, m.userId) := m.id])
  }

  function Moved(db: Db, k: Id, unit: Option<Id>, position: Option<Id>): Db
    requires k in db.members
  {
    db.(members := db.members[k := db.members[k].(orgUnitId := unit, positionId := position)])
  }

  function WithInvite(db: Db, i: Invite): Db {
    db.(invites := db.invites[i.id := i], tokens := db.tokens[i.token := i.id])
  }

  function Marked(db: Db, id: Id, now: Time): Db
    requires id in db.invites
  {
    db.(invites := db.invites[id := db.invites[id].(acceptedAt := Some(now))])
  }

  function WithUnit(db: Db, u: OrgUnit): Db {
    db.(units := db.units[u.id := u])
  }

  // ---- Statements ----

  function InsertWorkspace(db: Db, w: Workspace): Written {
    if w.id in db.workspaces || w.slug in db.slugs || w.createdBy !in db.users
    then Written(db, Some(DatabaseError))
    else Written(WithWorkspace(db, w), None)
  }

  function FindWorkspace(db: Db, id: Id): Option<Workspace> {
    if id in db.workspaces then Some(db.workspaces[id]) else None
  }

  // A unique violation (SQLSTATE 23505) on either key is reported as ErrAlreadyMember.
  function InsertMember(db: Db, m: Member): Written {
    if m.id in db.members || (m.workspaceId, m.userId) in db.seats then Written(db, Some(ErrAlreadyMember))
    else if m.workspaceId !in db.workspaces || m.userId !in db.users
      || !NullOrIn(m.orgUnitId, db.units) || !NullOrIn(m.positionId, db.positions)
    then Written(db, Some(DatabaseError))
    else Written(WithMember(db, m), None)
  }

  function FindMember(db: Db, workspaceId: Id, userId: Id): Option<Member> {
    if (workspaceId, userId) in db.seats && db.seats[(workspaceId, userId)] in db.members
    then Some(db.members[db.seats[(workspaceId, userId)]]) else None
  }

  // UPDATE ... WHERE workspace_id AND user_id: no error when no row matches.
  function UpdateAssignment(db: Db, workspaceId: Id, userId: Id, orgUnitId: Option<Id>,
          positionId: Option<Id>): Written {
    match FindMember(db, workspaceId, userId)
    case None => Written(db, None)
    case Some(m) =>
      if !NullOrIn(orgUnitId, db.units) || !NullOrIn(positionId, db.positions) then Written(db, Some(DatabaseError))
      else
        Written(Moved(db, db.seats[(workspaceId, userId)], orgUnitId, positionId), None)
  }

  function InsertInvite(db: Db, i: Invite): Written {
    if i.id in db.invites || i.token in db.tokens || i.workspaceId !in db.workspaces
    then Written(db, Some(DatabaseError))
    else Written(WithInvite(db, i), None)
  }

  // WHERE token=$1 AND accepted_at IS NULL AND expires_at > now()
  function FindInvite(db: Db, token: string, now: Time): Option<Invite> {
    if token in db.tokens && db.tokens[token] in db.invites then
      var i := db.invites[db.tokens[token]];
      if i.acceptedAt == None && now < i.expiresAt then Some(i) else None
    else None
  }

  // UPDATE ... WHERE id=$1, without looking at accepted_at.
  function MarkInviteAccepted(db: Db, id: Id, now: Time): Db {
    if id in db.invites then Marked(db, id, now) else db
  }

  function InsertUnit(db: Db, u: OrgUnit): Written {
    if u.id in db.units || u.workspaceId !in db.workspaces || !NullOrIn(u.parentId, db.units)
    then Written(db, Some(DatabaseError))
    else Written(WithUnit(db, u), None)
  }

  predicate UnitExists(db: Db, workspaceId: Id, id: Id) {
    id in db.units && db.units[id].workspaceId == workspaceId
  }

  function InsertPosition(db: Db, p: Position): Written {
    if p.id in db.positions || p.workspaceId !in db.workspaces then Written(db, Some(DatabaseError))
    else Written(db.(positions := db.positions[p.id := p]), None)
  }

  predicate PositionExists(db: Db, workspaceId: Id, id: Id) {
    id in db.positions && db.positions[id].workspaceId == workspaceId
  }

  // ---- SELECT w.* FROM workspaces w JOIN workspace_members m ... ORDER BY w.created_at ----

  // The member rows that the join matches.
  function Joined(db: Db, user: Id): set<Id> {
    set k | k in db.members && db.members[k].userId == user && db.members[k].status == STATUS_ACTIVE
      && db.members[k].workspaceId in db.workspaces
  }

  function Host(db: Db, k: Id): Workspace
    requires k in db.members && db.members[k].workspaceId in db.workspaces
  {
    db.workspaces[db.members[k].workspaceId]
  }

  // An order in which the database may deliver them.
  ghost predicate IsAnswer(db: Db, user: Id, rows: seq<Id>) {
    && (forall i, j | 0 <= i < j < |rows| :: rows[i] != rows[j])
    && (forall i | 0 <= i < |rows| :: rows[i] in Joined(db, user))
    && (forall k | k in Joined(db, user) :: k in rows)
    && (forall i, j | 0 <= i < j < |rows| :: Host(db, rows[i]).createdAt <= Host(db, rows[j]).createdAt)
  }

  function Listed(db: Db, user: Id, rows: seq<Id>): (out: seq<Workspace>)
    requires forall i | 0 <= i < |rows| :: rows[i] in Joined(db, user)
    ensures |out| == |rows| && forall i | 0 <= i < |rows| :: rows[i] in Joined(db, user) && out[i] == Host(db, rows[i])
  {
    seq(|rows|, i requires 0 <= i < |rows| && rows[i] in Joined(db, user) => Host(db, rows[i]))
  }
}
