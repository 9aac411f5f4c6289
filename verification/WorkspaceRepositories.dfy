// internal/infrastructure/postgres/workspace_repository.go: the tables as mutable
// state shared by the repositories, each statement proved against its function.
module WorkspaceRepositories {
  import opened Common
  import opened WorkspaceTables
  import WorkspaceInvariant
  import opened WorkspaceRows

  class Pool {
    var users: set<Id>
    var workspaces: map<Id, Workspace>
    var slugs: map<string, Id>
    var members: map<Id, Member>
    var seats: map<(Id, Id), Id>
    var invites: map<Id, Invite>
    var tokens: map<string, Id>
    var units: map<Id, OrgUnit>
    var positions: map<Id, Position>

    function Snapshot(): Db
      reads this
    {
      Db(users, workspaces, slugs, members, seats, invites, tokens, units, positions)
    }

    // Every unique index agrees with its rows.
    ghost predicate Indexed()
      reads this
    {
      WorkspaceInvariant.Indexed(Snapshot())
    }

    function Rows(): Contents
      reads this
    {
      ContentsOf(Snapshot())
    }

    constructor (users: set<Id>)
      ensures Snapshot() == EMPTY.(users := users)
      ensures Indexed()
    {
      this.users := users;
      workspaces, slugs := map[], map[];
      members, seats := map[], map[];
      invites, tokens := map[], map[];
      units, positions := map[], map[];
    }
  }

  class WorkspaceRepository {
    const pool: Pool

    constructor (pool: Pool)
      ensures this.pool == pool
    {
      this.pool := pool;
    }

    method Create(w: Workspace) returns (err: Option<Error>)
      modifies pool
      ensures InsertWorkspace(old(pool.Snapshot()), w) == Written(pool.Snapshot(), err)
      ensures old(pool.Indexed()) ==>
        var c := old(pool.Rows());
        && pool.Indexed()
        && (err.Some? <==> w.id in c.workspaces || SlugTaken(c, w.slug) || w.createdBy !in c.users)
        && pool.Rows() == if err == None then c.(workspaces := c.workspaces[w.id := w]) else c
    {
      if pool.Indexed() { InsertWorkspaceMeans(pool.Snapshot(), w); }
      hide WorkspaceInvariant.Indexed, SlugTaken;
      if w.id in pool.workspaces || w.slug in pool.slugs || w.createdBy !in pool.users {
        return Some(DatabaseError);
      }
      pool.workspaces := pool.workspaces[w.id := w];
      pool.slugs := pool.slugs[w.slug := w.id];
      err := None;
    }

    method FindByID(id: Id) returns (r: Result<Workspace, Error>)
      ensures r == match FindWorkspace(pool.Snapshot(), id) case Some(w) => Ok(w) case None => Err(ErrWorkspaceNotFound)
    {
      if id in pool.workspaces { r := Ok(pool.workspaces[id]); } else { r := Err(ErrWorkspaceNotFound); }
    }

    // The unique index answers for the rows.
    method SlugExists(slug: string) returns (taken: bool)
      ensures taken <==> slug in pool.Snapshot().slugs
      ensures WorkspaceInvariant.SlugsMatch(pool.workspaces, pool.slugs) ==>
        (taken <==> exists w :: w in pool.workspaces && pool.workspaces[w].slug == slug)
    {
      taken := slug in pool.slugs;
    }

    // `rows` is the join's result in the order the database delivers it.
    method ListByMember(userID: Id, rows: seq<Id>) returns (out: seq<Workspace>)
      requires IsAnswer(pool.Snapshot(), userID, rows)
      ensures out == Listed(pool.Snapshot(), userID, rows)
      ensures forall i, j | 0 <= i < j < |out| :: out[i].createdAt <= out[j].createdAt
      ensures forall w :: w in out <==> exists k :: ActiveIn(pool.Rows(), k, userID, w)
    {
      out := [];
      for i := 0 to |rows|
        invariant |out| == i
        invariant forall j | 0 <= j < i :: out[j] == Listed(pool.Snapshot(), userID, rows)[j]
      {
        assert rows[i] in Joined(pool.Snapshot(), userID);
        var w := pool.workspaces[pool.members[rows[i]].workspaceId];
        out := out + [w];
      }
      ListedMeans(pool.Snapshot(), userID, rows);
      assert out == Listed(pool.Snapshot(), userID, rows) && pool.Rows() == ContentsOf(pool.Snapshot());
      forall w ensures w in out <==> exists k :: ActiveIn(pool.Rows(), k, userID, w) {
        assert w in Listed(pool.Snapshot(), userID, rows) <==>
          exists k :: ActiveIn(ContentsOf(pool.Snapshot()), k, userID, w);
      }
    }
  }

  class MemberRepository {
    const pool: Pool

    constructor (pool: Pool)
      ensures this.pool == pool
    {
      this.pool := pool;
    }

    method Create(m: Member) returns (err: Option<Error>)
      modifies pool
      ensures InsertMember(old(pool.Snapshot()), m) == Written(pool.Snapshot(), err)
      ensures old(pool.Indexed()) ==>
        var c := old(pool.Rows());
        && pool.Indexed()
        && (err == Some(ErrAlreadyMember) <==> m.id in c.members || HasSeat(c, m.workspaceId, m.userId))
        && pool.Rows() == if err == None then c.(members := c.members[m.id := m]) else c
    {
      if pool.Indexed() { InsertMemberMeans(pool.Snapshot(), m); }
      hide WorkspaceInvariant.Indexed, HasSeat;
      if m.id in pool.members || (m.workspaceId, m.userId) in pool.seats {
        return Some(ErrAlreadyMember);
      }
      if m.workspaceId !in pool.workspaces || m.userId !in pool.users
        || !NullOrIn(m.orgUnitId, pool.units) || !NullOrIn(m.positionId, pool.positions) {
        return Some(DatabaseError);
      }
      pool.members := pool.members[m.id := m];
      pool.seats := pool.seats[(m.workspaceId, m.userId) := m.id];
      err := None;
    }

    method Find(workspaceID: Id, userID: Id) returns (r: Result<Member, Error>)
      ensures r == match FindMember(pool.Snapshot(), workspaceID, userID) case Some(m) => Ok(m)
        case None => Err(ErrNotMember)
      ensures pool.Indexed() ==>
        match r
        case Ok(m) => m.id in pool.members && pool.members[m.id] == m && m.workspaceId == workspaceID
          && m.userId == userID
        case Err(e) =>
          && e == ErrNotMember
          && forall k | k in pool.members ::
             pool.members[k].workspaceId != workspaceID || pool.members[k].userId != userID
    {
      if pool.Indexed() { FindMemberMeans(pool.Snapshot(), workspaceID, userID); }
      hide WorkspaceInvariant.Indexed;
      if (workspaceID, userID) in pool.seats && pool.seats[(workspaceID, userID)] in pool.members {
        r := Ok(pool.members[pool.seats[(workspaceID, userID)]]);
      } else {
        r := Err(ErrNotMember);
      }
    }

    method Assign(workspaceID: Id, userID: Id, orgUnitID: Option<Id>, positionID: Option<Id>)
            returns (err: Option<Error>)
      modifies pool
      ensures UpdateAssignment(old(pool.Snapshot()), workspaceID, userID, orgUnitID, positionID) ==
        Written(pool.Snapshot(), err)
      ensures old(pool.Indexed()) ==>
        var c := old(pool.Rows());
        && pool.Indexed()
        && (err.Some? <==>
              HasSeat(c, workspaceID, userID) && (Missing(orgUnitID, c.units) || Missing(positionID, c.positions)))
        && PlacesOnly(c, pool.Rows(), workspaceID, userID, if err == None then Some((orgUnitID, positionID)) else None)
    {
      if pool.Indexed() { AssignMeans(pool.Snapshot(), workspaceID, userID, orgUnitID, positionID); }
      hide WorkspaceInvariant.Indexed, HasSeat, PlacesOnly;
      err := None;
      if (workspaceID, userID) in pool.seats && pool.seats[(workspaceID, userID)] in pool.members {
        if !NullOrIn(orgUnitID, pool.units) || !NullOrIn(positionID, pool.positions) {
          return Some(DatabaseError);
        }
        var k := pool.seats[(workspaceID, userID)];
        pool.members := pool.members[k := pool.members[k].(orgUnitId := orgUnitID, positionId := positionID)];
      }
    }
  }

  class InviteRepository {
    const pool: Pool

    constructor (pool: Pool)
      ensures this.pool == pool
    {
      this.pool := pool;
    }

    method Create(inv: Invite) returns (err: Option<Error>)
      modifies pool
      ensures InsertInvite(old(pool.Snapshot()), inv) == Written(pool.Snapshot(), err)
      ensures old(pool.Indexed()) ==>
        var c := old(pool.Rows());
        && pool.Indexed()
        && (err.Some? <==> inv.id in c.invites || TokenTaken(c, inv.token) || inv.workspaceId !in c.workspaces)
        && pool.Rows() == if err == None then c.(invites := c.invites[inv.id := inv]) else c
    {
      if pool.Indexed() { InsertInviteMeans(pool.Snapshot(), inv); }
      hide WorkspaceInvariant.Indexed, TokenTaken;
      if inv.id in pool.invites || inv.token in pool.tokens || inv.workspaceId !in pool.workspaces {
        return Some(DatabaseError);
      }
      pool.invites := pool.invites[inv.id := inv];
      pool.tokens := pool.tokens[inv.token := inv.id];
      err := None;
    }

    method FindByToken(token: string, now: Time) returns (r: Result<Invite, Error>)
      ensures r == match FindInvite(pool.Snapshot(), token, now) case Some(i) => Ok(i)
        case None => Err(ErrInviteNotFound)
      ensures pool.Indexed() ==>
        match r
        case Ok(inv) =>
          && inv.id in pool.invites && pool.invites[inv.id] == inv
          && inv.token == token && inv.acceptedAt == None && now < inv.expiresAt
        case Err(e) =>
          && e == ErrInviteNotFound
          && forall i | i in pool.invites && pool.invites[i].token == token ::
               pool.invites[i].acceptedAt.Some? || pool.invites[i].expiresAt <= now
    {
      if pool.Indexed() { FindInviteMeans(pool.Snapshot(), token, now); }
      hide WorkspaceInvariant.Indexed;
      r := Err(ErrInviteNotFound);
      if token in pool.tokens && pool.tokens[token] in pool.invites {
        var inv := pool.invites[pool.tokens[token]];
        if inv.acceptedAt == None && now < inv.expiresAt {
          r := Ok(inv);
        }
      }
    }

    method MarkAccepted(id: Id, now: Time)
      modifies pool
      ensures pool.Snapshot() == MarkInviteAccepted(old(pool.Snapshot()), id, now)
      ensures old(pool.Indexed()) ==>
        var c := old(pool.Rows());
        && pool.Indexed()
        && pool.Rows() ==
             if id in c.invites then c.(invites := c.invites[id := c.invites[id].(acceptedAt := Some(now))]) else c
    {
      if pool.Indexed() { MarkMeans(pool.Snapshot(), id, now); }
      hide WorkspaceInvariant.Indexed;
      if id in pool.invites {
        pool.invites := pool.invites[id := pool.invites[id].(acceptedAt := Some(now))];
      }
    }
  }

  class OrgUnitRepository {
    const pool: Pool

    constructor (pool: Pool)
      ensures this.pool == pool
    {
      this.pool := pool;
    }

    method Create(u: OrgUnit) returns (err: Option<Error>)
      modifies pool
      ensures InsertUnit(old(pool.Snapshot()), u) == Written(pool.Snapshot(), err)
      ensures old(pool.Indexed()) ==>
        var c := old(pool.Rows());
        && pool.Indexed()
        && (err.Some? <==> u.id in c.units || u.workspaceId !in c.workspaces || Missing(u.parentId, c.units))
        && pool.Rows() == if err == None then c.(units := c.units[u.id := u]) else c
    {
      if pool.Indexed() { InsertUnitMeans(pool.Snapshot(), u); }
      hide WorkspaceInvariant.Indexed;
      if u.id in pool.units || u.workspaceId !in pool.workspaces || !NullOrIn(u.parentId, pool.units) {
        return Some(DatabaseError);
      }
      pool.units := pool.units[u.id := u];
      err := None;
    }

    method Exists(workspaceID: Id, id: Id) returns (ok: bool)
      ensures ok <==> UnitExists(pool.Snapshot(), workspaceID, id)
      ensures ok <==> id in pool.units && pool.units[id].workspaceId == workspaceID
    {
      ok := id in pool.units && pool.units[id].workspaceId == workspaceID;
    }
  }

  class PositionRepository {
    const pool: Pool

    constructor (pool: Pool)
      ensures this.pool == pool
    {
      this.pool := pool;
    }

    method Create(p: Position) returns (err: Option<Error>)
      modifies pool
      ensures InsertPosition(old(pool.Snapshot()), p) == Written(pool.Snapshot(), err)
      ensures old(pool.Indexed()) ==>
        var c := old(pool.Rows());
        && pool.Indexed()
        && (err.Some? <==> p.id in c.positions || p.workspaceId !in c.workspaces)
        && pool.Rows() == if err == None then c.(positions := c.positions[p.id := p]) else c
    {
      if pool.Indexed() { InsertPositionMeans(pool.Snapshot(), p); }
      hide WorkspaceInvariant.Indexed;
      if p.id in pool.positions || p.workspaceId !in pool.workspaces {
        return Some(DatabaseError);
      }
      pool.positions := pool.positions[p.id := p];
      err := None;
    }

    method Exists(workspaceID: Id, id: Id) returns (ok: bool)
      ensures ok <==> PositionExists(pool.Snapshot(), workspaceID, id)
      ensures ok <==> id in pool.positions && pool.positions[id].workspaceId == workspaceID
    {
      ok := id in pool.positions && pool.positions[id].workspaceId == workspaceID;
    }
  }
}
