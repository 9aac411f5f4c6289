// What each workspace statement does to the rows, said without the statements' own
// definitions and without the unique indexes: which row answers, which rows change.
module WorkspaceRows {
  import opened Common
  import opened WorkspaceTables
  import opened WorkspaceInvariant

  // The tables without their indexes.
  datatype Contents = Contents(
    users: set<Id>,
    workspaces: map<Id, Workspace>,
    members: map<Id, Member>,
    invites: map<Id, Invite>,
    units: map<Id, OrgUnit>,
    positions: map<Id, Position>)

  function ContentsOf(db: Db): Contents {
    Contents(db.users, db.workspaces, db.members, db.invites, db.units, db.positions)
  }

  predicate SeatRow(c: Contents, k: Id, wsId: Id, user: Id) {
    k in c.members && c.members[k].workspaceId == wsId && c.members[k].userId == user
  }

  ghost predicate HasSeat(c: Contents, wsId: Id, user: Id) {
    exists k :: SeatRow(c, k, wsId, user)
  }

  ghost predicate SeatAs(c: Contents, wsId: Id, user: Id, role: string) {
    exists k :: SeatRow(c, k, wsId, user) && c.members[k].role == role
  }

  predicate OpenInvite(c: Contents, i: Id, token: string, now: Time) {
    i in c.invites && c.invites[i].token == token && c.invites[i].acceptedAt == None && now < c.invites[i].expiresAt
  }

  ghost predicate TokenTaken(c: Contents, token: string) {
    exists i :: i in c.invites && c.invites[i].token == token
  }

  ghost predicate SlugTaken(c: Contents, slug: string) {
    exists w :: w in c.workspaces && c.workspaces[w].slug == slug
  }

  predicate UnitWithin(c: Contents, wsId: Id, unit: Id) {
    unit in c.units && c.units[unit].workspaceId == wsId
  }

  predicate PositionWithin(c: Contents, wsId: Id, position: Id) {
    position in c.positions && c.positions[position].workspaceId == wsId
  }

  // ---- Lookups ----

  lemma SeatsMean(db: Db, wsId: Id, user: Id)
    requires Indexed(db)
    ensures (wsId, user) in db.seats <==> HasSeat(ContentsOf(db), wsId, user)
    ensures (wsId, user) in db.seats ==>
      var k := db.seats[(wsId, user)];
      SeatRow(ContentsOf(db), k, wsId, user) && forall k' | SeatRow(ContentsOf(db), k', wsId, user) :: k' == k
  {
    hide TokensMatch, SlugsMatch;
    var c := ContentsOf(db);
    if (wsId, user) in db.seats {
      assert Seat(db.members[db.seats[(wsId, user)]]) == (wsId, user);
      assert SeatRow(c, db.seats[(wsId, user)], wsId, user);
    }
    forall k | SeatRow(c, k, wsId, user) ensures (wsId, user) in db.seats && db.seats[(wsId, user)] == k {
      assert Seat(db.members[k]) == (wsId, user);
    }
  }

  // The row of workspace and user, and nothing when there is none.
  lemma FindMemberMeans(db: Db, wsId: Id, user: Id)
    requires Indexed(db)
    ensures match FindMember(db, wsId, user)
      case Some(m) => m.id in db.members && db.members[m.id] == m && m.workspaceId == wsId && m.userId == user
      case None => forall k | k in db.members :: db.members[k].workspaceId != wsId || db.members[k].userId != user
  {
    SeatsMean(db, wsId, user);
    hide TokensMatch, SlugsMatch;
    if FindMember(db, wsId, user) == None {
      forall k | k in db.members ensures db.members[k].workspaceId != wsId || db.members[k].userId != user {
        assert !SeatRow(ContentsOf(db), k, wsId, user);
      }
    }
  }

  lemma TokensMean(db: Db, token: string)
    requires Indexed(db)
    ensures token in db.tokens <==> TokenTaken(ContentsOf(db), token)
    ensures token in db.tokens ==>
      && db.tokens[token] in db.invites && db.invites[db.tokens[token]].id == db.tokens[token]
      && forall i | i in db.invites && db.invites[i].token == token :: i == db.tokens[token]
  {
    hide SeatsMatch, SlugsMatch;
    forall i | i in db.invites && db.invites[i].token == token ensures token in db.tokens && db.tokens[token] == i {}
    if token in db.tokens { assert db.invites[db.tokens[token]].token == token; }
  }

  // The row that carries the token, while it is unaccepted and has not expired.
  lemma FindInviteMeans(db: Db, token: string, now: Time)
    requires Indexed(db)
    ensures match FindInvite(db, token, now)
      case Some(inv) =>
        && inv.id in db.invites && db.invites[inv.id] == inv
        && inv.token == token && inv.acceptedAt == None && now < inv.expiresAt
      case None =>
        forall i | i in db.invites && db.invites[i].token == token ::
          db.invites[i].acceptedAt.Some? || db.invites[i].expiresAt <= now
    ensures FindInvite(db, token, now).Some? ==>
      forall i | OpenInvite(ContentsOf(db), i, token, now) :: i == FindInvite(db, token, now).value.id
  {
    TokensMean(db, token);
    hide SeatsMatch, SlugsMatch;
    if token in db.tokens { assert db.invites[db.tokens[token]].token == token; }
    if FindInvite(db, token, now) == None {
      forall i | i in db.invites && db.invites[i].token == token
        ensures db.invites[i].acceptedAt.Some? || db.invites[i].expiresAt <= now
      {
        assert token in db.tokens by { assert TokenTaken(ContentsOf(db), token); }
      }
    }
  }

  // Row k makes the user an active member of workspace w.
  predicate ActiveIn(c: Contents, k: Id, user: Id, w: Workspace) {
    && k in c.members && c.members[k].userId == user && c.members[k].status == "active"
    && c.members[k].workspaceId in c.workspaces && c.workspaces[c.members[k].workspaceId] == w
  }

  // The list holds the workspaces of the user's active rows and no others.
  lemma ListedMeans(db: Db, user: Id, rows: seq<Id>)
    requires IsAnswer(db, user, rows)
    ensures forall w :: w in Listed(db, user, rows) <==> exists k :: ActiveIn(ContentsOf(db), k, user, w)
  {
    var out := Listed(db, user, rows);
    forall w | w in out ensures exists k :: ActiveIn(ContentsOf(db), k, user, w) {
      var i :| 0 <= i < |out| && out[i] == w;
      assert ActiveIn(ContentsOf(db), rows[i], user, w);
    }
    forall w, k | ActiveIn(ContentsOf(db), k, user, w) ensures w in out {
      assert k in Joined(db, user);
      var i :| 0 <= i < |rows| && rows[i] == k;
      assert out[i] == w;
    }
  }

  lemma SlugsMean(db: Db, slug: string)
    requires Indexed(db)
    ensures slug in db.slugs <==> SlugTaken(ContentsOf(db), slug)
  {
    hide SeatsMatch, TokensMatch;
    if slug in db.slugs { assert db.workspaces[db.slugs[slug]].slug == slug; }
  }

  // ---- Inserts ----

  predicate Missing<V>(id: Option<Id>, table: map<Id, V>) {
    id.Some? && id.value !in table
  }

  lemma InsertWorkspaceMeans(db: Db, w: Workspace)
    requires Indexed(db)
    ensures var c, r := ContentsOf(db), InsertWorkspace(db, w);
      && Indexed(r.db)
      && r.err == (if w.id in c.workspaces || SlugTaken(c, w.slug) || w.createdBy !in c.users
                   then Some(DatabaseError) else None)
      && ContentsOf(r.db) == if r.err == None then c.(workspaces := c.workspaces[w.id := w]) else c
  {
    SlugsMean(db, w.slug);
    hide SeatsMatch, TokensMatch, SlugsMatch, SlugTaken;
    if InsertWorkspace(db, w).err == None { NewSlug(db.workspaces, db.slugs, w); }
  }

  lemma InsertMemberMeans(db: Db, m: Member)
    requires Indexed(db)
    ensures var c, r := ContentsOf(db), InsertMember(db, m);
      && Indexed(r.db)
      && r.err == (if m.id in c.members || HasSeat(c, m.workspaceId, m.userId) then Some(ErrAlreadyMember)
                   else if m.workspaceId !in c.workspaces || m.userId !in c.users
                     || Missing(m.orgUnitId, c.units) || Missing(m.positionId, c.positions) then Some(DatabaseError)
                   else None)
      && ContentsOf(r.db) == if r.err == None then c.(members := c.members[m.id := m]) else c
  {
    SeatsMean(db, m.workspaceId, m.userId);
    hide SeatsMatch, TokensMatch, SlugsMatch, HasSeat, SeatRow;
    if InsertMember(db, m).err == None { NewSeat(db.members, db.seats, m); }
  }

  lemma InsertInviteMeans(db: Db, i: Invite)
    requires Indexed(db)
    ensures var c, r := ContentsOf(db), InsertInvite(db, i);
      && Indexed(r.db)
      && r.err == (if i.id in c.invites || TokenTaken(c, i.token) || i.workspaceId !in c.workspaces
                   then Some(DatabaseError) else None)
      && ContentsOf(r.db) == if r.err == None then c.(invites := c.invites[i.id := i]) else c
  {
    TokensMean(db, i.token);
    hide SeatsMatch, TokensMatch, SlugsMatch, TokenTaken;
    if InsertInvite(db, i).err == None { NewToken(db.invites, db.tokens, i); }
  }

  lemma InsertUnitMeans(db: Db, u: OrgUnit)
    requires Indexed(db)
    ensures var c, r := ContentsOf(db), InsertUnit(db, u);
      && Indexed(r.db)
      && r.err == (if u.id in c.units || u.workspaceId !in c.workspaces || Missing(u.parentId, c.units)
                   then Some(DatabaseError) else None)
      && ContentsOf(r.db) == if r.err == None then c.(units := c.units[u.id := u]) else c
  {
    hide SeatsMatch, TokensMatch, SlugsMatch;
  }

  lemma InsertPositionMeans(db: Db, p: Position)
    requires Indexed(db)
    ensures var c, r := ContentsOf(db), InsertPosition(db, p);
      && Indexed(r.db)
      && r.err == (if p.id in c.positions || p.workspaceId !in c.workspaces then Some(DatabaseError) else None)
      && ContentsOf(r.db) == if r.err == None then c.(positions := c.positions[p.id := p]) else c
  {
    hide SeatsMatch, TokensMatch, SlugsMatch;
  }

  // ---- Updates ----

  lemma KeyOfSeat(db: Db, k: Id)
    requires Indexed(db) && k in db.members
    ensures db.members[k].id == k
  {}

  // Same tables but for the placement of this seat.
  ghost predicate PlacesOnly(c: Contents, c': Contents, wsId: Id, user: Id, place: Option<(Option<Id>, Option<Id>)>) {
    && c' == c.(members := c'.members) && c'.members.Keys == c.members.Keys
    && forall k {:trigger c'.members[k]} {:trigger c.members[k]} | k in c.members ::
         c'.members[k] ==
           if place.Some? && SeatRow(c, k, wsId, user)
           then c.members[k].(orgUnitId := place.value.0, positionId := place.value.1) else c.members[k]
  }

  lemma MovedMeans(db: Db, k: Id, wsId: Id, user: Id, unit: Option<Id>, position: Option<Id>)
    requires Indexed(db) && SeatRow(ContentsOf(db), k, wsId, user)
    requires forall k' | SeatRow(ContentsOf(db), k', wsId, user) :: k' == k
    ensures Indexed(Moved(db, k, unit, position))
    ensures PlacesOnly(ContentsOf(db), ContentsOf(Moved(db, k, unit, position)), wsId, user, Some((unit, position)))
  {
    KeyOfSeat(db, k);
    SameSeat(db.members, db.seats, db.members[k].(orgUnitId := unit, positionId := position));
    hide SeatsMatch, TokensMatch, SlugsMatch;
  }

  lemma AssignCases(db: Db, wsId: Id, user: Id, unit: Option<Id>, position: Option<Id>)
    requires (wsId, user) in db.seats ==> db.seats[(wsId, user)] in db.members
    ensures UpdateAssignment(db, wsId, user, unit, position) ==
      if (wsId, user) !in db.seats then Written(db, None)
      else if Missing(unit, db.units) || Missing(position, db.positions) then Written(db, Some(DatabaseError))
      else Written(Moved(db, db.seats[(wsId, user)], unit, position), None)
  {}

  // The seat's two placement columns are overwritten; no other row, and no other column,
  // changes. Without a seat nothing happens.
  lemma AssignMeans(db: Db, wsId: Id, user: Id, unit: Option<Id>, position: Option<Id>)
    requires Indexed(db)
    ensures var c, r := ContentsOf(db), UpdateAssignment(db, wsId, user, unit, position);
      && Indexed(r.db)
      && r.err == (if HasSeat(c, wsId, user) && (Missing(unit, c.units) || Missing(position, c.positions))
                   then Some(DatabaseError) else None)
      && PlacesOnly(c, ContentsOf(r.db), wsId, user, if r.err == None then Some((unit, position)) else None)
  {
    hide Indexed, HasSeat, SeatRow, UpdateAssignment, Missing, PlacesOnly, Moved;
    SeatsMean(db, wsId, user);
    if (wsId, user) in db.seats {
      SeatIsRow(db, db.seats[(wsId, user)], wsId, user);
      AssignCases(db, wsId, user, unit, position);
      if Missing(unit, db.units) || Missing(position, db.positions) {
        Unplaced(db, wsId, user);
      } else {
        MovedMeans(db, db.seats[(wsId, user)], wsId, user, unit, position);
      }
    } else {
      AssignCases(db, wsId, user, unit, position);
      Unseated(db, wsId, user, unit, position);
    }
  }

  lemma SeatIsRow(db: Db, k: Id, wsId: Id, user: Id)
    requires SeatRow(ContentsOf(db), k, wsId, user)
    ensures k in db.members
  {}

  lemma Unplaced(db: Db, wsId: Id, user: Id)
    ensures PlacesOnly(ContentsOf(db), ContentsOf(db), wsId, user, None)
  {}

  lemma Unseated(db: Db, wsId: Id, user: Id, unit: Option<Id>, position: Option<Id>)
    requires !HasSeat(ContentsOf(db), wsId, user)
    ensures PlacesOnly(ContentsOf(db), ContentsOf(db), wsId, user, Some((unit, position)))
  {
    forall k ensures !SeatRow(ContentsOf(db), k, wsId, user) {}
  }

  lemma MarkMeans(db: Db, id: Id, now: Time)
    requires Indexed(db)
    ensures var c, db' := ContentsOf(db), MarkInviteAccepted(db, id, now);
      && Indexed(db')
      && ContentsOf(db') ==
           if id in c.invites then c.(invites := c.invites[id := c.invites[id].(acceptedAt := Some(now))]) else c
  {
    if id in db.invites {
      TokensMean(db, db.invites[id].token);
      assert db.invites[id].id == id;
      hide SeatsMatch, TokensMatch, SlugsMatch;
      SameToken(db.invites, db.tokens, db.invites[id].(acceptedAt := Some(now)));
    }
  }
}
