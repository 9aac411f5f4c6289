// What every statement of every interleaving keeps.
module WorkspaceInvariant {
  import opened Common
  import opened WorkspaceTables
  import opened WorkspaceCalls
  import opened WorkspaceSystem

  // ---- Database facts ----

  function Seat(m: Member): (Id, Id) {
    (m.workspaceId, m.userId)
  }

  ghost predicate SeatsMatch(members: map<Id, Member>, seats: map<(Id, Id), Id>) {
    && (forall k {:trigger members[k]} | k in members ::
       members[k].id == k && Seat(members[k]) in seats && seats[Seat(members[k])] == k)
    && (forall p {:trigger seats[p]} | p in seats :: seats[p] in members && Seat(members[seats[p]]) == p)
  }

  ghost predicate TokensMatch(invites: map<Id, Invite>, tokens: map<string, Id>) {
    && (forall i {:trigger invites[i]} | i in invites ::
       invites[i].id == i && invites[i].token in tokens && tokens[invites[i].token] == i)
    && (forall x {:trigger tokens[x]} | x in tokens :: tokens[x] in invites && invites[tokens[x]].token == x)
  }

  ghost predicate SlugsMatch(workspaces: map<Id, Workspace>, slugs: map<string, Id>) {
    && (forall w {:trigger workspaces[w]} | w in workspaces ::
          workspaces[w].id == w && workspaces[w].slug in slugs && slugs[workspaces[w].slug] == w)
    && (forall x {:trigger slugs[x]} | x in slugs :: slugs[x] in workspaces && workspaces[slugs[x]].slug == x)
  }

  // Unique indexes and rows agree, and every row sits under its own key.
  ghost predicate Indexed(db: Db) {
    && SeatsMatch(db.members, db.seats)
    && TokensMatch(db.invites, db.tokens)
    && SlugsMatch(db.workspaces, db.slugs)
    && (forall u {:trigger db.units[u]} | u in db.units :: db.units[u].id == u)
    && (forall p {:trigger db.positions[p]} | p in db.positions :: db.positions[p].id == p)
  }

  // The workspace's creator is one of its members, as an owner, and not by invite.
  ghost predicate HasOwner(db: Db, h: History, wsId: Id) {
    && wsId in db.workspaces
    && (wsId, db.workspaces[wsId].createdBy) in db.seats
    && var k := db.seats[(wsId, db.workspaces[wsId].createdBy)];
    && k in db.members && db.members[k].role == ROLE_OWNER
    && k in h.joins && h.joins[k].via == None
  }

  // `user` is an owner or admin of the workspace, and was so before `tick`.
  ghost predicate ManagerBefore(db: Db, h: History, wsId: Id, user: Id, tick: nat) {
    && (wsId, user) in db.seats
    && var k := db.seats[(wsId, user)];
    && k in db.members && k in h.joins
    && CanManageMembers(db.members[k].role)
    && h.joins[k].at < tick
  }

  // Member row k was inserted for invite i: same workspace, same role.
  ghost predicate CameThrough(db: Db, h: History, k: Id, i: Id) {
    && k in db.members && k in h.joins && i in db.invites && i in h.sent
    && h.joins[k].via == Some(i)
    && db.members[k].workspaceId == db.invites[i].workspaceId
    && db.members[k].role == db.invites[i].role
  }

  // The creator with role owner, or a later arrival through an invite.
  ghost predicate MemberOk(db: Db, h: History, k: Id) {
    && k in db.members && k in h.joins && h.joins[k].at < h.tick
    && HasOwner(db, h, db.members[k].workspaceId)
    && db.members[k].status == STATUS_ACTIVE
    && match h.joins[k].via
       case None => db.members[k].userId == db.workspaces[db.members[k].workspaceId].createdBy
         && db.members[k].role == ROLE_OWNER
       case Some(i) => CameThrough(db, h, k, i) && h.sent[i].at < h.joins[k].at
  }

  // Issued by somebody who already managed the workspace; an accepted invite can
  // point at a member it produced.
  ghost predicate InviteOk(db: Db, h: History, i: Id) {
    && i in db.invites && i in h.sent && h.sent[i].at < h.tick
    && HasOwner(db, h, db.invites[i].workspaceId)
    && ValidRole(db.invites[i].role)
    && ManagerBefore(db, h, db.invites[i].workspaceId, h.sent[i].sender, h.sent[i].at)
    && (db.invites[i].acceptedAt.Some? ==> i in h.acceptedBy && CameThrough(db, h, h.acceptedBy[i], i))
  }

  // Unit and position come from the member's own workspace.
  ghost predicate Placed(db: Db, m: Member) {
    && (m.orgUnitId.Some? ==> UnitExists(db, m.workspaceId, m.orgUnitId.value))
    && (m.positionId.Some? ==> PositionExists(db, m.workspaceId, m.positionId.value))
  }

  // A parent unit belongs to the same workspace and was inserted earlier.
  ghost predicate UnitOk(db: Db, h: History, u: Id) {
    && u in db.units && u in h.unitAt && h.unitAt[u] < h.tick
    && (db.units[u].parentId.Some? ==>
          && UnitExists(db, db.units[u].workspaceId, db.units[u].parentId.value)
          && db.units[u].parentId.value in h.unitAt
          && h.unitAt[db.units[u].parentId.value] < h.unitAt[u])
  }

  ghost predicate MembersOk(db: Db, h: History) {
    forall k {:trigger MemberOk(db, h, k)} | k in db.members :: MemberOk(db, h, k)
  }

  ghost predicate InvitesOk(db: Db, h: History) {
    forall i {:trigger InviteOk(db, h, i)} | i in db.invites :: InviteOk(db, h, i)
  }

  ghost predicate AllPlaced(db: Db) {
    forall k {:trigger Placed(db, db.members[k])} | k in db.members :: Placed(db, db.members[k])
  }

  ghost predicate UnitsOk(db: Db, h: History) {
    forall u {:trigger UnitOk(db, h, u)} | u in db.units :: UnitOk(db, h, u)
  }

  ghost predicate CreatorsKnown(db: Db) {
    forall w | w in db.workspaces :: db.workspaces[w].createdBy in db.users
  }

  // History is written down for existing rows only.
  ghost predicate HistoryFits(db: Db, h: History) {
    h.joins.Keys <= db.members.Keys && h.sent.Keys <= db.invites.Keys && h.unitAt.Keys <= db.units.Keys
  }

  ghost predicate DbOk(db: Db, h: History) {
    && Indexed(db) && CreatorsKnown(db) && HistoryFits(db, h)
    && MembersOk(db, h) && InvitesOk(db, h) && AllPlaced(db) && UnitsOk(db, h)
  }

  // ---- What a call in flight relies on ----

  ghost predicate PcOk(db: Db, h: History, pc: Pc) {
    match pc
    case InviteLookup(wsId, user, _, role) => ManagerBefore(db, h, wsId, user, h.tick) && ValidRole(role)
    case InviteInsert(wsId, user, _, role) => ManagerBefore(db, h, wsId, user, h.tick) && ValidRole(role)
    case AcceptInsert(i, _) =>
      i.id in db.invites && db.invites[i.id].workspaceId == i.workspaceId && db.invites[i.id].role == i.role
    case AcceptMark(i, memberId) => CameThrough(db, h, memberId, i.id)
    case UnitInsert(wsId, _, parent) => parent.Some? ==> UnitExists(db, wsId, parent.value)
    case AssignPosition(wsId, _, unit, _) => unit.Some? ==> UnitExists(db, wsId, unit.value)
    case AssignWrite(wsId, _, unit, position) =>
      && (unit.Some? ==> UnitExists(db, wsId, unit.value))
      && (position.Some? ==> PositionExists(db, wsId, position.value))
    case _ => true
  }

  // Only a member's placement and an invite's acceptance ever change.
  ghost predicate MembersExtend(m: map<Id, Member>, m': map<Id, Member>) {
    forall k {:trigger m'[k]} {:trigger m[k]} | k in m ::
      k in m' && m'[k] == m[k].(orgUnitId := m'[k].orgUnitId, positionId := m'[k].positionId)
  }

  ghost predicate InvitesExtend(m: map<Id, Invite>, m': map<Id, Invite>) {
    forall i {:trigger m'[i]} {:trigger m[i]} | i in m ::
      i in m' && m'[i] == m[i].(acceptedAt := m'[i].acceptedAt) && (m[i].acceptedAt.Some? ==> m'[i].acceptedAt.Some?)
  }

  // The rely condition: what one step may do to facts another call has read.
  ghost predicate Grows(db: Db, h: History, db': Db, h': History) {
    && h.tick <= h'.tick
    && db.users <= db'.users
    && Extends(db.workspaces, db'.workspaces)
    && MembersExtend(db.members, db'.members) && Extends(db.seats, db'.seats)
    && InvitesExtend(db.invites, db'.invites)
    && Extends(db.units, db'.units) && Extends(db.positions, db'.positions)
    && Extends(h.joins, h'.joins) && Extends(h.sent, h'.sent) && Extends(h.unitAt, h'.unitAt)
  }

  // A passed check stays true under every step of every other call.
  lemma PassedChecksAreStable(db: Db, h: History, db': Db, h': History, pc: Pc)
    requires PcOk(db, h, pc) && Grows(db, h, db', h')
    ensures PcOk(db', h', pc)
  {}

  // ---- Each writing statement keeps the indexes and only adds ----

  lemma NewSeat(members: map<Id, Member>, seats: map<(Id, Id), Id>, m: Member)
    requires SeatsMatch(members, seats) && m.id !in members && Seat(m) !in seats
    ensures SeatsMatch(members[m.id := m], seats[Seat(m) := m.id])
  {}

  lemma SameSeat(members: map<Id, Member>, seats: map<(Id, Id), Id>, m: Member)
    requires SeatsMatch(members, seats) && m.id in members && Seat(members[m.id]) == Seat(m)
    ensures SeatsMatch(members[m.id := m], seats)
  {}

  lemma NewToken(invites: map<Id, Invite>, tokens: map<string, Id>, i: Invite)
    requires TokensMatch(invites, tokens) && i.id !in invites && i.token !in tokens
    ensures TokensMatch(invites[i.id := i], tokens[i.token := i.id])
  {}

  lemma NewSlug(workspaces: map<Id, Workspace>, slugs: map<string, Id>, w: Workspace)
    requires SlugsMatch(workspaces, slugs) && w.id !in workspaces && w.slug !in slugs
    ensures SlugsMatch(workspaces[w.id := w], slugs[w.slug := w.id])
  {}

  lemma SameToken(invites: map<Id, Invite>, tokens: map<string, Id>, i: Invite)
    requires TokensMatch(invites, tokens) && i.id in invites && invites[i.id].token == i.token
    ensures TokensMatch(invites[i.id := i], tokens)
  {}

  lemma MemberInserted(db: Db, h: History, m: Member, join: Join)
    requires Indexed(db) && HistoryFits(db, h) && m.id !in db.members && Seat(m) !in db.seats
    ensures var h' := h.(tick := h.tick + 1, joins := h.joins[m.id := join]);
      Indexed(WithMember(db, m)) && Grows(db, h, WithMember(db, m), h') && HistoryFits(WithMember(db, m), h')
  {
    NewSeat(db.members, db.seats, m);
  }

  lemma InviteInserted(db: Db, h: History, i: Invite, sent: Sent)
    requires Indexed(db) && HistoryFits(db, h) && i.id !in db.invites && i.token !in db.tokens
    ensures var h' := h.(tick := h.tick + 1, sent := h.sent[i.id := sent]);
      Indexed(WithInvite(db, i)) && Grows(db, h, WithInvite(db, i), h') && HistoryFits(WithInvite(db, i), h')
  {
    NewToken(db.invites, db.tokens, i);
  }

  lemma InviteMarked(db: Db, h: History, i: Id, memberId: Id, now: Time)
    requires Indexed(db) && HistoryFits(db, h) && i in db.invites
    ensures var h' := h.(tick := h.tick + 1, acceptedBy := h.acceptedBy[i := memberId]);
      Indexed(Marked(db, i, now)) && Grows(db, h, Marked(db, i, now), h') && HistoryFits(Marked(db, i, now), h')
  {
    SameToken(db.invites, db.tokens, db.invites[i].(acceptedAt := Some(now)));
  }

  lemma UnitInserted(db: Db, h: History, u: OrgUnit)
    requires Indexed(db) && HistoryFits(db, h) && u.id !in db.units
    ensures var h' := h.(tick := h.tick + 1, unitAt := h.unitAt[u.id := h.tick]);
      Indexed(WithUnit(db, u)) && Grows(db, h, WithUnit(db, u), h') && HistoryFits(WithUnit(db, u), h')
  {}

  lemma MemberMoved(db: Db, h: History, k: Id, unit: Option<Id>, position: Option<Id>)
    requires Indexed(db) && HistoryFits(db, h) && k in db.members
    ensures var h' := h.(tick := h.tick + 1);
      Indexed(Moved(db, k, unit, position)) && Grows(db, h, Moved(db, k, unit, position), h')
        && HistoryFits(Moved(db, k, unit, position), h')
  {
    assert db.members[k].id == k;
    SameSeat(db.members, db.seats, db.members[k].(orgUnitId := unit, positionId := position));
  }

  lemma NothingChanged(db: Db, h: History)
    requires DbOk(db, h)
    ensures DbOk(db, h.(tick := h.tick + 1)) && Grows(db, h, db, h.(tick := h.tick + 1))
  {
    RowsGrow(db, h, db, h.(tick := h.tick + 1));
  }

  // ---- Facts about rows survive growth ----

  lemma MembersGrow(db: Db, h: History, db': Db, h': History)
    requires MembersOk(db, h) && Grows(db, h, db', h')
    requires forall k {:trigger MemberOk(db', h', k)} | k in db'.members && k !in db.members :: MemberOk(db', h', k)
    ensures MembersOk(db', h')
  {
    forall k | k in db'.members ensures MemberOk(db', h', k) {
      if k in db.members { assert MemberOk(db, h, k); }
    }
  }

  lemma InvitesGrow(db: Db, h: History, db': Db, h': History)
    requires InvitesOk(db, h) && Grows(db, h, db', h')
    requires forall i {:trigger InviteOk(db', h', i)} | i in db'.invites
      && !(i in db.invites && db'.invites[i] == db.invites[i] && Unmoved(h, h', i)) :: InviteOk(db', h', i)
    ensures InvitesOk(db', h')
  {
    forall i | i in db'.invites ensures InviteOk(db', h', i) {
      if i in db.invites && db'.invites[i] == db.invites[i] && Unmoved(h, h', i) { assert InviteOk(db, h, i); }
    }
  }

  ghost predicate Unmoved(h: History, h': History, i: Id) {
    i in h.acceptedBy ==> i in h'.acceptedBy && h'.acceptedBy[i] == h.acceptedBy[i]
  }

  lemma PlacementsGrow(db: Db, h: History, db': Db, h': History)
    requires AllPlaced(db) && Grows(db, h, db', h')
    requires forall k {:trigger Placed(db', db'.members[k])} | k in db'.members
      && !(k in db.members && db'.members[k] == db.members[k]) :: Placed(db', db'.members[k])
    ensures AllPlaced(db')
  {
    forall k | k in db'.members ensures Placed(db', db'.members[k]) {
      if k in db.members && db'.members[k] == db.members[k] { assert Placed(db, db.members[k]); }
    }
  }

  lemma UnitsGrow(db: Db, h: History, db': Db, h': History)
    requires UnitsOk(db, h) && Grows(db, h, db', h')
    requires forall u {:trigger UnitOk(db', h', u)} | u in db'.units && u !in db.units :: UnitOk(db', h', u)
    ensures UnitsOk(db', h')
  {
    forall u | u in db'.units ensures UnitOk(db', h', u) {
      if u in db.units { assert UnitOk(db, h, u); }
    }
  }

  // Everything but the row at hand, for a statement that touches one table.
  lemma RowsGrow(db: Db, h: History, db': Db, h': History)
    requires DbOk(db, h) && Grows(db, h, db', h')
    ensures db'.members.Keys == db.members.Keys ==> MembersOk(db', h')
    ensures db'.members == db.members ==> AllPlaced(db')
    ensures db'.invites == db.invites && h'.acceptedBy == h.acceptedBy ==> InvitesOk(db', h')
    ensures db'.units == db.units ==> UnitsOk(db', h')
  {
    if db'.members.Keys == db.members.Keys { MembersGrow(db, h, db', h'); }
    if db'.members == db.members { PlacementsGrow(db, h, db', h'); }
    if db'.invites == db.invites && h'.acceptedBy == h.acceptedBy { InvitesGrow(db, h, db', h'); }
    if db'.units == db.units { UnitsGrow(db, h, db', h'); }
  }


  // ---- One lemma per writing statement ----

  lemma MemberAdded(db: Db, h: History, m: Member, join: Join)
    requires DbOk(db, h) && m.id !in db.members && Seat(m) !in db.seats && m.orgUnitId == None && m.positionId == None
    requires MemberOk(WithMember(db, m), h.(tick := h.tick + 1, joins := h.joins[m.id := join]), m.id)
    ensures var h' := h.(tick := h.tick + 1, joins := h.joins[m.id := join]);
      DbOk(WithMember(db, m), h') && Grows(db, h, WithMember(db, m), h')
  {
    var db' := WithMember(db, m);
    var h' := h.(tick := h.tick + 1, joins := h.joins[m.id := join]);
    MemberInserted(db, h, m, join);
    RowsGrow(db, h, db', h');
    assert Placed(db', db'.members[m.id]);
    MembersGrow(db, h, db', h');
    PlacementsGrow(db, h, db', h');
  }

  lemma OwnerRowKeeps(db: Db, h: History, ws: Workspace, env: Env)
    requires DbOk(db, h) && ws.id in db.workspaces && db.workspaces[ws.id] == ws
    requires InsertMember(db, NewOwner(ws, env)).err == None
    ensures var h' := h.(tick := h.tick + 1, joins := h.joins[env.id := Join(h.tick, None)]);
      DbOk(WithMember(db, NewOwner(ws, env)), h') && Grows(db, h, WithMember(db, NewOwner(ws, env)), h')
  {
    MemberAdded(db, h, NewOwner(ws, env), Join(h.tick, None));
  }

  lemma ArrivalIsOk(db: Db, h: History, db': Db, h': History, k: Id, i: Id)
    requires InviteOk(db, h, i) && Grows(db, h, db', h')
    requires CameThrough(db', h', k, i) && h'.joins[k].at == h.tick < h'.tick && db'.members[k].status == STATUS_ACTIVE
    ensures MemberOk(db', h', k)
  {}

  lemma MemberRowKeeps(db: Db, h: History, i: Invite, user: Id, env: Env)
    requires DbOk(db, h) && PcOk(db, h, AcceptInsert(i, user))
    requires InsertMember(db, Invited(i, user, env)).err == None
    ensures var db' := WithMember(db, Invited(i, user, env));
      var h' := h.(tick := h.tick + 1, joins := h.joins[env.id := Join(h.tick, Some(i.id))]);
      DbOk(db', h') && Grows(db, h, db', h') && CameThrough(db', h', env.id, i.id)
  {
    var m, join := Invited(i, user, env), Join(h.tick, Some(i.id));
    var db', h' := WithMember(db, m), h.(tick := h.tick + 1, joins := h.joins[env.id := join]);
    assert InviteOk(db, h, i.id);
    MemberInserted(db, h, m, join);
    ArrivalIsOk(db, h, db', h', env.id, i.id);
    MemberAdded(db, h, m, join);
  }

  lemma OfferIsOk(db: Db, h: History, i: Invite, user: Id)
    requires DbOk(db, h) && ManagerBefore(db, h, i.workspaceId, user, h.tick) && ValidRole(i.role)
    requires InsertInvite(db, i).err == None && i.acceptedAt == None
    ensures InviteOk(WithInvite(db, i), h.(tick := h.tick + 1, sent := h.sent[i.id := Sent(h.tick, user)]), i.id)
  {
    assert MemberOk(db, h, db.seats[(i.workspaceId, user)]);
    assert Seat(db.members[db.seats[(i.workspaceId, user)]]) == (i.workspaceId, user);
    hide DbOk;
  }

  lemma InviteRowKeeps(db: Db, h: History, i: Invite, user: Id)
    requires DbOk(db, h) && ManagerBefore(db, h, i.workspaceId, user, h.tick)
    requires InsertInvite(db, i).err == None && i.acceptedAt == None && ValidRole(i.role)
    ensures var h' := h.(tick := h.tick + 1, sent := h.sent[i.id := Sent(h.tick, user)]);
      DbOk(WithInvite(db, i), h') && Grows(db, h, WithInvite(db, i), h')
  {
    hide MembersOk, AllPlaced, UnitsOk, SeatsMatch, TokensMatch, SlugsMatch, Grows, InviteOk, ManagerBefore, InvitesOk;
    var db' := WithInvite(db, i);
    var h' := h.(tick := h.tick + 1, sent := h.sent[i.id := Sent(h.tick, user)]);
    InviteInserted(db, h, i, Sent(h.tick, user));
    RowsGrow(db, h, db', h');
    OfferIsOk(db, h, i, user);
    InvitesGrow(db, h, db', h');
  }

  lemma AcceptanceIsOk(db: Db, h: History, db': Db, h': History, k: Id, i: Id)
    requires InviteOk(db, h, i) && Grows(db, h, db', h')
    requires CameThrough(db', h', k, i) && i in h'.acceptedBy && h'.acceptedBy[i] == k
    ensures InviteOk(db', h', i)
  {}

  lemma ArrivalOf(db: Db, h: History, i: Id, memberId: Id, now: Time)
    requires DbOk(db, h) && CameThrough(db, h, memberId, i)
    ensures i in db.invites && InviteOk(db, h, i)
    ensures CameThrough(Marked(db, i, now), h.(tick := h.tick + 1, acceptedBy := h.acceptedBy[i := memberId]),
      memberId, i)
  {
    hide MembersOk, AllPlaced, UnitsOk, Indexed, InviteOk;
  }

  lemma MarkKeeps(db: Db, h: History, i: Id, memberId: Id, now: Time)
    requires DbOk(db, h) && CameThrough(db, h, memberId, i)
    ensures var h' := h.(tick := h.tick + 1, acceptedBy := h.acceptedBy[i := memberId]);
      DbOk(Marked(db, i, now), h') && Grows(db, h, Marked(db, i, now), h')
  {
    hide MembersOk, AllPlaced, UnitsOk, SeatsMatch, TokensMatch, SlugsMatch, Grows, InviteOk, CameThrough, InvitesOk;
    ArrivalOf(db, h, i, memberId, now);
    var db' := Marked(db, i, now);
    var h' := h.(tick := h.tick + 1, acceptedBy := h.acceptedBy[i := memberId]);
    InviteMarked(db, h, i, memberId, now);
    RowsGrow(db, h, db', h');
    AcceptanceIsOk(db, h, db', h', memberId, i);
    InvitesGrow(db, h, db', h');
  }

  lemma UnitRowKeeps(db: Db, h: History, u: OrgUnit)
    requires DbOk(db, h) && (u.parentId.Some? ==> UnitExists(db, u.workspaceId, u.parentId.value))
    requires InsertUnit(db, u).err == None
    ensures var h' := h.(tick := h.tick + 1, unitAt := h.unitAt[u.id := h.tick]);
      DbOk(WithUnit(db, u), h') && Grows(db, h, WithUnit(db, u), h')
  {
    var db' := WithUnit(db, u);
    var h' := h.(tick := h.tick + 1, unitAt := h.unitAt[u.id := h.tick]);
    UnitInserted(db, h, u);
    RowsGrow(db, h, db', h');
    if u.parentId.Some? { assert UnitOk(db, h, u.parentId.value); }
    assert UnitOk(db', h', u.id);
    UnitsGrow(db, h, db', h');
  }

  lemma MovedIsPlaced(db: Db, k: Id, unit: Option<Id>, position: Option<Id>)
    requires k in db.members && Placed(db, db.members[k].(orgUnitId := unit, positionId := position))
    ensures Placed(Moved(db, k, unit, position), Moved(db, k, unit, position).members[k])
  {}

  lemma MoveKeeps(db: Db, h: History, k: Id, unit: Option<Id>, position: Option<Id>)
    requires DbOk(db, h) && k in db.members
    requires Placed(db, db.members[k].(orgUnitId := unit, positionId := position))
    ensures var h' := h.(tick := h.tick + 1);
      DbOk(Moved(db, k, unit, position), h') && Grows(db, h, Moved(db, k, unit, position), h')
  {
    hide InvitesOk, MembersOk, UnitsOk, SeatsMatch, TokensMatch, SlugsMatch, Grows, Placed, AllPlaced;
    var db' := Moved(db, k, unit, position);
    var h' := h.(tick := h.tick + 1);
    MemberMoved(db, h, k, unit, position);
    RowsGrow(db, h, db', h');
    MovedIsPlaced(db, k, unit, position);
    PlacementsGrow(db, h, db', h');
  }

  lemma AssignmentKeeps(db: Db, h: History, wsId: Id, target: Id, unit: Option<Id>, position: Option<Id>)
    requires DbOk(db, h) && PcOk(db, h, AssignWrite(wsId, target, unit, position))
    ensures var db' := UpdateAssignment(db, wsId, target, unit, position).db;
      var h' := h.(tick := h.tick + 1);
      DbOk(db', h') && Grows(db, h, db', h')
  {
    var w := UpdateAssignment(db, wsId, target, unit, position);
    if FindMember(db, wsId, target).Some? && w.err == None {
      var k := db.seats[(wsId, target)];
      assert Seat(db.members[k]) == (wsId, target);
      MoveKeeps(db, h, k, unit, position);
      assert w.db == Moved(db, k, unit, position);
    } else {
      NothingChanged(db, h);
      assert w.db == db;
    }
  }

  lemma WorkspaceRowKeeps(db: Db, h: History, ws: Workspace, c: nat)
    requires DbOk(db, h) && InsertWorkspace(db, ws).err == None
    ensures var h' := h.(tick := h.tick + 1, makers := h.makers[ws.id := c]);
      DbOk(WithWorkspace(db, ws), h') && Grows(db, h, WithWorkspace(db, ws), h')
  {
    hide MembersOk, InvitesOk, AllPlaced, UnitsOk, SeatsMatch, TokensMatch, SlugsMatch;
    NewSlug(db.workspaces, db.slugs, ws);
    RowsGrow(db, h, WithWorkspace(db, ws), h.(tick := h.tick + 1, makers := h.makers[ws.id := c]));
  }

  lemma PositionRowKeeps(db: Db, h: History, p: Position)
    requires DbOk(db, h) && InsertPosition(db, p).err == None
    ensures var db' := InsertPosition(db, p).db;
      var h' := h.(tick := h.tick + 1);
      DbOk(db', h') && Grows(db, h, db', h')
  {
    RowsGrow(db, h, InsertPosition(db, p).db, h.(tick := h.tick + 1));
  }
}
