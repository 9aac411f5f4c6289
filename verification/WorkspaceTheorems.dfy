// What the invariant means: theorems about every state that any schedule of calls,
// failures and lost acknowledgements can reach.
module WorkspaceTheorems {
  import opened Common
  import opened Strings
  import opened WorkspaceTables
  import opened WorkspaceSystem
  import opened WorkspaceInvariant
  import opened WorkspaceRuns
  import opened WorkspaceRows

  // ---- Chain of authority ----

  // Member row b came through an invite that row a's user issued while already a
  // manager of the same workspace: a joined, then invited, then b joined.
  ghost predicate InvitedBy(db: Db, h: History, a: Id, b: Id) {
    && a in db.members && b in db.members && a in h.joins && b in h.joins
    && h.joins[b].via.Some?
    && var i := h.joins[b].via.value;
    && i in db.invites && i in h.sent
    && h.sent[i].sender == db.members[a].userId
    && db.members[a].workspaceId == db.invites[i].workspaceId == db.members[b].workspaceId
    && db.members[a].role in ["owner", "admin"]
    && db.members[b].role == db.invites[i].role && db.members[b].role in ["owner", "admin", "member"]
    && h.joins[a].at < h.sent[i].at < h.joins[b].at
  }

  // From the creator's owner row, one invitation after another, to row k.
  ghost predicate Authority(db: Db, h: History, k: Id, chain: seq<Id>) {
    && chain != [] && chain[|chain| - 1] == k
    && chain[0] in db.members
    && db.members[chain[0]].workspaceId in db.workspaces
    && db.members[chain[0]].userId == db.workspaces[db.members[chain[0]].workspaceId].createdBy
    && db.members[chain[0]].role == "owner"
    && forall n | 0 < n < |chain| :: InvitedBy(db, h, chain[n - 1], chain[n])
  }

  lemma InviterOf(db: Db, h: History, k: Id) returns (a: Id)
    requires DbOk(db, h) && k in db.members && k in h.joins && h.joins[k].via.Some?
    ensures InvitedBy(db, h, a, k)
  {
    assert MemberOk(db, h, k);
    var i := h.joins[k].via.value;
    assert InviteOk(db, h, i);
    var p := (db.invites[i].workspaceId, h.sent[i].sender);
    a := db.seats[p];
    assert Seat(db.members[a]) == p;
  }

  lemma ExtendChain(db: Db, h: History, upper: seq<Id>, k: Id)
    requires upper != [] && Authority(db, h, upper[|upper| - 1], upper) && InvitedBy(db, h, upper[|upper| - 1], k)
    ensures Authority(db, h, k, upper + [k])
  {
    var chain := upper + [k];
    forall n | 0 < n < |chain| ensures InvitedBy(db, h, chain[n - 1], chain[n]) {
      if n < |upper| { assert InvitedBy(db, h, upper[n - 1], upper[n]); }
    }
  }

  lemma {:induction false} AuthorityOf(db: Db, h: History, k: Id) returns (chain: seq<Id>)
    requires DbOk(db, h) && k in db.members
    ensures Authority(db, h, k, chain)
    decreases if k in h.joins then h.joins[k].at else 0
  {
    assert MemberOk(db, h, k);
    if h.joins[k].via == None {
      chain := [k];
    } else {
      var a := InviterOf(db, h, k);
      var upper := AuthorityOf(db, h, a);
      ExtendChain(db, h, upper, k);
      chain := upper + [k];
    }
  }

  lemma EveryMemberHasAuthority(t: Ops, events: seq<Event>, k: Id) returns (chain: seq<Id>)
    requires k in Run(t, INITIAL, events).db.members
    ensures var s := Run(t, INITIAL, events); Authority(s.db, s.history, k, chain)
  {
    RunKeeps(t, events);
    var s := Run(t, INITIAL, events);
    chain := AuthorityOf(s.db, s.history, k);
  }

  // ---- Owner existence ----

  ghost predicate HasMember(db: Db, wsId: Id) {
    exists k :: k in db.members && db.members[k].workspaceId == wsId
  }

  // The creator's row, active and with the role "owner".
  predicate CreatorRow(db: Db, wsId: Id, k: Id) {
    && wsId in db.workspaces && k in db.members
    && db.members[k].workspaceId == wsId && db.members[k].userId == db.workspaces[wsId].createdBy
    && db.members[k].role == "owner" && db.members[k].status == "active"
  }

  ghost predicate HasInvite(db: Db, wsId: Id) {
    exists i :: i in db.invites && db.invites[i].workspaceId == wsId
  }

  // Some call has executed CreateWorkspace's first insert for this workspace and not
  // its second one: it is in flight there, or returned an error there.
  ghost predicate CreationCutShort(s: Sys, wsId: Id) {
    exists c :: StandsBeforeOwner(s, c, wsId)
  }

  predicate StandsBeforeOwner(s: Sys, c: nat, wsId: Id) {
    c in s.calls && s.calls[c].pc.OwnerInsert? && s.calls[c].pc.ws.id == wsId
  }

  lemma OwnerExists(t: Ops, events: seq<Event>, wsId: Id)
    ensures var s := Run(t, INITIAL, events);
      && (HasMember(s.db, wsId) || HasInvite(s.db, wsId) ==>
            HasOwner(s.db, s.history, wsId) && exists k :: CreatorRow(s.db, wsId, k))
      && (wsId in s.db.workspaces ==> (!HasMember(s.db, wsId) <==> CreationCutShort(s, wsId)))
  {
    RunKeeps(t, events);
    var s := Run(t, INITIAL, events);
    OwnersComeFirst(s.db, s.history, wsId);
    if HasOwner(s.db, s.history, wsId) {
      OwnerRow(s.db, s.history, wsId);
    }
    if wsId in s.db.workspaces {
      assert MakerOk(s, wsId);
      WorkspaceKey(s.db, s.history, wsId);
      var p := (wsId, s.db.workspaces[wsId].createdBy);
      if CreationCutShort(s, wsId) {
        var c :| StandsBeforeOwner(s, c, wsId);
        assert CallOk(s, c);
        assert p !in s.db.seats;
      }
      if p in s.db.seats {
        assert Seat(s.db.members[s.db.seats[p]]) == p;
      } else {
        assert StandsBeforeOwner(s, s.history.makers[wsId], wsId);
      }
    }
  }

  lemma OwnerRow(db: Db, h: History, wsId: Id)
    requires DbOk(db, h) && HasOwner(db, h, wsId)
    ensures exists k :: CreatorRow(db, wsId, k)
  {
    var p := (wsId, db.workspaces[wsId].createdBy);
    var k := db.seats[p];
    assert Seat(db.members[k]) == p && MemberOk(db, h, k);
    assert CreatorRow(db, wsId, k);
  }

  lemma OwnersComeFirst(db: Db, h: History, wsId: Id)
    requires DbOk(db, h)
    ensures HasMember(db, wsId) || HasInvite(db, wsId) ==> HasOwner(db, h, wsId)
  {
    if HasMember(db, wsId) {
      var k :| k in db.members && db.members[k].workspaceId == wsId;
      assert MemberOk(db, h, k);
    } else if HasInvite(db, wsId) {
      var i :| i in db.invites && db.invites[i].workspaceId == wsId;
      assert InviteOk(db, h, i);
    }
  }

  // ---- Invite accounting ----

  function MembersOf(db: Db, wsId: Id): set<Id> {
    set k | k in db.members && db.members[k].workspaceId == wsId
  }

  function AcceptedOf(db: Db, wsId: Id): set<Id> {
    set i | i in db.invites && db.invites[i].workspaceId == wsId && db.invites[i].acceptedAt.Some?
  }

  lemma AcceptedInvitesHaveMembers(t: Ops, events: seq<Event>, i: Id) returns (k: Id)
    requires var db := Run(t, INITIAL, events).db; i in db.invites && db.invites[i].acceptedAt.Some?
    ensures var db := Run(t, INITIAL, events).db;
      k in db.members && db.members[k].workspaceId == db.invites[i].workspaceId
        && db.members[k].role == db.invites[i].role
  {
    RunKeeps(t, events);
    var s := Run(t, INITIAL, events);
    assert InviteOk(s.db, s.history, i);
    k := s.history.acceptedBy[i];
  }

  lemma AcceptedBelowMembers(db: Db, h: History, wsId: Id)
    requires DbOk(db, h) && HasMember(db, wsId)
    ensures |AcceptedOf(db, wsId)| <= |MembersOf(db, wsId)| - 1
  {
    OwnersComeFirst(db, h, wsId);
    var owner := db.seats[(wsId, db.workspaces[wsId].createdBy)];
    assert Seat(db.members[owner]) == (wsId, db.workspaces[wsId].createdBy);
    var xs, ys := AcceptedOf(db, wsId), MembersOf(db, wsId) - {owner};
    forall i | i in xs
      ensures i in h.acceptedBy && h.acceptedBy[i] in ys && h.acceptedBy[i] in h.joins
        && h.joins[h.acceptedBy[i]].via == Some(i)
    {
      assert InviteOk(db, h, i);
    }
    InjectionBounds(xs, ys, h.acceptedBy);
  }

  lemma AcceptedNeedsMember(db: Db, h: History, wsId: Id)
    requires DbOk(db, h)
    ensures AcceptedOf(db, wsId) != {} ==> HasMember(db, wsId)
  {
    if AcceptedOf(db, wsId) != {} {
      var i :| i in AcceptedOf(db, wsId);
      assert InviteOk(db, h, i);
    }
  }

  lemma InviteAccounting(t: Ops, events: seq<Event>, wsId: Id)
    ensures var db := Run(t, INITIAL, events).db;
      if HasMember(db, wsId) then |AcceptedOf(db, wsId)| <= |MembersOf(db, wsId)| - 1 else AcceptedOf(db, wsId) == {}
  {
    RunKeeps(t, events);
    var s := Run(t, INITIAL, events);
    AcceptedNeedsMember(s.db, s.history, wsId);
    if HasMember(s.db, wsId) {
      AcceptedBelowMembers(s.db, s.history, wsId);
    }
  }

  // ---- Org forest ----

  // The unit reached from u by n parent links, if there are that many.
  function Ancestor(db: Db, u: Id, n: nat): Option<Id> {
    if n == 0 then Some(u)
    else match Ancestor(db, u, n - 1)
      case None => None
      case Some(x) => if x in db.units then db.units[x].parentId else None
  }

  function UnitsOf(db: Db, wsId: Id): set<Id> {
    set u | u in db.units && db.units[u].workspaceId == wsId
  }

  lemma {:induction false} AncestorsAreEarlier(db: Db, h: History, u: Id, n: nat)
    requires DbOk(db, h) && u in db.units && Ancestor(db, u, n).Some?
    ensures var x := Ancestor(db, u, n).value;
      && x in db.units && db.units[x].workspaceId == db.units[u].workspaceId
      && u in h.unitAt && x in h.unitAt && h.unitAt[x] <= h.unitAt[u]
      && (n > 0 ==> h.unitAt[x] < h.unitAt[u])
  {
    if n == 0 {
      assert UnitOk(db, h, u);
    } else {
      AncestorsAreEarlier(db, h, u, n - 1);
      assert UnitOk(db, h, Ancestor(db, u, n - 1).value);
    }
  }

  lemma {:induction false} AncestorOfAncestor(db: Db, u: Id, m: nat, n: nat)
    requires Ancestor(db, u, m).Some?
    ensures Ancestor(db, u, m + n) == Ancestor(db, Ancestor(db, u, m).value, n)
  {
    if n > 0 { AncestorOfAncestor(db, u, m, n - 1); }
  }

  // The first n ancestors of u, u included.
  lemma {:induction false} AncestorPath(db: Db, h: History, u: Id, n: nat) returns (path: seq<Id>)
    requires DbOk(db, h) && u in db.units && Ancestor(db, u, n).Some?
    ensures |path| == n + 1 && forall i | 0 <= i <= n :: Ancestor(db, u, i) == Some(path[i])
    ensures forall i, j | 0 <= i < j <= n :: path[i] != path[j]
  {
    if n == 0 {
      path := [u];
    } else {
      var front := AncestorPath(db, h, u, n - 1);
      var last := Ancestor(db, u, n).value;
      path := front + [last];
      forall i | 0 <= i < n ensures front[i] != last {
        AncestorsAreEarlier(db, h, u, i);
        AncestorOfAncestor(db, u, i, n - i);
        AncestorsAreEarlier(db, h, front[i], n - i);
      }
    }
  }

  lemma ClimbIsShort(db: Db, h: History, u: Id, n: nat)
    requires DbOk(db, h) && u in db.units && Ancestor(db, u, n).Some?
    ensures n < |UnitsOf(db, db.units[u].workspaceId)|
  {
    var path := AncestorPath(db, h, u, n);
    forall i | 0 <= i <= n ensures path[i] in UnitsOf(db, db.units[u].workspaceId) {
      AncestorsAreEarlier(db, h, u, i);
    }
    DistinctBounds(path, UnitsOf(db, db.units[u].workspaceId));
  }

  lemma {:induction false} ClimbEnds(db: Db, h: History, u: Id, n: nat) returns (steps: nat)
    requires DbOk(db, h) && u in db.units && Ancestor(db, u, n).Some?
    ensures n <= steps && Ancestor(db, u, steps).Some? && Ancestor(db, u, steps + 1) == None
    decreases |UnitsOf(db, db.units[u].workspaceId)| - n
  {
    ClimbIsShort(db, h, u, n);
    if Ancestor(db, u, n + 1) == None {
      steps := n;
    } else {
      steps := ClimbEnds(db, h, u, n + 1);
    }
  }

  // In every reachable state: no unit is its own ancestor, every ancestor belongs to
  // the unit's workspace, and the climb reaches a parentless unit in fewer steps than
  // the workspace has units.
  lemma OrgForest(t: Ops, events: seq<Event>, u: Id) returns (steps: nat)
    requires u in Run(t, INITIAL, events).db.units
    ensures var db := Run(t, INITIAL, events).db;
      && steps < |UnitsOf(db, db.units[u].workspaceId)|
      && Ancestor(db, u, steps).Some? && Ancestor(db, u, steps).value in db.units
      && db.units[Ancestor(db, u, steps).value].parentId == None
      && (forall n | n > 0 :: Ancestor(db, u, n) != Some(u))
      && (forall n: nat | Ancestor(db, u, n).Some? ::
            Ancestor(db, u, n).value in db.units
              && db.units[Ancestor(db, u, n).value].workspaceId == db.units[u].workspaceId)
  {
    RunKeeps(t, events);
    var s := Run(t, INITIAL, events);
    steps := ClimbEnds(s.db, s.history, u, 0);
    ClimbIsShort(s.db, s.history, u, steps);
    forall n: nat | Ancestor(s.db, u, n).Some?
      ensures Ancestor(s.db, u, n).value in s.db.units
        && s.db.units[Ancestor(s.db, u, n).value].workspaceId == s.db.units[u].workspaceId
      ensures n > 0 ==> Ancestor(s.db, u, n).value != u
    {
      AncestorsAreEarlier(s.db, s.history, u, n);
    }
  }

  // ---- Assignment integrity ----

  lemma AssignmentsStayInside(t: Ops, events: seq<Event>, k: Id)
    requires k in Run(t, INITIAL, events).db.members
    ensures var db := Run(t, INITIAL, events).db;
      var m := db.members[k];
      && (m.orgUnitId.Some? ==>
         m.orgUnitId.value in db.units && db.units[m.orgUnitId.value].workspaceId == m.workspaceId)
      && (m.positionId.Some? ==>
         m.positionId.value in db.positions && db.positions[m.positionId.value].workspaceId == m.workspaceId)
  {
    RunKeeps(t, events);
    var db := Run(t, INITIAL, events).db;
    assert Placed(db, db.members[k]);
  }

  // ---- Two membership views ----

  // The list of a user's workspaces holds a workspace exactly once if and only if
  // requireMember passes there, and otherwise not at all.
  lemma MembershipViewsAgree(t: Ops, events: seq<Event>, user: Id, rows: seq<Id>, out: seq<Workspace>, wsId: Id)
    requires var db := Run(t, INITIAL, events).db; IsAnswer(db, user, rows) && out == Listed(db, user, rows)
    ensures (exists i :: 0 <= i < |out| && out[i].id == wsId) <==>
      FindMember(Run(t, INITIAL, events).db, wsId, user).Some?
    ensures (exists i :: 0 <= i < |out| && out[i].id == wsId) <==>
      var members := Run(t, INITIAL, events).db.members;
      exists k :: k in members && members[k].workspaceId == wsId && members[k].userId == user
    ensures forall i, j | 0 <= i < |out| && 0 <= j < |out| && out[i].id == wsId == out[j].id :: i == j
  {
    RunKeeps(t, events);
    var s := Run(t, INITIAL, events);
    var db := s.db;
    FindMemberMeans(db, wsId, user);
    forall i | 0 <= i < |out| && out[i].id == wsId
      ensures (wsId, user) in db.seats && db.seats[(wsId, user)] == rows[i]
    {
      assert rows[i] in Joined(db, user);
      assert Seat(db.members[rows[i]]) == (wsId, user);
    }
    if FindMember(db, wsId, user).Some? {
      var k := db.seats[(wsId, user)];
      assert MemberOk(db, s.history, k) && Seat(db.members[k]) == (wsId, user);
      assert k in Joined(db, user);
      var i :| 0 <= i < |rows| && rows[i] == k;
      assert out[i].id == wsId;
    }
  }
}
