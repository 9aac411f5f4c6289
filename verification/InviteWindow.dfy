// How long an invitation can be used, over every interleaving: from the statement that
// stores it to any later lookup of its token.
module InviteWindow {
  import opened Common
  import opened Strings
  import opened WorkspaceTables
  import opened WorkspaceCalls
  import opened WorkspaceSystem
  import opened WorkspaceInvariant
  import opened WorkspaceRuns
  import opened WorkspaceRows
  import opened WorkspaceOutcomes

  // ---- Invite rows survive ----

  lemma InvitesGrowInStep(t: Ops, s: Sys, e: Event)
    requires SysOk(s)
    ensures SysOk(Next(t, s, e)) && InvitesExtend(s.db.invites, Next(t, s, e).db.invites)
  {
    NextKeeps(t, s, e);
    hide SysOk, Perform, InvitesExtend;
    match e
    case NewUser(_) => SameInvites(s.db.invites);
    case Start(_, _) => SameInvites(s.db.invites);
    case Fail(_) => SameInvites(s.db.invites);
    case Advance(c, env) =>
      if Live(s, c) { PerformKeeps(t, s, c, env, false); } else { SameInvites(s.db.invites); }
    case LoseAck(c, env) =>
      if Live(s, c) { PerformKeeps(t, s, c, env, true); } else { SameInvites(s.db.invites); }
  }

  lemma SameInvites(m: map<Id, Invite>)
    ensures InvitesExtend(m, m)
  {}

  lemma InvitesTransitive(m: map<Id, Invite>, m': map<Id, Invite>, m'': map<Id, Invite>)
    requires InvitesExtend(m, m') && InvitesExtend(m', m'')
    ensures InvitesExtend(m, m'')
  {
    forall i | i in m
      ensures i in m'' && m''[i] == m[i].(acceptedAt := m''[i].acceptedAt)
      ensures m[i].acceptedAt.Some? ==> m''[i].acceptedAt.Some?
    {
      assert i in m' && m'[i] == m[i].(acceptedAt := m'[i].acceptedAt);
    }
  }

  lemma {:induction false} InvitesGrowInRun(t: Ops, s: Sys, events: seq<Event>)
    requires SysOk(s)
    ensures SysOk(Run(t, s, events)) && InvitesExtend(s.db.invites, Run(t, s, events).db.invites)
  {
    hide SysOk, InvitesExtend, Next;
    if events == [] {
      SameInvites(s.db.invites);
    } else {
      var n := |events| - 1;
      var s' := Run(t, s, events[..n]);
      InvitesGrowInRun(t, s, events[..n]);
      InvitesGrowInStep(t, s', events[n]);
      InvitesTransitive(s.db.invites, s'.db.invites, Run(t, s, events).db.invites);
    }
  }

  // ---- The window ----

  // Call c stores an invitation at `env.now`, whether or not it learns of its success,
  // and anything at all happens afterwards. A lookup of the token by another call at
  // `env'.now` is refused from seven days on, and before that only if the invitation
  // has been accepted; otherwise it goes on to join the invited workspace in the
  // invited role.
  lemma InviteWindow(t: Ops, before: seq<Event>, c: nat, env: Env, lost: bool, after: seq<Event>, d: nat, user: Id,
                     env': Env)
    requires var s := Run(t, INITIAL, before);
      Live(s, c) && s.calls[c].pc.InviteInsert? && Perform(t, s, c, env, lost).calls[c].pc.InviteMail?
    requires var s' := Run(t, Perform(t, Run(t, INITIAL, before), c, env, lost), after);
      Live(s', d) && s'.calls[d].pc == Begin(AcceptInvite(env.token, user))
    ensures var pc := Run(t, INITIAL, before).calls[c].pc;
      var s' := Run(t, Perform(t, Run(t, INITIAL, before), c, env, lost), after);
      var s'' := Next(t, s', Advance(d, env'));
      && env.id in s'.db.invites
      && var row := s'.db.invites[env.id];
      && row.workspaceId == pc.wsId && row.role == pc.role && row.token == env.token
      && s''.db == s'.db && d in s''.calls
      && if row.acceptedAt.Some? || env'.now >= env.now + 604_800_000_000_000
         then s''.calls[d].reply == Some(Failed(ErrInviteNotFound))
         else s''.calls[d] == Call(AcceptInsert(row, user), None)
  {
    var s := Run(t, INITIAL, before);
    RunKeeps(t, before);
    var s1 := Perform(t, s, c, env, lost);
    InvitesGrowInStep(t, s, if lost then LoseAck(c, env) else Advance(c, env));
    InsertedInvite(t, s, c, env, lost);
    InvitesGrowInRun(t, s1, after);
    var s' := Run(t, s1, after);
    assert s'.db.invites[env.id] == s1.db.invites[env.id].(acceptedAt := s'.db.invites[env.id].acceptedAt);
    LookupOf(t, s', env.id, d, user, env');
  }

  lemma InsertedInvite(t: Ops, s: Sys, c: nat, env: Env, lost: bool)
    requires c in s.calls && s.calls[c].pc.InviteInsert? && Perform(t, s, c, env, lost).calls[c].pc.InviteMail?
    ensures var pc, db := s.calls[c].pc, Perform(t, s, c, env, lost).db;
      env.id in db.invites && db.invites[env.id] ==
        Invite(env.id, pc.wsId, t.normal(pc.email), pc.role, env.token, env.now + 604_800_000_000_000, None)
  {}

  lemma LookupOf(t: Ops, s: Sys, i: Id, d: nat, user: Id, env: Env)
    requires SysOk(s) && i in s.db.invites
    requires Live(s, d) && s.calls[d].pc == Begin(AcceptInvite(s.db.invites[i].token, user))
    ensures var s', row := Next(t, s, Advance(d, env)), s.db.invites[i];
      && s'.db == s.db && d in s'.calls
      && s'.calls[d] ==
           if row.acceptedAt.Some? || env.now >= row.expiresAt
           then Call(s.calls[d].pc, Some(Failed(ErrInviteNotFound))) else Call(AcceptInsert(row, user), None)
  {
    TokensMean(s.db, s.db.invites[i].token);
    FindInviteMeans(s.db, s.db.invites[i].token, env.now);
    hide SysOk;
    assert TokenTaken(ContentsOf(s.db), s.db.invites[i].token);
    assert OpenInvite(ContentsOf(s.db), i, s.db.invites[i].token, env.now)
      <==> s.db.invites[i].acceptedAt == None && env.now < s.db.invites[i].expiresAt;
  }

  // ---- Invite and accept, one after the other ----

  // The invited user joins with the invited role, or the reason why not, in the order
  // in which the reasons are looked for.
  lemma InviteThenAccept(t: Ops, db: Db, wsId: Id, user: Id, email: string, role: string, inputs: nat -> Env,
                         invitee: Id, inputs': nat -> Env)
    requires Indexed(db)
    requires Execute(t, db, InviteMember(wsId, user, email, role), inputs).reply == Some(Done)
    ensures var c := ContentsOf(db);
      var turn := Execute(t, Execute(t, db, InviteMember(wsId, user, email, role), inputs).db,
                          AcceptInvite(inputs(2).token, invitee), inputs');
      if inputs'(5).now >= inputs(2).now + 604_800_000_000_000 then turn.reply == Some(Failed(ErrInviteNotFound))
      else if inputs'(2).id in c.members || HasSeat(c, wsId, invitee) then turn.reply == Some(Failed(ErrAlreadyMember))
      else if invitee !in c.users then turn.reply == Some(Failed(DatabaseError))
      else
        && turn.reply == Some(Done)
        && ContentsOf(turn.db).members == c.members[inputs'(2).id :=
             Member(inputs'(2).id, wsId, invitee, role, "active", inputs'(2).now, None, None)]
  {
    var c := ContentsOf(db);
    InviteMemberYields(t, db, wsId, user, email, role, inputs);
    var db1 := Execute(t, db, InviteMember(wsId, user, email, role), inputs).db;
    AcceptInviteYields(t, db1, inputs(2).token, invitee, inputs');
    var c1 := ContentsOf(db1);
    InviteStored(t, c, wsId, user, email, role, inputs);
    hide Execute, Indexed, InviteMemberOutcome, AcceptInviteOutcome, HasSeat, SeatAs, TokenTaken, OpenInvite;
    hide ContentsOf;
    OnlyOpenInvite(c, c1, inputs(2).id, inputs(2).token, inputs'(5).now);
    SameSeats(c, c1, wsId, invitee);
    AcceptsTheInvite(c1, inputs(2).id, inputs(2).token, invitee, inputs');
  }

  lemma InviteStored(t: Ops, c: Contents, wsId: Id, user: Id, email: string, role: string, inputs: nat -> Env)
    requires InviteMemberOutcome(t, c, wsId, user, email, role, inputs).reply == Done
    ensures wsId in c.workspaces && inputs(2).id !in c.invites && !TokenTaken(c, inputs(2).token)
    ensures InviteMemberOutcome(t, c, wsId, user, email, role, inputs).after ==
      c.(invites := c.invites[inputs(2).id := Invite(inputs(2).id, wsId, t.normal(email), role, inputs(2).token,
                                                     inputs(2).now + 604_800_000_000_000, None)])
  {
    hide HasSeat, SeatAs, TokenTaken;
  }

  // With one invitation open, the outcome speaks about that one.
  lemma AcceptsTheInvite(c: Contents, id: Id, token: string, user: Id, inputs: nat -> Env)
    requires id in c.invites
    requires forall i :: OpenInvite(c, i, token, inputs(5).now) <==> i == id && inputs(5).now < c.invites[id].expiresAt
    ensures var o, inv := AcceptInviteOutcome(c, token, user, inputs), c.invites[id];
      if inputs(5).now >= inv.expiresAt then o == Refused(c, ErrInviteNotFound)
      else if inputs(2).id in c.members || HasSeat(c, inv.workspaceId, user) then o == Refused(c, ErrAlreadyMember)
      else if inv.workspaceId !in c.workspaces || user !in c.users then o == Refused(c, DatabaseError)
      else
        && o.reply == Done
        && o.after.members == c.members[inputs(2).id :=
             Member(inputs(2).id, inv.workspaceId, user, inv.role, "active", inputs(2).now, None, None)]
  {
    hide HasSeat;
    if inputs(5).now < c.invites[id].expiresAt {
      assert OpenInvite(c, id, token, inputs(5).now);
    }
  }

  lemma OnlyOpenInvite(c: Contents, c': Contents, id: Id, token: string, now: Time)
    requires id in c'.invites && c' == c.(invites := c.invites[id := c'.invites[id]])
    requires !TokenTaken(c, token) && c'.invites[id].token == token && c'.invites[id].acceptedAt == None
    ensures forall i :: OpenInvite(c', i, token, now) <==> i == id && now < c'.invites[id].expiresAt
  {
    forall i ensures OpenInvite(c', i, token, now) <==> i == id && now < c'.invites[id].expiresAt {
      if i != id && i in c'.invites { assert c'.invites[i] == c.invites[i]; }
    }
  }
}
