// How often can one invite be used? MarkAccepted has no guard, so the answer depends on
// whether two acceptances of the invite overlap.
module InviteSingleUse {
  import opened Common
  import opened Strings
  import opened WorkspaceTables
  import opened WorkspaceCalls
  import opened WorkspaceSystem
  import opened WorkspaceInvariant
  import opened WorkspaceRuns

  // ---- When acceptances do not overlap ----

  // The call has found this invite and not yet stamped it: it is under way between the
  // two, or it has stopped after its insert.
  predicate Claims(s: Sys, c: nat, i: Id) {
    c in s.calls &&
    var pc := s.calls[c].pc;
    ((pc.AcceptInsert? && s.calls[c].reply == None) || pc.AcceptMark?) && pc.invite.id == i
  }

  ghost predicate Exclusive(s: Sys) {
    forall c, d, i {:trigger Claims(s, c, i), Claims(s, d, i)} | Claims(s, c, i) && Claims(s, d, i) :: c == d
  }

  predicate Via(h: History, k: Id, i: Id) {
    k in h.joins && h.joins[k].via == Some(i)
  }

  predicate Stamped(db: Db, h: History, k: Id, i: Id) {
    i in db.invites && db.invites[i].acceptedAt.Some? && i in h.acceptedBy && h.acceptedBy[i] == k
  }

  predicate AboutToStamp(s: Sys, c: nat, k: Id, i: Id) {
    c in s.calls && s.calls[c].pc.AcceptMark? && s.calls[c].pc.memberId == k && s.calls[c].pc.invite.id == i
  }

  ghost predicate SingleUse(h: History) {
    forall k, k', i {:trigger Via(h, k, i), Via(h, k', i)} | Via(h, k, i) && Via(h, k', i) :: k == k'
  }

  ghost predicate Settled(s: Sys) {
    && SingleUse(s.history)
    && (forall k, i {:trigger Via(s.history, k, i)} | Via(s.history, k, i) ::
          Stamped(s.db, s.history, k, i) || exists c :: AboutToStamp(s, c, k, i))
    && (forall c, k {:trigger Via(s.history, k, s.calls[c].pc.invite.id)} |
          c in s.calls && s.calls[c].pc.AcceptInsert? && s.calls[c].reply == None ::
            !Via(s.history, k, s.calls[c].pc.invite.id))
  }

  // What a statement does to the records that matter here.
  ghost predicate Recorded(db: Db, h: History, pc: Pc, db': Db, h': History, pc': Pc) {
    && h'.joins == (if pc.AcceptInsert? && pc'.AcceptMark?
       then h.joins[pc'.memberId := Join(h.tick, Some(pc.invite.id))]
                    else if pc.OwnerInsert? && pc'.WsCreated? then h'.joins else h.joins)
    && (pc.OwnerInsert? ==> forall k, i :: Via(h', k, i) <==> Via(h, k, i))
    && h'.acceptedBy == (if pc.AcceptMark? then h.acceptedBy[pc.invite.id := pc.memberId] else h.acceptedBy)
    && (pc'.AcceptMark? ==> pc.AcceptInsert? && pc'.invite == pc.invite && pc'.memberId !in h.joins)
    && (pc.AcceptMark? ==>
       pc'.Accepted? && (pc.invite.id in db.invites ==>
       pc.invite.id in db'.invites && db'.invites[pc.invite.id].acceptedAt.Some?))
  }

  lemma OwnerNote(h: History, pc: Pc, pc': Pc, env: Env)
    ensures NoteOwner(h, pc, pc', env) ==
      h.(joins := if pc.OwnerInsert? && pc'.WsCreated? then h.joins[env.id := Join(h.tick, None)] else h.joins)
  {}

  lemma JoinsNote(h: History, c: nat, pc: Pc, pc': Pc)
    ensures Note(h, c, pc, pc').joins ==
      if pc.AcceptInsert? && pc'.AcceptMark? then h.joins[pc'.memberId := Join(h.tick, Some(pc'.invite.id))]
        else h.joins
  {}

  lemma StampsNote(h: History, c: nat, pc: Pc, pc': Pc)
    ensures Note(h, c, pc, pc').acceptedBy ==
      if pc.AcceptMark? && pc'.Accepted? then h.acceptedBy[pc'.invite.id := pc'.memberId] else h.acceptedBy
  {}

  lemma ArrivalsNote(h: History, c: nat, pc: Pc, pc': Pc, env: Env)
    ensures var h' := Noted(h, c, pc, pc', env);
      && h'.joins == (if pc.AcceptInsert? && pc'.AcceptMark?
         then h.joins[pc'.memberId := Join(h.tick, Some(pc'.invite.id))]
                      else if pc.OwnerInsert? && pc'.WsCreated? then h.joins[env.id := Join(h.tick, None)] else h.joins)
      && h'.acceptedBy == (if pc.AcceptMark? && pc'.Accepted? then h.acceptedBy[pc'.invite.id := pc'.memberId]
         else h.acceptedBy)
  {
    hide Note, NoteOwner;
    OwnerNote(h, pc, pc', env);
    JoinsNote(NoteOwner(h, pc, pc', env), c, pc, pc');
    StampsNote(NoteOwner(h, pc, pc', env), c, pc, pc');
  }

  lemma ArrivalsStep(t: Ops, db: Db, pc: Pc, env: Env)
    requires pc.OwnerInsert? || pc.AcceptInsert? || pc.AcceptMark?
    ensures var turn := Step(t, db, pc, env);
      && (pc.OwnerInsert? ==> !turn.pc.AcceptMark? && (turn.pc.WsCreated? ==> env.id !in db.members))
      && (pc.AcceptInsert? ==> turn.pc == pc || (turn.pc == AcceptMark(pc.invite, env.id) && env.id !in db.members))
      && (pc.AcceptMark? ==>
         turn.pc == Accepted(pc.invite, pc.memberId) && turn.db == MarkInviteAccepted(db, pc.invite.id, env.now))
  {}

  lemma OthersDoNotClaim(t: Ops, db: Db, pc: Pc, env: Env)
    requires !pc.OwnerInsert? && !pc.AcceptInsert? && !pc.AcceptMark?
    ensures !Step(t, db, pc, env).pc.AcceptMark?
  {}

  lemma StatementRecorded(t: Ops, db: Db, h: History, c: nat, pc: Pc, env: Env)
    requires HistoryFits(db, h)
    ensures var turn := Step(t, db, pc, env); Recorded(db, h, pc, turn.db, Noted(h, c, pc, turn.pc, env), turn.pc)
  {
    hide Step, Noted;
    ArrivalsNote(h, c, pc, Step(t, db, pc, env).pc, env);
    if pc.OwnerInsert? || pc.AcceptInsert? || pc.AcceptMark? {
      ArrivalsStep(t, db, pc, env);
    } else {
      OthersDoNotClaim(t, db, pc, env);
    }
  }

  // A live call stands before its insert only right after finding an unstamped invite.
  lemma FoundUnstamped(t: Ops, db: Db, pc: Pc, env: Env)
    requires Indexed(db)
    ensures var turn := Step(t, db, pc, env);
      turn.reply == None && turn.pc.AcceptInsert? ==>
        pc.Begin? && turn.db == db && turn.pc.invite.id in db.invites
          && db.invites[turn.pc.invite.id].acceptedAt == None
  {
    hide SeatsMatch;
  }

  lemma OthersStayStamped(s: Sys, s': Sys, c: nat, k: Id, i: Id)
    requires InvitesExtend(s.db.invites, s'.db.invites) && c in s.calls && c in s'.calls
    requires Recorded(s.db, s.history, s.calls[c].pc, s'.db, s'.history, s'.calls[c].pc)
    requires forall d | d in s.calls && d != c :: d in s'.calls && s'.calls[d] == s.calls[d]
    requires Stamped(s.db, s.history, k, i) || exists d :: AboutToStamp(s, d, k, i)
    requires s.calls[c].pc.AcceptMark? && s.calls[c].pc.invite.id == i ==>
      s.calls[c].pc.memberId == k && i in s.db.invites
    ensures Stamped(s'.db, s'.history, k, i) || exists d :: AboutToStamp(s', d, k, i)
  {
    if !Stamped(s.db, s.history, k, i) {
      var d :| AboutToStamp(s, d, k, i);
      if d != c { assert AboutToStamp(s', d, k, i); }
    }
  }

  lemma ActorFacts(s: Sys, c: nat)
    requires SysOk(s) && c in s.calls
    ensures Indexed(s.db) && HistoryFits(s.db, s.history)
    ensures var pc := s.calls[c].pc;
      pc.AcceptMark? ==> Via(s.history, pc.memberId, pc.invite.id) && pc.invite.id in s.db.invites
  {
    assert CallOk(s, c);
    hide MembersOk, InvitesOk, UnitsOk, AllPlaced, Indexed;
  }

  lemma InvitesOnlyMove(t: Ops, s: Sys, c: nat, env: Env, lost: bool)
    requires SysOk(s) && c in s.calls
    ensures InvitesExtend(s.db.invites, Perform(t, s, c, env, lost).db.invites)
  {
    PerformKeeps(t, s, c, env, lost);
    hide SysOk, Step, Note, InvitesExtend, MembersExtend, Extends;
  }

  lemma PerformSettles(t: Ops, s: Sys, c: nat, env: Env, lost: bool)
    requires SysOk(s) && Live(s, c) && Settled(s) && Exclusive(s) && Exclusive(Perform(t, s, c, env, lost))
    ensures Settled(Perform(t, s, c, env, lost))
  {
    hide SysOk, Indexed, HistoryFits, Step, Note, NoteOwner, InvitesExtend, Recorded, Exclusive;
    var s' := Perform(t, s, c, env, lost);
    var pc, pc' := s.calls[c].pc, s'.calls[c].pc;
    InvitesOnlyMove(t, s, c, env, lost);
    ActorFacts(s, c);
    StatementRecorded(t, s.db, s.history, c, pc, env);
    FoundUnstamped(t, s.db, pc, env);
    NewMemberIsFirst(s, s', c);
    forall k, i | Via(s'.history, k, i)
      ensures Stamped(s'.db, s'.history, k, i) || exists d :: AboutToStamp(s', d, k, i) {
      MembersSettle(s, s', c, k, i);
    }
    forall d, k | d in s'.calls && s'.calls[d].pc.AcceptInsert? && s'.calls[d].reply == None
      ensures !Via(s'.history, k, s'.calls[d].pc.invite.id)
    {
      ClaimantIsFirst(s, s', c, d, k);
    }
  }

  lemma MembersSettle(s: Sys, s': Sys, c: nat, k: Id, i: Id)
    requires Settled(s) && InvitesExtend(s.db.invites, s'.db.invites) && c in s.calls && c in s'.calls
    requires Recorded(s.db, s.history, s.calls[c].pc, s'.db, s'.history, s'.calls[c].pc)
    requires forall d | d in s.calls && d != c :: d in s'.calls && s'.calls[d] == s.calls[d]
    requires s.calls[c].pc.AcceptMark? ==>
      Via(s.history, s.calls[c].pc.memberId, s.calls[c].pc.invite.id) && s.calls[c].pc.invite.id in s.db.invites
    requires Via(s'.history, k, i)
    ensures Stamped(s'.db, s'.history, k, i) || exists d :: AboutToStamp(s', d, k, i)
  {
    if Via(s.history, k, i) {
      OthersStayStamped(s, s', c, k, i);
    } else {
      assert AboutToStamp(s', c, k, i) by { hide InvitesExtend, Settled; }
    }
  }

  // The insert of an acceptance meets no earlier member of the same invite.
  lemma NewMemberIsFirst(s: Sys, s': Sys, c: nat)
    requires Settled(s) && Live(s, c) && c in s'.calls
    requires Recorded(s.db, s.history, s.calls[c].pc, s'.db, s'.history, s'.calls[c].pc)
    ensures SingleUse(s'.history)
  {
    hide Stamped, AboutToStamp;
    var pc, pc' := s.calls[c].pc, s'.calls[c].pc;
    forall k, k', i | Via(s'.history, k, i) && Via(s'.history, k', i) ensures k == k' {
      if pc.AcceptInsert? && pc'.AcceptMark? {
        assert k != pc'.memberId ==> Via(s.history, k, i);
        assert k' != pc'.memberId ==> Via(s.history, k', i);
        assert !Via(s.history, k, pc.invite.id) && !Via(s.history, k', pc.invite.id);
      } else {
        assert Via(s.history, k, i) && Via(s.history, k', i);
      }
    }
  }

  lemma ClaimantIsFirst(s: Sys, s': Sys, c: nat, d: nat, k: Id)
    requires Settled(s) && Exclusive(s) && Exclusive(s') && Live(s, c) && c in s'.calls
    requires s'.calls.Keys == s.calls.Keys && forall e | e in s.calls && e != c :: s'.calls[e] == s.calls[e]
    requires Recorded(s.db, s.history, s.calls[c].pc, s'.db, s'.history, s'.calls[c].pc)
    requires d in s'.calls && s'.calls[d].pc.AcceptInsert? && s'.calls[d].reply == None
    requires d == c ==>
      && s.calls[c].pc.Begin? && s'.db == s.db && s'.calls[c].pc.invite.id in s.db.invites
      && s.db.invites[s'.calls[c].pc.invite.id].acceptedAt == None
    ensures !Via(s'.history, k, s'.calls[d].pc.invite.id)
  {
    var i := s'.calls[d].pc.invite.id;
    assert Claims(s', d, i);
    if d == c {
      if Via(s.history, k, i) {
        var e :| AboutToStamp(s, e, k, i);
        assert Claims(s', e, i);
        assert false;
      }
    } else {
      assert Claims(s, d, i) && !Via(s.history, k, i);
      if s.calls[c].pc.AcceptInsert? && s.calls[c].pc.invite.id == i {
        assert Claims(s, c, i);
        assert false;
      }
    }
  }

  lemma NextSettles(t: Ops, s: Sys, e: Event)
    requires SysOk(s) && Settled(s) && Exclusive(s) && Exclusive(Next(t, s, e))
    ensures Settled(Next(t, s, e))
  {
    match e
    case Advance(c, env) => {
      if Live(s, c) { PerformSettles(t, s, c, env, false); }
      hide SysOk, Settled, Perform, Exclusive;
    }
    case LoseAck(c, env) => {
      if Live(s, c) { PerformSettles(t, s, c, env, true); }
      hide SysOk, Settled, Perform, Exclusive;
    }
    case NewUser(u) => SamePcsSettle(s, Next(t, s, e));
    case Start(c, req) => SamePcsSettle(s, Next(t, s, e));
    case Fail(c) => SamePcsSettle(s, Next(t, s, e));
  }

  lemma SamePcsSettle(s: Sys, s': Sys)
    requires Settled(s) && s'.history == s.history && s'.db.invites == s.db.invites
    requires forall c | c in s.calls ::
      c in s'.calls && s'.calls[c].pc == s.calls[c].pc && (s.calls[c].reply.Some? ==> s'.calls[c].reply.Some?)
    requires forall c | c in s'.calls && c !in s.calls :: s'.calls[c].pc.Begin?
    ensures Settled(s')
  {
    forall k, i | Via(s'.history, k, i)
      ensures Stamped(s'.db, s'.history, k, i) || exists d :: AboutToStamp(s', d, k, i) {
      if !Stamped(s.db, s.history, k, i) {
        var d :| AboutToStamp(s, d, k, i);
        assert AboutToStamp(s', d, k, i);
      }
    }
  }

  // At no moment do two calls claim the same invite.
  ghost predicate AcceptancesNeverOverlap(t: Ops, events: seq<Event>) {
    forall n: nat {:trigger events[..n]} | n <= |events| :: Exclusive(Run(t, INITIAL, events[..n]))
  }

  lemma {:induction false} StaysSettled(t: Ops, events: seq<Event>, n: nat)
    requires AcceptancesNeverOverlap(t, events) && n <= |events|
    ensures Settled(Run(t, INITIAL, events[..n]))
  {
    if n == 0 {
      assert Settled(INITIAL);
    } else {
      StaysSettled(t, events, n - 1);
      assert events[..n][..n - 1] == events[..n - 1];
      RunKeeps(t, events[..n - 1]);
      assert Exclusive(Run(t, INITIAL, events[..n - 1])) && Exclusive(Run(t, INITIAL, events[..n]));
      hide Exclusive, Settled, SysOk, Next;
      NextSettles(t, Run(t, INITIAL, events[..n - 1]), events[n - 1]);
    }
  }

  // If no two acceptances of one invite overlap, and none of the same invite begins
  // after another one stopped between its insert and its update, then each invite
  // brought in at most one member, whatever else interleaves.
  lemma NonOverlappingAcceptancesAreSingleUse(t: Ops, events: seq<Event>, k: Id, k': Id)
    requires AcceptancesNeverOverlap(t, events)
    ensures var joins := Run(t, INITIAL, events).history.joins;
      k in joins && k' in joins && joins[k].via.Some? && joins[k].via == joins[k'].via ==> k == k'
  {
    StaysSettled(t, events, |events|);
    assert events[..|events|] == events;
    var h := Run(t, INITIAL, events).history;
    hide Run;
    if k in h.joins && k' in h.joins && h.joins[k].via.Some? && h.joins[k].via == h.joins[k'].via {
      assert Via(h, k, h.joins[k].via.value) && Via(h, k', h.joins[k].via.value);
    }
  }

  // ---- The exact condition on one insert ----

  predicate IsAccepted(db: Db, i: Id) {
    i in db.invites && db.invites[i].acceptedAt.Some?
  }

  // Whoever came through an invite has stamped it or is on the way there.
  ghost predicate Accounted(s: Sys) {
    forall k, i {:trigger Via(s.history, k, i)} | Via(s.history, k, i) ::
      IsAccepted(s.db, i) || exists c :: AboutToStamp(s, c, k, i)
  }

  lemma MemberAccounted(s: Sys, s': Sys, c: nat, k: Id, i: Id)
    requires Accounted(s) && InvitesExtend(s.db.invites, s'.db.invites) && c in s.calls && c in s'.calls
    requires Recorded(s.db, s.history, s.calls[c].pc, s'.db, s'.history, s'.calls[c].pc)
    requires forall d | d in s.calls && d != c :: d in s'.calls && s'.calls[d] == s.calls[d]
    requires s.calls[c].pc.AcceptMark? ==> s.calls[c].pc.invite.id in s.db.invites
    requires Via(s'.history, k, i)
    ensures IsAccepted(s'.db, i) || exists d :: AboutToStamp(s', d, k, i)
  {
    if Via(s.history, k, i) {
      if !IsAccepted(s.db, i) {
        var d :| AboutToStamp(s, d, k, i);
        if d != c { assert AboutToStamp(s', d, k, i); }
      }
    } else {
      assert AboutToStamp(s', c, k, i) by { hide InvitesExtend, Accounted; }
    }
  }

  lemma PerformAccounts(t: Ops, s: Sys, c: nat, env: Env, lost: bool)
    requires SysOk(s) && c in s.calls && Accounted(s)
    ensures Accounted(Perform(t, s, c, env, lost))
  {
    hide SysOk, Indexed, HistoryFits, Step, Note, NoteOwner, InvitesExtend, Recorded;
    var s' := Perform(t, s, c, env, lost);
    InvitesOnlyMove(t, s, c, env, lost);
    ActorFacts(s, c);
    StatementRecorded(t, s.db, s.history, c, s.calls[c].pc, env);
    forall k, i | Via(s'.history, k, i) ensures IsAccepted(s'.db, i) || exists d :: AboutToStamp(s', d, k, i) {
      MemberAccounted(s, s', c, k, i);
    }
  }

  lemma SamePcsAccount(s: Sys, s': Sys)
    requires Accounted(s) && s'.history == s.history && s'.db.invites == s.db.invites
    requires forall c | c in s.calls :: c in s'.calls && s'.calls[c].pc == s.calls[c].pc
    ensures Accounted(s')
  {
    forall k, i | Via(s'.history, k, i) ensures IsAccepted(s'.db, i) || exists d :: AboutToStamp(s', d, k, i) {
      if !IsAccepted(s.db, i) {
        var d :| AboutToStamp(s, d, k, i);
        assert AboutToStamp(s', d, k, i);
      }
    }
  }

  lemma {:induction false} RunAccounts(t: Ops, events: seq<Event>)
    ensures Accounted(Run(t, INITIAL, events))
  {
    if events != [] {
      var s, e := Run(t, INITIAL, events[..|events| - 1]), events[|events| - 1];
      RunAccounts(t, events[..|events| - 1]);
      RunKeeps(t, events[..|events| - 1]);
      match e
      case Advance(c, env) => {
        if Live(s, c) { PerformAccounts(t, s, c, env, false); }
        hide SysOk, Accounted, Perform;
      }
      case LoseAck(c, env) => { if Live(s, c) { PerformAccounts(t, s, c, env, true); } hide SysOk, Accounted, Perform; }
      case _ => { SamePcsAccount(s, Next(t, s, e)); hide SysOk, Accounted, Perform; }
    }
  }

  lemma InsertRecorded(t: Ops, db: Db, h: History, c: nat, pc: Pc, env: Env)
    requires pc.AcceptInsert? && InsertMember(db, Invited(pc.invite, pc.user, env)).err == None
    ensures Noted(h, c, pc, Step(t, db, pc, env).pc, env).joins == h.joins[env.id := Join(h.tick, Some(pc.invite.id))]
    ensures env.id !in db.members
  {}

  lemma AcceptedHasMember(s: Sys, i: Id)
    requires SysOk(s) && IsAccepted(s.db, i)
    ensures i in s.history.acceptedBy && Via(s.history, s.history.acceptedBy[i], i)
  {
    assert InviteOk(s.db, s.history, i);
  }

  lemma JoinsFit(s: Sys)
    requires SysOk(s)
    ensures s.history.joins.Keys <= s.db.members.Keys
  {
    hide MembersOk, InvitesOk, UnitsOk, AllPlaced, Indexed;
  }

  // While every invite has brought in at most one member: a successful insert of an
  // acceptance keeps it that way if and only if the invite's row is still unstamped and
  // no call, under way or stopped, stands between its own insert for this invite and the
  // stamp. The statement itself checks neither.
  lemma AcceptKeepsSingleUseIff(t: Ops, s: Sys, c: nat, env: Env, lost: bool)
    requires SysOk(s) && Accounted(s) && SingleUse(s.history) && c in s.calls && s.calls[c].pc.AcceptInsert?
    requires InsertMember(s.db, Invited(s.calls[c].pc.invite, s.calls[c].pc.user, env)).err == None
    ensures SingleUse(Perform(t, s, c, env, lost).history) <==> !Spent(s, s.calls[c].pc.invite.id)
  {
    hide SysOk, Step, Note, NoteOwner, InsertMember;
    var i := s.calls[c].pc.invite.id;
    InsertRecorded(t, s.db, s.history, c, s.calls[c].pc, env);
    JoinsFit(s);
    SpentHasMember(s, i);
    var h' := Perform(t, s, c, env, lost).history;
    assert Via(h', env.id, i);
    forall k, j ensures Via(h', k, j) <==> Via(s.history, k, j) || (k == env.id && j == i) {}
    if k :| Via(s.history, k, i) {
      assert Via(h', k, i) && k != env.id;
    }
  }

  lemma SpentHasMember(s: Sys, i: Id)
    requires SysOk(s)
    ensures Spent(s, i) ==> exists k :: Via(s.history, k, i)
  {
    if IsAccepted(s.db, i) { AcceptedHasMember(s, i); }
    forall d, k | AboutToStamp(s, d, k, i) ensures Via(s.history, k, i) { ActorFacts(s, d); }
    hide SysOk;
  }

  // ---- The exact condition on a run ----

  // Somebody has come through the invite: it is stamped, or a call stands before the stamp.
  ghost predicate Spent(s: Sys, i: Id) {
    IsAccepted(s.db, i) || exists d, k :: AboutToStamp(s, d, k, i)
  }

  // The event executes a successful insert for an invite that is spent by then.
  ghost predicate Reuses(s: Sys, e: Event) {
    && (e.Advance? || e.LoseAck?) && Live(s, e.call) && s.calls[e.call].pc.AcceptInsert?
    && InsertMember(s.db, Invited(s.calls[e.call].pc.invite, s.calls[e.call].pc.user, e.env)).err == None
    && Spent(s, s.calls[e.call].pc.invite.id)
  }

  lemma FailedInsert(t: Ops, db: Db, pc: Pc, env: Env)
    requires pc.AcceptInsert? && InsertMember(db, Invited(pc.invite, pc.user, env)).err.Some?
    ensures !Step(t, db, pc, env).pc.AcceptMark?
  {}

  // Arrivals are never forgotten, and only a successful insert adds one.
  lemma ViaGrows(t: Ops, s: Sys, c: nat, env: Env, lost: bool, k: Id, i: Id)
    requires SysOk(s) && c in s.calls
    ensures var h', pc := Perform(t, s, c, env, lost).history, s.calls[c].pc;
      && (Via(s.history, k, i) ==> Via(h', k, i))
      && (!(pc.AcceptInsert? && InsertMember(s.db, Invited(pc.invite, pc.user, env)).err == None) ==>
            (Via(h', k, i) ==> Via(s.history, k, i)))
  {
    var pc := s.calls[c].pc;
    ActorFacts(s, c);
    StatementRecorded(t, s.db, s.history, c, pc, env);
    if pc.AcceptInsert? && InsertMember(s.db, Invited(pc.invite, pc.user, env)).err.Some? {
      FailedInsert(t, s.db, pc, env);
    }
    hide SysOk, Indexed, HistoryFits, Step, Note, NoteOwner, InsertMember;
  }

  lemma StatementKeepsSingleUseIff(t: Ops, s: Sys, c: nat, env: Env, lost: bool)
    requires SysOk(s) && Accounted(s) && SingleUse(s.history) && Live(s, c)
    ensures SingleUse(Perform(t, s, c, env, lost).history) <==> !Reuses(s, Advance(c, env))
  {
    hide SysOk, Accounted, Perform, InsertMember, Spent, Via;
    var pc := s.calls[c].pc;
    if pc.AcceptInsert? && InsertMember(s.db, Invited(pc.invite, pc.user, env)).err == None {
      AcceptKeepsSingleUseIff(t, s, c, env, lost);
    } else {
      var h' := Perform(t, s, c, env, lost).history;
      forall k, k', i | Via(h', k, i) && Via(h', k', i) ensures k == k' {
        ViaGrows(t, s, c, env, lost, k, i);
        ViaGrows(t, s, c, env, lost, k', i);
      }
    }
  }

  lemma EventKeepsSingleUseIff(t: Ops, s: Sys, e: Event)
    requires SysOk(s) && Accounted(s)
    ensures SingleUse(Next(t, s, e).history) <==> SingleUse(s.history) && !Reuses(s, e)
  {
    hide SysOk, Accounted, Perform, InsertMember, Spent, Via;
    if (e.Advance? || e.LoseAck?) && Live(s, e.call) {
      var h' := Perform(t, s, e.call, e.env, e.LoseAck?).history;
      if SingleUse(s.history) {
        StatementKeepsSingleUseIff(t, s, e.call, e.env, e.LoseAck?);
      } else if SingleUse(h') {
        forall k, k', i | Via(s.history, k, i) && Via(s.history, k', i) ensures k == k' {
          ViaGrows(t, s, e.call, e.env, e.LoseAck?, k, i);
          ViaGrows(t, s, e.call, e.env, e.LoseAck?, k', i);
        }
      }
    }
  }

  ghost predicate ReusesAt(t: Ops, events: seq<Event>, n: nat)
    requires n < |events|
  {
    Reuses(Run(t, INITIAL, events[..n]), events[n])
  }

  lemma {:induction false} SingleUseUpToIff(t: Ops, events: seq<Event>, n: nat)
    requires n <= |events|
    ensures SingleUse(Run(t, INITIAL, events[..n]).history) <==> forall m: nat | m < n :: !ReusesAt(t, events, m)
  {
    if n > 0 {
      SingleUseUpToIff(t, events, n - 1);
      assert events[..n][..n - 1] == events[..n - 1];
      RunKeeps(t, events[..n - 1]);
      RunAccounts(t, events[..n - 1]);
      assert ReusesAt(t, events, n - 1) == Reuses(Run(t, INITIAL, events[..n - 1]), events[n - 1]);
      hide Next, SysOk, Accounted, Reuses, SingleUse, ReusesAt;
      EventKeepsSingleUseIff(t, Run(t, INITIAL, events[..n - 1]), events[n - 1]);
    }
  }

  // For every schedule: each invite has brought in at most one member, if and only if no
  // acceptance was inserted for an invite that was stamped, or about to be, by then.
  lemma SingleUseIff(t: Ops, events: seq<Event>)
    ensures SingleUse(Run(t, INITIAL, events).history) <==> forall n: nat | n < |events| :: !ReusesAt(t, events, n)
  {
    hide ReusesAt, SingleUse;
    SingleUseUpToIff(t, events, |events|);
    assert events[..|events|] == events;
  }

  // ---- When they do ----

  const PLAIN := Ops(s => s, s => s, s => s)

  function Input(id: Id, token: string): Env {
    Env(id, token, "1", "2", 0, true)
  }

  // Owner o invites; users a and b both find the invite before either is inserted.
  const OVERLAP: seq<Event> := [
    NewUser("o"), NewUser("a"), NewUser("b"),
    Start(0, CreateWorkspace("o", "n")), Advance(0, Input("", "")), Advance(0, Input("w", "")),
      Advance(0, Input("mo", "")),
    Start(1, InviteMember("w", "o", "e", "member")), Advance(1, Input("", "")), Advance(1, Input("", "")),
      Advance(1, Input("i", "t")),
    Start(2, AcceptInvite("t", "a")), Start(3, AcceptInvite("t", "b")), Advance(2, Input("", "")),
      Advance(3, Input("", "")),
    Advance(2, Input("ma", "")), Advance(3, Input("mb", ""))]

  function After(n: nat): Sys
    requires n <= |OVERLAP|
  {
    Run(PLAIN, INITIAL, OVERLAP[..n])
  }

  lemma Performs(n: nat, pc: Pc)
    requires n < |OVERLAP| && OVERLAP[n].Advance? && OVERLAP[n].call in After(n).calls
    requires After(n).calls[OVERLAP[n].call] == Call(pc, None)
    ensures After(n + 1) == Perform(PLAIN, After(n), OVERLAP[n].call, OVERLAP[n].env, false)
  {
    hide Perform;
    assert OVERLAP[..n + 1][..n] == OVERLAP[..n];
  }

  lemma Changes(n: nat)
    requires n < |OVERLAP| && (OVERLAP[n].NewUser? || (OVERLAP[n].Start? && OVERLAP[n].call !in After(n).calls))
    ensures After(n + 1) == match OVERLAP[n]
      case NewUser(u) => After(n).(db := After(n).db.(users := After(n).db.users + {u}))
      case Start(c, req) => After(n).(calls := After(n).calls[c := Call(Begin(req), None)])
  {
    assert OVERLAP[..n + 1][..n] == OVERLAP[..n];
  }

  const WS := Workspace("w", "n", "n-1", "o", 0)
  const OWNER := Member("mo", "w", "o", "owner", "active", 0, None, None)
  const INVITE := Invite("i", "w", "e", "member", "t", INVITE_TTL, None)

  lemma UsersThere()
    ensures After(4) == INITIAL.(db := EMPTY.(users := {"o", "a", "b"}),
      calls := map[0 := Call(Begin(CreateWorkspace("o", "n")), None)])
  {
    assert After(0) == INITIAL;
    hide After;
    Changes(0);
    Changes(1);
    Changes(2);
    Changes(3);
  }

  lemma WorkspaceThere()
    ensures After(6).db == WithWorkspace(EMPTY.(users := {"o", "a", "b"}), WS)
    ensures After(6).calls == map[0 := Call(OwnerInsert(WS), None)] && After(6).history.joins == map[]
  {
    UsersThere();
    hide After;
    Performs(4, Begin(CreateWorkspace("o", "n")));
    Performs(5, WsInsert("o", "n", "n-1"));
  }

  function Owned(): Db {
    WithMember(WithWorkspace(EMPTY.(users := {"o", "a", "b"}), WS), OWNER)
  }

  lemma OwnerSeated()
    ensures After(7).db == Owned() && After(7).calls.Keys == {0}
    ensures After(7).history.joins == map["mo" := Join(After(6).history.tick, None)]
  {
    WorkspaceThere();
    hide After;
    Performs(6, OwnerInsert(WS));
  }

  lemma OwnerThere()
    ensures After(8).db == Owned() && After(8).calls.Keys == {0, 1} && After(8).history.joins.Keys == {"mo"}
    ensures After(8).calls[1] == Call(Begin(InviteMember("w", "o", "e", "member")), None)
  {
    OwnerSeated();
    hide After;
    Changes(7);
  }

  lemma InviterChecked()
    ensures After(9).db == Owned() && After(9).calls.Keys == {0, 1} && After(9).history.joins.Keys == {"mo"}
    ensures After(9).calls[1] == Call(InviteLookup("w", "o", "e", "member"), None)
  {
    OwnerThere();
    hide After;
    Performs(8, Begin(InviteMember("w", "o", "e", "member")));
  }

  lemma InviteChecked()
    ensures After(10).db == Owned() && After(10).calls.Keys == {0, 1} && After(10).history.joins.Keys == {"mo"}
    ensures After(10).calls[1] == Call(InviteInsert("w", "o", "e", "member"), None)
  {
    InviterChecked();
    hide After;
    Performs(9, InviteLookup("w", "o", "e", "member"));
  }

  lemma InvitationOut()
    ensures After(11).db == WithInvite(Owned(), INVITE) && After(11).calls.Keys == {0, 1}
    ensures After(11).history.joins.Keys == {"mo"}
  {
    InviteChecked();
    hide After;
    Performs(10, InviteInsert("w", "o", "e", "member"));
  }

  lemma BothAsk()
    ensures After(13).db == WithInvite(Owned(), INVITE) && After(13).calls.Keys == {0, 1, 2, 3}
    ensures After(13).calls[2] == Call(Begin(AcceptInvite("t", "a")), None)
      && After(13).calls[3] == Call(Begin(AcceptInvite("t", "b")), None)
    ensures After(13).history.joins.Keys == {"mo"}
  {
    InvitationOut();
    hide After;
    Changes(11);
    Changes(12);
  }

  lemma BothFound()
    ensures After(15).db == WithInvite(Owned(), INVITE) && After(15).calls.Keys == {0, 1, 2, 3}
    ensures After(15).calls[2] == Call(AcceptInsert(INVITE, "a"), None)
      && After(15).calls[3] == Call(AcceptInsert(INVITE, "b"), None)
    ensures After(15).history.joins.Keys == {"mo"}
  {
    BothAsk();
    hide After;
    Performs(13, Begin(AcceptInvite("t", "a")));
    Performs(14, Begin(AcceptInvite("t", "b")));
  }

  lemma FirstIn()
    ensures After(16).db == WithMember(WithInvite(Owned(), INVITE), Invited(INVITE, "a", Input("ma", "")))
    ensures After(16).calls.Keys == {0, 1, 2, 3} && After(16).calls[3] == Call(AcceptInsert(INVITE, "b"), None)
    ensures "ma" in After(16).history.joins && After(16).history.joins["ma"].via == Some("i")
  {
    BothFound();
    hide After;
    Performs(15, AcceptInsert(INVITE, "a"));
  }

  lemma SecondIn()
    ensures After(17).db == WithMember(After(16).db, Invited(INVITE, "b", Input("mb", "")))
    ensures var joins := After(17).history.joins;
      "ma" in joins && "mb" in joins && joins["ma"].via == Some("i") == joins["mb"].via
  {
    FirstIn();
    hide After;
    Performs(16, AcceptInsert(INVITE, "b"));
  }

  // One invite, two members: both calls found it before either stamped it.
  lemma OverlapUsesInviteTwice()
    ensures var s := Run(PLAIN, INITIAL, OVERLAP);
      && "ma" in s.db.members && s.db.members["ma"].userId == "a" && "mb" in s.db.members
         && s.db.members["mb"].userId == "b"
      && "ma" in s.history.joins && "mb" in s.history.joins
      && s.history.joins["ma"].via == Some("i") == s.history.joins["mb"].via
  {
    assert OVERLAP[..17] == OVERLAP && After(17) == Run(PLAIN, INITIAL, OVERLAP);
    FirstIn();
    SecondIn();
    hide After, Run;
  }
}
