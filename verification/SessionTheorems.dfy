// What holds over every run of the session machine, and what holds when the calls do
// not overlap.
module SessionTheorems {
  import opened Common
  import opened SessionTables
  import opened SessionCalls
  import opened SessionSystem

  // ---- Invariants of every interleaving ----

  // A login session of this user.
  predicate OwnLogin(db: Db, sid: string, user: Id) {
    sid != "" ==> sid in db.logins && db.logins[sid].subject == user
  }

  predicate IsRevoked(db: Db, sid: string) {
    sid in db.logins && db.logins[sid].revoked
  }

  predicate Granted(db: Db, consent: ConsentRequest) {
    consent.trusted && consent.subject != "" && OwnLogin(db, consent.loginSessionId, consent.subject)
  }

  // A row stands for a consent that came from a trusted client, named the row's user
  // and login session, and was accepted in Hydra.
  predicate RowOk(db: Db, h: History, id: Id)
    requires id in db.rows
  {
    var s := db.rows[id];
    && s.id == id && OwnLogin(db, s.hydraSessionId, s.userId)
    && id in h.origins && h.origins[id].0 in db.accepted
    && h.origins[id].1 == ConsentRequest(s.userId, s.hydraSessionId, true) && s.userId != ""
  }

  // A login session that already existed at some time and belongs to the user.
  predicate Before(db: Db, h: History, sid: string, user: Id, when: nat) {
    sid in db.logins && db.logins[sid].subject == user && sid in h.loggedIn && h.loggedIn[sid] < when
  }

  ghost predicate PcOk(db: Db, h: History, c: nat, pc: Pc) {
    match pc
    case TermRevoke(id, sid) => sid != "" && id in db.rows && db.rows[id].hydraSessionId == sid
    case TermMark(id) => id in db.rows
      && (db.rows[id].hydraSessionId != "" ==> IsRevoked(db, db.rows[id].hydraSessionId))
    case AllMark(user) =>
      && c in h.revokedAll && h.revokedAll[c] < h.tick
      && forall sid {:trigger Before(db, h, sid, user, h.revokedAll[c])} | Before(db, h, sid, user, h.revokedAll[c]) ::
         IsRevoked(db, sid)
    case ConsentAccept(_, consent, _, _) => Granted(db, consent)
    case ConsentRecord(challenge, consent, _, _) => Granted(db, consent) && challenge in db.accepted
    case _ => true
  }

  ghost predicate LoginsOk(db: Db, h: History) {
    forall sid {:trigger db.logins[sid]} | sid in db.logins ::
      sid != "" && sid in h.loggedIn && h.loggedIn[sid] < h.tick
  }

  ghost predicate DbOk(db: Db, h: History) {
    && (forall id {:trigger RowOk(db, h, id)} | id in db.rows :: RowOk(db, h, id))
    && LoginsOk(db, h)
    && db.rows == Replay(h.log) && Ordered(h.log)
  }

  ghost predicate CallOk(s: Sys, c: nat)
    requires c in s.calls
  {
    PcOk(s.db, s.history, c, s.calls[c].pc)
  }

  ghost predicate SysOk(s: Sys) {
    DbOk(s.db, s.history) && forall c {:trigger CallOk(s, c)} | c in s.calls :: CallOk(s, c)
  }

  // ---- The log and the table ----

  function Replay(log: seq<Entry>): map<Id, Session> {
    if log == [] then map[]
    else
      var before := Replay(log[..|log| - 1]);
      match log[|log| - 1]
      case Recorded(s) => before[s.id := s]
      case EndStatement(target, now) => map id | id in before :: Ended(target, before[id], now)
  }

  // Every insert met an unused id.
  predicate Ordered(log: seq<Entry>) {
    log == [] ||
    var n := |log| - 1;
    Ordered(log[..n]) && (log[n].Recorded? ==> log[n].session.id !in Replay(log[..n]) && log[n].session.endedAt == None)
  }

  // The time of the first end statement in the log that matches the session.
  function FirstEnd(log: seq<Entry>, s: Session): Option<Time> {
    if log == [] then None
    else
      var n := |log| - 1;
      var earlier := FirstEnd(log[..n], s);
      if earlier.Some? then earlier
      else if log[n].EndStatement? && Matches(log[n].target, s) then Some(log[n].now) else None
  }

  ghost predicate RecordedAt(log: seq<Entry>, p: nat, id: Id, row: Session) {
    && p < |log| && log[p].Recorded? && log[p].session.id == id && log[p].session.endedAt == None
    && row == log[p].session.(endedAt := FirstEnd(log[p + 1..], log[p].session))
  }

  lemma FirstEndStep(log: seq<Entry>, p: nat, s: Session)
    requires p < |log| - 1
    ensures var n := |log| - 1;
      var earlier := FirstEnd(log[..n][p + 1..], s);
      FirstEnd(log[p + 1..], s) ==
        if earlier.Some? then earlier
        else if log[n].EndStatement? && Matches(log[n].target, s) then Some(log[n].now) else None
  {
    var tail := log[p + 1..];
    assert tail[..|tail| - 1] == log[..|log| - 1][p + 1..] && tail[|tail| - 1] == log[|log| - 1];
    hide Matches;
  }

  // The last entry does to a row what it does to the time of the first end.
  lemma RecordedStep(log: seq<Entry>, p: nat, id: Id, row: Session)
    requires p < |log| - 1 && RecordedAt(log[..|log| - 1], p, id, row)
    ensures var e := log[|log| - 1];
      RecordedAt(log, p, id, if e.EndStatement? then Ended(e.target, row, e.now) else row)
  {
    FirstEndStep(log, p, log[p].session);
    hide FirstEnd;
  }

  lemma {:induction false} ReplayIsFirstEnd(log: seq<Entry>, id: Id)
    requires Ordered(log) && id in Replay(log)
    ensures exists p: nat :: RecordedAt(log, p, id, Replay(log)[id])
  {
    var n := |log| - 1;
    if log[n].Recorded? && log[n].session.id == id {
      assert log[n + 1..] == [];
      assert RecordedAt(log, n, id, Replay(log)[id]);
    } else {
      hide RecordedAt, Ended;
      ReplayIsFirstEnd(log[..n], id);
      var p: nat :| RecordedAt(log[..n], p, id, Replay(log[..n])[id]);
      assert p < n by { RecordedInside(log[..n], p, id, Replay(log[..n])[id]); }
      RecordedStep(log, p, id, Replay(log[..n])[id]);
    }
  }

  lemma RecordedInside(log: seq<Entry>, p: nat, id: Id, row: Session)
    requires RecordedAt(log, p, id, row)
    ensures p < |log|
  {}

  lemma {:induction false} FirstEndIsNone(log: seq<Entry>, s: Session)
    ensures FirstEnd(log, s) == None <==> forall e | e in log :: !(e.EndStatement? && Matches(e.target, s))
  {
    if log != [] {
      var n := |log| - 1;
      FirstEndIsNone(log[..n], s);
      assert forall e :: e in log <==> e in log[..n] || e == log[n];
    }
  }

  lemma {:induction false} RecordsAreUnique(log: seq<Entry>, p: nat, q: nat)
    requires Ordered(log) && p < |log| && q < |log| && log[p].Recorded? && log[q].Recorded?
      && log[p].session.id == log[q].session.id
    ensures p == q
  {
    var n := |log| - 1;
    if p < n && q < n {
      RecordsAreUnique(log[..n], p, q);
    } else if p < n {
      ReplayHolds(log[..n], p);
    } else if q < n {
      ReplayHolds(log[..n], q);
    }
  }

  lemma {:induction false} ReplayHolds(log: seq<Entry>, p: nat)
    requires p < |log| && log[p].Recorded?
    ensures log[p].session.id in Replay(log)
  {
    if p < |log| - 1 { ReplayHolds(log[..|log| - 1], p); }
  }

  // ---- Preservation ----

  // What any event leaves alone: the rely condition of a waiting call.
  ghost predicate Grows(db: Db, h: History, db': Db, h': History) {
    && h.tick <= h'.tick && db.accepted <= db'.accepted
    && (forall id {:trigger db.rows[id]} {:trigger db'.rows[id]} | id in db.rows ::
          id in db'.rows && db'.rows[id] == db.rows[id].(endedAt := db'.rows[id].endedAt)
          && (db.rows[id].endedAt.Some? ==> db'.rows[id] == db.rows[id]))
    && (forall sid {:trigger db.logins[sid]} {:trigger db'.logins[sid]} | sid in db.logins ::
          sid in db'.logins && db'.logins[sid].subject == db.logins[sid].subject
            && (db.logins[sid].revoked ==> db'.logins[sid].revoked))
    && (forall id {:trigger h'.origins[id]} {:trigger h.origins[id]} | id in db.rows && id in h.origins ::
       id in h'.origins && h'.origins[id] == h.origins[id])
  }

  // Logins keep their time of creation; new ones get the current tick.
  ghost predicate ClockOk(db: Db, h: History, db': Db, h': History, c: nat) {
    && (forall sid {:trigger h'.loggedIn[sid]} | sid in db'.logins && sid in h'.loggedIn ::
          (sid in db.logins && sid in h.loggedIn && h'.loggedIn[sid] == h.loggedIn[sid]) || h'.loggedIn[sid] == h.tick)
    && (forall d {:trigger h'.revokedAll[d]} {:trigger h.revokedAll[d]} | d in h.revokedAll && d != c ::
       d in h'.revokedAll && h'.revokedAll[d] == h.revokedAll[d])
  }

  lemma PcStable(db: Db, h: History, db': Db, h': History, c: nat, d: nat, pc: Pc)
    requires PcOk(db, h, d, pc) && Grows(db, h, db', h') && ClockOk(db, h, db', h', c) && c != d
    ensures PcOk(db', h', d, pc)
  {
    if pc.AllMark? {
      forall sid | Before(db', h', sid, pc.user, h'.revokedAll[d]) ensures IsRevoked(db', sid) {
        assert Before(db, h, sid, pc.user, h.revokedAll[d]);
      }
    }
  }

  lemma RowStable(db: Db, h: History, db': Db, h': History, id: Id)
    requires id in db.rows && RowOk(db, h, id) && Grows(db, h, db', h')
    ensures id in db'.rows && RowOk(db', h', id)
  {}

  // The guarantee of one statement.
  ghost predicate Kept(db: Db, h: History, db': Db, h': History, c: nat, pc': Pc) {
    DbOk(db', h') && Grows(db, h, db', h') && ClockOk(db, h, db', h', c) && PcOk(db', h', c, pc')
  }

  ghost predicate StepKept(db: Db, h: History, c: nat, pc: Pc, env: Env) {
    var turn := Step(db, pc, env);
    Kept(db, h, turn.db, Note(h, c, db, pc, env), c, turn.pc)
  }

  // The table unchanged, Hydra's side only moved forward.
  lemma RowsStayOk(db: Db, h: History, db': Db, h': History)
    requires DbOk(db, h) && Grows(db, h, db', h') && LoginsOk(db', h')
    requires db'.rows == db.rows && h'.log == h.log
    ensures DbOk(db', h')
  {
    hide RowOk, Grows, LoginsOk, Ordered, Replay;
    forall id | id in db'.rows ensures RowOk(db', h', id) {
      assert RowOk(db, h, id);
      RowStable(db, h, db', h', id);
    }
  }

  lemma TickKeeps(db: Db, h: History)
    requires DbOk(db, h)
    ensures var h' := h.(tick := h.tick + 1);
      DbOk(db, h') && Grows(db, h, db, h')
  {
    hide Replay, Ordered;
    RowsStayOk(db, h, db, h.(tick := h.tick + 1));
  }

  lemma RevokeOneKeeps(db: Db, h: History, c: nat, pc: Pc, env: Env)
    requires DbOk(db, h) && PcOk(db, h, c, pc) && pc.TermRevoke?
    ensures StepKept(db, h, c, pc, env)
  {
    assert RowOk(db, h, pc.session);
    hide RowOk, Ordered, Replay;
    RowsStayOk(db, h, Step(db, pc, env).db, Note(h, c, db, pc, env));
  }

  lemma RevokeAllKeeps(db: Db, h: History, c: nat, pc: Pc, env: Env)
    requires DbOk(db, h) && pc.Begin? && pc.req.TerminateAll?
    ensures StepKept(db, h, c, pc, env)
  {
    hide RowOk, Ordered, Replay;
    RowsStayOk(db, h, Step(db, pc, env).db, Note(h, c, db, pc, env));
  }

  lemma DecisionKeeps(db: Db, h: History, c: nat, pc: Pc, env: Env)
    requires DbOk(db, h) && PcOk(db, h, c, pc) && (pc.ConsentReject? || pc.ConsentAccept?)
    ensures StepKept(db, h, c, pc, env)
  {
    hide RowOk, Ordered, Replay;
    RowsStayOk(db, h, Step(db, pc, env).db, Note(h, c, db, pc, env));
  }

  lemma ReadKeeps(db: Db, h: History, c: nat, pc: Pc, env: Env)
    requires DbOk(db, h) && PcOk(db, h, c, pc)
    requires (pc.Begin? && (pc.req.Terminate? || pc.req.Consent?)) || Remaining(pc) == 0
    requires pc.Begin? && pc.req.Consent? ==> OwnLogin(db, env.consent.loginSessionId, env.consent.subject)
    ensures StepKept(db, h, c, pc, env)
  {
    hide DbOk, Grows;
    TickKeeps(db, h);
  }

  lemma EndReplays(db: Db, h: History, target: Target, now: Time)
    requires db.rows == Replay(h.log) && Ordered(h.log)
    ensures var log := h.log + [EndStatement(target, now)];
      MarkEnded(db, target, now).rows == Replay(log) && Ordered(log)
  {
    hide Ordered;
    var log := h.log + [EndStatement(target, now)];
    assert log[..|h.log|] == h.log;
    OrderedStep(h.log, EndStatement(target, now));
  }

  lemma EndKeeps(db: Db, h: History, c: nat, target: Target, now: Time)
    requires DbOk(db, h)
    ensures var h' := h.(tick := h.tick + 1, log := h.log + [EndStatement(target, now)]);
      Kept(db, h, MarkEnded(db, target, now), h', c, TermEnd)
  {
    hide Ordered, Replay;
    var db' := MarkEnded(db, target, now);
    var h' := h.(tick := h.tick + 1, log := h.log + [EndStatement(target, now)]);
    EndReplays(db, h, target, now);
    forall id | id in db'.rows ensures RowOk(db', h', id) {
      assert RowOk(db, h, id);
      hide DbOk;
    }
  }

  lemma OrderedStep(log: seq<Entry>, e: Entry)
    requires Ordered(log) && (e.Recorded? ==> e.session.id !in Replay(log) && e.session.endedAt == None)
    ensures Ordered(log + [e])
  {
    assert (log + [e])[..|log|] == log;
  }

  lemma InsertReplays(db: Db, h: History, s: Session)
    requires db.rows == Replay(h.log) && Ordered(h.log) && s.id !in db.rows && s.endedAt == None
    ensures var log := h.log + [Recorded(s)]; db.rows[s.id := s] == Replay(log) && Ordered(log)
  {
    hide Ordered;
    var log := h.log + [Recorded(s)];
    assert log[..|h.log|] == h.log;
    OrderedStep(h.log, Recorded(s));
  }

  lemma InsertKeeps(db: Db, h: History, s: Session, challenge: string, consent: ConsentRequest)
    requires DbOk(db, h) && Granted(db, consent) && challenge in db.accepted && InsertSession(db, s).err == None
    requires s.userId == consent.subject && s.hydraSessionId == consent.loginSessionId && s.endedAt == None
    ensures var h' := h.(tick := h.tick + 1, log := h.log + [Recorded(s)],
      origins := h.origins[s.id := (challenge, consent)]);
      DbOk(InsertSession(db, s).db, h') && Grows(db, h, InsertSession(db, s).db, h')
  {
    hide Ordered, Replay;
    var db' := InsertSession(db, s).db;
    var h' := h.(tick := h.tick + 1, log := h.log + [Recorded(s)], origins := h.origins[s.id := (challenge, consent)]);
    InsertReplays(db, h, s);
    assert db'.rows == db.rows[s.id := s];
    forall id | id in db'.rows ensures RowOk(db', h', id) {
      if id in db.rows { assert RowOk(db, h, id); }
      hide DbOk;
    }
  }

  lemma RecordKeeps(db: Db, h: History, c: nat, pc: Pc, env: Env)
    requires DbOk(db, h) && PcOk(db, h, c, pc) && pc.ConsentRecord?
    ensures StepKept(db, h, c, pc, env)
  {
    hide DbOk, Grows, Replay;
    var s := NewSession(pc.consent, pc.userAgent, pc.ip, env);
    if InsertSession(db, s).err == None {
      InsertKeeps(db, h, s, pc.challenge, pc.consent);
    } else {
      TickKeeps(db, h);
    }
  }

  lemma StatementKeeps(s: Sys, c: nat, env: Env)
    requires c in s.calls && Allowed(s, c, env)
    requires DbOk(s.db, s.history) && PcOk(s.db, s.history, c, s.calls[c].pc)
    ensures StepKept(s.db, s.history, c, s.calls[c].pc, env)
  {
    var db, h, pc := s.db, s.history, s.calls[c].pc;
    match pc
    case Begin(req) =>
      if req.TerminateAll? {
        RevokeAllKeeps(db, h, c, pc, env);
      } else if req.EndBySid? {
        EndKeeps(db, h, c, BySid(req.sid), env.now);
      } else {
        ReadKeeps(db, h, c, pc, env);
      }
      hide DbOk, Grows, ClockOk;
    case TermMark(id) => EndKeeps(db, h, c, ById(id), env.now); hide DbOk, Grows, ClockOk;
    case AllMark(user) => EndKeeps(db, h, c, ByUser(user), env.now); hide DbOk, Grows, ClockOk;
    case TermRevoke(_, _) => RevokeOneKeeps(db, h, c, pc, env); hide StepKept;
    case ConsentReject(_) => DecisionKeeps(db, h, c, pc, env); hide StepKept;
    case ConsentAccept(_, _, _, _) => DecisionKeeps(db, h, c, pc, env); hide StepKept;
    case ConsentRecord(_, _, _, _) => RecordKeeps(db, h, c, pc, env); hide StepKept;
    case _ => ReadKeeps(db, h, c, pc, env); hide StepKept;
  }

  lemma PerformKeeps(s: Sys, c: nat, env: Env, lost: bool)
    requires SysOk(s) && Live(s, c) && Allowed(s, c, env)
    ensures SysOk(Perform(s, c, env, lost))
    ensures Grows(s.db, s.history, Perform(s, c, env, lost).db, Perform(s, c, env, lost).history)
  {
    hide DbOk, PcOk, Grows, ClockOk, Step, Note, Allowed;
    var s' := Perform(s, c, env, lost);
    assert CallOk(s, c);
    StatementKeeps(s, c, env);
    forall d | d in s'.calls ensures CallOk(s', d) {
      assert CallOk(s, d);
      if d != c { PcStable(s.db, s.history, s'.db, s'.history, c, d, s.calls[d].pc); }
    }
  }

  lemma NextKeeps(s: Sys, e: Event)
    requires SysOk(s)
    ensures SysOk(Next(s, e))
    ensures Grows(s.db, s.history, Next(s, e).db, Next(s, e).history)
  {
    match e
    case NewUser(u) => QuietKeeps(s, Next(s, e));
    case Login(sid, subject) => LoginKeeps(s, sid, subject);
    case Start(c, req) =>
      forall d | d in Next(s, e).calls ensures CallOk(Next(s, e), d) {
        if d in s.calls { assert CallOk(s, d); }
        hide DbOk;
      }
      hide DbOk;
    case Advance(c, env) => {
      if Live(s, c) && Allowed(s, c, env) { PerformKeeps(s, c, env, false); }
      hide SysOk, Perform, Allowed;
    }
    case LoseAck(c, env) => {
      if Live(s, c) && Allowed(s, c, env) { PerformKeeps(s, c, env, true); }
      hide SysOk, Perform, Allowed;
    }
    case Fail(c) =>
      forall d | d in Next(s, e).calls ensures CallOk(Next(s, e), d) {
        assert CallOk(s, d);
        hide DbOk;
      }
      hide DbOk;
  }

  lemma QuietKeeps(s: Sys, s': Sys)
    requires SysOk(s) && s'.calls == s.calls && s'.history == s.history && s'.db == s.db.(users := s'.db.users)
    ensures SysOk(s') && Grows(s.db, s.history, s'.db, s'.history)
  {
    forall d | d in s'.calls ensures CallOk(s', d) {
      assert CallOk(s, d);
      PcStable(s.db, s.history, s'.db, s'.history, d + 1, d, s.calls[d].pc);
    }
    RowsStayOk(s.db, s.history, s'.db, s'.history);
  }

  lemma LoginKeeps(s: Sys, sid: string, subject: Id)
    requires SysOk(s)
    ensures var s' := Next(s, Event.Login(sid, subject));
      SysOk(s') && Grows(s.db, s.history, s'.db, s'.history)
  {
    hide RowOk, Ordered, Replay;
    var s' := Next(s, Event.Login(sid, subject));
    forall d | d in s'.calls ensures CallOk(s', d) {
      assert CallOk(s, d);
      PcStable(s.db, s.history, s'.db, s'.history, d + 1, d, s.calls[d].pc);
      hide PcOk, SysOk;
    }
    RowsStayOk(s.db, s.history, s'.db, s'.history);
  }

  lemma {:induction false} RunKeeps(events: seq<Event>)
    ensures SysOk(Run(INITIAL, events))
  {
    if events != [] {
      hide SysOk, Next;
      RunKeeps(events[..|events| - 1]);
      NextKeeps(Run(INITIAL, events[..|events| - 1]), events[|events| - 1]);
    } else {
      assert Replay([]) == map[];
    }
  }

  // ---- Every interleaving ----

  // A session row exists only for a consent of a trusted client with a subject, after
  // Hydra accepted it; the row's user and sid are the consent's, and the sid's login
  // session belongs to that user.
  lemma SessionsComeFromAcceptedConsents(events: seq<Event>, id: Id)
    ensures var s := Run(INITIAL, events);
      id in s.db.rows ==>
        var row := s.db.rows[id];
        && id in s.history.origins && s.history.origins[id].0 in s.db.accepted
        && s.history.origins[id].1 == ConsentRequest(row.userId, row.hydraSessionId, true) && row.userId != ""
        && (row.hydraSessionId != "" ==>
              row.hydraSessionId in s.db.logins && s.db.logins[row.hydraSessionId].subject == row.userId)
  {
    RunKeeps(events);
    hide Run, Replay, Ordered;
    var s := Run(INITIAL, events);
    if id in s.db.rows { assert RowOk(s.db, s.history, id); }
  }

  lemma {:induction false} RunGrows(s: Sys, events: seq<Event>)
    requires SysOk(s)
    ensures SysOk(Run(s, events))
    ensures Grows(s.db, s.history, Run(s, events).db, Run(s, events).history)
  {
    if events != [] {
      var before := Run(s, events[..|events| - 1]);
      RunGrows(s, events[..|events| - 1]);
      NextKeeps(before, events[|events| - 1]);
      hide SysOk, Next;
    }
  }

  // Ending is write-once: from any reachable state on, a row keeps every column, and
  // its end time once set, whatever end statements and consents run.
  lemma EndingIsWriteOnce(events: seq<Event>, more: seq<Event>, id: Id)
    ensures var early := Run(INITIAL, events).db.rows;
      var late := Run(Run(INITIAL, events), more).db.rows;
      id in early ==>
        && id in late && late[id] == early[id].(endedAt := late[id].endedAt)
        && (early[id].endedAt.Some? ==> late[id].endedAt == early[id].endedAt)
  {
    RunKeeps(events);
    RunGrows(Run(INITIAL, events), more);
    hide Run, SysOk;
  }

  // The end time of a row is the time of the first end statement, of whichever kind,
  // that matched it after it was recorded; no such statement, no end.
  lemma EndTimeIsFirstMatch(events: seq<Event>, id: Id)
    ensures var s := Run(INITIAL, events);
      id in s.db.rows ==> exists p: nat :: RecordedAt(s.history.log, p, id, s.db.rows[id])
  {
    RunKeeps(events);
    hide Run, Replay, Ordered, RowOk;
    var s := Run(INITIAL, events);
    if id in s.db.rows { ReplayIsFirstEnd(s.history.log, id); }
  }

  // Recorded for the user at position p, and matched by no end statement since.
  ghost predicate StillOpen(log: seq<Entry>, p: nat, id: Id, user: Id) {
    && p < |log| && log[p].Recorded? && log[p].session.id == id && log[p].session.userId == user
    && forall e | e in log[p + 1..] :: !(e.EndStatement? && Matches(e.target, log[p].session))
  }

  // The active list of a user is exactly the rows recorded for that user that no end
  // statement has matched since.
  lemma ActiveIffNeverMatched(events: seq<Event>, user: Id, id: Id)
    ensures var s := Run(INITIAL, events);
      id in ActiveIds(s.db, user) <==> exists p: nat :: StillOpen(s.history.log, p, id, user)
  {
    RunKeeps(events);
    var s := Run(INITIAL, events);
    var log := s.history.log;
    EndTimeIsFirstMatch(events, id);
    hide Run, Replay, Ordered, RowOk, FirstEnd;
    if id in ActiveIds(s.db, user) {
      var p: nat :| RecordedAt(log, p, id, s.db.rows[id]);
      FirstEndIsNone(log[p + 1..], log[p].session);
      assert StillOpen(log, p, id, user);
    }
    if p: nat :| StillOpen(log, p, id, user) {
      ReplayHolds(log, p);
      var q: nat :| RecordedAt(log, q, id, s.db.rows[id]);
      RecordsAreUnique(log, p, q);
      FirstEndIsNone(log[p + 1..], log[p].session);
    }
  }
}
