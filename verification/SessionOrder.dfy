// Hydra first, then the local row: when does a locally ended session imply a revoked
// login session?
module SessionOrder {
  import opened Common
  import opened SessionTables
  import opened SessionCalls
  import opened SessionSystem
  import opened SessionTheorems

  // Every locally ended row with a non-empty sid is revoked in Hydra.
  ghost predicate Order(db: Db) {
    forall id {:trigger db.rows[id]} | id in db.rows ::
      db.rows[id].endedAt.Some? && db.rows[id].hydraSessionId != "" ==> IsRevoked(db, db.rows[id].hydraSessionId)
  }

  // ---- The exact condition on one TerminateAll ----

  // An active row whose login session is newer than the call's revocation.
  predicate Newcomer(s: Sys, c: nat, user: Id, id: Id) {
    && c in s.history.revokedAll && id in ActiveIds(s.db, user) && s.db.rows[id].hydraSessionId != ""
    && var sid := s.db.rows[id].hydraSessionId;
       sid in s.history.loggedIn && s.history.revokedAll[c] <= s.history.loggedIn[sid] && !IsRevoked(s.db, sid)
  }

  // In a state in which the order holds, the second step of TerminateAll keeps it if and
  // only if it meets no newcomer.
  lemma MarkAllKeepsOrderIff(s: Sys, c: nat, user: Id, now: Time)
    requires SysOk(s) && Order(s.db) && c in s.calls && s.calls[c].pc == AllMark(user)
    ensures Order(MarkEnded(s.db, ByUser(user), now)) <==> !exists id :: Newcomer(s, c, user, id)
  {
    hide Replay, Ordered;
    var db' := MarkEnded(s.db, ByUser(user), now);
    assert CallOk(s, c);
    forall id | id in s.db.rows && db'.rows[id].endedAt.Some? && db'.rows[id].hydraSessionId != ""
                && !IsRevoked(db', db'.rows[id].hydraSessionId)
      ensures Newcomer(s, c, user, id)
    {
      var sid := s.db.rows[id].hydraSessionId;
      assert RowOk(s.db, s.history, id);
      assert sid in s.db.logins && s.db.logins[sid] == db'.logins[sid];
      assert !Before(s.db, s.history, sid, user, s.history.revokedAll[c]);
    }
    if id :| Newcomer(s, c, user, id) {
      assert db'.rows[id].endedAt.Some?;
    }
  }

  // ---- The exact condition on a run ----

  // The event executes the second step of a TerminateAll, and since the first step a
  // new login of that user, not revoked by now, has got a row.
  ghost predicate MarksNewcomer(s: Sys, e: Event) {
    && (e.Advance? || e.LoseAck?) && Live(s, e.call) && s.calls[e.call].pc.AllMark?
    && exists id :: Newcomer(s, e.call, s.calls[e.call].pc.user, id)
  }

  // No use case ends rows by sid alone.
  predicate FromUseCases(events: seq<Event>) {
    forall e | e in events :: e.Start? ==> !e.req.EndBySid?
  }

  ghost predicate NoSidCalls(s: Sys) {
    forall c {:trigger s.calls[c]} | c in s.calls && s.calls[c].pc.Begin? :: !s.calls[c].pc.req.EndBySid?
  }

  lemma BeginsStay(db: Db, pc: Pc, env: Env)
    ensures Step(db, pc, env).pc.Begin? ==> Step(db, pc, env).pc == pc
  {}

  lemma NoSidCallsNext(s: Sys, e: Event)
    requires NoSidCalls(s) && (e.Start? ==> !e.req.EndBySid?)
    ensures NoSidCalls(Next(s, e))
  {
    if (e.Advance? || e.LoseAck?) && Live(s, e.call) { BeginsStay(s.db, s.calls[e.call].pc, e.env); }
    hide Step, Note, Allowed;
  }

  lemma StatementKeepsOrderIff(s: Sys, c: nat, env: Env)
    requires SysOk(s) && Order(s.db) && NoSidCalls(s) && Live(s, c)
    ensures Order(Step(s.db, s.calls[c].pc, env).db) <==>
      !(s.calls[c].pc.AllMark? && exists id :: Newcomer(s, c, s.calls[c].pc.user, id))
  {
    var pc := s.calls[c].pc;
    assert CallOk(s, c);
    if pc.TermMark? {
      MarkKeepsOrder(s, ById(pc.session), env.now);
    } else if pc.AllMark? {
      MarkAllKeepsOrderIff(s, c, pc.user, env.now);
    } else {
      HydraStepKeepsOrder(s, c, env);
    }
    hide SysOk, CallOk, Order, MarkEnded, Newcomer;
  }

  lemma EventKeepsOrderIff(s: Sys, e: Event)
    requires SysOk(s) && Order(s.db) && NoSidCalls(s)
    ensures Order(Next(s, e).db) <==> !MarksNewcomer(s, e)
  {
    if (e.Advance? || e.LoseAck?) && Live(s, e.call) {
      StatementKeepsOrderIff(s, e.call, e.env);
      if s.calls[e.call].pc.AllMark? { assert Allowed(s, e.call, e.env); }
      hide SysOk, Order, Newcomer, Step, Note, NoSidCalls, Allowed;
    } else {
      hide SysOk, Newcomer, NoSidCalls;
    }
  }

  ghost predicate OrderAfter(events: seq<Event>, n: nat)
    requires n <= |events|
  {
    Order(Run(INITIAL, events[..n]).db)
  }

  ghost predicate MarksNewcomerAt(events: seq<Event>, n: nat)
    requires n < |events|
  {
    MarksNewcomer(Run(INITIAL, events[..n]), events[n])
  }

  lemma {:induction false} NoSidCallsAfter(events: seq<Event>, n: nat)
    requires FromUseCases(events) && n <= |events|
    ensures NoSidCalls(Run(INITIAL, events[..n]))
  {
    if n > 0 {
      hide Next, NoSidCalls;
      assert events[..n][..n - 1] == events[..n - 1];
      NoSidCallsAfter(events, n - 1);
      assert events[n - 1] in events;
      NoSidCallsNext(Run(INITIAL, events[..n - 1]), events[n - 1]);
    } else {
      assert NoSidCalls(INITIAL);
    }
  }

  lemma OrderAfterNext(events: seq<Event>, n: nat)
    requires FromUseCases(events) && n < |events| && OrderAfter(events, n)
    ensures OrderAfter(events, n + 1) <==> !MarksNewcomerAt(events, n)
  {
    hide Next, Order, MarksNewcomer, SysOk, NoSidCalls;
    assert events[..n + 1][..n] == events[..n];
    RunKeeps(events[..n]);
    NoSidCallsAfter(events, n);
    EventKeepsOrderIff(Run(INITIAL, events[..n]), events[n]);
  }

  lemma {:induction false} OrderUpToIff(events: seq<Event>, n: nat)
    requires FromUseCases(events) && n <= |events|
    ensures (forall m: nat | m <= n :: OrderAfter(events, m)) <==>
      (forall m: nat | m < n :: !MarksNewcomerAt(events, m))
  {
    if n == 0 {
      assert OrderAfter(events, 0);
    } else {
      hide OrderAfter, MarksNewcomerAt;
      OrderUpToIff(events, n - 1);
      if forall m: nat | m <= n - 1 :: OrderAfter(events, m) { OrderAfterNext(events, n - 1); }
    }
  }

  // For every schedule of terminations, consents and logins, failing or stopping
  // anywhere: at every moment every locally ended row with a sid is revoked in Hydra, if
  // and only if no TerminateAll executes its second step over a newcomer.
  lemma OrderThroughoutIff(events: seq<Event>)
    requires FromUseCases(events)
    ensures (forall n: nat | n <= |events| :: OrderAfter(events, n)) <==>
      (forall n: nat | n < |events| :: !MarksNewcomerAt(events, n))
  {
    OrderUpToIff(events, |events|);
  }

  // ---- Runs in which no such login happens ----

  // A login of the user while one of that user's TerminateAll calls waits between its
  // steps is what can break the order; so can the bare end-by-sid statement.
  predicate Calm(s: Sys, e: Event) {
    && (e.Start? ==> !e.req.EndBySid?)
    && (e.Login? ==> forall c | c in s.calls && s.calls[c].reply == None :: s.calls[c].pc != AllMark(e.subject))
  }

  ghost predicate Covered(s: Sys) {
    && (forall c, sid {:trigger s.calls[c], s.db.logins[sid]} | c in s.calls && s.calls[c].reply == None
       && s.calls[c].pc.AllMark? && sid in s.db.logins ::
          s.db.logins[sid].subject == s.calls[c].pc.user ==> s.db.logins[sid].revoked)
    && (forall c {:trigger s.calls[c]} | c in s.calls && s.calls[c].pc.Begin? :: !s.calls[c].pc.req.EndBySid?)
  }

  lemma MarkKeepsOrder(s: Sys, target: Target, now: Time)
    requires DbOk(s.db, s.history) && Order(s.db) && !target.BySid?
    requires target.ById? ==>
      target.id in s.db.rows
      && (s.db.rows[target.id].hydraSessionId != "" ==> IsRevoked(s.db, s.db.rows[target.id].hydraSessionId))
    requires target.ByUser? ==> forall sid | sid in s.db.logins && s.db.logins[sid].subject == target.user ::
      s.db.logins[sid].revoked
    ensures Order(MarkEnded(s.db, target, now))
  {
    hide Replay, Ordered;
    var db' := MarkEnded(s.db, target, now);
    forall id | id in db'.rows && db'.rows[id].endedAt.Some? && db'.rows[id].hydraSessionId != ""
      ensures IsRevoked(db', db'.rows[id].hydraSessionId)
    {
      assert RowOk(s.db, s.history, id);
    }
  }

  lemma HydraStepKeepsOrder(s: Sys, c: nat, env: Env)
    requires Order(s.db) && c in s.calls && !s.calls[c].pc.TermMark? && !s.calls[c].pc.AllMark?
    requires s.calls[c].pc.Begin? ==> !s.calls[c].pc.req.EndBySid?
    ensures Order(Step(s.db, s.calls[c].pc, env).db)
  {}

  lemma PerformKeepsOrder(s: Sys, c: nat, env: Env, lost: bool)
    requires SysOk(s) && Order(s.db) && Covered(s) && Live(s, c)
    ensures Order(Perform(s, c, env, lost).db)
  {
    var pc := s.calls[c].pc;
    assert CallOk(s, c);
    if pc.TermMark? {
      MarkKeepsOrder(s, ById(pc.session), env.now);
    } else if pc.AllMark? {
      MarkKeepsOrder(s, ByUser(pc.user), env.now);
    } else {
      HydraStepKeepsOrder(s, c, env);
    }
    hide SysOk, Order, CallOk, MarkEnded, Note;
  }

  lemma StepCovers(db: Db, pc: Pc, env: Env)
    ensures var turn := Step(db, pc, env);
      && (turn.reply == None && turn.pc.AllMark? ==>
         pc == Begin(TerminateAll(turn.pc.user)) && turn.db == RevokeBySubject(db, turn.pc.user))
      && (turn.pc.Begin? ==> turn.pc == pc)
      && turn.db.logins.Keys == db.logins.Keys
      && (forall sid | sid in db.logins ::
         turn.db.logins[sid].subject == db.logins[sid].subject
         && (db.logins[sid].revoked ==> turn.db.logins[sid].revoked))
  {}

  lemma PerformCovers(s: Sys, c: nat, env: Env, lost: bool)
    requires Covered(s) && Live(s, c)
    ensures Covered(Perform(s, c, env, lost))
  {
    StepCovers(s.db, s.calls[c].pc, env);
    hide Step, Note;
  }

  lemma CalmNext(s: Sys, e: Event)
    requires SysOk(s) && Order(s.db) && Covered(s) && Calm(s, e)
    ensures Order(Next(s, e).db) && Covered(Next(s, e))
  {
    match e
    case Advance(c, env) => {
      if Live(s, c) && Allowed(s, c, env) { PerformKeepsOrder(s, c, env, false); PerformCovers(s, c, env, false); }
      hide SysOk, Order, Covered, Perform, Allowed;
    }
    case LoseAck(c, env) => {
      if Live(s, c) && Allowed(s, c, env) { PerformKeepsOrder(s, c, env, true); PerformCovers(s, c, env, true); }
      hide SysOk, Order, Covered, Perform, Allowed;
    }
    case _ => hide SysOk;
  }

  ghost predicate CalmRun(events: seq<Event>) {
    forall n: nat {:trigger events[n]} | n < |events| :: Calm(Run(INITIAL, events[..n]), events[n])
  }

  lemma CalmPrefix(events: seq<Event>)
    requires CalmRun(events) && events != []
    ensures CalmRun(events[..|events| - 1])
  {
    hide Run, Calm;
    var front := events[..|events| - 1];
    forall n: nat | n < |front| ensures Calm(Run(INITIAL, front[..n]), front[n]) {
      assert front[..n] == events[..n] && front[n] == events[n];
    }
  }

  // With any interleaving of terminations, consents and logins, failing or stopping
  // anywhere, the order holds as long as no user logs in while that user's TerminateAll
  // is between its two steps.
  lemma {:induction false} CalmRunsKeepOrder(events: seq<Event>)
    requires CalmRun(events)
    ensures Order(Run(INITIAL, events).db) && Covered(Run(INITIAL, events))
  {
    if events != [] {
      hide Next, Order, Covered, SysOk, Calm;
      var n := |events| - 1;
      CalmPrefix(events);
      CalmRunsKeepOrder(events[..n]);
      RunKeeps(events[..n]);
      assert Calm(Run(INITIAL, events[..n]), events[n]);
      CalmNext(Run(INITIAL, events[..n]), events[n]);
    }
  }

  // ---- Serialised calls ----

  predicate Idle(s: Sys) {
    forall c | c in s.calls :: s.calls[c].reply.Some?
  }

  // A call starts, and a user logs in, only when no other call is under way. Each call
  // may still fail at any of its steps, or lose an acknowledgement.
  ghost predicate Serialised(events: seq<Event>) {
    forall n: nat {:trigger events[n]} | n < |events| ::
      && (events[n].Start? ==> Idle(Run(INITIAL, events[..n])) && !events[n].req.EndBySid?)
      && (events[n].Login? ==> Idle(Run(INITIAL, events[..n])))
  }

  // With serialised calls that may fail at any step, every locally ended session with
  // a non-empty sid is revoked in Hydra, at every moment.
  lemma SerialisedCallsKeepOrder(events: seq<Event>, id: Id)
    requires Serialised(events)
    ensures var db := Run(INITIAL, events).db;
      id in db.rows && db.rows[id].endedAt.Some? && db.rows[id].hydraSessionId != "" ==>
        db.rows[id].hydraSessionId in db.logins && db.logins[db.rows[id].hydraSessionId].revoked
  {
    hide Run;
    forall n: nat | n < |events| ensures Calm(Run(INITIAL, events[..n]), events[n]) {}
    CalmRunsKeepOrder(events);
  }

  // ---- The race ----

  function From(sid: string): Env {
    Env(0, "row", true, ConsentRequest("u", sid, true))
  }

  // User u logs in and consents between the two steps of TerminateAll(u).
  const RACE: seq<Event> := [
    NewUser("u"), Start(0, TerminateAll("u")), Advance(0, From("")),
    Event.Login("sid", "u"), Start(1, Consent("ch", "", "")), Advance(1, From("sid")), Advance(1, From("sid")),
      Advance(1, From("sid")),
    Advance(0, From(""))]

  lemma RacePrefix(n: nat)
    requires n < |RACE|
    ensures Run(INITIAL, RACE[..n + 1]) == Next(Run(INITIAL, RACE[..n]), RACE[n])
  {
    assert RACE[..n + 1][..n] == RACE[..n];
  }

  lemma RaceRevokes()
    ensures var s := Run(INITIAL, RACE[..3]);
      s.db == EMPTY.(users := {"u"}) && s.calls == map[0 := Call(AllMark("u"), None)]
  {
    RacePrefix(0);
    RacePrefix(1);
    RacePrefix(2);
    assert Run(INITIAL, RACE[..0]) == INITIAL;
    hide Run, Note;
  }

  lemma RaceFirstHalf()
    ensures var s := Run(INITIAL, RACE[..5]);
      && s.db == EMPTY.(users := {"u"}, logins := map["sid" := SessionTables.Login("u", false)])
      && s.calls == map[0 := Call(AllMark("u"), None), 1 := Call(Begin(Consent("ch", "", "")), None)]
  {
    RaceRevokes();
    RacePrefix(3);
    RacePrefix(4);
    hide Run, Note;
  }

  lemma RaceAsks()
    ensures var s := Run(INITIAL, RACE[..6]);
      && s.db == EMPTY.(users := {"u"}, logins := map["sid" := SessionTables.Login("u", false)])
      && s.calls == map[0 := Call(AllMark("u"), None),
                        1 := Call(ConsentAccept("ch", ConsentRequest("u", "sid", true), "", ""), None)]
  {
    RaceFirstHalf();
    RacePrefix(5);
    hide Run, Note;
  }

  lemma RaceConsents()
    ensures var s := Run(INITIAL, RACE[..7]);
      && s.db == Db({"u"}, map[], map["sid" := SessionTables.Login("u", false)], {"ch"}, {})
      && s.calls == map[0 := Call(AllMark("u"), None),
                        1 := Call(ConsentRecord("ch", ConsentRequest("u", "sid", true), "", ""), None)]
  {
    RaceAsks();
    RacePrefix(6);
    hide Run, Note;
  }

  lemma RowRecorded(db: Db, pc: Pc, env: Env)
    requires pc.ConsentRecord? && env.id !in db.rows && pc.consent.subject in db.users
    ensures var row := NewSession(pc.consent, pc.userAgent, pc.ip, env);
      && row.id == env.id && row.hydraSessionId == pc.consent.loginSessionId && row.userId == pc.consent.subject
      && row.endedAt == None
      && Step(db, pc, env) == Turn(db.(rows := db.rows[env.id := row]), ConsentEnd, Some(Redirect))
  {}

  function RaceRow(): Session {
    NewSession(ConsentRequest("u", "sid", true), "", "", From("sid"))
  }

  lemma RaceRecords()
    ensures var s := Run(INITIAL, RACE[..8]);
      && s.db == Db({"u"}, map["row" := RaceRow()], map["sid" := SessionTables.Login("u", false)], {"ch"}, {})
      && s.calls == map[0 := Call(AllMark("u"), None), 1 := Call(ConsentEnd, Some(Redirect))]
    ensures RaceRow().id == "row" && RaceRow().hydraSessionId == "sid"
    ensures RaceRow().userId == "u" && RaceRow().endedAt == None
  {
    RaceConsents();
    RacePrefix(7);
    hide Run, Note, Step, NewSession;
    RowRecorded(Run(INITIAL, RACE[..7]).db, ConsentRecord("ch", ConsentRequest("u", "sid", true), "", ""), From("sid"));
  }

  lemma RaceMarks()
    ensures var db := Run(INITIAL, RACE[..9]).db;
      && "row" in db.rows && db.rows["row"].endedAt.Some? && db.rows["row"].hydraSessionId == "sid"
      && "sid" in db.logins && !db.logins["sid"].revoked
  {
    RaceRecords();
    RacePrefix(8);
    hide Run, Note, RaceRow;
  }

  // The row is ended here while its login session lives on in Hydra.
  lemma RaceBreaksOrder()
    ensures var db := Run(INITIAL, RACE).db;
      && "row" in db.rows && db.rows["row"].endedAt.Some? && db.rows["row"].hydraSessionId == "sid"
      && "sid" in db.logins && !db.logins["sid"].revoked
  {
    hide Run;
    RaceMarks();
    assert RACE[..9] == RACE;
  }
}
