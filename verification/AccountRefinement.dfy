// When writing back a whole row is as good as writing one field.
module AccountRefinement {
  import opened Common
  import opened AccountTables
  import opened AccountCalls
  import opened AccountSystem
  import opened AccountInvariant
  import opened AccountRuns

  // The call whose statement this event executes, if it executes one.
  function Actor(s: Sys, e: Event): Option<nat> {
    match e
    case Advance(c, env) => if Live(s, c) && Allowed(s, c, env) then Some(c) else None
    case LoseAck(c, env) => if Live(s, c) && Allowed(s, c, env) then Some(c) else None
    case _ => None
  }

  predicate Writing(pc: Pc) {
    pc.VerifyWrite? || pc.ResetWrite?
  }

  predicate VerifiesRow(s: Sys, e: Event, id: Id) {
    Actor(s, e).Some? && s.calls[Actor(s, e).value].pc.VerifyWrite? && s.calls[Actor(s, e).value].pc.user.id == id
  }

  predicate ResetsRow(s: Sys, e: Event, id: Id) {
    Actor(s, e).Some? && s.calls[Actor(s, e).value].pc.ResetWrite? && s.calls[Actor(s, e).value].pc.user.id == id
  }

  // If the event writes a row, nobody wrote that row since its call read it.
  predicate Quiet(s: Sys, e: Event) {
    Actor(s, e).Some? && Writing(s.calls[Actor(s, e).value].pc) ==> Untouched(s, Actor(s, e).value)
  }

  lemma WriterHasRow(w: Setup, s: Sys, c: nat)
    requires SysOk(w, s) && c in s.calls
    ensures DbOk(w, s.db, s.history) && PcOk(w, s.db, s.history, c, s.calls[c].pc)
    ensures Writing(s.calls[c].pc) ==>
      var k := s.calls[c].pc.user.id;
      k in s.db.users && s.db.users[k].id == k && SameAccount(s.db.users[k], s.calls[c].pc.user)
  {
    assert CallOk(w, s, c);
    hide GoodUser, TokensMatch;
  }

  // ---- One write ----

  lemma ModeIsIrrelevant(w: Setup, db: Db, pc: Pc, env: Env)
    requires !Writing(pc)
    ensures Step(w, WholeRow, db, pc, env) == Step(w, OneField, db, pc, env)
  {}

  lemma ImagesAgreeIff(db: Db, pc: Pc)
    requires Writing(pc) && pc.user.id in db.users && SameAccount(db.users[pc.user.id], pc.user)
    ensures Image(WholeRow, db, pc) == Image(OneField, db, pc) <==>
      if pc.VerifyWrite? then pc.user.passwordHash == db.users[pc.user.id].passwordHash
      else pc.user.emailVerified == db.users[pc.user.id].emailVerified
  {}

  // The copy agrees with the row on the field that the call does not mean to change.
  predicate OtherFieldAgrees(db: Db, pc: Pc)
    requires Writing(pc)
  {
    && pc.user.id in db.users
    && if pc.VerifyWrite? then pc.user.passwordHash == db.users[pc.user.id].passwordHash
       else pc.user.emailVerified == db.users[pc.user.id].emailVerified
  }

  // A whole-row write of a copy does what the single-field write does if and only if the
  // copy agrees with the row on the other field.
  lemma WholeRowAgreesIff(w: Setup, s: Sys, c: nat, env: Env)
    requires SysOk(w, s) && c in s.calls && Writing(s.calls[c].pc)
    ensures var pc := s.calls[c].pc;
      Step(w, WholeRow, s.db, pc, env) == Step(w, OneField, s.db, pc, env) <==> OtherFieldAgrees(s.db, pc)
  {
    hide SysOk, DbOk, PcOk, SameAccount, StepKept, Step, Image;
    var pc := s.calls[c].pc;
    WriterHasRow(w, s, c);
    RowWrites(w, WholeRow, s.db, s.history, c, pc, env);
    RowWrites(w, OneField, s.db, s.history, c, pc, env);
    ImagesAgreeIff(s.db, pc);
    var a, b := Step(w, WholeRow, s.db, pc, env).db.users, Step(w, OneField, s.db, pc, env).db.users;
    assert a[pc.user.id] == Image(WholeRow, s.db, pc) && b[pc.user.id] == Image(OneField, s.db, pc);
  }

  // If the event writes a row, its copy agrees on the other field.
  predicate Agreeing(s: Sys, e: Event) {
    Actor(s, e).Some? && Writing(s.calls[Actor(s, e).value].pc) ==>
      OtherFieldAgrees(s.db, s.calls[Actor(s, e).value].pc)
  }

  lemma ActorPerforms(w: Setup, mode: Mode, s: Sys, e: Event)
    requires Actor(s, e).Some?
    ensures Next(w, mode, s, e) == Perform(w, mode, s, Actor(s, e).value, e.env, e.LoseAck?)
  {
    hide Perform, Allowed;
  }

  lemma PerformsAgreeIff(w: Setup, s: Sys, c: nat, env: Env, lost: bool)
    requires c in s.calls
    ensures Step(w, WholeRow, s.db, s.calls[c].pc, env) == Step(w, OneField, s.db, s.calls[c].pc, env) ==>
      Perform(w, WholeRow, s, c, env, lost) == Perform(w, OneField, s, c, env, lost)
    ensures Perform(w, WholeRow, s, c, env, lost) == Perform(w, OneField, s, c, env, lost) ==>
      Step(w, WholeRow, s.db, s.calls[c].pc, env).db == Step(w, OneField, s.db, s.calls[c].pc, env).db
  {
    hide Step, Note;
  }

  lemma WritesDifferInRows(w: Setup, s: Sys, c: nat, env: Env)
    requires SysOk(w, s) && c in s.calls && Writing(s.calls[c].pc)
    requires Step(w, WholeRow, s.db, s.calls[c].pc, env).db == Step(w, OneField, s.db, s.calls[c].pc, env).db
    ensures Step(w, WholeRow, s.db, s.calls[c].pc, env) == Step(w, OneField, s.db, s.calls[c].pc, env)
  {
    hide SysOk, DbOk, PcOk, StepKept, Step, Image, SameAccount;
    var pc := s.calls[c].pc;
    WriterHasRow(w, s, c);
    RowWrites(w, WholeRow, s.db, s.history, c, pc, env);
    RowWrites(w, OneField, s.db, s.history, c, pc, env);
  }

  lemma EventAgreesIff(w: Setup, s: Sys, e: Event)
    requires SysOk(w, s)
    ensures Next(w, WholeRow, s, e) == Next(w, OneField, s, e) <==> Agreeing(s, e)
  {
    hide SysOk, Perform, Step, OtherFieldAgrees, Allowed;
    if Actor(s, e).Some? {
      var c := Actor(s, e).value;
      ActorPerforms(w, WholeRow, s, e);
      ActorPerforms(w, OneField, s, e);
      PerformsAgreeIff(w, s, c, e.env, e.LoseAck?);
      if Writing(s.calls[c].pc) {
        WholeRowAgreesIff(w, s, c, e.env);
        if Next(w, WholeRow, s, e) == Next(w, OneField, s, e) { WritesDifferInRows(w, s, c, e.env); }
      } else {
        ModeIsIrrelevant(w, s.db, s.calls[c].pc, e.env);
      }
    }
  }

  // ---- Whole runs ----

  // Both machines are in the same state after n events.
  predicate SameAfter(w: Setup, events: seq<Event>, n: nat)
    requires n <= |events|
  {
    Run(w, WholeRow, INITIAL, events[..n]) == Run(w, OneField, INITIAL, events[..n])
  }

  predicate AgreesAt(w: Setup, events: seq<Event>, n: nat)
    requires n < |events|
  {
    Agreeing(Run(w, WholeRow, INITIAL, events[..n]), events[n])
  }

  lemma SameAfterNext(w: Setup, events: seq<Event>, n: nat)
    requires n < |events| && SameAfter(w, events, n)
    ensures SameAfter(w, events, n + 1) <==> AgreesAt(w, events, n)
  {
    hide Next, Agreeing, SysOk;
    assert events[..n + 1][..n] == events[..n];
    RunKeeps(w, WholeRow, events[..n]);
    EventAgreesIff(w, Run(w, WholeRow, INITIAL, events[..n]), events[n]);
  }

  lemma {:induction false} SameUpToIff(w: Setup, events: seq<Event>, n: nat)
    requires n <= |events|
    ensures (forall m: nat | m <= n :: SameAfter(w, events, m)) <==> (forall m: nat | m < n :: AgreesAt(w, events, m))
  {
    if n == 0 {
      assert SameAfter(w, events, 0);
    } else {
      hide SameAfter, AgreesAt;
      SameUpToIff(w, events, n - 1);
      if forall m: nat | m <= n - 1 :: SameAfter(w, events, m) { SameAfterNext(w, events, n - 1); }
    }
  }

  // For every schedule: the whole-row machine and the one-field machine are in the same
  // state at every moment, if and only if every row write of the run meets a row that
  // agrees with its copy on the other field.
  lemma WholeRowRunsAgreeIff(w: Setup, events: seq<Event>)
    ensures (forall n: nat | n <= |events| :: SameAfter(w, events, n)) <==>
      (forall n: nat | n < |events| :: AgreesAt(w, events, n))
  {
    SameUpToIff(w, events, |events|);
  }

  // An undisturbed copy is the row, so it agrees.
  lemma QuietIsAgreeing(w: Setup, s: Sys, e: Event)
    requires SysOk(w, s) && Quiet(s, e)
    ensures Agreeing(s, e)
  {
    if Actor(s, e).Some? { assert CallOk(w, s, Actor(s, e).value); }
    hide SysOk, DbOk, PcOk, Allowed;
  }

  lemma QuietNextAgrees(w: Setup, s: Sys, e: Event)
    requires SysOk(w, s) && Quiet(s, e)
    ensures Next(w, WholeRow, s, e) == Next(w, OneField, s, e)
  {
    hide SysOk, Next, Quiet, Agreeing;
    QuietIsAgreeing(w, s, e);
    EventAgreesIff(w, s, e);
  }

  ghost predicate QuietRun(w: Setup, events: seq<Event>) {
    forall n: nat {:trigger events[n]} | n < |events| :: Quiet(Run(w, WholeRow, INITIAL, events[..n]), events[n])
  }

  lemma QuietPrefix(w: Setup, events: seq<Event>, m: nat)
    requires QuietRun(w, events) && m <= |events|
    ensures QuietRun(w, events[..m])
  {
    hide Run, Quiet;
    forall n: nat | n < m ensures Quiet(Run(w, WholeRow, INITIAL, events[..m][..n]), events[..m][n]) {
      assert events[..m][..n] == events[..n] && events[..m][n] == events[n];
    }
  }

  // Runs in which no row is written between another call's read and write of it are
  // runs of the reference machine that updates one field.
  lemma {:induction false} QuietRunsRefine(w: Setup, events: seq<Event>)
    requires QuietRun(w, events)
    ensures Run(w, WholeRow, INITIAL, events) == Run(w, OneField, INITIAL, events)
  {
    hide Next, Quiet;
    if events != [] {
      var n := |events| - 1;
      QuietPrefix(w, events, n);
      QuietRunsRefine(w, events[..n]);
      RunKeeps(w, WholeRow, events[..n]);
      QuietNextAgrees(w, Run(w, WholeRow, INITIAL, events[..n]), events[n]);
    }
  }

  // ---- A condition on the schedule alone ----

  // Between reading a user's row and writing it back.
  predicate InSection(s: Sys, c: nat, id: Id) {
    Live(s, c) && Writing(s.calls[c].pc) && s.calls[c].pc.user.id == id
  }

  ghost predicate Exclusive(s: Sys) {
    forall c, d, id {:trigger InSection(s, c, id), InSection(s, d, id)} | InSection(s, c, id) && InSection(s, d, id) ::
      c == d
  }

  ghost predicate AllUntouched(s: Sys) {
    forall c, id {:trigger InSection(s, c, id)} | InSection(s, c, id) :: Untouched(s, c)
  }

  lemma ReadersAreUntouched(w: Setup, mode: Mode, s: Sys, c: nat, env: Env, lost: bool)
    requires c in s.calls && DbOk(w, s.db, s.history) && !Writing(s.calls[c].pc)
    ensures var s' := Perform(w, mode, s, c, env, lost);
      Writing(s'.calls[c].pc) ==> Untouched(s', c)
  {
    hide DbOk, Step, Note;
    var pc := s.calls[c].pc;
    Recorded(s.history, c, pc, Step(w, mode, s.db, pc, env).pc, env);
    if pc.VerifyRead? || pc.ResetRead? {
      if pc.userId in s.db.users { CopyRead(w, s.db, s.history, pc.userId); }
      ReadIsFresh(w, mode, s.db, s.history, c, pc, env);
    } else {
      NoCopy(w, mode, s.db, pc, env);
    }
  }

  lemma OtherUserUntouched(w: Setup, mode: Mode, s: Sys, c: nat, env: Env, lost: bool, d: nat)
    requires SysOk(w, s) && c in s.calls && d in s.calls && d != c && Writing(s.calls[d].pc) && Untouched(s, d)
    requires Writing(s.calls[c].pc) ==> s.calls[c].pc.user.id != s.calls[d].pc.user.id
    ensures Untouched(Perform(w, mode, s, c, env, lost), d)
  {
    hide SysOk, DbOk, PcOk, SameAccount, Step, Note;
    var pc := s.calls[c].pc;
    WriterHasRow(w, s, d);
    Recorded(s.history, c, pc, Step(w, mode, s.db, pc, env).pc, env);
    if pc.RegisterInsert? { InsertEffect(w, mode, s.db, pc.user, env, s.calls[d].pc.user.id); }
  }

  lemma ExclusiveNext(w: Setup, mode: Mode, s: Sys, e: Event)
    requires SysOk(w, s) && Exclusive(s) && AllUntouched(s)
    ensures AllUntouched(Next(w, mode, s, e))
  {
    hide Untouched;
    var s' := Next(w, mode, s, e);
    forall c, id | InSection(s', c, id) ensures Untouched(s', c) {
      if Actor(s, e).Some? {
        var a := Actor(s, e).value;
        if c == a {
          if Writing(s.calls[a].pc) {
            assert CallOk(w, s, a);
            RowWrites(w, mode, s.db, s.history, a, s.calls[a].pc, e.env);
          } else {
            ReadersAreUntouched(w, mode, s, a, e.env, e.LoseAck?);
          }
        } else {
          assert InSection(s, c, id);
          if Writing(s.calls[a].pc) { assert InSection(s, a, s.calls[a].pc.user.id); }
          OtherUserUntouched(w, mode, s, a, e.env, e.LoseAck?, c);
        }
      } else {
        assert InSection(s, c, id);
        SectionUnmoved(s, s', c);
      }
      hide SysOk, Exclusive, AllUntouched, Next, StepKept, Step;
    }
  }

  lemma SectionUnmoved(s: Sys, s': Sys, c: nat)
    requires c in s.calls && c in s'.calls && s'.calls[c].pc == s.calls[c].pc && s'.history == s.history
    requires Writing(s.calls[c].pc) && Untouched(s, c)
    ensures Untouched(s', c)
  {}

  // At no moment are two calls between reading and writing the same user's row.
  ghost predicate SectionsNeverOverlap(w: Setup, events: seq<Event>) {
    forall n: nat {:trigger events[..n]} | n <= |events| :: Exclusive(Run(w, WholeRow, INITIAL, events[..n]))
  }

  lemma {:induction false} SectionsStayUntouched(w: Setup, events: seq<Event>, n: nat)
    requires SectionsNeverOverlap(w, events) && n <= |events|
    ensures AllUntouched(Run(w, WholeRow, INITIAL, events[..n]))
  {
    if n == 0 {
      assert AllUntouched(INITIAL);
    } else {
      hide Next, Exclusive, AllUntouched;
      SectionsStayUntouched(w, events, n - 1);
      assert events[..n][..n - 1] == events[..n - 1];
      RunKeeps(w, WholeRow, events[..n - 1]);
      assert Exclusive(Run(w, WholeRow, INITIAL, events[..n - 1]));
      ExclusiveNext(w, WholeRow, Run(w, WholeRow, INITIAL, events[..n - 1]), events[n - 1]);
    }
  }

  // Non-overlapping sections make the whole-row machine the one-field machine.
  lemma NonOverlappingSectionsRefine(w: Setup, events: seq<Event>)
    requires SectionsNeverOverlap(w, events)
    ensures Run(w, WholeRow, INITIAL, events) == Run(w, OneField, INITIAL, events)
  {
    forall n: nat | n < |events| ensures Quiet(Run(w, WholeRow, INITIAL, events[..n]), events[n]) {
      SectionsStayUntouched(w, events, n);
      var s := Run(w, WholeRow, INITIAL, events[..n]);
      if Actor(s, events[n]).Some? && Writing(s.calls[Actor(s, events[n]).value].pc) {
        var c := Actor(s, events[n]).value;
        assert InSection(s, c, s.calls[c].pc.user.id);
      }
      hide Run, Untouched, SectionsNeverOverlap;
    }
    QuietRunsRefine(w, events);
  }

  // ---- What the reference machine means ----

  ghost predicate HashesSettled(s: Sys) {
    forall id {:trigger s.db.users[id]} | id in s.db.users ::
      id in s.history.settled && s.db.users[id].passwordHash == s.history.settled[id]
  }

  predicate FieldsAfter(pc: Pc, id: Id, before: User, after: User) {
    && (after.emailVerified <==> before.emailVerified || (pc.VerifyWrite? && pc.user.id == id))
    && after.passwordHash == (if pc.ResetWrite? && pc.user.id == id then pc.hash else before.passwordHash)
  }

  lemma ReferenceImage(db: Db, pc: Pc)
    requires Writing(pc) && pc.user.id in db.users && db.users[pc.user.id].id == pc.user.id
    ensures FieldsAfter(pc, pc.user.id, db.users[pc.user.id], Image(OneField, db, pc))
  {}

  lemma ReferenceStatement(w: Setup, s: Sys, c: nat, env: Env, id: Id)
    requires SysOk(w, s) && c in s.calls && id in s.db.users
    ensures var users' := Step(w, OneField, s.db, s.calls[c].pc, env).db.users;
      id in users' && FieldsAfter(s.calls[c].pc, id, s.db.users[id], users'[id])
  {
    hide SysOk, DbOk, PcOk, Step, StepKept, Image;
    var pc := s.calls[c].pc;
    WriterHasRow(w, s, c);
    if Writing(pc) {
      ReferenceImage(s.db, pc);
      RowWrites(w, OneField, s.db, s.history, c, pc, env);
    } else if pc.RegisterInsert? {
      InsertEffect(w, OneField, s.db, pc.user, env, id);
    } else {
      RowsStay(w, OneField, s.db, pc, env);
    }
  }

  // One event of the reference: a row becomes verified exactly by a verification write
  // of that user, and its hash changes exactly to what a reset write of that user brings.
  lemma ReferenceStep(w: Setup, s: Sys, e: Event, id: Id)
    requires SysOk(w, s) && id in s.db.users
    ensures var s' := Next(w, OneField, s, e);
      && id in s'.db.users
      && (s'.db.users[id].emailVerified <==> s.db.users[id].emailVerified || VerifiesRow(s, e, id))
      && s'.db.users[id].passwordHash ==
           (if ResetsRow(s, e, id) then s.calls[Actor(s, e).value].pc.hash else s.db.users[id].passwordHash)
  {
    hide SysOk, Step, Note, Allowed;
    if Actor(s, e).Some? { ReferenceStatement(w, s, Actor(s, e).value, e.env, id); }
  }

  lemma SettledRecorded(h: History, c: nat, before: Pc, after: Pc, env: Env)
    ensures Note(h, c, before, after, env).settled ==
      if before.RegisterInsert? && after.RegisterIssue? then h.settled[after.user.id := after.user.passwordHash]
      else if before.ResetWrite? && after.ResetEnd? then h.settled[before.user.id := before.hash] else h.settled
  {}

  lemma InsertSettles(w: Setup, db: Db, u: User, env: Env)
    ensures var turn := Step(w, OneField, db, RegisterInsert(u), env);
      if turn.pc == RegisterIssue(u) then turn.db.users == db.users[u.id := u]
        else turn.pc == RegisterInsert(u) && turn.db == db
  {}

  lemma StatementSettles(w: Setup, s: Sys, c: nat, env: Env, lost: bool)
    requires SysOk(w, s) && c in s.calls && HashesSettled(s)
    ensures HashesSettled(Perform(w, OneField, s, c, env, lost))
  {
    hide SysOk, DbOk, PcOk, Step, Note, StepKept;
    var pc := s.calls[c].pc;
    WriterHasRow(w, s, c);
    SettledRecorded(s.history, c, pc, Step(w, OneField, s.db, pc, env).pc, env);
    if Writing(pc) {
      RowWrites(w, OneField, s.db, s.history, c, pc, env);
    } else if pc.RegisterInsert? {
      InsertSettles(w, s.db, pc.user, env);
    } else {
      RowsStay(w, OneField, s.db, pc, env);
    }
  }

  lemma {:induction false} ReferenceHashesSettled(w: Setup, events: seq<Event>)
    ensures HashesSettled(Run(w, OneField, INITIAL, events))
  {
    if events != [] {
      var s, e := Run(w, OneField, INITIAL, events[..|events| - 1]), events[|events| - 1];
      ReferenceHashesSettled(w, events[..|events| - 1]);
      RunKeeps(w, OneField, events[..|events| - 1]);
      if Actor(s, e).Some? { StatementSettles(w, s, Actor(s, e).value, e.env, e.LoseAck?); }
      hide SysOk, Perform, Allowed;
    }
  }

  // Without overlap, the stored hash is the one from registration or from the latest
  // reset write, at every moment.
  lemma StoredHashIsTheLatest(w: Setup, events: seq<Event>, id: Id)
    requires QuietRun(w, events)
    ensures var s := Run(w, WholeRow, INITIAL, events);
      id in s.db.users ==> id in s.history.settled && s.db.users[id].passwordHash == s.history.settled[id]
  {
    QuietRunsRefine(w, events);
    ReferenceHashesSettled(w, events);
    hide Run;
  }

  lemma VerifiedStays(w: Setup, s: Sys, e: Event, id: Id)
    requires SysOk(w, s) && Quiet(s, e)
    ensures var s' := Next(w, WholeRow, s, e);
      id in s.db.users && s.db.users[id].emailVerified ==> id in s'.db.users && s'.db.users[id].emailVerified
  {
    hide SysOk, Next, Quiet;
    QuietNextAgrees(w, s, e);
    if id in s.db.users { ReferenceStep(w, s, e, id); }
  }

  // Without overlap, a verified account stays verified.
  lemma {:induction false} VerificationNeverReverts(w: Setup, events: seq<Event>, m: nat, id: Id)
    requires QuietRun(w, events) && m <= |events|
    ensures var early, late := Run(w, WholeRow, INITIAL, events[..m]), Run(w, WholeRow, INITIAL, events);
      id in early.db.users && early.db.users[id].emailVerified ==>
        id in late.db.users && late.db.users[id].emailVerified
  {
    hide SysOk, Next, Quiet;
    var n := |events| - 1;
    if m == |events| {
      assert events[..m] == events;
    } else {
      assert events[..n][..m] == events[..m];
      QuietPrefix(w, events, n);
      VerificationNeverReverts(w, events[..n], m, id);
      RunKeeps(w, WholeRow, events[..n]);
      VerifiedStays(w, Run(w, WholeRow, INITIAL, events[..n]), events[n], id);
    }
  }
}
