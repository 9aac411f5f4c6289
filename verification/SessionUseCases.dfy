// internal/infrastructure/postgres/session_repository.go, the Hydra requests it goes
// with, internal/application/identity/sessions_admin.go and getConsent of
// internal/presentation/http/auth_handlers.go. Each use case is proved to do what the
// step-by-step call does when nothing interleaves. inputs(n) is what clock, generator
// and Hydra supply when n statements remain.
module SessionUseCases {
  import opened Common
  import T = SessionTables
  import C = SessionCalls

  class Pool {
    var users: set<Id>
    var rows: map<Id, T.Session>

    constructor (users: set<Id>)
      ensures this.users == users && rows == map[]
    {
      this.users, rows := users, map[];
    }

    // The sessions side of the database.
    ghost function Table(): T.Db
      reads this
    {
      T.EMPTY.(users := users, rows := rows)
    }
  }

  // The login sessions in `sids` become revoked; all others stay as they were.
  ghost predicate RevokedWhere(before: map<string, T.Login>, after: map<string, T.Login>, sids: set<string>) {
    && after.Keys == before.Keys
    && forall s {:trigger after[s]} {:trigger before[s]} | s in before ::
         after[s] == if s in sids then before[s].(revoked := true) else before[s]
  }

  // The open rows in `ids` end at `now`; all others stay as they were.
  ghost predicate EndedWhere(before: map<Id, T.Session>, after: map<Id, T.Session>, ids: set<Id>, now: Time) {
    && after.Keys == before.Keys
    && forall k {:trigger after[k]} {:trigger before[k]} | k in before ::
         after[k] == if k in ids && before[k].endedAt == None then before[k].(endedAt := Some(now)) else before[k]
  }

  // Hydra's login sessions and consent decisions.
  class Hydra {
    var logins: map<string, T.Login>
    var accepted: set<string>
    var rejected: set<string>

    constructor ()
      ensures logins == map[] && accepted == {} && rejected == {}
    {
      logins, accepted, rejected := map[], {}, {};
    }

    // Error, and no effect, exactly when `ok` is false. Only this login session is revoked.
    method RevokeLoginSessionByID(sid: string, ok: bool) returns (err: bool)
      modifies this`logins
      ensures err == !ok
      ensures RevokedWhere(old(logins), logins, set s | s in old(logins) && ok && s == sid)
      ensures forall users, rows {:trigger T.Db(users, rows, logins, accepted, rejected)} ::
        T.Db(users, rows, logins, accepted, rejected) ==
          if err then T.Db(users, rows, old(logins), accepted, rejected)
            else T.RevokeById(T.Db(users, rows, old(logins), accepted, rejected), sid)
    {
      err := !ok;
      if ok && sid in logins {
        logins := logins[sid := logins[sid].(revoked := true)];
      }
    }

    // Every login session of this subject is revoked, and no other.
    method RevokeLoginSessionsBySubject(subject: Id, ok: bool) returns (err: bool)
      modifies this`logins
      ensures err == !ok
      ensures RevokedWhere(old(logins), logins, set s | s in old(logins) && ok && old(logins)[s].subject == subject)
      ensures forall users, rows {:trigger T.Db(users, rows, logins, accepted, rejected)} ::
        T.Db(users, rows, logins, accepted, rejected) ==
          if err then T.Db(users, rows, old(logins), accepted, rejected)
          else T.RevokeBySubject(T.Db(users, rows, old(logins), accepted, rejected), subject)
    {
      err := !ok;
      if ok {
        logins := map sid | sid in logins ::
          if logins[sid].subject == subject then logins[sid].(revoked := true) else logins[sid];
      }
    }

    method AcceptConsentRequest(challenge: string, ok: bool) returns (err: bool)
      modifies this`accepted
      ensures err == !ok && accepted == if ok then old(accepted) + {challenge} else old(accepted)
    {
      err := !ok;
      if ok { accepted := accepted + {challenge}; }
    }

    method RejectConsentRequest(challenge: string, ok: bool) returns (err: bool)
      modifies this`rejected
      ensures err == !ok && rejected == if ok then old(rejected) + {challenge} else old(rejected)
    {
      err := !ok;
      if ok { rejected := rejected + {challenge}; }
    }
  }

  ghost function View(pool: Pool, hydra: Hydra): T.Db
    reads pool, hydra
  {
    T.Db(pool.users, pool.rows, hydra.logins, hydra.accepted, hydra.rejected)
  }

  // Every row sits under its own primary key.
  ghost predicate Keyed(rows: map<Id, T.Session>) {
    forall id {:trigger rows[id]} | id in rows :: rows[id].id == id
  }

  // `order` is an answer to SELECT ... WHERE user_id = user AND ended_at IS NULL ORDER BY
  // created_at DESC: each matching row once, later ones first; ties are the database's.
  ghost predicate IsAnswer(rows: map<Id, T.Session>, user: Id, order: seq<Id>) {
    && (forall id :: id in order <==> id in rows && rows[id].userId == user && rows[id].endedAt == None)
    && (forall i, j | 0 <= i < j < |order| :: order[i] != order[j])
    && (forall i, j | 0 <= i < j < |order| && order[i] in rows && order[j] in rows ::
          rows[order[i]].createdAt >= rows[order[j]].createdAt)
  }

  class SessionRepository {
    const pool: Pool

    constructor (pool: Pool)
      ensures this.pool == pool
    {
      this.pool := pool;
    }

    method Create(s: T.Session) returns (err: Option<T.Error>)
      modifies pool`rows
      ensures err.Some? <==> s.id in old(pool.rows) || s.userId !in pool.users
      ensures pool.rows == if err.Some? then old(pool.rows) else old(pool.rows)[s.id := s.(endedAt := None)]
      ensures old(Keyed(pool.rows)) ==> Keyed(pool.rows)
    {
      if s.id in pool.rows || s.userId !in pool.users {
        return Some(T.StoreError);
      }
      pool.rows := pool.rows[s.id := s.(endedAt := None)];
      err := None;
    }

    // The one row whose id column is `id`; an error exactly when no row has it.
    method FindByID(id: Id) returns (r: Result<T.Session, T.Error>)
      ensures Keyed(pool.rows) ==>
        match r
        case Ok(s) => s.id == id && s in pool.rows.Values
        case Err(e) => e == T.ErrSessionNotFound && forall s | s in pool.rows.Values :: s.id != id
      ensures match T.FindSession(pool.Table(), id) case Some(s) => r == Ok(s)
        case None => r == Err(T.ErrSessionNotFound)
    {
      if id in pool.rows {
        r := Ok(pool.rows[id]);
        assert pool.rows[id] in pool.rows.Values;
      } else {
        r := Err(T.ErrSessionNotFound);
      }
    }

    method ListActiveByUser(userID: Id, order: seq<Id>) returns (out: seq<T.Session>)
      requires IsAnswer(pool.rows, userID, order)
      ensures |out| == |order|
      ensures forall i | 0 <= i < |out| :: order[i] in pool.rows && out[i] == pool.rows[order[i]]
      ensures forall s | s in out :: s.userId == userID && s.endedAt == None
      ensures forall i, j | 0 <= i < j < |out| :: out[i].createdAt >= out[j].createdAt
      ensures forall id | id in pool.rows && pool.rows[id].userId == userID && pool.rows[id].endedAt == None ::
        pool.rows[id] in out
    {
      out := [];
      for i := 0 to |order|
        invariant |out| == i
        invariant forall j | 0 <= j < i :: order[j] in pool.rows && out[j] == pool.rows[order[j]]
      {
        assert order[i] in order;
        out := out + [pool.rows[order[i]]];
      }
      forall id | id in pool.rows && pool.rows[id].userId == userID && pool.rows[id].endedAt == None
        ensures pool.rows[id] in out {
        assert id in order;
        var i :| 0 <= i < |order| && order[i] == id;
        assert out[i] == pool.rows[id];
      }
    }

    // An open row with this id ends now; every other row stays as it is.
    method MarkEnded(id: Id, now: Time)
      modifies pool`rows
      ensures pool.rows.Keys == old(pool.rows).Keys
      ensures forall k | k in pool.rows && pool.rows[k].id == id :: pool.rows[k].endedAt.Some?
      ensures forall k | k in pool.rows && old(pool.rows)[k].id == id && old(pool.rows)[k].endedAt == None ::
        pool.rows[k] == old(pool.rows)[k].(endedAt := Some(now))
      ensures forall k | k in pool.rows && !(old(pool.rows)[k].id == id && old(pool.rows)[k].endedAt == None) ::
        pool.rows[k] == old(pool.rows)[k]
      ensures pool.Table() == T.MarkEnded(old(pool.Table()), T.ById(id), now)
    {
      pool.rows := map k | k in pool.rows ::
        if pool.rows[k].id == id && pool.rows[k].endedAt == None then pool.rows[k].(endedAt := Some(now))
          else pool.rows[k];
    }

    // Every open row of this login session ends now; every other row stays as it is.
    method MarkEndedByHydraSID(sid: string, now: Time)
      modifies pool`rows
      ensures pool.rows.Keys == old(pool.rows).Keys
      ensures forall k | k in pool.rows && pool.rows[k].hydraSessionId == sid :: pool.rows[k].endedAt.Some?
      ensures forall k | k in pool.rows && old(pool.rows)[k].hydraSessionId == sid
        && old(pool.rows)[k].endedAt == None ::
        pool.rows[k] == old(pool.rows)[k].(endedAt := Some(now))
      ensures forall k | k in pool.rows
        && !(old(pool.rows)[k].hydraSessionId == sid && old(pool.rows)[k].endedAt == None) ::
        pool.rows[k] == old(pool.rows)[k]
      ensures pool.Table() == T.MarkEnded(old(pool.Table()), T.BySid(sid), now)
    {
      pool.rows := map k | k in pool.rows ::
        if pool.rows[k].hydraSessionId == sid && pool.rows[k].endedAt == None
        then pool.rows[k].(endedAt := Some(now)) else pool.rows[k];
    }

    // Every open row of this user ends now, so none is left; every other row stays.
    method MarkAllEndedByUser(userID: Id, now: Time)
      modifies pool`rows
      ensures pool.rows.Keys == old(pool.rows).Keys
      ensures T.ActiveIds(pool.Table(), userID) == {}
      ensures forall k | k in pool.rows && old(pool.rows)[k].userId == userID && old(pool.rows)[k].endedAt == None ::
        pool.rows[k] == old(pool.rows)[k].(endedAt := Some(now))
      ensures forall k | k in pool.rows && !(old(pool.rows)[k].userId == userID && old(pool.rows)[k].endedAt == None) ::
        pool.rows[k] == old(pool.rows)[k]
      ensures pool.Table() == T.MarkEnded(old(pool.Table()), T.ByUser(userID), now)
    {
      pool.rows := map k | k in pool.rows ::
        if pool.rows[k].userId == userID && pool.rows[k].endedAt == None
        then pool.rows[k].(endedAt := Some(now)) else pool.rows[k];
    }
  }

  // ---- Use cases ----

  ghost predicate Finishes(db: T.Db, pc: C.Pc, inputs: nat -> C.Env, after: T.Db, reply: C.Reply) {
    var out := C.RunAlone(db, pc, inputs);
    out.db == after && out.reply == Some(reply)
  }

  lemma Finish(db: T.Db, pc: C.Pc, inputs: nat -> C.Env, after: T.Db, reply: C.Reply)
    requires var turn := C.Step(db, pc, inputs(C.Remaining(pc)));
      if turn.reply.Some? then turn.db == after && turn.reply == Some(reply)
        else Finishes(turn.db, turn.pc, inputs, after, reply)
    ensures Finishes(db, pc, inputs, after, reply)
  {}

  class TerminateSession {
    const sessions: SessionRepository
    const hydra: Hydra

    constructor (sessions: SessionRepository, hydra: Hydra)
      ensures this.sessions == sessions && this.hydra == hydra
    {
      this.sessions, this.hydra := sessions, hydra;
    }

    // Only the caller's own session; revoked in Hydra before it is ended here. When
    // Hydra refuses, nothing changes.
    method Execute(userID: Id, sessionID: Id, inputs: nat -> C.Env) returns (reply: C.Reply)
      modifies sessions.pool`rows, hydra`logins
      ensures Finishes(old(View(sessions.pool, hydra)), C.Begin(C.Terminate(userID, sessionID)), inputs,
        View(sessions.pool, hydra), reply)
      ensures var rows := old(sessions.pool.rows);
        if sessionID !in rows || rows[sessionID].userId != userID then
          reply == C.Failed(T.ErrSessionNotFound) && sessions.pool.rows == rows && hydra.logins == old(hydra.logins)
        else if rows[sessionID].hydraSessionId != "" && !inputs(2).hydraOk then
          reply == C.Failed(T.HydraError) && sessions.pool.rows == rows && hydra.logins == old(hydra.logins)
        else
          && reply == C.Done && sessions.pool.Table() ==
             T.MarkEnded(old(sessions.pool.Table()), T.ById(sessionID), inputs(1).now)
          && var sid := rows[sessionID].hydraSessionId;
             && (sid != "" && sid in hydra.logins ==> hydra.logins[sid].revoked)
             && EndedWhere(rows, sessions.pool.rows, (set k | k in rows && rows[k].id == sessionID), inputs(1).now)
             && RevokedWhere(old(hydra.logins), hydra.logins, set s | s in old(hydra.logins) && s == sid && sid != "")
    {
      ghost var db := View(sessions.pool, hydra);
      var found := sessions.FindByID(sessionID);
      if found.Err? || found.value.userId != userID {
        reply := C.Failed(T.ErrSessionNotFound);
      } else {
        var sid := found.value.hydraSessionId;
        var err := false;
        if sid != "" {
          err := hydra.RevokeLoginSessionByID(sid, inputs(2).hydraOk);
        }
        ghost var db' := View(sessions.pool, hydra);
        if err {
          reply := C.Failed(T.HydraError);
        } else {
          sessions.MarkEnded(sessionID, inputs(1).now);
          reply := C.Done;
          Finish(db', C.TermMark(sessionID), inputs, View(sessions.pool, hydra), reply);
        }
        if sid != "" {
          hide C.RunAlone;
          assert db' == if err then db else T.RevokeById(db, sid);
          Finish(db, C.TermRevoke(sessionID, sid), inputs, View(sessions.pool, hydra), reply);
        }
      }
      hide C.RunAlone;
      Finish(db, C.Begin(C.Terminate(userID, sessionID)), inputs, View(sessions.pool, hydra), reply);
    }
  }

  class TerminateAllSessions {
    const sessions: SessionRepository
    const hydra: Hydra

    constructor (sessions: SessionRepository, hydra: Hydra)
      ensures this.sessions == sessions && this.hydra == hydra
    {
      this.sessions, this.hydra := sessions, hydra;
    }

    method Execute(userID: Id, inputs: nat -> C.Env) returns (reply: C.Reply)
      modifies sessions.pool`rows, hydra`logins
      ensures Finishes(old(View(sessions.pool, hydra)), C.Begin(C.TerminateAll(userID)), inputs,
        View(sessions.pool, hydra), reply)
      ensures inputs(3).hydraOk ==>
        && reply == C.Done && sessions.pool.Table() ==
           T.MarkEnded(old(sessions.pool.Table()), T.ByUser(userID), inputs(1).now)
        && T.ActiveIds(View(sessions.pool, hydra), userID) == {}
        && (forall sid | sid in hydra.logins && hydra.logins[sid].subject == userID :: hydra.logins[sid].revoked)
        && EndedWhere(old(sessions.pool.rows), sessions.pool.rows,
                      (set k | k in old(sessions.pool.rows) && old(sessions.pool.rows)[k].userId == userID),
                      inputs(1).now)
        && RevokedWhere(old(hydra.logins), hydra.logins,
                        set s | s in old(hydra.logins) && old(hydra.logins)[s].subject == userID)
      ensures !inputs(3).hydraOk ==>
        reply == C.Failed(T.HydraError) && sessions.pool.rows == old(sessions.pool.rows)
          && hydra.logins == old(hydra.logins)
    {
      hide C.RunAlone;
      ghost var db := View(sessions.pool, hydra);
      var err := hydra.RevokeLoginSessionsBySubject(userID, inputs(3).hydraOk);
      ghost var db' := View(sessions.pool, hydra);
      assert db' == if err then db else T.RevokeBySubject(db, userID);
      if err {
        reply := C.Failed(T.HydraError);
      } else {
        sessions.MarkAllEndedByUser(userID, inputs(1).now);
        reply := C.Done;
        Finish(db', C.AllMark(userID), inputs, View(sessions.pool, hydra), reply);
      }
      Finish(db, C.Begin(C.TerminateAll(userID)), inputs, View(sessions.pool, hydra), reply);
    }
  }

  class AuthHandlers {
    const sessions: SessionRepository
    const hydra: Hydra

    constructor (sessions: SessionRepository, hydra: Hydra)
      ensures this.sessions == sessions && this.hydra == hydra
    {
      this.sessions, this.hydra := sessions, hydra;
    }

    // inputs(3).consent is Hydra's answer about the challenge.
    method GetConsent(challenge: string, userAgent: string, ip: string, inputs: nat -> C.Env) returns (reply: C.Reply)
      modifies sessions.pool`rows, hydra`accepted, hydra`rejected
      ensures Finishes(old(View(sessions.pool, hydra)), C.Begin(C.Consent(challenge, userAgent, ip)), inputs,
        View(sessions.pool, hydra), reply)
      // A row appears only for a trusted client with a subject whose consent Hydra has accepted.
      ensures sessions.pool.rows != old(sessions.pool.rows) ==>
        inputs(3).consent.trusted && inputs(3).consent.subject != "" && challenge in hydra.accepted
          && reply == C.Redirect
      // An untrusted client is never accepted.
      ensures !inputs(3).consent.trusted ==> hydra.accepted == old(hydra.accepted)
      // What the handler answers, decides in Hydra and stores.
      ensures var req, failed := inputs(3).consent, reply == C.Failed(T.ConsentFlowError);
        var rows, accepted, rejected := old(sessions.pool.rows), old(hydra.accepted), old(hydra.rejected);
        if !inputs(3).hydraOk || req.subject == "" then
          failed && sessions.pool.rows == rows && hydra.accepted == accepted && hydra.rejected == rejected
        else if !req.trusted then
          && (if inputs(1).hydraOk then reply == C.Redirect else failed)
          && sessions.pool.rows == rows && hydra.accepted == accepted
          && hydra.rejected == rejected + if inputs(1).hydraOk then {challenge} else {}
        else if !inputs(2).hydraOk then
          failed && sessions.pool.rows == rows && hydra.accepted == accepted && hydra.rejected == rejected
        else
          && reply == C.Redirect && hydra.accepted == accepted + {challenge} && hydra.rejected == rejected
          && var id := inputs(1).id;
          sessions.pool.rows ==
            if id in rows || req.subject !in sessions.pool.users then rows
            else rows[id := T.Session(id, req.subject, req.loginSessionId,
                                      if userAgent == "" then "Unknown device" else userAgent, userAgent, ip, "",
                                      -62_135_596_800_000_000_000, -62_135_596_800_000_000_000, None)]
    {
      hide C.RunAlone;
      ghost var db := View(sessions.pool, hydra);
      var req := inputs(3).consent;
      if !inputs(3).hydraOk || req.subject == "" {
        reply := C.Failed(T.ConsentFlowError);
      } else if !req.trusted {
        var err := hydra.RejectConsentRequest(challenge, inputs(1).hydraOk);
        reply := if err then C.Failed(T.ConsentFlowError) else C.Redirect;
        Finish(db, C.ConsentReject(challenge), inputs, View(sessions.pool, hydra), reply);
      } else {
        var err := hydra.AcceptConsentRequest(challenge, inputs(2).hydraOk);
        ghost var db' := View(sessions.pool, hydra);
        if err {
          reply := C.Failed(T.ConsentFlowError);
        } else {
          // The error is only logged.
          var _ := sessions.Create(C.NewSession(req, userAgent, ip, inputs(1)));
          reply := C.Redirect;
          Finish(db', C.ConsentRecord(challenge, req, userAgent, ip), inputs, View(sessions.pool, hydra), reply);
        }
        Finish(db, C.ConsentAccept(challenge, req, userAgent, ip), inputs, View(sessions.pool, hydra), reply);
      }
      Finish(db, C.Begin(C.Consent(challenge, userAgent, ip)), inputs, View(sessions.pool, hydra), reply);
    }
  }
}
