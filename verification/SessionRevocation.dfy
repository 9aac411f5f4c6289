// Who is logged out: over every interleaving, a login session is revoked by the calls
// that name it or its subject, and by nothing else.
module SessionRevocation {
  import opened Common
  import opened SessionTables
  import opened SessionCalls
  import opened SessionSystem
  import opened SessionTheorems

  // The event executes a request that Hydra grants: to revoke all login sessions of
  // sid's subject, or the login session of a session row that carries sid.
  ghost predicate Revokes(s: Sys, e: Event, sid: string) {
    && (e.Advance? || e.LoseAck?) && e.call in s.calls && s.calls[e.call].reply == None && e.env.hydraOk
    && sid in s.db.logins
    && match s.calls[e.call].pc
       case Begin(TerminateAll(user)) => s.db.logins[sid].subject == user
       case TermRevoke(session, _) => session in s.db.rows && s.db.rows[session].hydraSessionId == sid
       case _ => false
  }

  lemma StatementRevokes(s: Sys, c: nat, env: Env, lost: bool, sid: string)
    requires SysOk(s) && Live(s, c)
    ensures var e := if lost then LoseAck(c, env) else Advance(c, env);
      IsRevoked(Step(s.db, s.calls[c].pc, env).db, sid) <==> IsRevoked(s.db, sid) || Revokes(s, e, sid)
  {
    assert CallOk(s, c);
    hide DbOk;
  }

  lemma EventRevokes(s: Sys, e: Event, sid: string)
    requires SysOk(s)
    ensures IsRevoked(Next(s, e).db, sid) <==> IsRevoked(s.db, sid) || Revokes(s, e, sid)
  {
    match e
    case Advance(c, env) =>
      if Live(s, c) { StatementRevokes(s, c, env, false, sid); }
      hide SysOk, Step, Note;
    case LoseAck(c, env) =>
      if Live(s, c) { StatementRevokes(s, c, env, true, sid); }
      hide SysOk, Step, Note;
    case _ => hide SysOk, Step, Note;
  }

  ghost predicate RevokesAt(events: seq<Event>, n: nat, sid: string)
    requires n < |events|
  {
    Revokes(Run(INITIAL, events[..n]), events[n], sid)
  }

  lemma {:induction false} RevokedIff(events: seq<Event>, sid: string)
    ensures IsRevoked(Run(INITIAL, events).db, sid) <==> exists n: nat :: n < |events| && RevokesAt(events, n, sid)
  {
    hide IsRevoked, Revokes, Next, SysOk;
    if events == [] {
      assert !IsRevoked(INITIAL.db, sid) by { NobodyYet(sid); }
    } else {
      var n := |events| - 1;
      var front := events[..n];
      RevokedIff(front, sid);
      RunKeeps(front);
      EventRevokes(Run(INITIAL, front), events[n], sid);
      forall m: nat | m < n ensures RevokesAt(front, m, sid) <==> RevokesAt(events, m, sid) {
        assert front[..m] == events[..m];
      }
      assert RevokesAt(events, n, sid) <==> Revokes(Run(INITIAL, front), events[n], sid);
    }
  }

  lemma NobodyYet(sid: string)
    ensures !IsRevoked(INITIAL.db, sid)
  {}
}
