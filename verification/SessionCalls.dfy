// The session use cases and the consent handler cut into atomic steps, one per request
// to Hydra or statement on Postgres: internal/application/identity/sessions_admin.go and
// getConsent in internal/presentation/http/auth_handlers.go.
module SessionCalls {
  import opened Common
  import opened SessionTables

  // EndBySid stands for a caller of MarkEndedByHydraSID; no use case has one.
  datatype Request =
    | Terminate(user: Id, session: Id)
    | TerminateAll(user: Id)
    | Consent(challenge: string, userAgent: string, ip: string)
    | EndBySid(sid: string)

  datatype Reply = Done | Redirect | Failed(error: Error)

  // What Hydra says about a consent challenge.
  datatype ConsentRequest = ConsentRequest(subject: Id, loginSessionId: string, trusted: bool)

  datatype Pc =
    | Begin(req: Request)
    | TermRevoke(session: Id, sid: string) | TermMark(session: Id) | TermEnd
    | AllMark(user: Id) | AllEnd
    | ConsentReject(challenge: string)
    | ConsentAccept(challenge: string, consent: ConsentRequest, userAgent: string, ip: string)
    | ConsentRecord(challenge: string, consent: ConsentRequest, userAgent: string, ip: string)
    | ConsentEnd
    | SidEnd

  // What clock, id generator and Hydra supply to a statement; hydraOk is false when the
  // request to Hydra returns an error.
  datatype Env = Env(now: Time, id: Id, hydraOk: bool, consent: ConsentRequest)

  datatype Turn = Turn(db: Db, pc: Pc, reply: Option<Reply>)

  function Stop(db: Db, pc: Pc, e: Error): Turn {
    Turn(db, pc, Some(Failed(e)))
  }

  function Go(db: Db, pc: Pc): Turn {
    Turn(db, pc, None)
  }

  function DeviceFromUA(ua: string): string {
    if ua == "" then "Unknown device" else ua
  }

  function NewSession(consent: ConsentRequest, userAgent: string, ip: string, env: Env): Session {
    Session(env.id, consent.subject, consent.loginSessionId, DeviceFromUA(userAgent), userAgent, ip, "", ZERO_TIME,
      ZERO_TIME, None)
  }

  function Step(db: Db, pc: Pc, env: Env): (turn: Turn)
    ensures turn.reply == None ==> Remaining(turn.pc) < Remaining(pc)
  {
    match pc
    case Begin(Terminate(user, session)) =>
      (match FindSession(db, session)
      case None => Stop(db, pc, ErrSessionNotFound)
      case Some(s) =>
        if s.userId != user then Stop(db, pc, ErrSessionNotFound)
        else if s.hydraSessionId != "" then Go(db, TermRevoke(session, s.hydraSessionId))
        else Go(db, TermMark(session)))
    case Begin(TerminateAll(user)) =>
      if !env.hydraOk then Stop(db, pc, HydraError) else Go(RevokeBySubject(db, user), AllMark(user))
    case Begin(Consent(challenge, userAgent, ip)) =>
      if !env.hydraOk then Stop(db, pc, ConsentFlowError)
      else if env.consent.subject == "" then Stop(db, pc, ConsentFlowError)
      else if !env.consent.trusted then Go(db, ConsentReject(challenge))
      else Go(db, ConsentAccept(challenge, env.consent, userAgent, ip))
    case Begin(EndBySid(sid)) => Turn(MarkEnded(db, BySid(sid), env.now), SidEnd, Some(Done))
    case TermRevoke(session, sid) =>
      if !env.hydraOk then Stop(db, pc, HydraError) else Go(RevokeById(db, sid), TermMark(session))
    case TermMark(session) => Turn(MarkEnded(db, ById(session), env.now), TermEnd, Some(Done))
    case AllMark(user) => Turn(MarkEnded(db, ByUser(user), env.now), AllEnd, Some(Done))
    case ConsentReject(challenge) =>
      if !env.hydraOk then Stop(db, pc, ConsentFlowError)
        else Turn(db.(rejected := db.rejected + {challenge}), ConsentEnd, Some(Redirect))
    case ConsentAccept(challenge, consent, userAgent, ip) =>
      if !env.hydraOk then Stop(db, pc, ConsentFlowError)
      else Go(db.(accepted := db.accepted + {challenge}), ConsentRecord(challenge, consent, userAgent, ip))
    case ConsentRecord(_, consent, userAgent, ip) =>
      // A failed insert is only logged.
      Turn(InsertSession(db, NewSession(consent, userAgent, ip, env)).db, ConsentEnd, Some(Redirect))
    case _ => Turn(db, pc, Some(Done))
  }

  function Remaining(pc: Pc): nat {
    match pc
    case Begin(_) => 3
    case TermRevoke(_, _) => 2
    case ConsentAccept(_, _, _, _) => 2
    case TermMark(_) => 1
    case AllMark(_) => 1
    case ConsentReject(_) => 1
    case ConsentRecord(_, _, _, _) => 1
    case _ => 0
  }

  function RunAlone(db: Db, pc: Pc, inputs: nat -> Env): (out: Turn)
    ensures out.reply.Some?
    decreases Remaining(pc)
  {
    var turn := Step(db, pc, inputs(Remaining(pc)));
    if turn.reply.Some? then turn else RunAlone(turn.db, turn.pc, inputs)
  }
}
