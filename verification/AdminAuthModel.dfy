/** Admin accounts and sessions as one value, and what each call makes of them.

    Passwords, codes and tokens are abstract: `Crypto` says which password fits
    a stored hash and which code belongs to a secret at a time step. E-mails
    stand for the users' ids and raw tokens for their hashes, one to one. */
module AdminAuthModel {
  import opened Wrappers
  import opened Clock

  datatype Crypto = Crypto(passwordOk: (string, string) -> bool, codeAt: (string, int) -> string)

  datatype Limits = Limits(idle: Time, absolute: Time)

  const TOTP_INTERVAL: int := 30 * SECOND
  const MIN_PASSWORD_LENGTH := 12
  const MAX_PASSWORD_LENGTH := 1024

  datatype User = User(passwordHash: string, secret: string, lastStep: Option<int>, isActive: bool)

  datatype Session = Session(owner: string, createdAt: Time, lastSeenAt: Time, expiresAt: Time, revokedAt: Option<Time>)

  datatype Auth = Auth(users: map<string, User>, sessions: map<string, Session>)

  const NOBODY := Auth(map[], map[])

  datatype Op =
    | CreateAdmin(email: string, password: string, hash: string, secret: string)
    | Login(email: string, password: string, code: string, raw: string)
    | Resolve(raw: string)
    | Logout(raw: string)
    | RevokeSessions(email: string)
    | ResetPassword(email: string, password: string, hash: string)
    | ResetTotp(email: string, secret: string)
    | SetActive(email: string, active: bool)

  datatype Reply =
    | Done
    | UserError
    | LoggedIn(step: int)
    | LoginFailed
    | Accepted(email: string)
    | Refused
    | LoggedOut(email: string)
    | NoSession

  datatype Outcome = Outcome(auth: Auth, reply: Reply)

  function CurrentStep(now: Time): int {
    now / TOTP_INTERVAL
  }

  predicate SixDigits(code: string) {
    |code| == 6 && forall i :: 0 <= i < 6 ==> '0' <= code[i] <= '9'
  }

  /** The lowest step among the current one and its neighbours that `code` belongs to. */
  function MatchStep(cr: Crypto, secret: string, code: string, current: int): Option<int> {
    if !SixDigits(code) then None
    else if cr.codeAt(secret, current - 1) == code then Some(current - 1)
    else if cr.codeAt(secret, current) == code then Some(current)
    else if cr.codeAt(secret, current + 1) == code then Some(current + 1)
    else None
  }

  predicate StrongPassword(password: string) {
    MIN_PASSWORD_LENGTH <= |password| <= MAX_PASSWORD_LENGTH
  }

  predicate VerifyPassword(cr: Crypto, hash: string, password: string) {
    |password| <= MAX_PASSWORD_LENGTH && cr.passwordOk(hash, password)
  }

  /** Housekeeping at session creation: forget what expired a day ago. */
  function Purged(sessions: map<string, Session>, now: Time): map<string, Session> {
    map raw | raw in sessions && !(sessions[raw].expiresAt < now - DAY) :: sessions[raw]
  }

  function RevokedFor(sessions: map<string, Session>, email: string, now: Time): map<string, Session> {
    map raw | raw in sessions ::
      if sessions[raw].owner == email && sessions[raw].revokedAt.None?
      then sessions[raw].(revokedAt := Some(now)) else sessions[raw]
  }

  function PutUser(a: Auth, email: string, u: User): Auth {
    a.(users := a.users[email := u])
  }

  /** The step a login consumes, if its credentials are good and the step is new. */
  function LoginStep(cr: Crypto, a: Auth, email: string, password: string, code: string, now: Time): Option<int> {
    if email !in a.users then None
    else
      var u := a.users[email];
      var step := MatchStep(cr, u.secret, code, CurrentStep(now));
      if u.isActive && VerifyPassword(cr, u.passwordHash, password) && step.Some?
         && (u.lastStep.None? || u.lastStep.value < step.value)
      then step else None
  }

  /** `keeps` switches the housekeeping off, to compare the two. */
  function DoLogin(cr: Crypto, lim: Limits, keeps: bool, a: Auth, email: string, password: string, code: string,
                   raw: string, now: Time): Outcome
  {
    var step := LoginStep(cr, a, email, password, code, now);
    if step.None? then Outcome(a, LoginFailed)
    else
      var sessions := if keeps then a.sessions else Purged(a.sessions, now);
      Outcome(Auth(a.users[email := a.users[email].(lastStep := step)],
                   sessions[raw := Session(email, now, now, now + lim.absolute, None)]),
              LoggedIn(step.value))
  }

  /** The session is one that `resolve_session` lets through. */
  predicate Live(lim: Limits, a: Auth, raw: string, now: Time) {
    && raw in a.sessions
    && var s := a.sessions[raw];
       && s.owner in a.users && s.revokedAt.None? && a.users[s.owner].isActive
       && now < s.expiresAt && now - s.lastSeenAt <= lim.idle
  }

  function DoResolve(lim: Limits, a: Auth, raw: string, now: Time): Outcome {
    if Live(lim, a, raw, now) then
      Outcome(a.(sessions := a.sessions[raw := a.sessions[raw].(lastSeenAt := now)]), Accepted(a.sessions[raw].owner))
    else Outcome(a, Refused)
  }

  function DoLogout(a: Auth, raw: string, now: Time): Outcome {
    if raw in a.sessions && a.sessions[raw].owner in a.users && a.sessions[raw].revokedAt.None? then
      Outcome(a.(sessions := a.sessions[raw := a.sessions[raw].(revokedAt := Some(now))]),
              LoggedOut(a.sessions[raw].owner))
    else Outcome(a, NoSession)
  }

  function DoAccount(a: Auth, op: Op, now: Time): Outcome
    requires op.CreateAdmin? || op.RevokeSessions? || op.ResetPassword? || op.ResetTotp? || op.SetActive?
  {
    match op
    case CreateAdmin(email, password, hash, secret) =>
      if !StrongPassword(password) || email in a.users then Outcome(a, UserError)
      else Outcome(PutUser(a, email, User(hash, secret, None, true)), Done)
    case RevokeSessions(email) =>
      if email !in a.users then Outcome(a, UserError)
      else Outcome(a.(sessions := RevokedFor(a.sessions, email, now)), Done)
    case ResetPassword(email, password, hash) =>
      if email !in a.users || !StrongPassword(password) then Outcome(a, UserError)
      else Outcome(Auth(a.users[email := a.users[email].(passwordHash := hash)],
                        RevokedFor(a.sessions, email, now)), Done)
    case ResetTotp(email, secret) =>
      if email !in a.users then Outcome(a, UserError)
      else Outcome(Auth(a.users[email := a.users[email].(secret := secret, lastStep := None)],
                        RevokedFor(a.sessions, email, now)), Done)
    case SetActive(email, active) =>
      if email !in a.users then Outcome(a, UserError)
      else
        var a' := PutUser(a, email, a.users[email].(isActive := active));
        Outcome(if active then a' else a'.(sessions := RevokedFor(a.sessions, email, now)), Done)
  }

  function Step(cr: Crypto, lim: Limits, keeps: bool, a: Auth, op: Op, now: Time): Outcome {
    match op
    case Login(email, password, code, raw) => DoLogin(cr, lim, keeps, a, email, password, code, raw, now)
    case Resolve(raw) => DoResolve(lim, a, raw, now)
    case Logout(raw) => DoLogout(a, raw, now)
    case _ => DoAccount(a, op, now)
  }

  datatype Event = Event(op: Op, now: Time)

  predicate Timed(clock: Time, events: seq<Event>)
    decreases |events|
  {
    events == [] || (clock <= events[0].now && Timed(events[0].now, events[1..]))
  }

  function EndTime(clock: Time, events: seq<Event>): Time
    decreases |events|
  {
    if events == [] then clock else EndTime(events[0].now, events[1..])
  }

  /** Session tokens come from a source that never repeats itself. */
  function TokensOf(op: Op): set<string> {
    if op.Login? then {op.raw} else {}
  }

  predicate FreshTokens(issued: set<string>, events: seq<Event>)
    decreases |events|
  {
    events != [] ==> TokensOf(events[0].op) !! issued && FreshTokens(issued + TokensOf(events[0].op), events[1..])
  }

  function IssuedAfter(issued: set<string>, events: seq<Event>): set<string>
    decreases |events|
  {
    if events == [] then issued else IssuedAfter(issued + TokensOf(events[0].op), events[1..])
  }

  function Run(cr: Crypto, lim: Limits, a: Auth, events: seq<Event>): Auth
    decreases |events|
  {
    if events == [] then a else Run(cr, lim, Step(cr, lim, false, a, events[0].op, events[0].now).auth, events[1..])
  }
}
