/** The account and session tables, changed row by row. */
module AdminAuths {
  import opened Wrappers
  import opened Clock
  import opened AdminAuthModel
  import AdminSessions

  /** Compare the code with three neighbouring steps, always all three, keeping
      the first that fits. */
  method MatchTotpStep(cr: Crypto, secret: string, code: string, now: Time) returns (found: Option<int>)
    ensures found == MatchStep(cr, secret, code, CurrentStep(now))
    ensures found.Some? ==>
              && cr.codeAt(secret, found.value) == code
              && CurrentStep(now) - 1 <= found.value <= CurrentStep(now) + 1
              && forall s :: CurrentStep(now) - 1 <= s < found.value ==> cr.codeAt(secret, s) != code
    ensures found.None? && SixDigits(code) ==>
              forall s :: CurrentStep(now) - 1 <= s <= CurrentStep(now) + 1 ==> cr.codeAt(secret, s) != code
  {
    if |code| != 6 || exists i :: 0 <= i < 6 && !('0' <= code[i] <= '9') {
      return None;
    }
    var current := CurrentStep(now);
    found := None;
    for step := current - 1 to current + 2
      invariant found.Some? ==>
                  && current - 1 <= found.value < step && cr.codeAt(secret, found.value) == code
                  && forall s :: current - 1 <= s < found.value ==> cr.codeAt(secret, s) != code
      invariant found.None? ==> forall s :: current - 1 <= s < step ==> cr.codeAt(secret, s) != code
    {
      if cr.codeAt(secret, step) == code && found.None? {
        found := Some(step);
      }
    }
  }

  class AdminAuth {
    const crypto: Crypto
    const limits: Limits
    var users: map<string, User>
    var sessions: map<string, Session>
    ghost var issued: set<string>
    ghost var clock: Time

    function Tables(): Auth
      reads this
    {
      Auth(users, sessions)
    }

    /** Inactive users have only revoked sessions, among the rest. */
    ghost predicate Valid()
      reads this
    {
      AdminSessions.Sensible(limits) && AdminSessions.Inv(limits, Tables(), issued, clock)
    }

    constructor (cr: Crypto, lim: Limits)
      requires AdminSessions.Sensible(lim)
      ensures Valid() && crypto == cr && limits == lim && Tables() == NOBODY
    {
      crypto, limits := cr, lim;
      users, sessions := map[], map[];
      issued, clock := {}, 0;
    }

    /** Any call, at a time no earlier than the last one. */
    method Execute(op: Op, now: Time) returns (reply: Reply)
      requires Valid() && clock <= now
      modifies this
      ensures Valid() && clock == now && issued == old(issued) + TokensOf(op)
      ensures reply == Step(crypto, limits, false, old(Tables()), op, now).reply
      ensures Tables() == Step(crypto, limits, false, old(Tables()), op, now).auth
    {
      AdminSessions.StepKeeps(crypto, limits, false, Tables(), issued, clock, op, now);
      issued, clock := issued + TokensOf(op), now;
      match op {
        case CreateAdmin(email, password, hash, secret) => reply := CreateAdmin(email, password, hash, secret);
        case Login(email, password, code, raw) => reply := Login(email, password, code, raw, now);
        case Resolve(raw) => reply := ResolveSession(raw, now);
        case Logout(raw) => reply := RevokeSession(raw, now);
        case RevokeSessions(email) =>
          if email !in users { return UserError; }
          RevokeUserSessions(email, now);
          reply := Done;
        case ResetPassword(email, password, hash) => reply := ResetPassword(email, password, hash, now);
        case ResetTotp(email, secret) => reply := ResetTotp(email, secret, now);
        case SetActive(email, active) => reply := SetActive(email, active, now);
      }
    }

    /** Both factors are always checked; the step is consumed in one conditional UPDATE. */
    method Login(email: string, password: string, code: string, raw: string, now: Time) returns (reply: Reply)
      modifies this`users, this`sessions
      ensures var o := DoLogin(crypto, limits, false, old(Tables()), email, password, code, raw, now);
              reply == o.reply && Tables() == o.auth
      ensures reply.LoggedIn? ==>
                && email in old(users) && old(users)[email].isActive
                && |password| <= 1024 && crypto.passwordOk(old(users)[email].passwordHash, password)
                && crypto.codeAt(old(users)[email].secret, reply.step) == code
                && (old(users)[email].lastStep.Some? ==> old(users)[email].lastStep.value < reply.step)
    {
      var known := email in users;
      var passwordOk := known && VerifyPassword(crypto, users[email].passwordHash, password);
      var step := MatchTotpStep(crypto, if known then users[email].secret else "", code, now);
      if known && users[email].isActive && passwordOk && step.Some? {
        if users[email].lastStep.None? || users[email].lastStep.value < step.value {
          users := users[email := users[email].(lastStep := step)];
          CreateSession(email, raw, now);
          return LoggedIn(step.value);
        }
      }
      return LoginFailed;
    }

    /** The new session is added and what expired a day ago is forgotten; no other
        row appears, disappears or changes. */
    method CreateSession(email: string, raw: string, now: Time)
      modifies this`sessions
      ensures raw in sessions && sessions[raw] == Session(email, now, now, now + limits.absolute, None)
      ensures forall r :: r != raw ==>
                (r in sessions <==> r in old(sessions) && old(sessions)[r].expiresAt >= now - DAY)
      ensures forall r :: r != raw && r in sessions ==> sessions[r] == old(sessions)[r]
    {
      sessions := map r | r in sessions && !(sessions[r].expiresAt < now - DAY) :: sessions[r];
      sessions := sessions[raw := Session(email, now, now, now + limits.absolute, None)];
    }

    method ResolveSession(raw: string, now: Time) returns (reply: Reply)
      modifies this`sessions
      ensures var o := DoResolve(limits, old(Tables()), raw, now); reply == o.reply && Tables() == o.auth
    {
      if raw !in sessions || sessions[raw].owner !in users { return Refused; }
      var row := sessions[raw];
      if row.revokedAt.Some? || !users[row.owner].isActive { return Refused; }
      if row.expiresAt <= now { return Refused; }
      if now - row.lastSeenAt > limits.idle { return Refused; }
      sessions := sessions[raw := row.(lastSeenAt := now)];
      return Accepted(row.owner);
    }

    method RevokeSession(raw: string, now: Time) returns (reply: Reply)
      modifies this`sessions
      ensures var o := DoLogout(old(Tables()), raw, now); reply == o.reply && Tables() == o.auth
    {
      if raw !in sessions || sessions[raw].owner !in users || sessions[raw].revokedAt.Some? { return NoSession; }
      sessions := sessions[raw := sessions[raw].(revokedAt := Some(now))];
      return LoggedOut(sessions[raw].owner);
    }

    /** Every session of the user ends up revoked, those revoked before keeping their
        moment; no row is added or removed, no other column or owner is touched. */
    method RevokeUserSessions(email: string, now: Time)
      modifies this`sessions
      ensures sessions.Keys == old(sessions.Keys)
      ensures forall r :: r in sessions && sessions[r].owner != email ==> sessions[r] == old(sessions)[r]
      ensures forall r :: r in sessions && sessions[r].owner == email ==>
                && (old(sessions)[r].revokedAt.Some? ==> sessions[r].revokedAt == old(sessions)[r].revokedAt)
                && (old(sessions)[r].revokedAt.None? ==> sessions[r].revokedAt == Some(now))
                && sessions[r] == old(sessions)[r].(revokedAt := sessions[r].revokedAt)
    {
      sessions := map raw | raw in sessions ::
                    if sessions[raw].owner == email && sessions[raw].revokedAt.None?
                    then sessions[raw].(revokedAt := Some(now)) else sessions[raw];
    }

    method CreateAdmin(email: string, password: string, hash: string, secret: string) returns (reply: Reply)
      modifies this`users
      ensures var o := DoAccount(old(Tables()), Op.CreateAdmin(email, password, hash, secret), 0);
              reply == o.reply && Tables() == o.auth
    {
      if !StrongPassword(password) { return UserError; }
      if email in users { return UserError; }
      users := users[email := User(hash, secret, None, true)];
      return Done;
    }

    method ResetPassword(email: string, password: string, hash: string, now: Time) returns (reply: Reply)
      modifies this`users, this`sessions
      ensures var o := DoAccount(old(Tables()), Op.ResetPassword(email, password, hash), now);
              reply == o.reply && Tables() == o.auth
    {
      if email !in users { return UserError; }
      if !StrongPassword(password) { return UserError; }
      users := users[email := users[email].(passwordHash := hash)];
      RevokeUserSessions(email, now);
      return Done;
    }

    method ResetTotp(email: string, secret: string, now: Time) returns (reply: Reply)
      modifies this`users, this`sessions
      ensures var o := DoAccount(old(Tables()), Op.ResetTotp(email, secret), now);
              reply == o.reply && Tables() == o.auth
    {
      if email !in users { return UserError; }
      users := users[email := users[email].(secret := secret, lastStep := None)];
      RevokeUserSessions(email, now);
      return Done;
    }

    method SetActive(email: string, active: bool, now: Time) returns (reply: Reply)
      modifies this`users, this`sessions
      ensures var o := DoAccount(old(Tables()), Op.SetActive(email, active), now);
              reply == o.reply && Tables() == o.auth
    {
      if email !in users { return UserError; }
      users := users[email := users[email].(isActive := active)];
      if !active {
        RevokeUserSessions(email, now);
      }
      return Done;
    }
  }
}
