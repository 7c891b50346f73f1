/** The request handlers that stand in front of the limiters: gate first, act,
    then record a failure or clear. What each does to the limiters is the `Serve`
    of HandlerRuns.dfy, so the limits proved there over runs hold of them. */
module Routers {
  import opened Wrappers
  import opened Clock
  import opened LimiterModel
  import opened FailureLimiters
  import opened HandlerRuns
  import AdminAuthModel
  import opened AdminAuths
  import Ledger
  import opened LicensingDatabase

  datatype Response<T> = TooMany(retryAfter: int) | Answer(value: T)

  datatype LoginAnswer = LoggedIn(email: string) | InvalidCredentials

  datatype DeleteAnswer = InvalidPassword | Handled(reply: Result<Ledger.Reply, Ledger.Error>)

  predicate CanLogin(cr: AdminAuthModel.Crypto, a: AdminAuthModel.Auth, email: string, password: string, code: string,
                     now: Time)
  {
    AdminAuthModel.LoginStep(cr, a, email, password, code, now).Some?
  }

  lemma ActivationServed(cs: Configs, before: Doors, ip: string, ok: bool, gate: Time, at: Time, after: Doors)
    requires Wait(before.activation, ip, gate) == 0
    requires after == before.(activation := if ok then Probed(before.activation, ip, gate)
                                            else Counted(cs.activation, before.activation, ip, gate, at))
    ensures Ended(cs, before, ActivateTry(ip, ok, gate, at), after)
  {
  }

  lemma LoginServed(cs: Configs, before: Doors, r: Request, after: Doors)
    requires !r.ActivateTry? && Wait(before.email, r.email, r.gate) == 0 && Wait(before.ip, r.ip, r.gate) == 0
    requires var email, ip := Probed(before.email, r.email, r.gate), Probed(before.ip, r.ip, r.gate);
             after == if r.ok then before.(email := if r.LoginTry? then Drop(email, {r.email}) else email, ip := ip)
                      else before.(email := Recorded(cs.email, email, r.email, r.at),
                                   ip := Recorded(cs.ip, ip, r.ip, r.at))
    ensures Ended(cs, before, r, after)
  {
  }

  lemma LoginTurned(cs: Configs, before: Doors, r: Request, after: Doors)
    requires !r.ActivateTry? && !(Wait(before.email, r.email, r.gate) == 0 && Wait(before.ip, r.ip, r.gate) == 0)
    requires after == before.(email := Probed(before.email, r.email, r.gate), ip := Probed(before.ip, r.ip, r.gate))
    ensures Turned(cs, before, r, after)
  {
  }

  /** The account tables after a login, accepted or not. */
  function LoginOutcome(cr: AdminAuthModel.Crypto, lim: AdminAuthModel.Limits, a: AdminAuthModel.Auth, email: string,
                        password: string, code: string, raw: string, now: Time): AdminAuthModel.Auth
  {
    AdminAuthModel.DoLogin(cr, lim, false, a, email, password, code, raw, now).auth
  }

  function Longer(a: int, b: int): int {
    if a >= b then a else b
  }

  /** How long a caller is told to wait at the login gate. */
  function LoginWait(d: Doors, email: string, ip: string, gate: Time): int {
    Longer(Wait(d.email, email, gate), Wait(d.ip, ip, gate))
  }

  /** The longer wait covers the longer lock. */
  lemma LongerCovers(a: int, spanA: Time, b: int, spanB: Time)
    requires Covers(a, spanA) && Covers(b, spanB)
    ensures Covers(Longer(a, b), Longer(spanA, spanB))
  {
  }

  /** The gate kept the request out, and the limiters are as `Serve` has them. */
  predicate Turned(cs: Configs, before: Doors, r: Request, after: Doors) {
    EndingOf(before, r) == TurnedAway && after == Serve(cs, before, r)
  }

  /** The gate let the request in, and the limiters are as `Serve` has them. */
  predicate Ended(cs: Configs, before: Doors, r: Request, after: Doors) {
    EndingOf(before, r) == (if r.ok then Passed else Denied) && after == Serve(cs, before, r)
  }

  class Router {
    const emailLimiter: FailureLimiter
    const ipLimiter: FailureLimiter
    const activationLimiter: FailureLimiter
    const auth: AdminAuth
    const database: Database

    ghost predicate Valid()
      reads this, emailLimiter, ipLimiter, activationLimiter, auth
    {
      && emailLimiter != ipLimiter && emailLimiter != activationLimiter && ipLimiter != activationLimiter
      && emailLimiter.Valid() && ipLimiter.Valid() && activationLimiter.Valid() && auth.Valid()
      && Sensible(emailLimiter.config) && Sensible(ipLimiter.config) && Sensible(activationLimiter.config)
    }

    function Limits(): Configs
    {
      Configs(emailLimiter.config, ipLimiter.config, activationLimiter.config)
    }

    function Tables(): Doors
      reads emailLimiter, ipLimiter, activationLimiter
    {
      Doors(emailLimiter.Tables(), ipLimiter.Tables(), activationLimiter.Tables())
    }

    constructor (email: FailureLimiter, ip: FailureLimiter, activation: FailureLimiter, a: AdminAuth, d: Database)
      requires email != ip && email != activation && ip != activation
      requires email.Valid() && ip.Valid() && activation.Valid() && a.Valid()
      requires Sensible(email.config) && Sensible(ip.config) && Sensible(activation.config)
      ensures Valid()
      ensures emailLimiter == email && ipLimiter == ip && activationLimiter == activation && auth == a && database == d
    {
      emailLimiter, ipLimiter, activationLimiter, auth, database := email, ip, activation, a, d;
    }

    /** Ask both login limiters; the longer wait counts. */
    method LoginGate(email: string, ip: string, gate: Time) returns (wait: int)
      requires Valid() && emailLimiter.clock <= gate && ipLimiter.clock <= gate
      modifies emailLimiter, ipLimiter
      ensures Valid() && emailLimiter.clock == gate && ipLimiter.clock == gate
      ensures wait == LoginWait(old(Tables()), email, ip, gate) >= 0
      ensures wait == 0 <==> Wait(old(Tables()).email, email, gate) == 0 && Wait(old(Tables()).ip, ip, gate) == 0
      ensures Covers(wait, Longer(LockLeft(old(Tables()).email, email, gate), LockLeft(old(Tables()).ip, ip, gate)))
      ensures Tables() == old(Tables()).(email := Probed(old(Tables()).email, email, gate),
                                         ip := Probed(old(Tables()).ip, ip, gate))
    {
      var byEmail := emailLimiter.RetryAfter(email, gate);
      var byIp := ipLimiter.RetryAfter(ip, gate);
      LongerCovers(byEmail, LockLeft(old(Tables()).email, email, gate), byIp, LockLeft(old(Tables()).ip, ip, gate));
      wait := if byEmail >= byIp then byEmail else byIp;
    }

    /** Count one failure of the e-mail and one of the address. */
    method CountFailure(email: string, ip: string, at: Time)
      requires Valid() && emailLimiter.clock <= at && ipLimiter.clock <= at
      modifies emailLimiter, ipLimiter
      ensures Valid()
      ensures Tables() == old(Tables()).(email := Recorded(Limits().email, old(Tables()).email, email, at),
                                         ip := Recorded(Limits().ip, old(Tables()).ip, ip, at))
    {
      var raised := emailLimiter.RecordFailure(email, at);
      raised := ipLimiter.RecordFailure(ip, at);
    }

    /** POST /admin/auth/login. A locked-out caller never reaches the account
        tables; one that is let in does to them what a login does. */
    method Login(email: string, password: string, code: string, raw: string, ip: string, gate: Time, at: Time)
      returns (response: Response<LoginAnswer>)
      requires Valid() && gate <= at
      requires emailLimiter.clock <= gate && ipLimiter.clock <= gate && auth.clock <= gate
      modifies emailLimiter, ipLimiter, auth
      ensures Valid()
      ensures var ok := CanLogin(auth.crypto, old(auth.Tables()), email, password, code, gate);
              var request := LoginTry(email, ip, ok, gate, at);
              if response.TooMany? then
                && Turned(Limits(), old(Tables()), request, Tables())
                && response.retryAfter == LoginWait(old(Tables()), email, ip, gate) > 0
              else
                && Ended(Limits(), old(Tables()), request, Tables())
                && response == Answer(if ok then LoggedIn(email) else InvalidCredentials)
      ensures response == Answer(LoggedIn(email)) ==>
                PasswordFits(auth.crypto, old(auth.Tables()), email, Some(password))
      ensures auth.Tables() ==
                if response.TooMany? then old(auth.Tables())
                else LoginOutcome(auth.crypto, auth.limits, old(auth.Tables()), email, password, code, raw, gate)
    {
      ghost var request :=
        LoginTry(email, ip, CanLogin(auth.crypto, auth.Tables(), email, password, code, gate), gate, at);
      var wait := LoginGate(email, ip, gate);
      if wait > 0 {
        LoginTurned(Limits(), old(Tables()), request, Tables());
        return TooMany(wait);
      }
      var ok := LetIn(email, password, code, raw, ip, gate, at);
      LoginServed(Limits(), old(Tables()), request, Tables());
      return Answer(if ok then LoggedIn(email) else InvalidCredentials);
    }

    /** The login of a caller that the gate let in. */
    method LetIn(email: string, password: string, code: string, raw: string, ip: string, gate: Time, at: Time)
      returns (ok: bool)
      requires Valid() && emailLimiter.clock == gate && ipLimiter.clock == gate && auth.clock <= gate <= at
      modifies emailLimiter, ipLimiter, auth
      ensures Valid()
      ensures ok <==> CanLogin(auth.crypto, old(auth.Tables()), email, password, code, gate)
      ensures auth.Tables()
           == LoginOutcome(auth.crypto, auth.limits, old(auth.Tables()), email, password, code, raw, gate)
      ensures Tables() == if ok then old(Tables()).(email := Drop(old(Tables()).email, {email}))
                          else old(Tables()).(email := Recorded(Limits().email, old(Tables()).email, email, at),
                                              ip := Recorded(Limits().ip, old(Tables()).ip, ip, at))
    {
      ok := SignIn(email, password, code, raw, gate);
      if ok {
        emailLimiter.Clear(email);
      } else {
        CountFailure(email, ip, at);
      }
    }

    method SignIn(email: string, password: string, code: string, raw: string, now: Time) returns (ok: bool)
      requires Valid() && auth.clock <= now
      modifies auth
      ensures Valid()
      ensures ok <==> CanLogin(auth.crypto, old(auth.Tables()), email, password, code, now)
      ensures auth.Tables()
           == LoginOutcome(auth.crypto, auth.limits, old(auth.Tables()), email, password, code, raw, now)
    {
      var reply := auth.Execute(AdminAuthModel.Login(email, password, code, raw), now);
      ok := reply.LoggedIn?;
    }

    /** POST /activate. Only an invalid token counts as a failure; a locked-out
        address is turned away before any database work, whatever its token. */
    method Activate(ip: string, body: Ledger.DeviceBody, secret: string, gate: Time, at: Time)
      returns (response: Response<Result<Ledger.Reply, Ledger.Error>>)
      requires Valid() && gate <= at && activationLimiter.clock <= gate
      modifies activationLimiter, database
      ensures Valid()
      ensures var o := Ledger.Step(old(database.Contents()), Ledger.PublicActivate(body, secret), gate);
              var request := ActivateTry(ip, o.reply != Err(Ledger.TokenInvalid), gate, at);
              if response.TooMany? then
                && Turned(Limits(), old(Tables()), request, Tables())
                && response.retryAfter == Wait(old(Tables()).activation, ip, gate) > 0
                && database.Contents() == old(database.Contents())
              else
                && Ended(Limits(), old(Tables()), request, Tables())
                && response == Answer(o.reply) && database.Contents() == o.db
    {
      var wait := ActivationGate(ip, gate);
      if wait > 0 {
        return TooMany(wait);
      }
      var reply := database.Execute(Ledger.PublicActivate(body, secret), gate);
      ActivationEnds(ip, reply != Err(Ledger.TokenInvalid), gate, at, old(Tables()));
      return Answer(reply);
    }

    method ActivationGate(ip: string, gate: Time) returns (wait: int)
      requires Valid() && activationLimiter.clock <= gate
      modifies activationLimiter
      ensures Valid() && activationLimiter.clock == gate && wait >= 0
      ensures wait == Wait(old(Tables()).activation, ip, gate)
      ensures Tables() == old(Tables()).(activation := Probed(old(Tables()).activation, ip, gate))
      ensures wait > 0 ==> forall ok, at :: Turned(Limits(), old(Tables()), ActivateTry(ip, ok, gate, at), Tables())
    {
      wait := activationLimiter.RetryAfter(ip, gate);
    }

    /** Count the failure, if it was one, of an activation that the gate let in. */
    method ActivationEnds(ip: string, ok: bool, gate: Time, at: Time, ghost before: Doors)
      requires Valid() && activationLimiter.clock == gate <= at && Wait(before.activation, ip, gate) == 0
      requires Tables() == before.(activation := Probed(before.activation, ip, gate))
      modifies activationLimiter
      ensures Valid()
      ensures Ended(Limits(), before, ActivateTry(ip, ok, gate, at), Tables())
    {
      if !ok {
        var raised := activationLimiter.RecordFailure(ip, at);
      }
      ActivationServed(Limits(), before, ip, ok, gate, at, Tables());
    }

    /** DELETE /admin/tenants/{id}. A wrong or missing password counts towards both
        login limiters and deletes nothing. */
    method DeleteTenant(tenantId: Ledger.Id, email: string, password: Option<string>, ip: string, gate: Time, at: Time)
      returns (response: Response<DeleteAnswer>)
      requires Valid() && gate <= at && emailLimiter.clock <= gate && ipLimiter.clock <= gate
      modifies emailLimiter, ipLimiter, database
      ensures Valid()
      ensures var ok := PasswordFits(auth.crypto, auth.Tables(), email, password);
              var request := DeleteTry(email, ip, ok, gate, at);
              var o := Ledger.Step(old(database.Contents()), Ledger.DeleteTenant(tenantId), at);
              if response.TooMany? then
                && Turned(Limits(), old(Tables()), request, Tables())
                && response.retryAfter == LoginWait(old(Tables()), email, ip, gate) > 0
                && database.Contents() == old(database.Contents())
              else
                && Ended(Limits(), old(Tables()), request, Tables())
                && response == Answer(if request.ok then Handled(o.reply) else InvalidPassword)
                && database.Contents() == if request.ok then o.db else old(database.Contents())
    {
      var ok := AdminPasswordOk(auth.crypto, auth.Tables(), email, password);
      var wait := PasswordGate(email, ip, ok, gate, at);
      if wait > 0 { return TooMany(wait); }
      var answer := DeleteIf(ok, tenantId, at);
      return Answer(answer);
    }

    method DeleteIf(ok: bool, tenantId: Ledger.Id, at: Time) returns (answer: DeleteAnswer)
      requires Valid()
      modifies database
      ensures Valid() && Tables() == old(Tables())
      ensures var o := Ledger.Step(old(database.Contents()), Ledger.DeleteTenant(tenantId), at);
              && answer == (if ok then Handled(o.reply) else InvalidPassword)
              && database.Contents() == if ok then o.db else old(database.Contents())
    {
      if !ok { return InvalidPassword; }
      var reply := database.Execute(Ledger.DeleteTenant(tenantId), at);
      return Handled(reply);
    }

    /** The gate in front of a re-entered password, and the count behind it. */
    method PasswordGate(email: string, ip: string, ok: bool, gate: Time, at: Time) returns (wait: int)
      requires Valid() && gate <= at && emailLimiter.clock <= gate && ipLimiter.clock <= gate
      modifies emailLimiter, ipLimiter
      ensures Valid() && wait == LoginWait(old(Tables()), email, ip, gate) >= 0
      ensures var request := DeleteTry(email, ip, ok, gate, at);
              if wait > 0 then Turned(Limits(), old(Tables()), request, Tables())
              else Ended(Limits(), old(Tables()), request, Tables())
    {
      wait := LoginGate(email, ip, gate);
      if wait > 0 {
        LoginTurned(Limits(), old(Tables()), DeleteTry(email, ip, ok, gate, at), Tables());
      } else {
        DeleteEnds(email, ip, ok, gate, at, old(Tables()));
      }
    }

    /** Count the failure, if it was one, of a re-entered password. */
    method DeleteEnds(email: string, ip: string, ok: bool, gate: Time, at: Time, ghost before: Doors)
      requires Valid() && emailLimiter.clock == gate <= at && ipLimiter.clock == gate
      requires Wait(before.email, email, gate) == 0 && Wait(before.ip, ip, gate) == 0
      requires Tables() == before.(email := Probed(before.email, email, gate), ip := Probed(before.ip, ip, gate))
      modifies emailLimiter, ipLimiter
      ensures Valid()
      ensures Ended(Limits(), before, DeleteTry(email, ip, ok, gate, at), Tables())
    {
      if !ok {
        CountFailure(email, ip, at);
      }
      LoginServed(Limits(), before, DeleteTry(email, ip, ok, gate, at), Tables());
    }
  }

  /** The password was given, the user is there and active, and it fits the stored hash. */
  predicate PasswordFits(cr: AdminAuthModel.Crypto, a: AdminAuthModel.Auth, email: string, password: Option<string>) {
    && password.Some? && email in a.users && a.users[email].isActive
    && |password.value| <= 1024 && cr.passwordOk(a.users[email].passwordHash, password.value)
  }

  /** `verify_admin_password`. */
  predicate AdminPasswordOk(cr: AdminAuthModel.Crypto, a: AdminAuthModel.Auth, email: string,
                            password: Option<string>)
  {
    && password.Some? && email in a.users && a.users[email].isActive
    && AdminAuthModel.VerifyPassword(cr, a.users[email].passwordHash, password.value)
  }
}
