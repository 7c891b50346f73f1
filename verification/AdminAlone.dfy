/** A login or an account change that runs alone, statement by statement, does to users
    and sessions what its call does in `AdminAuthModel`. */
module AdminAlone {
  import opened Wrappers
  import opened Clock
  import opened AdminInterleaving
  import AdminAuthModel

  /** Which password hash and which secret the numbers of a user stand for. */
  datatype Names = Names(hash: (string, nat) -> string, secret: (string, nat) -> string)

  predicate ShowsUser(names: Names, email: string, u: User, v: AdminAuthModel.User) {
    && u.active == v.isActive && u.last == v.lastStep
    && names.hash(email, u.hash) == v.passwordHash && names.secret(email, u.secret) == v.secret
  }

  predicate ShowsSession(x: Session, y: AdminAuthModel.Session) {
    x.owner == y.owner && x.revoked == y.revokedAt.Some?
  }

  ghost predicate Quiet(txns: map<nat, Txn>) {
    forall j :: j in txns ==> txns[j].Ended?
  }

  /** Nothing is under way, users are those of the accounts, and so are the sessions that
      have not been cleaned up there. */
  ghost predicate Mirrors(names: Names, s: State, a: AdminAuthModel.Auth) {
    && Quiet(s.txns) && s.users.Keys == a.users.Keys
    && (forall e :: e in s.users ==> ShowsUser(names, e, s.users[e], a.users[e]))
    && (forall raw :: raw in a.sessions ==> raw in s.sessions && ShowsSession(s.sessions[raw], a.sessions[raw]))
  }

  /** The run is of transaction `i` alone and leads from `s` to `s'`. */
  ghost predicate Leads(s: State, i: nat, run: seq<Action>, s': State) {
    Possible(s, run) && After(s, run) == s' && forall a :: a in run ==> a.i == i
  }

  lemma LeadsCons(s: State, i: nat, a: Action, run: seq<Action>, s': State)
    requires a.i == i && Enabled(s, a) && Leads(Next(s, a), i, run, s')
    ensures Leads(s, i, [a] + run, s')
  {
    assert ([a] + run)[1..] == run;
  }

  lemma LeadsOne(s: State, i: nat, a: Action)
    requires a.i == i && Enabled(s, a)
    ensures Leads(s, i, [a], Next(s, a))
  {
    assert [a][1..] == [];
  }

  lemma AloneIsFree(s: State, i: nat, email: string)
    requires forall j :: j in s.txns && j != i ==> s.txns[j].Ended?
    ensures UserFree(s.txns, i, email) && SessionsFree(s, i, email)
  {
  }

  // ---- a login ----------------------------------------------------------------------------

  lemma LoginAlone(s: State, i: nat, raw: string, email: string, step: int) returns (run: seq<Action>, s': State)
    requires Quiet(s.txns) && i !in s.txns && raw !in s.sessions
    requires email in s.users && s.users[email].active && StepIsNew(s.users[email], step)
    ensures Leads(s, i, run, s') && Quiet(s'.txns) && s'.users == s.users[email := s.users[email].(last := Some(step))]
    ensures raw in s'.sessions && s'.sessions == s.sessions[raw := s'.sessions[raw]]
    ensures s'.sessions[raw].owner == email && !s'.sessions[raw].revoked
  {
    var u := s.users[email];
    var to := u.(last := Some(step));
    var s1, s2 := SetTxn(s, i, LoginStart(raw, email, step)), SetTxn(s, i, LoginRead(raw, email, step, u));
    var s3 := SetTxn(s, i, LoginSpent(raw, email, step, u, to));
    var s4 := SetTxn(s, i, LoginInserted(raw, email, step, u, to));
    AloneIsFree(s2, i, email);
    assert Next(s1, Advance(i)) == s2;
    assert Next(s2, Advance(i)) == s3;
    assert Next(s3, Advance(i)) == s4;
    s' := Next(s4, Commit(i));
    LeadsOne(s4, i, Commit(i));
    LeadsCons(s3, i, Advance(i), [Commit(i)], s');
    LeadsCons(s2, i, Advance(i), [Advance(i)] + [Commit(i)], s');
    run := [Advance(i)] + ([Advance(i)] + [Commit(i)]);
    LeadsCons(s1, i, Advance(i), run, s');
    LeadsCons(s, i, Begin(i, LoginStart(raw, email, step)), [Advance(i)] + run, s');
    run := [Begin(i, LoginStart(raw, email, step))] + ([Advance(i)] + run);
  }

  /** A login that succeeds has a run of its own that ends in the tables of the call. */
  lemma LoginIsStep(cr: AdminAuthModel.Crypto, lim: AdminAuthModel.Limits, a: AdminAuthModel.Auth, email: string,
                    password: string, code: string, raw: string, now: Time, names: Names, s: State, i: nat)
    returns (run: seq<Action>, s': State)
    requires Mirrors(names, s, a) && i !in s.txns && raw !in s.sessions
    requires AdminAuthModel.DoLogin(cr, lim, false, a, email, password, code, raw, now).reply.LoggedIn?
    ensures Leads(s, i, run, s')
    ensures Mirrors(names, s', AdminAuthModel.DoLogin(cr, lim, false, a, email, password, code, raw, now).auth)
  {
    var o := AdminAuthModel.DoLogin(cr, lim, false, a, email, password, code, raw, now);
    run, s' := LoginAlone(s, i, raw, email, o.reply.step);
  }

  // ---- changes of an account ----------------------------------------------------------------

  lemma ChangeAlone(s: State, i: nat, email: string, change: Change) returns (run: seq<Action>, s': State)
    requires Quiet(s.txns) && i !in s.txns && email in s.users
    ensures Leads(s, i, run, s') && Quiet(s'.txns) && s'.users == s.users[email := Apply(change, s.users[email])]
    ensures s'.sessions == if Revokes(change) then Revoked(s.sessions, LiveOf(s.sessions, email)) else s.sessions
  {
    var to, hit := Apply(change, s.users[email]), LiveOf(s.sessions, email);
    var s1, s2 := SetTxn(s, i, ChangeStart(email, change)), SetTxn(s, i, ChangeWritten(email, change, to));
    AloneIsFree(s1, i, email);
    AloneIsFree(s2, i, email);
    assert Next(s1, Advance(i)) == s2;
    if Revokes(change) {
      var s3 := SetTxn(s, i, ChangeRevoked(email, change, to, hit));
      assert Next(s2, Advance(i)) == s3;
      s' := Next(s3, Commit(i));
      LeadsOne(s3, i, Commit(i));
      LeadsCons(s2, i, Advance(i), [Commit(i)], s');
      run := [Advance(i)] + [Commit(i)];
    } else {
      s' := Next(s2, Commit(i));
      LeadsOne(s2, i, Commit(i));
      run := [Commit(i)];
    }
    LeadsCons(s1, i, Advance(i), run, s');
    LeadsCons(s, i, Begin(i, ChangeStart(email, change)), [Advance(i)] + run, s');
    run := [Begin(i, ChangeStart(email, change))] + ([Advance(i)] + run);
  }

  lemma RevokeAlone(s: State, i: nat, email: string) returns (run: seq<Action>, s': State)
    requires Quiet(s.txns) && i !in s.txns
    ensures Leads(s, i, run, s') && Quiet(s'.txns) && s'.users == s.users
    ensures s'.sessions == Revoked(s.sessions, LiveOf(s.sessions, email))
  {
    var s1, s2 := SetTxn(s, i, RevokeStart(email)), SetTxn(s, i, RevokeHit(email, LiveOf(s.sessions, email)));
    AloneIsFree(s1, i, email);
    assert Next(s1, Advance(i)) == s2;
    s' := Next(s2, Commit(i));
    LeadsOne(s2, i, Commit(i));
    LeadsCons(s1, i, Advance(i), [Commit(i)], s');
    LeadsCons(s, i, Begin(i, RevokeStart(email)), [Advance(i)] + [Commit(i)], s');
    run := [Begin(i, RevokeStart(email))] + ([Advance(i)] + [Commit(i)]);
  }

  lemma RevokedMirrors(names: Names, s: State, s': State, a: AdminAuthModel.Auth, email: string, now: Time)
    requires Mirrors(names, s, a) && s'.sessions == Revoked(s.sessions, LiveOf(s.sessions, email))
    ensures forall raw :: raw in a.sessions ==>
              && raw in s'.sessions
              && ShowsSession(s'.sessions[raw], AdminAuthModel.RevokedFor(a.sessions, email, now)[raw])
  {
  }

  /** The change that a call makes, if it is one. */
  function ChangeOf(op: AdminAuthModel.Op): Option<Change> {
    match op
    case ResetPassword(_, _, _) => Some(NewPassword)
    case ResetTotp(_, _) => Some(NewSecret)
    case SetActive(_, active) => Some(if active then Enable else Disable)
    case _ => None
  }

  /** The numbering goes on with the new hash or the new secret. */
  predicate NamesNext(names: Names, email: string, u: User, op: AdminAuthModel.Op) {
    && (op.ResetPassword? ==> names.hash(email, u.hash + 1) == op.hash)
    && (op.ResetTotp? ==> names.secret(email, u.secret + 1) == op.secret)
  }

  lemma AppliedShows(names: Names, email: string, u: User, v: AdminAuthModel.User, op: AdminAuthModel.Op)
    requires ShowsUser(names, email, u, v) && NamesNext(names, email, u, op) && ChangeOf(op).Some?
    ensures ShowsUser(names, email, Apply(ChangeOf(op).value, u), Changed(v, op))
  {
  }

  /** The user's row after the call. */
  function Changed(v: AdminAuthModel.User, op: AdminAuthModel.Op): AdminAuthModel.User {
    match op
    case ResetPassword(_, _, hash) => v.(passwordHash := hash)
    case ResetTotp(_, secret) => v.(secret := secret, lastStep := None)
    case SetActive(_, active) => v.(isActive := active)
    case _ => v
  }

  lemma ChangedTables(cr: AdminAuthModel.Crypto, lim: AdminAuthModel.Limits, a: AdminAuthModel.Auth,
                      op: AdminAuthModel.Op, now: Time)
    requires ChangeOf(op).Some? && AdminAuthModel.Step(cr, lim, false, a, op, now).reply == AdminAuthModel.Done
    ensures op.email in a.users
    ensures AdminAuthModel.Step(cr, lim, false, a, op, now).auth
         == AdminAuthModel.Auth(a.users[op.email := Changed(a.users[op.email], op)],
                                if Revokes(ChangeOf(op).value) then AdminAuthModel.RevokedFor(a.sessions, op.email, now)
                                else a.sessions)
  {
  }

  /** An accepted change of an account has a run of its own that ends in the tables of the call. */
  lemma ChangeIsStep(cr: AdminAuthModel.Crypto, lim: AdminAuthModel.Limits, a: AdminAuthModel.Auth,
                     op: AdminAuthModel.Op, now: Time, names: Names, s: State, i: nat)
    returns (run: seq<Action>, s': State)
    requires Mirrors(names, s, a) && i !in s.txns && ChangeOf(op).Some?
    requires AdminAuthModel.Step(cr, lim, false, a, op, now).reply == AdminAuthModel.Done
    requires op.email in s.users ==> NamesNext(names, op.email, s.users[op.email], op)
    ensures Leads(s, i, run, s') && Mirrors(names, s', AdminAuthModel.Step(cr, lim, false, a, op, now).auth)
  {
    ChangedTables(cr, lim, a, op, now);
    run, s' := ChangeAlone(s, i, op.email, ChangeOf(op).value);
    AppliedShows(names, op.email, s.users[op.email], a.users[op.email], op);
    if Revokes(ChangeOf(op).value) {
      RevokedMirrors(names, s, s', a, op.email, now);
    }
  }

  /** And so has a revocation of all sessions of a user. */
  lemma RevocationIsStep(cr: AdminAuthModel.Crypto, lim: AdminAuthModel.Limits, a: AdminAuthModel.Auth, email: string,
                         now: Time, names: Names, s: State, i: nat)
    returns (run: seq<Action>, s': State)
    requires Mirrors(names, s, a) && i !in s.txns && email in a.users
    ensures Leads(s, i, run, s')
    ensures Mirrors(names, s', AdminAuthModel.Step(cr, lim, false, a, AdminAuthModel.RevokeSessions(email), now).auth)
  {
    run, s' := RevokeAlone(s, i, email);
    RevokedMirrors(names, s, s', a, email, now);
  }
}
