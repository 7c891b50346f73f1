/** Concurrent logins and account changes, one SQL statement at a time.

    Every transaction runs at READ COMMITTED. A plain read sees the committed row.
    An UPDATE takes effect once it has all its row locks, on the committed rows it
    then finds, and keeps the locks to the end. What a transaction has written but
    not committed is kept in the transaction, so an abort just drops it. A login
    whose factors are wrong, a unique violation or a deadlock is an abort. */
module AdminInterleaving {
  import opened Wrappers

  /** `hash` and `secret` number the passwords and the secrets that the user has had. */
  datatype User = User(active: bool, hash: nat, secret: nat, last: Option<int>)

  /** `hash` and `secret` are those that the login verified its factors against,
      `epoch` is the user's secret when the time step was consumed. */
  datatype Session = Session(owner: string, hash: nat, secret: nat, epoch: nat, step: int, revoked: bool)

  datatype Change = Enable | Disable | NewPassword | NewSecret

  datatype Txn =
    | LoginStart(raw: string, email: string, step: int)              // the code belongs to `step`
    | LoginRead(raw: string, email: string, step: int, seen: User)   // active, both factors verified
    | LoginSpent(raw: string, email: string, step: int, seen: User, to: User)      // step consumed; holds the user
    | LoginInserted(raw: string, email: string, step: int, seen: User, to: User)   // session row added
    | ChangeStart(email: string, change: Change)
    | ChangeWritten(email: string, change: Change, to: User)         // holds the user
    | ChangeRevoked(email: string, change: Change, to: User, hit: set<string>)     // and the sessions `hit`
    | RevokeStart(email: string)
    | RevokeHit(email: string, hit: set<string>)                     // holds the sessions `hit`
    | Ended

  datatype State = State(users: map<string, User>, sessions: map<string, Session>, txns: map<nat, Txn>)

  datatype Action = Begin(i: nat, start: Txn) | Advance(i: nat) | Commit(i: nat) | Abort(i: nat)

  predicate HoldsUser(t: Txn, email: string) {
    (t.LoginSpent? || t.LoginInserted? || t.ChangeWritten? || t.ChangeRevoked?) && t.email == email
  }

  function Hits(t: Txn): set<string> {
    if t.ChangeRevoked? || t.RevokeHit? then t.hit else {}
  }

  function LiveOf(sessions: map<string, Session>, email: string): set<string> {
    set raw | raw in sessions && sessions[raw].owner == email && !sessions[raw].revoked
  }

  predicate UserFree(txns: map<nat, Txn>, i: nat, email: string) {
    forall j :: j in txns && j != i ==> !HoldsUser(txns[j], email)
  }

  predicate SessionsFree(s: State, i: nat, email: string) {
    forall j :: j in s.txns && j != i ==> Hits(s.txns[j]) !! LiveOf(s.sessions, email)
  }

  function Apply(change: Change, u: User): User {
    match change
    case Enable => u.(active := true)
    case Disable => u.(active := false)
    case NewPassword => u.(hash := u.hash + 1)
    case NewSecret => u.(secret := u.secret + 1, last := None)
  }

  /** Every change but enabling ends by revoking the user's sessions. */
  predicate Revokes(change: Change) {
    !change.Enable?
  }

  predicate StepIsNew(u: User, step: int) {
    u.last.None? || u.last.value < step
  }

  // ---- steps -----------------------------------------------------------------------

  function SetTxn(s: State, i: nat, t: Txn): State {
    s.(txns := s.txns[i := t])
  }

  predicate Enabled(s: State, a: Action) {
    match a
    case Begin(i, start) => i !in s.txns && (start.LoginStart? || start.ChangeStart? || start.RevokeStart?)
    case Abort(i) => i in s.txns && !s.txns[i].Ended?
    case Commit(i) =>
      && i in s.txns
      && (match s.txns[i]
          case LoginInserted(raw, _, _, _, _) => raw !in s.sessions
          case ChangeWritten(_, change, _) => !Revokes(change)
          case ChangeRevoked(_, _, _, _) => true
          case RevokeHit(_, _) => true
          case _ => false)
    case Advance(i) =>
      && i in s.txns
      && match s.txns[i]
         case LoginStart(_, _, _) => true
         case LoginRead(_, email, _, _) => email in s.users && UserFree(s.txns, i, email)
         case LoginSpent(_, _, _, _, _) => true
         case ChangeStart(email, _) => email in s.users && UserFree(s.txns, i, email)
         case ChangeWritten(email, change, _) => Revokes(change) && SessionsFree(s, i, email)
         case RevokeStart(email) => SessionsFree(s, i, email)
         case _ => false
  }

  function Advanced(s: State, i: nat): Txn
    requires Enabled(s, Advance(i))
  {
    match s.txns[i]
    case LoginStart(raw, email, step) =>
      if email in s.users && s.users[email].active then LoginRead(raw, email, step, s.users[email]) else Ended
    case LoginRead(raw, email, step, seen) =>
      if StepIsNew(s.users[email], step)
      then LoginSpent(raw, email, step, seen, s.users[email].(last := Some(step))) else Ended
    case LoginSpent(raw, email, step, seen, to) => LoginInserted(raw, email, step, seen, to)
    case ChangeStart(email, change) => ChangeWritten(email, change, Apply(change, s.users[email]))
    case ChangeWritten(email, change, to) => ChangeRevoked(email, change, to, LiveOf(s.sessions, email))
    case RevokeStart(email) => RevokeHit(email, LiveOf(s.sessions, email))
  }

  function Revoked(sessions: map<string, Session>, hit: set<string>): map<string, Session> {
    map raw | raw in sessions :: if raw in hit then sessions[raw].(revoked := true) else sessions[raw]
  }

  function NewSession(t: Txn): Session
    requires t.LoginInserted?
  {
    Session(t.email, t.seen.hash, t.seen.secret, t.to.secret, t.step, false)
  }

  function Committed(s: State, i: nat): State
    requires Enabled(s, Commit(i))
  {
    match s.txns[i]
    case LoginInserted(raw, email, _, _, to) =>
      State(s.users[email := to], s.sessions[raw := NewSession(s.txns[i])], s.txns[i := Ended])
    case ChangeWritten(email, _, to) => State(s.users[email := to], s.sessions, s.txns[i := Ended])
    case ChangeRevoked(email, _, to, hit) =>
      State(s.users[email := to], Revoked(s.sessions, hit), s.txns[i := Ended])
    case RevokeHit(_, hit) => State(s.users, Revoked(s.sessions, hit), s.txns[i := Ended])
  }

  function Next(s: State, a: Action): State
    requires Enabled(s, a)
  {
    match a
    case Begin(i, start) => SetTxn(s, i, start)
    case Advance(i) => SetTxn(s, i, Advanced(s, i))
    case Commit(i) => Committed(s, i)
    case Abort(i) => SetTxn(s, i, Ended)
  }

  // ---- the invariant ------------------------------------------------------------------

  ghost predicate Exclusive(txns: map<nat, Txn>) {
    forall i, j, email :: i in txns && j in txns && HoldsUser(txns[i], email) && HoldsUser(txns[j], email) ==> i == j
  }

  predicate AllOwned(sessions: map<string, Session>, hit: set<string>, email: string) {
    forall raw :: raw in hit ==> raw in sessions && sessions[raw].owner == email
  }

  /** What a transaction has written follows from the committed row it still holds, a
      login has read an active user, and a revocation under the user's lock misses no live session. */
  predicate Consistent(users: map<string, User>, sessions: map<string, Session>, t: Txn) {
    match t
    case LoginRead(_, email, _, seen) => email in users && seen.active && seen.secret <= users[email].secret
    case LoginSpent(_, email, step, seen, to) =>
      && email in users && seen.active && seen.secret <= users[email].secret
      && StepIsNew(users[email], step) && to == users[email].(last := Some(step))
    case LoginInserted(_, email, step, seen, to) =>
      && email in users && seen.active && seen.secret <= users[email].secret
      && StepIsNew(users[email], step) && to == users[email].(last := Some(step))
    case ChangeWritten(email, change, to) => email in users && to == Apply(change, users[email])
    case ChangeRevoked(email, change, to, hit) =>
      && email in users && to == Apply(change, users[email]) && Revokes(change)
      && LiveOf(sessions, email) <= hit && AllOwned(sessions, hit, email)
    case RevokeHit(email, hit) => AllOwned(sessions, hit, email)
    case _ => true
  }

  /** A session's step is among those that its user has consumed. */
  predicate StepKnown(users: map<string, User>, x: Session) {
    && x.owner in users && x.secret <= x.epoch <= users[x.owner].secret
    && (x.epoch == users[x.owner].secret ==> users[x.owner].last.Some? && x.step <= users[x.owner].last.value)
  }

  /** Consumed at the same step under the same secret. */
  predicate SameStep(x: Session, y: Session) {
    x.owner == y.owner && x.epoch == y.epoch && x.step == y.step
  }

  /** No time step of a secret has opened two sessions. */
  ghost predicate StepsDiffer(sessions: map<string, Session>) {
    forall r, q :: r in sessions && q in sessions && r != q ==> !SameStep(sessions[r], sessions[q])
  }

  ghost predicate Inv(s: State) {
    && Exclusive(s.txns)
    && (forall i :: i in s.txns ==> Consistent(s.users, s.sessions, s.txns[i]))
    && (forall raw :: raw in s.sessions ==> StepKnown(s.users, s.sessions[raw]))
    && StepsDiffer(s.sessions)
  }

  lemma TxnKeeps(s: State, i: nat, t: Txn)
    requires Inv(s) && Consistent(s.users, s.sessions, t)
    requires forall email :: HoldsUser(t, email) ==> UserFree(s.txns, i, email)
    ensures Inv(SetTxn(s, i, t))
  {
  }

  lemma HeldIsFree(s: State, i: nat)
    requires Exclusive(s.txns) && i in s.txns
    ensures forall email :: HoldsUser(s.txns[i], email) ==> UserFree(s.txns, i, email)
  {
  }

  lemma AdvanceKeeps(s: State, i: nat)
    requires Inv(s) && Enabled(s, Advance(i))
    ensures Inv(SetTxn(s, i, Advanced(s, i)))
  {
    HeldIsFree(s, i);
    assert Consistent(s.users, s.sessions, s.txns[i]);
    TxnKeeps(s, i, Advanced(s, i));
  }

  /** Committing the user row that `i` holds disturbs no other transaction. */
  lemma UserCommitKeeps(s: State, i: nat, email: string, to: User, sessions: map<string, Session>)
    requires Inv(s) && i in s.txns && HoldsUser(s.txns[i], email) && email in s.users
    requires s.users[email].secret <= to.secret
    requires s.sessions.Keys <= sessions.Keys
    requires forall raw :: raw in s.sessions ==> sessions[raw].owner == s.sessions[raw].owner
    requires forall e :: e != email ==> LiveOf(sessions, e) <= LiveOf(s.sessions, e)
    ensures forall j :: j in s.txns && j != i ==> Consistent(s.users[email := to], sessions, s.txns[j])
  {
    forall j | j in s.txns && j != i ensures Consistent(s.users[email := to], sessions, s.txns[j]) {
      assert Consistent(s.users, s.sessions, s.txns[j]);
      assert !HoldsUser(s.txns[j], email);
    }
  }

  lemma RevokedOwners(sessions: map<string, Session>, hit: set<string>)
    ensures Revoked(sessions, hit).Keys == sessions.Keys
    ensures forall raw :: raw in sessions ==>
              && Revoked(sessions, hit)[raw] == sessions[raw].(revoked := Revoked(sessions, hit)[raw].revoked)
              && (sessions[raw].revoked ==> Revoked(sessions, hit)[raw].revoked)
    ensures forall email :: LiveOf(Revoked(sessions, hit), email) == LiveOf(sessions, email) - hit
  {
    forall email ensures LiveOf(Revoked(sessions, hit), email) == LiveOf(sessions, email) - hit {
    }
  }

  lemma RevokedStepsDiffer(sessions: map<string, Session>, hit: set<string>)
    requires StepsDiffer(sessions)
    ensures StepsDiffer(Revoked(sessions, hit))
  {
    var after := Revoked(sessions, hit);
    forall r, q | r in after && q in after && r != q ensures !SameStep(after[r], after[q]) {
      assert !SameStep(sessions[r], sessions[q]);
    }
  }

  lemma ChangeKnown(users: map<string, User>, email: string, change: Change, x: Session)
    requires StepKnown(users, x) && email in users
    ensures StepKnown(users[email := Apply(change, users[email])], x)
  {
  }

  lemma ChangeCommitKeeps(s: State, i: nat, hit: set<string>)
    requires Inv(s) && Enabled(s, Commit(i)) && (s.txns[i].ChangeWritten? || s.txns[i].ChangeRevoked?)
    requires Committed(s, i).sessions == Revoked(s.sessions, hit)
    ensures Inv(Committed(s, i))
  {
    var t, s' := s.txns[i], Committed(s, i);
    assert Consistent(s.users, s.sessions, t);
    assert HoldsUser(t, t.email);
    RevokedOwners(s.sessions, hit);
    RevokedStepsDiffer(s.sessions, hit);
    UserCommitKeeps(s, i, t.email, t.to, s'.sessions);
    forall raw | raw in s'.sessions ensures StepKnown(s'.users, s'.sessions[raw]) {
      ChangeKnown(s.users, t.email, t.change, s.sessions[raw]);
    }
  }

  lemma RevokeNothing(sessions: map<string, Session>)
    ensures Revoked(sessions, {}) == sessions
  {
  }

  lemma RevokeCommitKeeps(s: State, i: nat)
    requires Inv(s) && Enabled(s, Commit(i)) && s.txns[i].RevokeHit?
    ensures Inv(Committed(s, i))
  {
    var hit := s.txns[i].hit;
    RevokedOwners(s.sessions, hit);
    RevokedStepsDiffer(s.sessions, hit);
    var s' := Committed(s, i);
    forall j | j in s.txns && j != i ensures Consistent(s'.users, s'.sessions, s.txns[j]) {
      assert Consistent(s.users, s.sessions, s.txns[j]);
    }
    forall raw | raw in s'.sessions ensures StepKnown(s'.users, s'.sessions[raw]) {
      assert StepKnown(s.users, s.sessions[raw]);
    }
  }

  lemma LoginCommitKeeps(s: State, i: nat)
    requires Inv(s) && Enabled(s, Commit(i)) && s.txns[i].LoginInserted?
    ensures Inv(Committed(s, i))
  {
    var t, s' := s.txns[i], Committed(s, i);
    assert Consistent(s.users, s.sessions, t);
    assert HoldsUser(t, t.email);
    forall e | e != t.email ensures LiveOf(s'.sessions, e) <= LiveOf(s.sessions, e) {
    }
    UserCommitKeeps(s, i, t.email, t.to, s'.sessions);
    forall r | r in s.sessions ensures !SameStep(s.sessions[r], NewSession(t)) && StepKnown(s'.users, s.sessions[r]) {
      assert StepKnown(s.users, s.sessions[r]);
    }
    NewStepsDiffer(s.sessions, t.raw, NewSession(t));
  }

  lemma NewStepsDiffer(sessions: map<string, Session>, raw: string, x: Session)
    requires StepsDiffer(sessions) && raw !in sessions
    requires forall r :: r in sessions ==> !SameStep(sessions[r], x)
    ensures StepsDiffer(sessions[raw := x])
  {
  }

  lemma NextKeeps(s: State, a: Action)
    requires Inv(s) && Enabled(s, a)
    ensures Inv(Next(s, a))
  {
    match a
    case Begin(i, start) => TxnKeeps(s, i, start);
    case Abort(i) => TxnKeeps(s, i, Ended);
    case Advance(i) => AdvanceKeeps(s, i);
    case Commit(i) =>
      match s.txns[i]
      case LoginInserted(_, _, _, _, _) => LoginCommitKeeps(s, i);
      case RevokeHit(_, _) => RevokeCommitKeeps(s, i);
      case ChangeRevoked(_, _, _, hit) => ChangeCommitKeeps(s, i, hit);
      case ChangeWritten(_, _, _) => RevokeNothing(s.sessions); ChangeCommitKeeps(s, i, {});
  }

  // ---- every interleaving ------------------------------------------------------------------

  predicate Possible(s: State, run: seq<Action>)
    decreases |run|
  {
    run != [] ==> Enabled(s, run[0]) && Possible(Next(s, run[0]), run[1..])
  }

  function After(s: State, run: seq<Action>): State
    requires Possible(s, run)
    decreases |run|
  {
    if run == [] then s else After(Next(s, run[0]), run[1..])
  }

  lemma SameUsers(s: State, a: Action)
    requires Inv(s) && Enabled(s, a)
    ensures Next(s, a).users.Keys == s.users.Keys
  {
    if a.Commit? {
      assert Consistent(s.users, s.sessions, s.txns[a.i]);
    }
  }

  /** The invariant holds throughout, and no account appears or disappears. */
  lemma {:induction false} InterleavingKeeps(s: State, run: seq<Action>)
    requires Inv(s) && Possible(s, run)
    ensures Inv(After(s, run)) && After(s, run).users.Keys == s.users.Keys
    decreases |run|
  {
    if run != [] {
      NextKeeps(s, run[0]);
      SameUsers(s, run[0]);
      InterleavingKeeps(Next(s, run[0]), run[1..]);
    }
  }

  /** The accounts before anyone has logged in. */
  predicate Fresh(s: State) {
    s.sessions == map[] && s.txns == map[]
  }

  /** However logins and account changes interleave, the conditional UPDATE consumes a
      step once for as long as the user has one secret: two sessions opened under it
      have consumed different steps. It does not look at the secret that the code was
      verified against; see below for that. */
  lemma StepsAreSpentOnce(s: State, run: seq<Action>)
    requires Fresh(s) && Possible(s, run)
    ensures StepsDiffer(After(s, run).sessions)
  {
    InterleavingKeeps(s, run);
  }

  // ---- when a code is used twice --------------------------------------------------------------

  /** Opened with the same code: the same step of the same verified secret. */
  predicate SameCode(x: Session, y: Session) {
    x.owner == y.owner && x.secret == y.secret && x.step == y.step
  }

  /** No code has opened two sessions. */
  ghost predicate CodesDiffer(sessions: map<string, Session>) {
    forall r, q :: r in sessions && q in sessions && r != q ==> !SameCode(sessions[r], sessions[q])
  }

  /** The login verified its code against a secret that was replaced before it consumed
      the step, and that code has opened a session already. */
  predicate Repeats(s: State, i: nat) {
    && i in s.txns && s.txns[i].LoginInserted? && s.txns[i].seen.secret != s.txns[i].to.secret
    && exists raw :: raw in s.sessions && SameCode(s.sessions[raw], NewSession(s.txns[i]))
  }

  /** Under the secret it was verified against, the step of a new session is new. */
  lemma SameSecretIsNew(s: State, i: nat, raw: string)
    requires Inv(s) && i in s.txns && s.txns[i].LoginInserted? && raw in s.sessions
    requires s.txns[i].seen.secret == s.txns[i].to.secret
    ensures !SameCode(s.sessions[raw], NewSession(s.txns[i]))
  {
    assert Consistent(s.users, s.sessions, s.txns[i]);
    assert StepKnown(s.users, s.sessions[raw]);
  }

  lemma LoginCodes(s: State, i: nat)
    requires Inv(s) && CodesDiffer(s.sessions) && Enabled(s, Commit(i)) && s.txns[i].LoginInserted?
    ensures CodesDiffer(Committed(s, i).sessions) <==> !Repeats(s, i)
  {
    var t, sessions := s.txns[i], Committed(s, i).sessions;
    assert t.raw in sessions && sessions[t.raw] == NewSession(t);
    forall r | r in s.sessions ensures r in sessions && sessions[r] == s.sessions[r] && r != t.raw {
    }
    if t.seen.secret == t.to.secret {
      forall r | r in s.sessions ensures !SameCode(s.sessions[r], NewSession(t)) {
        SameSecretIsNew(s, i, r);
      }
    }
  }

  lemma RevokedCodes(sessions: map<string, Session>, hit: set<string>)
    requires CodesDiffer(sessions)
    ensures CodesDiffer(Revoked(sessions, hit))
  {
    var after := Revoked(sessions, hit);
    forall r, q | r in after && q in after && r != q ensures !SameCode(after[r], after[q]) {
      assert !SameCode(sessions[r], sessions[q]);
    }
  }

  /** A step uses a code twice exactly when it commits a login that repeats one. */
  lemma CodesDifferIff(s: State, a: Action)
    requires Inv(s) && CodesDiffer(s.sessions) && Enabled(s, a)
    ensures CodesDiffer(Next(s, a).sessions) <==> !(a.Commit? && Repeats(s, a.i))
  {
    if a.Commit? {
      var t := s.txns[a.i];
      if t.LoginInserted? {
        LoginCodes(s, a.i);
      } else if t.ChangeRevoked? || t.RevokeHit? {
        RevokedCodes(s.sessions, t.hit);
      }
    }
  }

  ghost predicate CodesDifferThroughout(s: State, run: seq<Action>)
    requires Possible(s, run)
    decreases |run|
  {
    CodesDiffer(s.sessions) && (run != [] ==> CodesDifferThroughout(Next(s, run[0]), run[1..]))
  }

  predicate NeverRepeats(s: State, run: seq<Action>)
    requires Possible(s, run)
    decreases |run|
  {
    run != [] ==> !(run[0].Commit? && Repeats(s, run[0].i)) && NeverRepeats(Next(s, run[0]), run[1..])
  }

  lemma {:induction false} RunCodesIff(s: State, run: seq<Action>)
    requires Inv(s) && CodesDiffer(s.sessions) && Possible(s, run)
    ensures CodesDifferThroughout(s, run) <==> NeverRepeats(s, run)
    decreases |run|
  {
    if run != [] {
      NextKeeps(s, run[0]);
      CodesDifferIff(s, run[0]);
      if CodesDiffer(Next(s, run[0]).sessions) {
        RunCodesIff(Next(s, run[0]), run[1..]);
      }
    }
  }

  /** Over every interleaving, each code opens at most one session, if and only if no
      login commits whose secret was replaced between its read and its UPDATE and
      whose code has opened a session before. */
  lemma CodesAreUsedOnce(s: State, run: seq<Action>)
    requires Fresh(s) && Possible(s, run)
    ensures CodesDifferThroughout(s, run) <==> NeverRepeats(s, run)
  {
    RunCodesIff(s, run);
  }

  // ---- which sessions are legitimate -------------------------------------------------------

  predicate UpToDate(u: User, x: Session) {
    u.active && u.hash == x.hash && u.secret == x.secret
  }

  /** Every live session belongs to an active user who still has the password and
      the secret that the login was verified against. */
  ghost predicate Legitimate(s: State) {
    forall raw :: raw in s.sessions && !s.sessions[raw].revoked ==>
      s.sessions[raw].owner in s.users && UpToDate(s.users[s.sessions[raw].owner], s.sessions[raw])
  }

  /** A login is overtaken when the user was disabled, or had the password or secret
      replaced, after the login read the user and before it consumed its step. */
  predicate Overtaken(s: State, i: nat) {
    && i in s.txns && s.txns[i].LoginInserted? && s.txns[i].email in s.users
    && !UpToDate(s.users[s.txns[i].email], NewSession(s.txns[i]))
  }

  lemma LoginLegitimate(s: State, i: nat)
    requires Inv(s) && Legitimate(s) && Enabled(s, Commit(i)) && s.txns[i].LoginInserted?
    ensures Legitimate(Committed(s, i)) <==> !Overtaken(s, i)
  {
    var t, s' := s.txns[i], Committed(s, i);
    assert Consistent(s.users, s.sessions, t);
    assert t.raw in s'.sessions && s'.sessions[t.raw] == NewSession(t);
    forall raw | raw in s.sessions && !s.sessions[raw].revoked
      ensures s.sessions[raw].owner in s'.users && UpToDate(s'.users[s.sessions[raw].owner], s.sessions[raw])
    {
    }
  }

  lemma ChangeLegitimate(s: State, i: nat)
    requires Inv(s) && Legitimate(s) && Enabled(s, Commit(i)) && (s.txns[i].ChangeWritten? || s.txns[i].ChangeRevoked?)
    ensures Legitimate(Committed(s, i))
  {
    var t, s' := s.txns[i], Committed(s, i);
    assert Consistent(s.users, s.sessions, t);
    forall raw | raw in s'.sessions && !s'.sessions[raw].revoked
      ensures s'.sessions[raw].owner in s'.users && UpToDate(s'.users[s'.sessions[raw].owner], s'.sessions[raw])
    {
      assert raw in LiveOf(s.sessions, s.sessions[raw].owner);
    }
  }

  /** A step makes a session illegitimate exactly when it commits an overtaken login. */
  lemma LegitimateIff(s: State, a: Action)
    requires Inv(s) && Legitimate(s) && Enabled(s, a)
    ensures Legitimate(Next(s, a)) <==> !(a.Commit? && Overtaken(s, a.i))
  {
    if a.Commit? {
      var t := s.txns[a.i];
      if t.LoginInserted? {
        LoginLegitimate(s, a.i);
      } else if t.RevokeHit? {
        RevokedOwners(s.sessions, t.hit);
      } else {
        ChangeLegitimate(s, a.i);
      }
    }
  }

  ghost predicate LegitimateThroughout(s: State, run: seq<Action>)
    requires Possible(s, run)
    decreases |run|
  {
    Legitimate(s) && (run != [] ==> LegitimateThroughout(Next(s, run[0]), run[1..]))
  }

  predicate NeverOvertaken(s: State, run: seq<Action>)
    requires Possible(s, run)
    decreases |run|
  {
    run != [] ==>
      !(run[0].Commit? && Overtaken(s, run[0].i)) && NeverOvertaken(Next(s, run[0]), run[1..])
  }

  lemma {:induction false} RunLegitimateIff(s: State, run: seq<Action>)
    requires Inv(s) && Legitimate(s) && Possible(s, run)
    ensures LegitimateThroughout(s, run) <==> NeverOvertaken(s, run)
    decreases |run|
  {
    if run != [] {
      NextKeeps(s, run[0]);
      LegitimateIff(s, run[0]);
      if Legitimate(Next(s, run[0])) {
        RunLegitimateIff(Next(s, run[0]), run[1..]);
      }
    }
  }

  /** Over every interleaving, inactive users have only revoked sessions, and no
      session outlives the password or secret it was opened with, if and only if no
      overtaken login commits. */
  lemma LegitimateUnlessOvertaken(s: State, run: seq<Action>)
    requires Fresh(s) && Possible(s, run)
    ensures LegitimateThroughout(s, run) <==> NeverOvertaken(s, run)
  {
    RunLegitimateIff(s, run);
  }

  /** Where no login is overtaken, in particular no code is used twice. */
  lemma {:induction false} NotOvertakenIsUsedOnce(s: State, run: seq<Action>)
    requires Inv(s) && Possible(s, run) && NeverOvertaken(s, run)
    ensures NeverRepeats(s, run)
    decreases |run|
  {
    if run != [] {
      if run[0].Commit? {
        assert Consistent(s.users, s.sessions, s.txns[run[0].i]);
      }
      NextKeeps(s, run[0]);
      NotOvertakenIsUsedOnce(Next(s, run[0]), run[1..]);
    }
  }

  // ---- refused once ---------------------------------------------------------------------------

  /** Timeouts apart, `resolve_session` lets the session through. */
  predicate Accepted(s: State, raw: string) {
    && raw in s.sessions && !s.sessions[raw].revoked
    && s.sessions[raw].owner in s.users && s.users[s.sessions[raw].owner].active
  }

  lemma {:induction false} RevokedForever(s: State, run: seq<Action>, raw: string)
    requires Possible(s, run) && raw in s.sessions && s.sessions[raw].revoked
    ensures raw in After(s, run).sessions && After(s, run).sessions[raw].revoked
    decreases |run|
  {
    if run != [] {
      RevokedOnce(s, run[0], raw);
      RevokedForever(Next(s, run[0]), run[1..], raw);
    }
  }

  lemma RevokedOnce(s: State, a: Action, raw: string)
    requires Enabled(s, a) && raw in s.sessions && s.sessions[raw].revoked
    ensures raw in Next(s, a).sessions && Next(s, a).sessions[raw].revoked
  {
  }

  /** While no overtaken login has committed, a session that is refused is refused
      after every later interleaving, whatever it holds. */
  lemma RefusedForever(s: State, past: seq<Action>, raw: string, run: seq<Action>)
    requires Fresh(s) && Possible(s, past) && NeverOvertaken(s, past) && Possible(After(s, past), run)
    requires raw in After(s, past).sessions && !Accepted(After(s, past), raw)
    ensures !Accepted(After(After(s, past), run), raw)
  {
    LegitimateUnlessOvertaken(s, past);
    LegitimateAtEnd(s, past);
    RevokedForever(After(s, past), run, raw);
  }

  function EnableRun(i: nat, email: string): seq<Action> {
    [Begin(i, ChangeStart(email, Enable))] + ([Advance(i)] + ([Commit(i)] + []))
  }

  lemma OneStep(s: State, a: Action, run: seq<Action>)
    requires Enabled(s, a) && Possible(Next(s, a), run)
    ensures Possible(s, [a] + run) && After(s, [a] + run) == After(Next(s, a), run)
  {
    assert ([a] + run)[1..] == run;
  }

  /** A user whose row nobody holds can be enabled. */
  lemma CanEnable(s: State, i: nat, email: string)
    requires i !in s.txns && email in s.users && UserFree(s.txns, i, email)
    ensures Possible(s, EnableRun(i, email))
    ensures var s' := After(s, EnableRun(i, email));
            s'.sessions == s.sessions && email in s'.users && s'.users[email].active
  {
    var s1 := Next(s, Begin(i, ChangeStart(email, Enable)));
    var s2 := Next(s1, Advance(i));
    assert s2.txns[i] == ChangeWritten(email, Enable, Apply(Enable, s.users[email]));
    var s3 := Next(s2, Commit(i));
    assert Possible(s3, []) && After(s3, []) == s3;
    OneStep(s2, Commit(i), []);
    OneStep(s1, Advance(i), [Commit(i)] + []);
    OneStep(s, Begin(i, ChangeStart(email, Enable)), [Advance(i)] + ([Commit(i)] + []));
  }

  lemma {:induction false} UnusedId(ids: set<nat>) returns (i: nat)
    ensures forall j :: j in ids ==> j < i
    decreases |ids|
  {
    if ids == {} {
      i := 0;
    } else {
      var j :| j in ids;
      var k := UnusedId(ids - {j});
      i := if j < k then k else j + 1;
      forall x | x in ids ensures x < i {
        assert x == j || x in ids - {j};
      }
    }
  }

  /** A live session of an inactive user comes back: drop the transaction that holds
      the user, if one does, and enable the user. */
  lemma Revives(s: State, raw: string) returns (run: seq<Action>)
    requires Inv(s) && raw in s.sessions && !s.sessions[raw].revoked
    ensures Possible(s, run) && Accepted(After(s, run), raw)
  {
    var email := s.sessions[raw].owner;
    assert StepKnown(s.users, s.sessions[raw]);
    var i := UnusedId(s.txns.Keys);
    if j :| j in s.txns && HoldsUser(s.txns[j], email) {
      var s1 := Next(s, Abort(j));
      CanEnable(s1, i, email);
      OneStep(s, Abort(j), EnableRun(i, email));
      run := [Abort(j)] + EnableRun(i, email);
    } else {
      CanEnable(s, i, email);
      run := EnableRun(i, email);
    }
  }

  ghost predicate NeverAccepted(s: State, raw: string) {
    forall run :: Possible(s, run) ==> !Accepted(After(s, run), raw)
  }

  /** After any interleaving, a refused session stays refused over every later one if
      and only if it is revoked. */
  lemma RefusedForeverIff(s: State, past: seq<Action>, raw: string)
    requires Fresh(s) && Possible(s, past)
    requires raw in After(s, past).sessions && !Accepted(After(s, past), raw)
    ensures NeverAccepted(After(s, past), raw) <==> After(s, past).sessions[raw].revoked
  {
    var s' := After(s, past);
    InterleavingKeeps(s, past);
    if s'.sessions[raw].revoked {
      forall run | Possible(s', run) ensures !Accepted(After(s', run), raw) {
        RevokedForever(s', run, raw);
      }
    } else {
      var run := Revives(s', raw);
    }
  }

  lemma {:induction false} LegitimateAtEnd(s: State, run: seq<Action>)
    requires Possible(s, run) && LegitimateThroughout(s, run)
    ensures Legitimate(After(s, run))
    decreases |run|
  {
    if run != [] {
      LegitimateAtEnd(Next(s, run[0]), run[1..]);
    }
  }

  // ---- and what an overtaken login costs ------------------------------------------------------------

  /** The states of a login that reads an active user, is overtaken by a disable, and
      commits; then the user is enabled again. */
  function OvertakingState(n: nat): State {
    var fresh', off := User(true, 0, 0, None), User(false, 0, 0, None);
    var spent, again := User(false, 0, 0, Some(7)), User(true, 0, 0, Some(7));
    var user := if n < 6 then fresh' else if n < 9 then off else if n < 12 then spent else again;
    var login := if n < 2 then LoginStart("r", "a", 7)
                 else if n < 7 then LoginRead("r", "a", 7, fresh')
                 else if n == 7 then LoginSpent("r", "a", 7, fresh', spent)
                 else if n == 8 then LoginInserted("r", "a", 7, fresh', spent) else Ended;
    var disable := if n < 4 then ChangeStart("a", Disable)
                   else if n == 4 then ChangeWritten("a", Disable, off)
                   else if n == 5 then ChangeRevoked("a", Disable, off, {}) else Ended;
    var enable := if n < 11 then ChangeStart("a", Enable)
                  else if n == 11 then ChangeWritten("a", Enable, again) else Ended;
    State(map["a" := user],
          if n < 9 then map[] else map["r" := Session("a", 0, 0, 0, 7, false)],
          if n == 0 then map[] else if n < 3 then map[1 := login]
          else if n < 10 then map[1 := login, 2 := disable] else map[1 := login, 2 := disable, 3 := enable])
  }

  function OvertakingAction(n: nat): Action {
    if n == 0 then Begin(1, LoginStart("r", "a", 7))
    else if n == 2 then Begin(2, ChangeStart("a", Disable))
    else if n == 5 then Commit(2)
    else if n == 8 then Commit(1)
    else if n == 9 then Begin(3, ChangeStart("a", Enable))
    else if n == 11 then Commit(3)
    else Advance(if n == 3 || n == 4 then 2 else if n == 10 then 3 else 1)
  }

  function OvertakingRun(n: nat, end: nat): seq<Action>
    decreases if n < end then end - n else 0
  {
    if n >= end then [] else [OvertakingAction(n)] + OvertakingRun(n + 1, end)
  }

  lemma OvertakingStep(n: nat)
    requires n < 12
    ensures Enabled(OvertakingState(n), OvertakingAction(n))
    ensures Next(OvertakingState(n), OvertakingAction(n)) == OvertakingState(n + 1)
  {
    if n < 6 {
      OvertakingStarts(n);
    } else {
      OvertakingEnds(n);
    }
  }

  lemma OvertakingStarts(n: nat)
    requires n < 6
    ensures Enabled(OvertakingState(n), OvertakingAction(n))
    ensures Next(OvertakingState(n), OvertakingAction(n)) == OvertakingState(n + 1)
  {
    assert LiveOf(map[], "a") == {};
    assert Revoked(map[], {}) == map[];
  }

  lemma OvertakingEnds(n: nat)
    requires 6 <= n < 12
    ensures Enabled(OvertakingState(n), OvertakingAction(n))
    ensures Next(OvertakingState(n), OvertakingAction(n)) == OvertakingState(n + 1)
  {
  }

  lemma {:induction false} OvertakingIsPossible(n: nat, end: nat)
    requires n <= end <= 12
    ensures Possible(OvertakingState(n), OvertakingRun(n, end))
    ensures After(OvertakingState(n), OvertakingRun(n, end)) == OvertakingState(end)
    decreases end - n
  {
    if n < end {
      OvertakingStep(n);
      OvertakingIsPossible(n + 1, end);
      assert OvertakingRun(n, end)[0] == OvertakingAction(n) && OvertakingRun(n, end)[1..] == OvertakingRun(n + 1, end);
    }
  }

  /** An overtaken login leaves a session that is refused, and accepted later. */
  lemma OvertakenLoginRevives()
    ensures exists s, past, run, raw ::
              && Fresh(s) && Possible(s, past) && Possible(After(s, past), run)
              && raw in After(s, past).sessions && !Accepted(After(s, past), raw)
              && Accepted(After(After(s, past), run), raw)
  {
    OvertakingIsPossible(0, 9);
    OvertakingIsPossible(9, 12);
    var s, past, run := OvertakingState(0), OvertakingRun(0, 9), OvertakingRun(9, 12);
    assert Fresh(s);
    assert !Accepted(After(s, past), "r") && "r" in After(s, past).sessions;
    assert Accepted(After(After(s, past), run), "r");
  }

  /** The states of two logins with one code: both verify it, the first consumes the
      step and commits, the secret is replaced, and the second consumes the step. */
  function ReuseState(n: nat): State {
    var first, spent := User(true, 0, 0, None), User(true, 0, 0, Some(7));
    var reset, again := User(true, 0, 1, None), User(true, 0, 1, Some(7));
    var user := if n < 7 then first else if n < 11 then spent else if n < 14 then reset else again;
    var one := if n < 3 then LoginStart("r", "a", 7)
               else if n < 5 then LoginRead("r", "a", 7, first)
               else if n == 5 then LoginSpent("r", "a", 7, first, spent)
               else if n == 6 then LoginInserted("r", "a", 7, first, spent) else Ended;
    var two := if n < 4 then LoginStart("q", "a", 7)
               else if n < 12 then LoginRead("q", "a", 7, first)
               else if n == 12 then LoginSpent("q", "a", 7, first, again)
               else if n == 13 then LoginInserted("q", "a", 7, first, again) else Ended;
    var change := if n < 9 then ChangeStart("a", NewSecret)
                  else if n == 9 then ChangeWritten("a", NewSecret, reset)
                  else if n == 10 then ChangeRevoked("a", NewSecret, reset, {"r"}) else Ended;
    var r, q := Session("a", 0, 0, 0, 7, n >= 11), Session("a", 0, 0, 1, 7, false);
    State(map["a" := user],
          if n < 7 then map[] else if n < 14 then map["r" := r] else map["r" := r, "q" := q],
          if n == 0 then map[] else if n == 1 then map[1 := one]
          else if n < 8 then map[1 := one, 2 := two] else map[1 := one, 2 := two, 3 := change])
  }

  function ReuseAction(n: nat): Action {
    if n == 0 then Begin(1, LoginStart("r", "a", 7))
    else if n == 1 then Begin(2, LoginStart("q", "a", 7))
    else if n == 6 then Commit(1)
    else if n == 7 then Begin(3, ChangeStart("a", NewSecret))
    else if n == 10 then Commit(3)
    else if n == 13 then Commit(2)
    else Advance(if n == 8 || n == 9 then 3 else if n == 3 || n > 10 then 2 else 1)
  }

  function ReuseRun(n: nat): seq<Action>
    decreases 14 - n
  {
    if n >= 14 then [] else [ReuseAction(n)] + ReuseRun(n + 1)
  }

  lemma ReuseLogins(n: nat)
    requires n < 7
    ensures Enabled(ReuseState(n), ReuseAction(n)) && Next(ReuseState(n), ReuseAction(n)) == ReuseState(n + 1)
  {
  }

  lemma ReuseReset(n: nat)
    requires 7 <= n < 11
    ensures Enabled(ReuseState(n), ReuseAction(n)) && Next(ReuseState(n), ReuseAction(n)) == ReuseState(n + 1)
  {
    assert LiveOf(ReuseState(9).sessions, "a") == {"r"};
  }

  lemma ReuseAgain(n: nat)
    requires 11 <= n < 14
    ensures Enabled(ReuseState(n), ReuseAction(n)) && Next(ReuseState(n), ReuseAction(n)) == ReuseState(n + 1)
  {
  }

  lemma ReuseEnds()
    ensures UsedTwice(ReuseState(14), "r", "q")
  {
  }

  lemma {:induction false} ReuseIsPossible(n: nat)
    requires n <= 14
    ensures Possible(ReuseState(n), ReuseRun(n)) && After(ReuseState(n), ReuseRun(n)) == ReuseState(14)
    decreases 14 - n
  {
    if n < 14 {
      if n < 7 {
        ReuseLogins(n);
      } else if n < 11 {
        ReuseReset(n);
      } else {
        ReuseAgain(n);
      }
      ReuseIsPossible(n + 1);
      OneStep(ReuseState(n), ReuseAction(n), ReuseRun(n + 1));
    }
  }

  /** Two sessions opened with one code, the second of them live. */
  predicate UsedTwice(s: State, r: string, q: string) {
    && r != q && r in s.sessions && q in s.sessions
    && SameCode(s.sessions[r], s.sessions[q]) && Accepted(s, q)
  }

  /** One code can open two sessions. */
  lemma OneCodeTwoSessions()
    ensures exists s, run, r, q :: Fresh(s) && Possible(s, run) && UsedTwice(After(s, run), r, q)
  {
    ReuseIsPossible(0);
    ReuseEnds();
    assert Fresh(ReuseState(0));
  }
}
