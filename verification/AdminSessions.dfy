/** The life of a session and of a one-time code, over every run. */
module AdminSessions {
  import opened Wrappers
  import opened Clock
  import opened AdminAuthModel

  /** The settings are positive, as their validators demand. */
  predicate Sensible(lim: Limits) {
    lim.idle >= 60 * SECOND && lim.absolute >= 60 * SECOND
  }

  predicate SessionOk(lim: Limits, users: map<string, User>, s: Session, clock: Time) {
    && s.owner in users && s.createdAt <= s.lastSeenAt <= clock && s.lastSeenAt < s.expiresAt
    && s.expiresAt == s.createdAt + lim.absolute
    && (!users[s.owner].isActive ==> s.revokedAt.Some?)
  }

  /** Sessions were issued, belong to a user, and an inactive user has only
      revoked ones. */
  ghost predicate Inv(lim: Limits, a: Auth, issued: set<string>, clock: Time) {
    && a.sessions.Keys <= issued
    && forall raw :: raw in a.sessions ==> SessionOk(lim, a.users, a.sessions[raw], clock)
  }

  lemma StepKeeps(cr: Crypto, lim: Limits, keeps: bool, a: Auth, issued: set<string>, clock: Time, op: Op, now: Time)
    requires Sensible(lim) && Inv(lim, a, issued, clock) && clock <= now
    ensures Inv(lim, Step(cr, lim, keeps, a, op, now).auth, issued + TokensOf(op), now)
  {
  }

  // ---- refused once, refused forever -----------------------------------------------------

  /** Nothing can make this token pass again. */
  predicate Dead(lim: Limits, a: Auth, raw: string, now: Time) {
    raw in a.sessions ==>
      var s := a.sessions[raw];
      s.revokedAt.Some? || s.expiresAt <= now || now - s.lastSeenAt > lim.idle
  }

  lemma RefusedIsDead(cr: Crypto, lim: Limits, a: Auth, issued: set<string>, clock: Time, raw: string, now: Time)
    requires Inv(lim, a, issued, clock)
    ensures Step(cr, lim, false, a, Resolve(raw), now).reply == Refused <==> Dead(lim, a, raw, now)
  {
    assert raw in a.sessions ==> SessionOk(lim, a.users, a.sessions[raw], clock);
  }

  lemma DeadStays(cr: Crypto, lim: Limits, a: Auth, raw: string, now: Time, op: Op, later: Time)
    requires Dead(lim, a, raw, now) && now <= later && raw !in TokensOf(op)
    ensures Dead(lim, Step(cr, lim, false, a, op, later).auth, raw, later)
  {
  }

  lemma {:induction false} DeadForever(cr: Crypto, lim: Limits, a: Auth, issued: set<string>, raw: string,
                                       now: Time, events: seq<Event>)
    requires raw in issued && Dead(lim, a, raw, now) && Timed(now, events) && FreshTokens(issued, events)
    ensures Dead(lim, Run(cr, lim, a, events), raw, EndTime(now, events))
    decreases |events|
  {
    if events != [] {
      var e := events[0];
      DeadStays(cr, lim, a, raw, now, e.op, e.now);
      DeadForever(cr, lim, Step(cr, lim, false, a, e.op, e.now).auth, issued + TokensOf(e.op), raw, e.now, events[1..]);
    }
  }

  lemma {:induction false} RunKeeps(cr: Crypto, lim: Limits, a: Auth, issued: set<string>, clock: Time,
                                    events: seq<Event>)
    requires Sensible(lim) && Inv(lim, a, issued, clock) && Timed(clock, events) && FreshTokens(issued, events)
    ensures Inv(lim, Run(cr, lim, a, events), IssuedAfter(issued, events), EndTime(clock, events))
    decreases |events|
  {
    if events != [] {
      var e := events[0];
      StepKeeps(cr, lim, false, a, issued, clock, e.op, e.now);
      RunKeeps(cr, lim, Step(cr, lim, false, a, e.op, e.now).auth, issued + TokensOf(e.op), e.now, events[1..]);
    }
  }

  /** Once an issued token has been refused, no sequence of logins, resets,
      enables or other uses makes it pass again. */
  lemma RefusedForever(cr: Crypto, lim: Limits, a: Auth, issued: set<string>, clock: Time, raw: string, now: Time,
                       events: seq<Event>, later: Time)
    requires Sensible(lim) && Inv(lim, a, issued, clock) && clock <= now && raw in issued
    requires Step(cr, lim, false, a, Resolve(raw), now).reply == Refused
    requires Timed(now, events) && FreshTokens(issued, events) && EndTime(now, events) <= later
    ensures Step(cr, lim, false, Run(cr, lim, a, events), Resolve(raw), later).reply == Refused
  {
    RefusedIsDead(cr, lim, a, issued, clock, raw, now);
    DeadForever(cr, lim, a, issued, raw, now, events);
    var a' := Run(cr, lim, a, events);
    assert Dead(lim, a', raw, later);
    assert !Live(lim, a', raw, later);
  }

  // ---- acceptance is the token's history -----------------------------------------------------

  /** What the replies say about a token: who it was issued to and when, its
      accepted uses (the issue counts as one), and whether it was ever revoked. */
  datatype Life = Life(owner: string, uses: seq<Time>, killed: bool)

  type Lives = map<string, Life>

  function Last(s: seq<Time>): Time
    requires s != []
  {
    s[|s| - 1]
  }

  /** The documented rule: idle timeout slides, absolute lifetime does not. */
  predicate Passes(lim: Limits, l: Life, now: Time) {
    !l.killed && l.uses != [] && now < l.uses[0] + lim.absolute && now - Last(l.uses) <= lim.idle
  }

  function KilledFor(lives: Lives, email: string): Lives {
    map raw | raw in lives :: if lives[raw].owner == email then lives[raw].(killed := true) else lives[raw]
  }

  /** The histories after seeing one request and its reply. */
  function Seen(lives: Lives, op: Op, reply: Reply, now: Time): Lives {
    match (op, reply)
    case (Login(email, _, _, raw), LoggedIn(_)) => lives[raw := Life(email, [now], false)]
    case (Resolve(raw), Accepted(_)) =>
      if raw in lives then lives[raw := lives[raw].(uses := lives[raw].uses + [now])] else lives
    case (Logout(raw), LoggedOut(_)) => if raw in lives then lives[raw := lives[raw].(killed := true)] else lives
    case (RevokeSessions(email), Done) => KilledFor(lives, email)
    case (ResetPassword(email, _, _), Done) => KilledFor(lives, email)
    case (ResetTotp(email, _), Done) => KilledFor(lives, email)
    case (SetActive(email, false), Done) => KilledFor(lives, email)
    case _ => lives
  }

  function LivesAfter(cr: Crypto, lim: Limits, a: Auth, lives: Lives, events: seq<Event>): Lives
    decreases |events|
  {
    if events == [] then lives
    else
      var o := Step(cr, lim, false, a, events[0].op, events[0].now);
      LivesAfter(cr, lim, o.auth, Seen(lives, events[0].op, o.reply, events[0].now), events[1..])
  }

  /** A stored session shows its history; a missing one expired long ago. */
  predicate ShowsLife(lim: Limits, a: Auth, lives: Lives, raw: string, clock: Time) {
    if raw in a.sessions then
      && raw in lives
      && var s, l := a.sessions[raw], lives[raw];
         && l.owner == s.owner && l.uses != [] && l.uses[0] == s.createdAt && Last(l.uses) == s.lastSeenAt
         && (l.killed <==> s.revokedAt.Some?)
    else
      raw in lives ==> lives[raw].uses != [] && (lives[raw].uses[0] + lim.absolute <= clock)
  }

  ghost predicate ShowsLives(lim: Limits, a: Auth, lives: Lives, issued: set<string>, clock: Time) {
    && lives.Keys <= issued
    && forall raw :: ShowsLife(lim, a, lives, raw, clock)
  }

  lemma SessionCallShows(cr: Crypto, lim: Limits, a: Auth, lives: Lives, clock: Time, op: Op, now: Time, raw: string)
    requires Sensible(lim) && ShowsLife(lim, a, lives, raw, clock) && clock <= now
    requires op.Login? || op.Resolve? || op.Logout?
    requires op.Login? ==> op.raw !in a.sessions
    requires raw in a.sessions ==> SessionOk(lim, a.users, a.sessions[raw], clock)
    ensures var o := Step(cr, lim, false, a, op, now);
            ShowsLife(lim, o.auth, Seen(lives, op, o.reply, now), raw, now)
  {
  }

  lemma AccountCallShows(cr: Crypto, lim: Limits, a: Auth, lives: Lives, clock: Time, op: Op, now: Time, raw: string)
    requires Sensible(lim) && ShowsLife(lim, a, lives, raw, clock) && clock <= now
    requires !op.Login? && !op.Resolve? && !op.Logout?
    ensures var o := Step(cr, lim, false, a, op, now);
            ShowsLife(lim, o.auth, Seen(lives, op, o.reply, now), raw, now)
  {
  }

  lemma StepShowsLives(cr: Crypto, lim: Limits, a: Auth, lives: Lives, issued: set<string>, clock: Time, op: Op,
                       now: Time)
    requires Sensible(lim) && Inv(lim, a, issued, clock) && ShowsLives(lim, a, lives, issued, clock)
    requires clock <= now && TokensOf(op) !! issued
    ensures var o := Step(cr, lim, false, a, op, now);
            ShowsLives(lim, o.auth, Seen(lives, op, o.reply, now), issued + TokensOf(op), now)
  {
    var o := Step(cr, lim, false, a, op, now);
    var lives' := Seen(lives, op, o.reply, now);
    forall raw ensures ShowsLife(lim, o.auth, lives', raw, now) {
      assert ShowsLife(lim, a, lives, raw, clock);
      assert raw in a.sessions ==> SessionOk(lim, a.users, a.sessions[raw], clock);
      if op.Login? || op.Resolve? || op.Logout? {
        SessionCallShows(cr, lim, a, lives, clock, op, now, raw);
      } else {
        AccountCallShows(cr, lim, a, lives, clock, op, now, raw);
      }
    }
  }

  lemma {:induction false} RunShowsLives(cr: Crypto, lim: Limits, a: Auth, lives: Lives, issued: set<string>,
                                         clock: Time, events: seq<Event>)
    requires Sensible(lim) && Inv(lim, a, issued, clock) && ShowsLives(lim, a, lives, issued, clock)
    requires Timed(clock, events) && FreshTokens(issued, events)
    ensures var lives' := LivesAfter(cr, lim, a, lives, events);
            ShowsLives(lim, Run(cr, lim, a, events), lives', IssuedAfter(issued, events), EndTime(clock, events))
    decreases |events|
  {
    if events != [] {
      var e := events[0];
      var o := Step(cr, lim, false, a, e.op, e.now);
      StepKeeps(cr, lim, false, a, issued, clock, e.op, e.now);
      StepShowsLives(cr, lim, a, lives, issued, clock, e.op, e.now);
      RunShowsLives(cr, lim, o.auth, Seen(lives, e.op, o.reply, e.now), issued + TokensOf(e.op), e.now, events[1..]);
    }
  }

  /** After any run, a token passes exactly when its history says so: issued,
      never revoked, within its absolute lifetime and used within the idle
      timeout. It then stands for the user it was issued to. Housekeeping is not
      part of the history. */
  lemma AcceptedIffHistory(cr: Crypto, lim: Limits, events: seq<Event>, clock: Time, raw: string, now: Time)
    requires Sensible(lim) && Timed(clock, events) && FreshTokens({}, events) && EndTime(clock, events) <= now
    ensures var lives := LivesAfter(cr, lim, NOBODY, map[], events);
            Step(cr, lim, false, Run(cr, lim, NOBODY, events), Resolve(raw), now).reply
            == if raw in lives && Passes(lim, lives[raw], now) then Accepted(lives[raw].owner) else Refused
  {
    RunShowsLives(cr, lim, NOBODY, map[], {}, clock, events);
    var a := Run(cr, lim, NOBODY, events);
    var lives := LivesAfter(cr, lim, NOBODY, map[], events);
    RunKeeps(cr, lim, NOBODY, {}, clock, events);
    assert ShowsLife(lim, a, lives, raw, EndTime(clock, events));
    assert raw in a.sessions ==> SessionOk(lim, a.users, a.sessions[raw], EndTime(clock, events));
  }

  // ---- whose session it is -------------------------------------------------------------------

  /** Some session is stored under `raw`, and its owner is `email`; or none is. */
  predicate OwnedBy(a: Auth, raw: string, email: string) {
    raw in a.sessions ==> a.sessions[raw].owner == email
  }

  lemma {:induction false} OwnerStays(cr: Crypto, lim: Limits, a: Auth, issued: set<string>, raw: string,
                                      email: string, events: seq<Event>)
    requires raw in issued && OwnedBy(a, raw, email) && FreshTokens(issued, events)
    ensures OwnedBy(Run(cr, lim, a, events), raw, email)
    decreases |events|
  {
    if events != [] {
      var e := events[0];
      OwnerStaysOnce(cr, lim, a, raw, email, e.op, e.now);
      OwnerStays(cr, lim, Step(cr, lim, false, a, e.op, e.now).auth, issued + TokensOf(e.op), raw, email, events[1..]);
    }
  }

  lemma OwnerStaysOnce(cr: Crypto, lim: Limits, a: Auth, raw: string, email: string, op: Op, now: Time)
    requires raw !in TokensOf(op) && OwnedBy(a, raw, email)
    ensures OwnedBy(Step(cr, lim, false, a, op, now).auth, raw, email)
  {
  }

  /** A token handed out by a login stands for that user for good: whatever follows, a
      check or a logout with it names the user that logged in, or nobody. */
  lemma SessionNamesItsUser(cr: Crypto, lim: Limits, a: Auth, issued: set<string>, email: string, password: string,
                            code: string, raw: string, now: Time, events: seq<Event>, later: Time)
    requires Step(cr, lim, false, a, Login(email, password, code, raw), now).reply.LoggedIn?
    requires FreshTokens(issued + {raw}, events)
    ensures var after := Run(cr, lim, Step(cr, lim, false, a, Login(email, password, code, raw), now).auth, events);
            && Step(cr, lim, false, after, Resolve(raw), later).reply in {Accepted(email), Refused}
            && Step(cr, lim, false, after, Logout(raw), later).reply in {LoggedOut(email), NoSession}
  {
    var b := Step(cr, lim, false, a, Login(email, password, code, raw), now).auth;
    OwnerStays(cr, lim, b, issued + {raw}, raw, email, events);
  }

  // ---- a logout is its token's history -----------------------------------------------------------

  /** The session had expired for more than a day at the last login. */
  predicate CleanedUp(lim: Limits, l: Life, last: Option<Time>) {
    l.uses != [] && last.Some? && l.uses[0] + lim.absolute < last.value - DAY
  }

  /** A token's session is stored until a login cleans it up. */
  predicate StoredAsSeen(lim: Limits, a: Auth, lives: Lives, last: Option<Time>, raw: string) {
    && (raw in a.sessions <==> raw in lives && !CleanedUp(lim, lives[raw], last))
    && (raw in a.sessions ==>
          && lives[raw].uses != [] && a.sessions[raw].owner in a.users && a.sessions[raw].owner == lives[raw].owner
          && a.sessions[raw].expiresAt == lives[raw].uses[0] + lim.absolute
          && (lives[raw].killed <==> a.sessions[raw].revokedAt.Some?))
  }

  function LastLoginAfter(last: Option<Time>, reply: Reply, now: Time): Option<Time> {
    if reply.LoggedIn? then Some(now) else last
  }

  lemma StepStored(cr: Crypto, lim: Limits, a: Auth, lives: Lives, last: Option<Time>, op: Op, now: Time, raw: string)
    requires Sensible(lim) && StoredAsSeen(lim, a, lives, last, raw) && (last.Some? ==> last.value <= now)
    requires raw in TokensOf(op) ==> raw !in a.sessions && raw !in lives
    ensures var o := Step(cr, lim, false, a, op, now);
            StoredAsSeen(lim, o.auth, Seen(lives, op, o.reply, now), LastLoginAfter(last, o.reply, now), raw)
  {
  }

  lemma {:induction false} RunStored(cr: Crypto, lim: Limits, a: Auth, lives: Lives, last: Option<Time>,
                                     issued: set<string>, clock: Time, events: seq<Event>, raw: string)
    requires Sensible(lim) && StoredAsSeen(lim, a, lives, last, raw) && (last.Some? ==> last.value <= clock)
    requires lives.Keys <= issued && Timed(clock, events) && FreshTokens(issued, events)
    ensures StoredAsSeen(lim, Run(cr, lim, a, events), LivesAfter(cr, lim, a, lives, events),
                         LastLogin(cr, lim, a, events, last), raw)
    decreases |events|
  {
    if events != [] {
      var e := events[0];
      var o := Step(cr, lim, false, a, e.op, e.now);
      StepStored(cr, lim, a, lives, last, e.op, e.now, raw);
      RunStored(cr, lim, o.auth, Seen(lives, e.op, o.reply, e.now), LastLoginAfter(last, o.reply, e.now),
                issued + TokensOf(e.op), e.now, events[1..], raw);
    }
  }

  /** After any run, a logout names the user that the token was issued to, unless the
      token was revoked before, was never issued, or its session was cleaned up. */
  lemma LogoutIffHistory(cr: Crypto, lim: Limits, events: seq<Event>, clock: Time, raw: string, now: Time)
    requires Sensible(lim) && Timed(clock, events) && FreshTokens({}, events)
    ensures var lives := LivesAfter(cr, lim, NOBODY, map[], events);
            Step(cr, lim, false, Run(cr, lim, NOBODY, events), Logout(raw), now).reply
            == if raw in lives && !lives[raw].killed
                  && !CleanedUp(lim, lives[raw], LastLogin(cr, lim, NOBODY, events, None))
               then LoggedOut(lives[raw].owner) else NoSession
  {
    RunStored(cr, lim, NOBODY, map[], None, {}, clock, events, raw);
  }

  /** In a history every use came within the idle timeout of the one before, in
      order, and before the absolute end. */
  predicate WellUsed(lim: Limits, l: Life) {
    && l.uses != []
    && (forall i :: 0 < i < |l.uses| ==> l.uses[i] - l.uses[i - 1] <= lim.idle)
    && (forall i :: 0 <= i < |l.uses| ==> l.uses[i] < l.uses[0] + lim.absolute)
  }

  ghost predicate AllWellUsed(lim: Limits, lives: Lives) {
    forall raw :: raw in lives ==> WellUsed(lim, lives[raw])
  }

  lemma UseKeepsWellUsed(lim: Limits, l: Life, now: Time)
    requires WellUsed(lim, l) && Passes(lim, l, now)
    ensures WellUsed(lim, l.(uses := l.uses + [now]))
  {
  }

  lemma StepWellUsed(cr: Crypto, lim: Limits, a: Auth, lives: Lives, issued: set<string>, clock: Time, op: Op,
                     now: Time)
    requires Sensible(lim) && Inv(lim, a, issued, clock) && ShowsLives(lim, a, lives, issued, clock) && clock <= now
    requires AllWellUsed(lim, lives)
    ensures AllWellUsed(lim, Seen(lives, op, Step(cr, lim, false, a, op, now).reply, now))
  {
    var reply := Step(cr, lim, false, a, op, now).reply;
    var lives' := Seen(lives, op, reply, now);
    forall raw | raw in lives' ensures WellUsed(lim, lives'[raw]) {
      if op == Resolve(raw) && reply.Accepted? {
        assert ShowsLife(lim, a, lives, raw, clock);
        UseKeepsWellUsed(lim, lives[raw], now);
      } else if raw in lives {
        assert WellUsed(lim, lives[raw]);
      }
    }
  }

  lemma {:induction false} HistoriesAreWellUsed(cr: Crypto, lim: Limits, a: Auth, lives: Lives, issued: set<string>,
                                                clock: Time, events: seq<Event>)
    requires Sensible(lim) && Inv(lim, a, issued, clock) && ShowsLives(lim, a, lives, issued, clock)
    requires Timed(clock, events) && FreshTokens(issued, events)
    requires AllWellUsed(lim, lives)
    ensures AllWellUsed(lim, LivesAfter(cr, lim, a, lives, events))
    decreases |events|
  {
    if events != [] {
      var e := events[0];
      var o := Step(cr, lim, false, a, e.op, e.now);
      StepKeeps(cr, lim, false, a, issued, clock, e.op, e.now);
      StepShowsLives(cr, lim, a, lives, issued, clock, e.op, e.now);
      StepWellUsed(cr, lim, a, lives, issued, clock, e.op, e.now);
      HistoriesAreWellUsed(cr, lim, o.auth, Seen(lives, e.op, o.reply, e.now), issued + TokensOf(e.op), e.now,
                           events[1..]);
    }
  }

  // ---- housekeeping ------------------------------------------------------------------------

  /** `b` is `a` with some long expired sessions still in place. */
  ghost predicate SameButExpired(a: Auth, b: Auth, now: Time) {
    && a.users == b.users
    && (forall raw :: raw in a.sessions ==> raw in b.sessions && a.sessions[raw] == b.sessions[raw])
    && (forall raw :: raw in b.sessions && raw !in a.sessions ==> b.sessions[raw].expiresAt <= now)
  }

  /** Whether a reply is a verdict on a session or a login. */
  predicate IsVerdict(op: Op) {
    op.Resolve? || op.Login?
  }

  /** The same request, with and without housekeeping, from such a pair: the
      same verdict, and such a pair again. */
  lemma HousekeepingStep(cr: Crypto, lim: Limits, a: Auth, b: Auth, clock: Time, op: Op, now: Time)
    requires SameButExpired(a, b, clock) && clock <= now
    ensures var x := Step(cr, lim, false, a, op, now);
            var y := Step(cr, lim, true, b, op, now);
            && SameButExpired(x.auth, y.auth, now) && (IsVerdict(op) ==> x.reply == y.reply)
  {
    match op
    case Login(_, _, _, _) => HousekeepingLogin(cr, lim, a, b, clock, op, now);
    case Resolve(raw) => HousekeepingResolve(cr, lim, a, b, clock, raw, now);
    case Logout(raw) =>
    case _ => HousekeepingAccount(cr, lim, a, b, clock, op, now);
  }

  lemma HousekeepingLogin(cr: Crypto, lim: Limits, a: Auth, b: Auth, clock: Time, op: Op, now: Time)
    requires SameButExpired(a, b, clock) && clock <= now && op.Login?
    ensures var x := Step(cr, lim, false, a, op, now);
            var y := Step(cr, lim, true, b, op, now);
            SameButExpired(x.auth, y.auth, now) && x.reply == y.reply
  {
  }

  lemma HousekeepingResolve(cr: Crypto, lim: Limits, a: Auth, b: Auth, clock: Time, raw: string, now: Time)
    requires SameButExpired(a, b, clock) && clock <= now
    ensures var x := Step(cr, lim, false, a, Resolve(raw), now);
            var y := Step(cr, lim, true, b, Resolve(raw), now);
            SameButExpired(x.auth, y.auth, now) && x.reply == y.reply
  {
  }

  lemma HousekeepingAccount(cr: Crypto, lim: Limits, a: Auth, b: Auth, clock: Time, op: Op, now: Time)
    requires SameButExpired(a, b, clock) && clock <= now && !op.Login? && !op.Resolve? && !op.Logout?
    ensures SameButExpired(Step(cr, lim, false, a, op, now).auth, Step(cr, lim, true, b, op, now).auth, now)
  {
  }

  function Verdicts(cr: Crypto, lim: Limits, keeps: bool, a: Auth, events: seq<Event>): seq<Reply>
    decreases |events|
  {
    if events == [] then []
    else
      var o := Step(cr, lim, keeps, a, events[0].op, events[0].now);
      (if IsVerdict(events[0].op) then [o.reply] else []) + Verdicts(cr, lim, keeps, o.auth, events[1..])
  }

  /** Over any run, deleting expired sessions changes no verdict, present or future. */
  lemma {:induction false} HousekeepingIsInvisible(cr: Crypto, lim: Limits, a: Auth, b: Auth, clock: Time,
                                                   events: seq<Event>)
    requires SameButExpired(a, b, clock) && Timed(clock, events)
    ensures Verdicts(cr, lim, false, a, events) == Verdicts(cr, lim, true, b, events)
    decreases |events|
  {
    if events != [] {
      var e := events[0];
      HousekeepingStep(cr, lim, a, b, clock, e.op, e.now);
      HousekeepingIsInvisible(cr, lim, Step(cr, lim, false, a, e.op, e.now).auth,
                              Step(cr, lim, true, b, e.op, e.now).auth, e.now, events[1..]);
    }
  }

  /** It does show in a logout, which names the owner of any unrevoked row, expired
      or not: the replies with and without a purge differ exactly for an unrevoked
      row of a known user that expired more than a day before the purge. */
  lemma HousekeepingShowsInLogout(cr: Crypto, lim: Limits, a: Auth, raw: string, now: Time, later: Time)
    ensures Step(cr, lim, false, a, Logout(raw), later).reply
         != Step(cr, lim, false, a.(sessions := Purged(a.sessions, now)), Logout(raw), later).reply
       <==> (&& raw in a.sessions && a.sessions[raw].owner in a.users && a.sessions[raw].revokedAt.None?
             && a.sessions[raw].expiresAt < now - DAY)
  {
  }

  /** The run without housekeeping: no session row is ever deleted. */
  function RunKeeping(cr: Crypto, lim: Limits, a: Auth, events: seq<Event>): Auth
    decreases |events|
  {
    if events == [] then a
    else RunKeeping(cr, lim, Step(cr, lim, true, a, events[0].op, events[0].now).auth, events[1..])
  }

  /** When the run last logged someone in. */
  function LastLogin(cr: Crypto, lim: Limits, a: Auth, events: seq<Event>, last: Option<Time>): Option<Time>
    decreases |events|
  {
    if events == [] then last
    else
      var o := Step(cr, lim, false, a, events[0].op, events[0].now);
      LastLogin(cr, lim, o.auth, events[1..], if o.reply.LoggedIn? then Some(events[0].now) else last)
  }

  predicate PurgedBy(s: Session, last: Option<Time>) {
    last.Some? && s.expiresAt < last.value - DAY
  }

  /** `a` is `b` without the sessions that housekeeping has deleted. */
  ghost predicate Thinned(a: Auth, b: Auth, last: Option<Time>, clock: Time) {
    && a.users == b.users && (last.Some? ==> last.value <= clock)
    && (forall raw :: raw in b.sessions ==> b.sessions[raw].owner in b.users)
    && (forall raw :: raw in a.sessions <==> raw in b.sessions && !PurgedBy(b.sessions[raw], last))
    && (forall raw :: raw in a.sessions ==> a.sessions[raw] == b.sessions[raw])
  }

  lemma ThinnedStep(cr: Crypto, lim: Limits, a: Auth, b: Auth, last: Option<Time>, clock: Time, op: Op, now: Time)
    requires Sensible(lim) && Thinned(a, b, last, clock) && clock <= now
    ensures var x := Step(cr, lim, false, a, op, now);
            Thinned(x.auth, Step(cr, lim, true, b, op, now).auth, if x.reply.LoggedIn? then Some(now) else last, now)
  {
    match op
    case Login(_, _, _, _) => ThinnedLogin(cr, lim, a, b, last, clock, op, now);
    case Resolve(raw) => ThinnedResolve(cr, lim, a, b, last, clock, raw, now);
    case Logout(raw) =>
    case _ => ThinnedAccount(cr, lim, a, b, last, clock, op, now);
  }

  lemma ThinnedLogin(cr: Crypto, lim: Limits, a: Auth, b: Auth, last: Option<Time>, clock: Time, op: Op, now: Time)
    requires Sensible(lim) && Thinned(a, b, last, clock) && clock <= now && op.Login?
    ensures var x := Step(cr, lim, false, a, op, now);
            Thinned(x.auth, Step(cr, lim, true, b, op, now).auth, if x.reply.LoggedIn? then Some(now) else last, now)
  {
  }

  lemma ThinnedResolve(cr: Crypto, lim: Limits, a: Auth, b: Auth, last: Option<Time>, clock: Time, raw: string,
                       now: Time)
    requires Thinned(a, b, last, clock) && clock <= now
    ensures Thinned(Step(cr, lim, false, a, Resolve(raw), now).auth, Step(cr, lim, true, b, Resolve(raw), now).auth,
                    last, now)
  {
  }

  lemma ThinnedRevoke(a: Auth, b: Auth, last: Option<Time>, clock: Time, email: string, now: Time)
    requires Thinned(a, b, last, clock) && clock <= now
    ensures Thinned(a.(sessions := RevokedFor(a.sessions, email, now)),
                    b.(sessions := RevokedFor(b.sessions, email, now)), last, now)
  {
  }

  lemma ThinnedUser(a: Auth, b: Auth, last: Option<Time>, clock: Time, email: string, u: User)
    requires Thinned(a, b, last, clock)
    ensures Thinned(PutUser(a, email, u), PutUser(b, email, u), last, clock)
  {
  }

  lemma ThinnedAccount(cr: Crypto, lim: Limits, a: Auth, b: Auth, last: Option<Time>, clock: Time, op: Op, now: Time)
    requires Thinned(a, b, last, clock) && clock <= now && !op.Login? && !op.Resolve? && !op.Logout?
    ensures Thinned(Step(cr, lim, false, a, op, now).auth, Step(cr, lim, true, b, op, now).auth, last, now)
  {
    if op.email in Step(cr, lim, false, a, op, now).auth.users {
      var u := Step(cr, lim, false, a, op, now).auth.users[op.email];
      ThinnedUser(a, b, last, clock, op.email, u);
      ThinnedRevoke(a, b, last, clock, op.email, now);
      ThinnedRevoke(PutUser(a, op.email, u), PutUser(b, op.email, u), last, clock, op.email, now);
    }
  }

  lemma {:induction false} RunThinned(cr: Crypto, lim: Limits, a: Auth, b: Auth, last: Option<Time>, clock: Time,
                                      events: seq<Event>)
    requires Sensible(lim) && Thinned(a, b, last, clock) && Timed(clock, events)
    ensures Thinned(Run(cr, lim, a, events), RunKeeping(cr, lim, b, events), LastLogin(cr, lim, a, events, last),
                    EndTime(clock, events))
    decreases |events|
  {
    if events != [] {
      var e := events[0];
      var o := Step(cr, lim, false, a, e.op, e.now);
      ThinnedStep(cr, lim, a, b, last, clock, e.op, e.now);
      RunThinned(cr, lim, o.auth, Step(cr, lim, true, b, e.op, e.now).auth,
                 if o.reply.LoggedIn? then Some(e.now) else last, e.now, events[1..]);
    }
  }

  /** After any run, housekeeping changes the reply to a logout exactly when the
      session is unrevoked and had expired more than a day before the last login. */
  lemma HousekeepingOverRuns(cr: Crypto, lim: Limits, events: seq<Event>, clock: Time, raw: string, now: Time)
    requires Sensible(lim) && Timed(clock, events)
    ensures var a, b := Run(cr, lim, NOBODY, events), RunKeeping(cr, lim, NOBODY, events);
            Step(cr, lim, false, a, Logout(raw), now).reply != Step(cr, lim, true, b, Logout(raw), now).reply
            <==> (&& raw in b.sessions && b.sessions[raw].revokedAt.None?
                  && PurgedBy(b.sessions[raw], LastLogin(cr, lim, NOBODY, events, None)))
  {
    RunThinned(cr, lim, NOBODY, NOBODY, None, clock, events);
  }

  // ---- one-time codes ------------------------------------------------------------------------

  /** The time steps a user's logins consumed since the secret was last reset. */
  function StepsSeen(email: string, steps: seq<int>, op: Op, reply: Reply): seq<int> {
    if op.Login? && op.email == email && reply.LoggedIn? then steps + [reply.step]
    else if op.ResetTotp? && op.email == email && reply == Done then []
    else steps
  }

  function StepsAfter(cr: Crypto, lim: Limits, a: Auth, email: string, steps: seq<int>, events: seq<Event>): seq<int>
    decreases |events|
  {
    if events == [] then steps
    else
      var o := Step(cr, lim, false, a, events[0].op, events[0].now);
      StepsAfter(cr, lim, o.auth, email, StepsSeen(email, steps, events[0].op, o.reply), events[1..])
  }

  predicate Increasing(s: seq<int>) {
    forall i, j :: 0 <= i < j < |s| ==> s[i] < s[j]
  }

  predicate Within(s: seq<int>, lo: int, hi: int) {
    forall i :: 0 <= i < |s| ==> lo <= s[i] <= hi
  }

  /** The stored step is the last one consumed. */
  predicate ShowsSteps(a: Auth, email: string, steps: seq<int>) {
    && Increasing(steps)
    && (email !in a.users ==> steps == [])
    && (email in a.users ==> a.users[email].lastStep == if steps == [] then None else Some(steps[|steps| - 1]))
  }

  lemma StepConsumesOnce(cr: Crypto, lim: Limits, a: Auth, email: string, steps: seq<int>, op: Op, now: Time)
    requires ShowsSteps(a, email, steps)
    ensures var o := Step(cr, lim, false, a, op, now);
            && ShowsSteps(o.auth, email, StepsSeen(email, steps, op, o.reply))
            && (o.reply.LoggedIn? ==> CurrentStep(now) - 1 <= o.reply.step <= CurrentStep(now) + 1)
            && (o.reply == LoginFailed ==> o.auth == a)
  {
  }

  lemma {:induction false} RangeBound(s: seq<int>, lo: int, hi: int)
    requires Increasing(s) && Within(s, lo, hi) && lo <= hi + 1
    ensures |s| <= hi - lo + 1
    decreases |s|
  {
    if s != [] {
      RangeBound(s[1..], s[0] + 1, hi);
    }
  }

  /** `steps` are some of the steps consumed since the last reset: the latest ones. */
  predicate EndsInSteps(a: Auth, email: string, steps: seq<int>) {
    && Increasing(steps)
    && (steps != [] ==> email in a.users && a.users[email].lastStep == Some(steps[|steps| - 1]))
  }

  lemma StepEndsInSteps(cr: Crypto, lim: Limits, a: Auth, email: string, steps: seq<int>, op: Op, now: Time)
    requires EndsInSteps(a, email, steps)
    ensures var o := Step(cr, lim, false, a, op, now);
            && EndsInSteps(o.auth, email, StepsSeen(email, steps, op, o.reply))
            && (o.reply.LoggedIn? ==> CurrentStep(now) - 1 <= o.reply.step <= CurrentStep(now) + 1)
  {
  }

  /** A login at a step between `c0` and `c1` consumes one near them. */
  lemma SeenStaysWithin(steps: seq<int>, email: string, op: Op, reply: Reply, current: int, c0: int, c1: int)
    requires Within(steps, c0 - 1, c1 + 1) && c0 <= current <= c1
    requires reply.LoggedIn? ==> current - 1 <= reply.step <= current + 1
    ensures Within(StepsSeen(email, steps, op, reply), c0 - 1, c1 + 1)
  {
  }

  lemma {:induction false} RunEndsInSteps(cr: Crypto, lim: Limits, a: Auth, email: string, steps: seq<int>,
                                          clock: Time, events: seq<Event>, c0: int, c1: int)
    requires EndsInSteps(a, email, steps) && Within(steps, c0 - 1, c1 + 1) && Timed(clock, events)
    requires c0 <= CurrentStep(clock) && CurrentStep(EndTime(clock, events)) <= c1
    ensures var after := StepsAfter(cr, lim, a, email, steps, events);
            && Increasing(after) && Within(after, c0 - 1, c1 + 1)
            && EndsInSteps(Run(cr, lim, a, events), email, after)
    decreases |events|
  {
    if events != [] {
      var e := events[0];
      var o := Step(cr, lim, false, a, e.op, e.now);
      EndIsLater(e.now, events[1..]);
      StepEndsInSteps(cr, lim, a, email, steps, e.op, e.now);
      LaterStep(clock, e.now);
      SeenStaysWithin(steps, email, e.op, o.reply, CurrentStep(e.now), c0, c1);
      RunEndsInSteps(cr, lim, o.auth, email, StepsSeen(email, steps, e.op, o.reply), e.now, events[1..], c0, c1);
    }
  }

  /** Whatever came before: while the clock runs from step `c0` to step `c1`, a
      user's logins consume strictly increasing steps near the clock since the last
      reset of the secret, so at most c1 - c0 + 3 of them succeed (section 5.2 of
      RFC 6238). */
  lemma CodesAreUsedOnce(cr: Crypto, lim: Limits, a: Auth, email: string, clock: Time, events: seq<Event>,
                         c0: int, c1: int)
    requires Timed(clock, events) && c0 <= CurrentStep(clock) && CurrentStep(EndTime(clock, events)) <= c1
    ensures var consumed := StepsAfter(cr, lim, a, email, [], events);
            Increasing(consumed) && Within(consumed, c0 - 1, c1 + 1) && |consumed| <= c1 - c0 + 3
  {
    RunEndsInSteps(cr, lim, a, email, [], clock, events, c0, c1);
    EndIsLater(clock, events);
    RangeBound(StepsAfter(cr, lim, a, email, [], events), c0 - 1, c1 + 1);
  }

  lemma LaterStep(clock: Time, now: Time)
    requires clock <= now
    ensures CurrentStep(clock) <= CurrentStep(now)
  {
  }

  lemma {:induction false} EndIsLater(clock: Time, events: seq<Event>)
    requires Timed(clock, events)
    ensures clock <= EndTime(clock, events) && CurrentStep(clock) <= CurrentStep(EndTime(clock, events))
    decreases |events|
  {
    if events != [] {
      EndIsLater(events[0].now, events[1..]);
    }
  }

  /** No request of the run resets the secret of `email`. */
  predicate NoReset(email: string, events: seq<Event>) {
    forall i :: 0 <= i < |events| ==> !(events[i].op.ResetTotp? && events[i].op.email == email)
  }

  lemma {:induction false} LastStepGrows(cr: Crypto, lim: Limits, a: Auth, email: string, events: seq<Event>)
    requires NoReset(email, events) && email in a.users && a.users[email].lastStep.Some?
    ensures var a' := Run(cr, lim, a, events);
            && email in a'.users && a'.users[email].lastStep.Some? && a'.users[email].secret == a.users[email].secret
            && a'.users[email].lastStep.value >= a.users[email].lastStep.value
    decreases |events|
  {
    if events != [] {
      var e := events[0];
      assert !(e.op.ResetTotp? && e.op.email == email);
      LastStepGrowsOnce(cr, lim, a, email, e.op, e.now);
      LastStepGrows(cr, lim, Step(cr, lim, false, a, e.op, e.now).auth, email, events[1..]);
    }
  }

  lemma LastStepGrowsOnce(cr: Crypto, lim: Limits, a: Auth, email: string, op: Op, now: Time)
    requires email in a.users && a.users[email].lastStep.Some? && !(op.ResetTotp? && op.email == email)
    ensures var a' := Step(cr, lim, false, a, op, now).auth;
            && email in a'.users && a'.users[email].lastStep.Some? && a'.users[email].secret == a.users[email].secret
            && a'.users[email].lastStep.value >= a.users[email].lastStep.value
  {
  }

  /** After a login, and any run without a reset of the secret, a code logs the same
      user in at any time only if it belongs to a step above the consumed one. */
  lemma CodeReplayFails(cr: Crypto, lim: Limits, a: Auth, email: string, password: string, code: string, raw: string,
                        now: Time, events: seq<Event>, password': string, code': string, raw': string, later: Time)
    requires Step(cr, lim, false, a, Login(email, password, code, raw), now).reply.LoggedIn?
    requires NoReset(email, events)
    ensures var o := Step(cr, lim, false, a, Login(email, password, code, raw), now);
            var after := Run(cr, lim, o.auth, events);
            var reply := Step(cr, lim, false, after, Login(email, password', code', raw'), later).reply;
            && email in after.users
            && (reply.LoggedIn? ==>
                  reply.step > o.reply.step && cr.codeAt(after.users[email].secret, reply.step) == code')
            && ((forall s :: s > o.reply.step ==> cr.codeAt(after.users[email].secret, s) != code') ==>
                  reply == LoginFailed)
  {
    var o := Step(cr, lim, false, a, Login(email, password, code, raw), now);
    LastStepGrows(cr, lim, o.auth, email, events);
  }

  // ---- a login is its account's history -----------------------------------------------------------

  /** What the replies say about an account: its last password hash, its last
      secret and whether it was last enabled. */
  datatype Account = Account(hash: string, secret: string, active: bool)

  function AccountSeen(email: string, known: Option<Account>, op: Op, reply: Reply): Option<Account> {
    if reply != Done then known
    else match op
      case CreateAdmin(e, _, hash, secret) => if e == email then Some(Account(hash, secret, true)) else known
      case ResetPassword(e, _, hash) =>
        if e == email && known.Some? then Some(known.value.(hash := hash)) else known
      case ResetTotp(e, secret) => if e == email && known.Some? then Some(known.value.(secret := secret)) else known
      case SetActive(e, active) => if e == email && known.Some? then Some(known.value.(active := active)) else known
      case _ => known
  }

  function AccountAfter(cr: Crypto, lim: Limits, a: Auth, email: string, known: Option<Account>, events: seq<Event>)
    : Option<Account>
    decreases |events|
  {
    if events == [] then known
    else
      var o := Step(cr, lim, false, a, events[0].op, events[0].now);
      AccountAfter(cr, lim, o.auth, email, AccountSeen(email, known, events[0].op, o.reply), events[1..])
  }

  predicate ShowsAccount(a: Auth, email: string, known: Option<Account>) {
    if email in a.users
    then known == Some(Account(a.users[email].passwordHash, a.users[email].secret, a.users[email].isActive))
    else known == None
  }

  lemma StepShowsAccount(cr: Crypto, lim: Limits, a: Auth, email: string, known: Option<Account>, op: Op, now: Time)
    requires ShowsAccount(a, email, known)
    ensures var o := Step(cr, lim, false, a, op, now);
            ShowsAccount(o.auth, email, AccountSeen(email, known, op, o.reply))
  {
  }

  lemma {:induction false} RunShowsAccount(cr: Crypto, lim: Limits, a: Auth, email: string, known: Option<Account>,
                                           steps: seq<int>, events: seq<Event>)
    requires ShowsAccount(a, email, known) && ShowsSteps(a, email, steps)
    ensures ShowsAccount(Run(cr, lim, a, events), email, AccountAfter(cr, lim, a, email, known, events))
    ensures ShowsSteps(Run(cr, lim, a, events), email, StepsAfter(cr, lim, a, email, steps, events))
    decreases |events|
  {
    if events != [] {
      var e := events[0];
      var o := Step(cr, lim, false, a, e.op, e.now);
      StepShowsAccount(cr, lim, a, email, known, e.op, e.now);
      StepConsumesOnce(cr, lim, a, email, steps, e.op, e.now);
      RunShowsAccount(cr, lim, o.auth, email, AccountSeen(email, known, e.op, o.reply),
                      StepsSeen(email, steps, e.op, o.reply), events[1..]);
    }
  }

  /** Steps last thirty seconds. */
  lemma StepLastsThirtySeconds(now: Time, step: int)
    ensures CurrentStep(now) == step <==> step * 30 * SECOND <= now < (step + 1) * 30 * SECOND
  {
  }

  /** `step` is the lowest of `current` and its two neighbours that the code belongs to. */
  ghost predicate Belongs(cr: Crypto, secret: string, code: string, current: int, step: int) {
    && current - 1 <= step <= current + 1 && cr.codeAt(secret, step) == code
    && forall s :: current - 1 <= s < step ==> cr.codeAt(secret, s) != code
  }

  /** The password fits the hash, and is not longer than any password can be. */
  predicate Fits(cr: Crypto, hash: string, password: string) {
    |password| <= 1024 && cr.passwordOk(hash, password)
  }

  ghost predicate NewCode(cr: Crypto, secret: string, code: string, current: int, steps: seq<int>) {
    && |code| == 6 && (forall i :: 0 <= i < 6 ==> code[i] in "0123456789")
    && exists step :: Belongs(cr, secret, code, current, step) && AboveAll(step, steps)
  }

  /** After any run from the empty tables, a login succeeds exactly when the
      account was created and last enabled, the password fits the hash set last,
      and the code, six digits, belongs, under the secret set last, to a step near
      the clock above every step consumed since. */
  lemma LoginIffHistory(cr: Crypto, lim: Limits, events: seq<Event>, email: string, password: string, code: string,
                        raw: string, now: Time, current: int)
    requires current * 30 * SECOND <= now < (current + 1) * 30 * SECOND
    ensures var known := AccountAfter(cr, lim, NOBODY, email, None, events);
            var steps := StepsAfter(cr, lim, NOBODY, email, [], events);
            var a := Run(cr, lim, NOBODY, events);
            var reply := Step(cr, lim, false, a, Login(email, password, code, raw), now).reply;
            && (reply.LoggedIn? || reply == LoginFailed)
            && (reply.LoggedIn?
                <==> (&& known.Some? && known.value.active && Fits(cr, known.value.hash, password)
                      && NewCode(cr, known.value.secret, code, current, steps)))
  {
    RunShowsAccount(cr, lim, NOBODY, email, None, [], events);
    StepLastsThirtySeconds(now, current);
    LoginIff(cr, lim, Run(cr, lim, NOBODY, events), email, AccountAfter(cr, lim, NOBODY, email, None, events),
             StepsAfter(cr, lim, NOBODY, email, [], events), password, code, raw, now);
  }

  /** After any run, the password of an active account is the one whose hash was set last. */
  lemma PasswordIffHistory(cr: Crypto, lim: Limits, events: seq<Event>, email: string, password: string)
    ensures var a := Run(cr, lim, NOBODY, events);
            var known := AccountAfter(cr, lim, NOBODY, email, None, events);
            && (email in a.users <==> known.Some?)
            && (known.Some? ==>
                  && a.users[email].isActive == known.value.active && a.users[email].passwordHash == known.value.hash
                  && (VerifyPassword(cr, a.users[email].passwordHash, password)
                      <==> Fits(cr, known.value.hash, password)))
  {
    RunShowsAccount(cr, lim, NOBODY, email, None, [], events);
  }

  /** Every other request about an account is refused exactly when the account is missing,
      or there already if it is to be made, or the new password is of a length that none
      may have. */
  lemma AccountAnswer(cr: Crypto, lim: Limits, events: seq<Event>, op: Op, email: string, now: Time)
    requires !op.Login? && !op.Resolve? && !op.Logout? && op.email == email
    ensures var known := AccountAfter(cr, lim, NOBODY, email, None, events);
            Step(cr, lim, false, Run(cr, lim, NOBODY, events), op, now).reply
            == if (if op.CreateAdmin? then known.Some? else known.None?)
                  || ((op.CreateAdmin? || op.ResetPassword?) && !(12 <= |op.password| <= 1024))
               then UserError else Done
  {
    RunShowsAccount(cr, lim, NOBODY, email, None, [], events);
  }

  predicate AboveAll(step: int, steps: seq<int>) {
    forall i :: 0 <= i < |steps| ==> steps[i] < step
  }

  lemma AboveLast(step: int, steps: seq<int>)
    requires Increasing(steps)
    ensures AboveAll(step, steps) <==> steps == [] || steps[|steps| - 1] < step
  {
    if steps != [] && steps[|steps| - 1] < step {
      forall i | 0 <= i < |steps| ensures steps[i] < step {
        assert steps[i] <= steps[|steps| - 1];
      }
    }
  }

  lemma DigitsAlike(code: string)
    ensures SixDigits(code) <==> |code| == 6 && forall i :: 0 <= i < 6 ==> code[i] in "0123456789"
  {
    if |code| == 6 {
      forall i | 0 <= i < 6 ensures '0' <= code[i] <= '9' <==> code[i] in "0123456789" {
        DigitAlike(code[i]);
      }
    }
  }

  lemma DigitAlike(c: char)
    ensures '0' <= c <= '9' <==> c in "0123456789"
  {
    if '0' <= c <= '9' {
      assert "0123456789"[c as int - '0' as int] == c;
    }
  }

  lemma MatchedBelongs(cr: Crypto, secret: string, code: string, current: int, step: int)
    requires SixDigits(code)
    ensures MatchStep(cr, secret, code, current) == Some(step) <==> Belongs(cr, secret, code, current, step)
  {
    if MatchStep(cr, secret, code, current) == Some(step) {
      assert Belongs(cr, secret, code, current, step);
    }
  }

  lemma NewCodeIff(cr: Crypto, secret: string, code: string, current: int, steps: seq<int>)
    ensures var step := MatchStep(cr, secret, code, current);
            NewCode(cr, secret, code, current, steps) <==> step.Some? && AboveAll(step.value, steps)
  {
    DigitsAlike(code);
    var step := MatchStep(cr, secret, code, current);
    if SixDigits(code) {
      if step.Some? {
        MatchedBelongs(cr, secret, code, current, step.value);
      }
      forall s | Belongs(cr, secret, code, current, s) ensures step == Some(s) {
        MatchedBelongs(cr, secret, code, current, s);
      }
    }
  }

  lemma LoginIff(cr: Crypto, lim: Limits, a: Auth, email: string, known: Option<Account>, steps: seq<int>,
                 password: string, code: string, raw: string, now: Time)
    requires ShowsAccount(a, email, known) && ShowsSteps(a, email, steps)
    ensures var reply := Step(cr, lim, false, a, Login(email, password, code, raw), now).reply;
            && (reply.LoggedIn? || reply == LoginFailed)
            && (reply.LoggedIn?
                <==> (&& known.Some? && known.value.active && Fits(cr, known.value.hash, password)
                      && NewCode(cr, known.value.secret, code, CurrentStep(now), steps)))
  {
    if known.Some? {
      NewCodeIff(cr, known.value.secret, code, CurrentStep(now), steps);
      var step := MatchStep(cr, known.value.secret, code, CurrentStep(now));
      if step.Some? {
        AboveLast(step.value, steps);
      }
    }
  }
}
