/** What a tenant's account says after any run, by the requests that were accepted:
    its status and payment state, its limits, and the grants of its batch tokens. */
module Accounts {
  import opened Wrappers
  import opened Clock
  import opened Ledger
  import opened LedgerInvariant

  // ---- the last word on each term ------------------------------------------------------

  /** The terms of a tenant. */
  datatype Terms = Terms(status: TenantStatus, paid: bool, seatLimit: int, windowDays: int, graceDays: int,
                         state: SubscriptionStatus)

  /** A field of the request if it is there and not zero, else the default. */
  function Chosen(v: Option<int>, default: int): int {
    match v
    case Some(n) => if n != 0 then n else default
    case None => default
  }

  function Latest<T>(said: Option<T>, before: T): T {
    match said
    case Some(x) => x
    case None => before
  }

  /** What an accepted request says about the status of tenant `t`. */
  function StatusWord(op: Op, t: Id): Option<TenantStatus> {
    if op.SetTenantStatus? && op.tenantId == t then Some(op.tenantStatus) else None
  }

  /** A payment pays up, a suspension ends that, a patch says which. */
  function PaidWord(op: Op, t: Id): Option<bool> {
    match op
    case RecordPayment(u, _) => if u == t then Some(true) else None
    case SetTenantStatus(u, status) => if u == t && status.TenantSuspended? then Some(false) else None
    case PatchSubscription(u, _, _, _, paid, _) => if u == t then paid else None
    case _ => None
  }

  function StateWord(op: Op, t: Id): Option<SubscriptionStatus> {
    match op
    case RecordPayment(u, _) => if u == t then Some(SubActive) else None
    case SetTenantStatus(u, status) =>
      if u != t || status.TenantArchived? then None
      else Some(if status.TenantActive? then SubActive else SubSuspended)
    case PatchSubscription(u, _, _, _, _, state) => if u == t then state else None
    case _ => None
  }

  function LimitWord(op: Op, t: Id): Option<int> {
    if op.PatchSubscription? && op.tenantId == t then op.newSeatLimit else None
  }

  function WindowWord(op: Op, t: Id): Option<int> {
    if op.PatchSubscription? && op.tenantId == t then op.newWindowDays else None
  }

  function GraceWord(op: Op, t: Id): Option<int> {
    if op.PatchSubscription? && op.tenantId == t then op.newGraceDays else None
  }

  /** A tenant starts active and paid up, on the terms asked for or the defaults. */
  function FirstTerms(settings: Settings, op: Op): Terms
    requires op.CreateTenant?
  {
    Terms(TenantActive, true, Chosen(op.seatLimit, settings.seatLimit), Chosen(op.windowDays, settings.windowDays),
          Chosen(op.graceDays, settings.graceDays), SubActive)
  }

  function TermsSeen(settings: Settings, t: Id, known: Option<Terms>, op: Op, reply: Result<Reply, Error>)
    : Option<Terms>
  {
    if reply.Err? then known
    else if op.CreateTenant? && reply.value == Created(t) then Some(FirstTerms(settings, op))
    else if op == DeleteTenant(t) then None
    else match known
      case None => None
      case Some(was) =>
        Some(Terms(Latest(StatusWord(op, t), was.status), Latest(PaidWord(op, t), was.paid),
                   Latest(LimitWord(op, t), was.seatLimit), Latest(WindowWord(op, t), was.windowDays),
                   Latest(GraceWord(op, t), was.graceDays), Latest(StateWord(op, t), was.state)))
  }

  function TermsAfter(db: Db, events: seq<Event>, t: Id, known: Option<Terms>): Option<Terms>
    decreases |events|
  {
    if events == [] then known
    else
      var o := Step(db, events[0].op, events[0].now);
      TermsAfter(o.db, events[1..], t, TermsSeen(db.settings, t, known, events[0].op, o.reply))
  }

  // ---- the tables hold the terms ----------------------------------------------------------

  predicate SubShows(tenant: Tenant, sub: Subscription, x: Terms) {
    x == Terms(tenant.status, sub.isPaid, sub.seatLimit, sub.windowDays, sub.graceDays, sub.status)
  }

  predicate ShowsTerms(tenants: map<Id, Tenant>, subs: map<Id, Subscription>, subOf: map<Id, Id>, t: Id,
                       known: Option<Terms>)
  {
    match known
    case None => t !in tenants
    case Some(x) => t in tenants && t in subOf && subOf[t] in subs && SubShows(tenants[t], subs[subOf[t]], x)
  }

  predicate DbShows(db: Db, t: Id, known: Option<Terms>) {
    ShowsTerms(db.tenants, db.subs, db.subOf, t, known)
  }

  /** The terms as the tables hold them. */
  function TermsOf(db: Db, t: Id): Option<Terms> {
    if t in db.tenants && t in db.subOf && db.subOf[t] in db.subs then
      var sub := db.subs[db.subOf[t]];
      Some(Terms(db.tenants[t].status, sub.isPaid, sub.seatLimit, sub.windowDays, sub.graceDays, sub.status))
    else None
  }

  lemma ShowsTermsOf(db: Db, t: Id, known: Option<Terms>)
    requires Inv(db)
    ensures DbShows(db, t, known) <==> known == TermsOf(db, t)
  {
  }

  lemma CreateShows(db: Db, op: Op, now: Time, t: Id, known: Option<Terms>)
    requires Inv(db) && DbShows(db, t, known) && op.CreateTenant?
    ensures var o := Step(db, op, now); DbShows(o.db, t, TermsSeen(db.settings, t, known, op, o.reply))
  {
  }

  lemma SubscriptionShows(db: Db, op: Op, now: Time, t: Id, known: Option<Terms>)
    requires Inv(db) && DbShows(db, t, known) && (op.PatchSubscription? || op.RecordPayment?)
    ensures var o := Step(db, op, now); DbShows(o.db, t, TermsSeen(db.settings, t, known, op, o.reply))
  {
    OtherSub(db, op.tenantId, t);
  }

  lemma StatusShows(db: Db, op: Op, now: Time, t: Id, known: Option<Terms>)
    requires Inv(db) && DbShows(db, t, known) && op.SetTenantStatus?
    ensures var o := Step(db, op, now); DbShows(o.db, t, TermsSeen(db.settings, t, known, op, o.reply))
  {
    OtherSub(db, op.tenantId, t);
  }

  lemma OtherSub(db: Db, u: Id, t: Id)
    requires Inv(db)
    ensures u != t && u in db.subOf && t in db.subOf ==> db.subOf[u] != db.subOf[t]
  {
  }

  lemma TokenOpShows(db: Db, op: Op, now: Time, t: Id, known: Option<Terms>)
    requires DbShows(db, t, known) && (op.GenerateBatchToken? || op.RevokeBatchToken?)
    ensures var o := Step(db, op, now); DbShows(o.db, t, TermsSeen(db.settings, t, known, op, o.reply))
  {
  }

  lemma CascadeShows(db: Db, u: Id, t: Id, known: Option<Terms>)
    requires Inv(db) && DbShows(db, t, known)
    ensures DbShows(Cascade(db, u), t, if u == t then None else known)
  {
  }

  /** Requests on device rows say nothing about terms. */
  lemma EffectShows(db: Db, db': Db, e: Effect, t: Id, known: Option<Terms>)
    requires HasEffect(db, db', e) && !e.Admin? && !e.Cascaded? && DbShows(db, t, known)
    ensures DbShows(db', t, known)
  {
  }

  lemma RefusedShows(db: Db, op: Op, now: Time, t: Id, known: Option<Terms>)
    requires DbShows(db, t, known) && Step(db, op, now).reply.Err?
    ensures var o := Step(db, op, now); DbShows(o.db, t, TermsSeen(db.settings, t, known, op, o.reply))
  {
    RefusedUnchanged(db, op, now);
  }

  lemma AdminShowsTerms(db: Db, op: Op, now: Time, t: Id, known: Option<Terms>)
    requires Inv(db) && DbShows(db, t, known) && AdminOp(op)
    ensures var o := Step(db, op, now); DbShows(o.db, t, TermsSeen(db.settings, t, known, op, o.reply))
  {
    if op.CreateTenant? {
      CreateShows(db, op, now, t, known);
    } else if op.PatchSubscription? || op.RecordPayment? {
      SubscriptionShows(db, op, now, t, known);
    } else if op.SetTenantStatus? {
      StatusShows(db, op, now, t, known);
    } else {
      TokenOpShows(db, op, now, t, known);
    }
  }

  /** A request that touches device rows only leaves the terms as they were. */
  lemma SilentTerms(settings: Settings, t: Id, known: Option<Terms>, op: Op, reply: Result<Reply, Error>)
    requires !AdminOp(op) && !op.DeleteTenant?
    ensures TermsSeen(settings, t, known, op, reply) == known
  {
  }

  lemma DeleteShows(db: Db, op: Op, now: Time, t: Id, known: Option<Terms>)
    requires Inv(db) && DbShows(db, t, known) && op.DeleteTenant? && Step(db, op, now).reply.Ok?
    ensures var o := Step(db, op, now); DbShows(o.db, t, TermsSeen(db.settings, t, known, op, o.reply))
  {
    CascadeShows(db, op.tenantId, t, known);
  }

  lemma StepShowsTerms(db: Db, op: Op, now: Time, t: Id, known: Option<Terms>)
    requires Inv(db) && DbShows(db, t, known)
    ensures var o := Step(db, op, now); DbShows(o.db, t, TermsSeen(db.settings, t, known, op, o.reply))
  {
    if AdminOp(op) {
      AdminShowsTerms(db, op, now, t, known);
    } else if Step(db, op, now).reply.Err? {
      RefusedShows(db, op, now, t, known);
    } else if op.DeleteTenant? {
      DeleteShows(db, op, now, t, known);
    } else {
      StepEffect(db, op, now);
      EffectShows(db, Step(db, op, now).db, EffectOf(db, op, now), t, known);
      SilentTerms(db.settings, t, known, op, Step(db, op, now).reply);
    }
  }

  lemma {:induction false} RunShowsTerms(db: Db, events: seq<Event>, t: Id, known: Option<Terms>)
    requires Inv(db) && DbShows(db, t, known)
    ensures DbShows(Run(db, events), t, TermsAfter(db, events, t, known))
    decreases |events|
  {
    if events != [] {
      var e := events[0];
      var o := Step(db, e.op, e.now);
      StepShowsTerms(db, e.op, e.now, t, known);
      StepKeeps(db, e.op, e.now);
      RunShowsTerms(o.db, events[1..], t, TermsSeen(db.settings, t, known, e.op, o.reply));
    }
  }

  /** After any run the terms of a tenant are the last words of the accepted requests. */
  lemma TermsAreHistory(settings: Settings, events: seq<Event>, t: Id)
    ensures TermsOf(Run(Empty(settings), events), t) == TermsAfter(Empty(settings), events, t, None)
  {
    RunShowsTerms(Empty(settings), events, t, None);
    RunKeeps(Empty(settings), events);
    ShowsTermsOf(Run(Empty(settings), events), t, TermsAfter(Empty(settings), events, t, None));
  }

  // ---- the grants of the batch tokens ------------------------------------------------------

  /** What a batch token was made for. */
  datatype Grant = Grant(tenant: Id, text: string, quota: int, expiresAt: Option<Time>, revoked: bool)

  function GrantSeen(k: Id, known: Option<Grant>, op: Op, reply: Result<Reply, Error>): Option<Grant> {
    if reply.Err? then known
    else match op
      case GenerateBatchToken(t, quota, expiresAt, text) =>
        if reply.value == Created(k) && quota.Some? then Some(Grant(t, text, quota.value, expiresAt, false)) else known
      case RevokeBatchToken(j) => if j == k && known.Some? then Some(known.value.(revoked := true)) else known
      case DeleteTenant(t) => if known.Some? && known.value.tenant == t then None else known
      case _ => known
  }

  function GrantAfter(db: Db, events: seq<Event>, k: Id, known: Option<Grant>): Option<Grant>
    decreases |events|
  {
    if events == [] then known
    else
      var o := Step(db, events[0].op, events[0].now);
      GrantAfter(o.db, events[1..], k, GrantSeen(k, known, events[0].op, o.reply))
  }

  predicate ShowsGrant(subs: map<Id, Subscription>, tokens: map<Id, BatchToken>, k: Id, known: Option<Grant>) {
    match known
    case None => k !in tokens
    case Some(g) =>
      && BelongsTo(subs, tokens, k, g.tenant)
      && g == Grant(subs[tokens[k].subscriptionId].tenantId, tokens[k].text, tokens[k].quota, tokens[k].expiresAt,
                    tokens[k].isRevoked)
  }

  /** Subscriptions stay, each with its tenant. */
  ghost predicate SameOwners(subs: map<Id, Subscription>, subs': map<Id, Subscription>) {
    forall s :: s in subs ==> s in subs' && subs'[s].tenantId == subs[s].tenantId
  }

  lemma CreateKeepsOwners(db: Db, op: Op, now: Time)
    requires Inv(db) && op.CreateTenant?
    ensures var db' := Step(db, op, now).db; db'.tokens == db.tokens && SameOwners(db.subs, db'.subs)
  {
  }

  lemma UpdateKeepsOwners(db: Db, op: Op, now: Time)
    requires op.PatchSubscription? || op.RecordPayment? || op.SetTenantStatus?
    ensures var db' := Step(db, op, now).db; db'.tokens == db.tokens && SameOwners(db.subs, db'.subs)
  {
  }

  lemma SameOwnersShow(subs: map<Id, Subscription>, subs': map<Id, Subscription>, tokens: map<Id, BatchToken>, k: Id,
                       known: Option<Grant>)
    requires SameOwners(subs, subs') && ShowsGrant(subs, tokens, k, known)
    ensures ShowsGrant(subs', tokens, k, known)
  {
  }

  lemma AdminShowsGrant(db: Db, op: Op, now: Time, k: Id, known: Option<Grant>)
    requires Inv(db) && AdminOp(op) && !op.GenerateBatchToken? && !op.RevokeBatchToken?
    requires ShowsGrant(db.subs, db.tokens, k, known)
    ensures var db' := Step(db, op, now).db; ShowsGrant(db'.subs, db'.tokens, k, known)
  {
    if op.CreateTenant? {
      CreateKeepsOwners(db, op, now);
    } else {
      UpdateKeepsOwners(db, op, now);
    }
    SameOwnersShow(db.subs, Step(db, op, now).db.subs, db.tokens, k, known);
  }

  lemma GenerateShowsGrant(db: Db, op: Op, now: Time, k: Id, known: Option<Grant>)
    requires Inv(db) && op.GenerateBatchToken? && ShowsGrant(db.subs, db.tokens, k, known)
    ensures var o := Step(db, op, now); ShowsGrant(o.db.subs, o.db.tokens, k, GrantSeen(k, known, op, o.reply))
  {
  }

  lemma RevokeShowsGrant(db: Db, op: Op, now: Time, k: Id, known: Option<Grant>)
    requires op.RevokeBatchToken? && ShowsGrant(db.subs, db.tokens, k, known)
    ensures var o := Step(db, op, now); ShowsGrant(o.db.subs, o.db.tokens, k, GrantSeen(k, known, op, o.reply))
  {
  }

  lemma CascadeShowsGrant(db: Db, t: Id, k: Id, known: Option<Grant>)
    requires Inv(db) && ShowsGrant(db.subs, db.tokens, k, known)
    ensures var db' := Cascade(db, t);
            ShowsGrant(db'.subs, db'.tokens, k, if known.Some? && known.value.tenant == t then None else known)
  {
  }

  lemma EffectShowsGrant(db: Db, db': Db, e: Effect, k: Id, known: Option<Grant>)
    requires HasEffect(db, db', e) && !e.Admin? && !e.Cascaded? && ShowsGrant(db.subs, db.tokens, k, known)
    ensures ShowsGrant(db'.subs, db'.tokens, k, known)
  {
  }

  lemma SilentGrant(k: Id, known: Option<Grant>, op: Op, reply: Result<Reply, Error>)
    requires !op.GenerateBatchToken? && !op.RevokeBatchToken? && (op.DeleteTenant? ==> reply.Err?)
    ensures GrantSeen(k, known, op, reply) == known
  {
  }

  lemma StepShowsGrant(db: Db, op: Op, now: Time, k: Id, known: Option<Grant>)
    requires Inv(db) && ShowsGrant(db.subs, db.tokens, k, known)
    ensures var o := Step(db, op, now); ShowsGrant(o.db.subs, o.db.tokens, k, GrantSeen(k, known, op, o.reply))
  {
    if op.GenerateBatchToken? {
      GenerateShowsGrant(db, op, now, k, known);
    } else if op.RevokeBatchToken? {
      RevokeShowsGrant(db, op, now, k, known);
    } else if op.DeleteTenant? && Step(db, op, now).reply.Ok? {
      DeletedShowsGrant(db, op, now, k, known);
    } else {
      OtherShowsGrant(db, op, now, k, known);
      SilentGrant(k, known, op, Step(db, op, now).reply);
    }
  }

  lemma OtherShowsGrant(db: Db, op: Op, now: Time, k: Id, known: Option<Grant>)
    requires Inv(db) && !op.GenerateBatchToken? && !op.RevokeBatchToken?
    requires op.DeleteTenant? ==> Step(db, op, now).reply.Err?
    requires ShowsGrant(db.subs, db.tokens, k, known)
    ensures var db' := Step(db, op, now).db; ShowsGrant(db'.subs, db'.tokens, k, known)
  {
    if AdminOp(op) {
      AdminShowsGrant(db, op, now, k, known);
    } else if Step(db, op, now).reply.Err? {
      RefusedUnchanged(db, op, now);
    } else {
      StepEffect(db, op, now);
      EffectShowsGrant(db, Step(db, op, now).db, EffectOf(db, op, now), k, known);
    }
  }

  lemma DeletedShowsGrant(db: Db, op: Op, now: Time, k: Id, known: Option<Grant>)
    requires Inv(db) && op.DeleteTenant? && Step(db, op, now).reply.Ok? && ShowsGrant(db.subs, db.tokens, k, known)
    ensures var o := Step(db, op, now); ShowsGrant(o.db.subs, o.db.tokens, k, GrantSeen(k, known, op, o.reply))
  {
    CascadeShowsGrant(db, op.tenantId, k, known);
  }

  lemma {:induction false} RunShowsGrant(db: Db, events: seq<Event>, k: Id, known: Option<Grant>)
    requires Inv(db) && ShowsGrant(db.subs, db.tokens, k, known)
    ensures ShowsGrant(Run(db, events).subs, Run(db, events).tokens, k, GrantAfter(db, events, k, known))
    decreases |events|
  {
    if events != [] {
      var e := events[0];
      var o := Step(db, e.op, e.now);
      StepShowsGrant(db, e.op, e.now, k, known);
      StepKeeps(db, e.op, e.now);
      RunShowsGrant(o.db, events[1..], k, GrantSeen(k, known, e.op, o.reply));
    }
  }

  /** After any run a batch token is what it was made for, until it is revoked. */
  lemma GrantsAreHistory(settings: Settings, events: seq<Event>, k: Id)
    ensures var after := Run(Empty(settings), events);
            ShowsGrant(after.subs, after.tokens, k, GrantAfter(Empty(settings), events, k, None))
  {
    RunShowsGrant(Empty(settings), events, k, None);
  }
}
