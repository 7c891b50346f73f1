# A verified model of the licensing master

The licensing master sells seats: a tenant has one subscription, hands out batch
tokens with a quota, and binds devices to them. This project models four of
its parts in Dafny and proves what holds over every run of them.

* **Seat ledger.** The tables are one value (`Ledger.dfy`), a request is an `Op`,
  and `Step` is what its transaction commits. `LicensingDatabase.dfy` runs the same
  requests statement by statement on a class whose `Execute` rolls back on any
  error. `LedgerInvariant.dfy` proves the invariant (counter = live rows, at most
  the quota; every row owned by the tenant of its token); `SeatProperties.dfy`,
  `KeyHistory.dfy`, `TokenHistory.dfy`, `Validity.dfy` and `Verdict.dfy` prove what
  follows over runs. `Accounts.dfy` and `DeviceHistory.dfy` prove that after any run
  the tables hold what the accepted requests say: the last words on a tenant's status,
  payment and limits, what each token was made for, and every column of a device row.
  `Answers.dfy` says for each request what it answers and when; `RunAnswers.dfy` puts
  the two together.
  `SeatInterleaving.dfy` takes the same transactions apart into single SQL
  statements with row locks and proves what survives every interleaving.
  `CapInterleaving.dfy` and `PaymentInterleaving.dfy` do so for the two reads that
  take no lock at all, the count of a tenant's seats and a payment's date, and prove
  exactly what is left of the seat limit and of the paid windows. `SeatAlone.dfy` and
  `CapAlone.dfy` prove that a transaction running alone does what its request does in
  the ledger.
* **Failure limiter.** `FailureLimiter.dfy` is the class with its loops;
  `LimiterModel.dfy` is what each call computes and the invariant of the tables;
  `LimiterHistory.dfy` explains every answer by the plain list of a key's failures;
  `LimiterRate.dfy` proves the rate bound and exactly when it holds;
  `LimiterOverlap.dfy` proves the bound for requests that overlap between gate and
  record, and `LimiterOverlapRuns.dfy` that it is reached; `HandlerRuns.dfy` proves
  it of every run of the request handlers.
* **Admin login and sessions.** `AdminAuthModel.dfy` and `AdminAuth.dfy` are the
  value and class forms; `AdminSessions.dfy` proves permanent death of a refused
  session, acceptance of tokens and of logins as a function of their history,
  what housekeeping shows and what it does not, and single use of one-time codes,
  for calls one after the other. `AdminInterleaving.dfy` takes logins and account
  changes apart into single SQL statements, and `AdminAlone.dfy` ties each, running
  alone, to its call. `Routers.dfy` composes the handlers with limiters, accounts and
  database.
* **Signed envelope.** `CanonicalJson.dfy` is the JSON printer, proved
  self-delimiting and canonical; `Envelope.dfy` is the envelope and the client's
  brace scan, proved to meet exactly when the braces in the payload's strings
  pair up. `JsonReader.dfy` is a reader of RFC 8259 text that reads back whatever is
  printed.

The methods of the classes `Database` and `AdminAuth` are all proved against the
functions of the value forms; the table names those whose statement order matters.

Where the code differs from what one might expect, the model follows the code:

* `admin_patch_subscription` writes an audit entry whose payload holds the datetime
  `updated_at`. The engine is created without a JSON serializer of its own and the
  default one refuses a datetime, so as written every accepted patch fails and is
  rolled back. `StepAsWritten` and `ExecuteAsWritten` say so; then no tenant is ever
  over its seat limit (`CapAsWritten`), and a run does what it would do without its
  patches (`AsWrittenIsUnpatched`); so no device is ever valid for longer than the
  longest window a tenant was created with (`CeilingAsWritten`).
  `Step` is the request as intended: then a tenant leaves its limit exactly when a
  patch sets the limit below the use at that time (`CapStep`, `CapOverRuns`).
* `cp_release_seat` does not look at its caller (`AnyoneReleases`), and
  `cp_heartbeat` takes payment and window from the caller's subscription, so that any
  paid tenant that knows the key extends the device of a suspended one
  (`HeartbeatExtendsIff`).
* Activation sets `valid_until` whether or not the subscription is paid, and the public
  one asks for an active tenant only, not for a paid one (`PublicActivationIff`). A
  suspended tenant that is reactivated stays unpaid until the next payment
  (`PaidUpIffHistory`).
* `_do_activate` spends the seat before it reads `device_name`; only the rollback
  makes a request without a name harmless.
* `_do_activate` reads the existing row without a lock. Two activations of the same
  revoked hardware in flight together can leave a counter one too high for good
  (`OverlapLosesASeat`); it is exact if and only if no commit overwrote a live row,
  and always when no two transactions revive one hardware at once.
* The defaults for new tenants are not checked: a default seat limit of zero gives
  a tenant without a free seat (`NewTenantStarts`).
* The rate limit needs `lockout_seconds >= window_seconds`, which no constructor
  checks (`RateNeedsLongLockout`), and `max_keys >= 1`, which none checks either:
  otherwise every recorded failure raises and nobody is ever held back
  (`RecordFailure`, `NoRoomNoLimit`).
* Gate and record are two calls. With `p` requests of a key at a time a window can
  hold `max_failures + p - 1 + min(p, max_failures) - 1` recorded failures and no
  more (`OverlapBoundIsExact`); `max_failures` itself is a bound only for `p = 1`
  (`SerialBoundNeedsSerialRequests`).
* The seat count takes no lock. With `p` bookings of a tenant between count and
  commit it can have `seat_limit + p - 1` live devices and no more (`CapIsExact`).
* A payment reads the date without a lock and writes the result as a value. One
  after the other, n payments add n windows; as soon as two overlap, n payments are
  only sure to add one (`CarriesIff`).
* `login` reads the account without a lock, and its conditional UPDATE looks only at
  the time step. A login overtaken by a disable or a reset leaves a session that the
  change should have revoked; after a disable it is refused, and accepted once the
  user is enabled again (`OvertakenLoginRevives`). Nothing else leaves such a session
  (`LegitimateUnlessOvertaken`).
* The same UPDATE does not look at the secret that the code was verified against. If
  the secret is replaced in between, one code can open two sessions
  (`OneCodeTwoSessions`), and in no other way (`CodesAreUsedOnce`).
* The client's brace scan fails on unpaired braces inside strings
  (`BraceInNameIsNotExtracted`).
* Deleting day-old expired sessions changes no login or session verdict, but it
  does change the reply to a logout, in exactly the cases that
  `HousekeepingOverRuns` names.

## Model

| member | source | states |
|---|---|---|
| Verdict.StateIsInterval | licensing-master/src/service.py:465-481 | the floor of the remaining days gives exactly the interval rule: ACTIVE up to `valid_until`, GRACE up to `grace_days` days later, else EXPIRED |
| Verdict.StateOnlyDecays | licensing-master/src/service.py:472-481 | with the row unchanged, time moves the state only from ACTIVE through GRACE to EXPIRED |
| Verdict.OfflineAgrees | docs/INTEGRATION.md:388-403 | the documented offline rule on the cached verdict agrees with the online verdict at every later instant while the row is unchanged |
| LedgerInvariant.BookKeeps | licensing-master/src/service.py:530-542 | spending a seat of a token under quota on a row that was not live keeps counters, ownership and indexes |
| LedgerInvariant.BookSeats | licensing-master/src/service.py:545-557 | a booking raises the live count of the row's tenant by one and of no other tenant |
| LedgerInvariant.ReleaseGuardHolds | licensing-master/src/service.py:576-584 | the `seats_consumed > 0` guard never blocks the decrement of a live row's seat |
| LedgerInvariant.FreeKeeps | licensing-master/src/service.py:560-585 | revoking a live row and returning its seat keeps the invariant |
| LedgerInvariant.FreeSeats | licensing-master/src/service.py:560-585 | a release lowers the live count of the row's tenant by one and of no other tenant |
| LedgerInvariant.PutSubKeeps | licensing-master/src/service.py:269-287 | changing a subscription within its CHECK constraints keeps the invariant |
| LedgerInvariant.CreateTenantKeeps | licensing-master/src/service.py:162-211 | a new tenant and its subscription keep the invariant |
| LedgerInvariant.GenerateKeeps | licensing-master/src/service.py:290-312 | a new batch token starts with no live rows and keeps the invariant |
| LedgerInvariant.RevokeTokenKeeps | licensing-master/src/service.py:315-325 | revoking a batch token keeps its counter and everyone's rows |
| LedgerInvariant.SetStatusKeeps | licensing-master/src/service.py:355-372 | suspending, archiving or reactivating a tenant keeps the invariant |
| LedgerInvariant.DeleteIsClean | licensing-master/src/service.py:445-450 | deleting a tenant always succeeds, removes exactly its rows and tokens, leaves no dangling `activated_via`, and changes no other tenant's rows or seats |
| LedgerInvariant.CascadeKeepsSeats | licensing-master/alembic/versions/sql/0001_baseline_up.sql:76-89 | a token that survives the cascade keeps every one of its live devices |
| LedgerInvariant.CascadeKeeps | licensing-master/alembic/versions/sql/0001_baseline_up.sql:40-89 | the cascade keeps seat conservation and ownership for everyone left |
| LedgerInvariant.StepEffect | licensing-master/src/service.py:401-450 | every request changes at most one device row, in one of three ways, or cascades one tenant away; a booking had a free tenant seat and a token under quota |
| LedgerInvariant.EffectSeats | licensing-master/src/service.py:545-585 | how each effect moves every tenant's live count |
| LedgerInvariant.StepKeeps | licensing-master/src/service.py:162-450 | every request, accepted or refused, keeps the whole invariant |
| LedgerInvariant.RunKeeps | licensing-master/src/service.py:162-839 | every run of requests keeps the whole invariant |
| LedgerInvariant.SeatsConservedOverRuns | licensing-master/alembic/versions/sql/0001_baseline_up.sql:54-69 | from empty tables, after any run, every `seats_consumed` is exactly the number of live devices on the token and at most its quota |
| SeatProperties.RaisedSeatsFit | licensing-master/src/service.py:545-557 | a step that raises a tenant's live devices ends within its seat limit |
| SeatProperties.CapStep | licensing-master/src/service.py:269-287 | a request takes a tenant over its seat limit if and only if it is an admissible patch of that tenant to a limit below its live devices |
| SeatProperties.CapOverRuns | licensing-master/src/service.py:545-557 | a tenant within its limit stays within it throughout a run if and only if no request sets the limit below the use at that time |
| SeatProperties.AsWrittenIsUnpatched | licensing-master/src/service.py:269-287 | with the audit entry as written, a run ends in the tables of the same run without its subscription patches |
| SeatProperties.CapAsWritten | licensing-master/src/service.py:269-287 | as written, no tenant is over its limit after any run from empty tables |
| SeatProperties.TenantSeatsAreTokenSeats | licensing-master/src/service.py:545-557 | a tenant's live devices are the sum of the counters of its own tokens |
| SeatProperties.DetailMatchesCap | licensing-master/src/service.py:233-241 | the detail view's sum over listed rows is the count that the cap check uses |
| SeatProperties.VerifyAgreesWithActivate | licensing-master/src/service.py:515-527 | for a device without a live row, a well-formed activation succeeds exactly when the token verifies and the tenant has a free seat; a verified token fails only on the seat limit |
| SeatProperties.VerifyAgreesWithConsume | licensing-master/src/service.py:593-652 | the same for booking a seat |
| SeatProperties.ConsumeIsIdempotent | licensing-master/src/service.py:620-627 | hardware that holds a seat is not charged again, whoever asks |
| SeatProperties.ReleaseIsIdempotent | licensing-master/src/service.py:560-590 | releasing or revoking again changes nothing at all |
| SeatProperties.ReleaseUndoesBooking | licensing-master/src/service.py:588-590 | a release after a booking, by any caller, restores every counter and every tenant's live count |
| SeatProperties.AnyoneReleases | licensing-master/src/service.py:588-590 | a release by any caller, of any tenant or none, revokes the device and frees its tenant's seat |
| SeatProperties.ReinstateUndoesRevoke | licensing-master/src/service.py:411-442 | reinstating right after a revocation succeeds exactly when the tenant was within its limit, and restores counters and row, key included, with validity never moved back |
| SeatProperties.ForeignDeviceUntouched | licensing-master/src/service.py:687-691 | no activation path changes key, validity, tenant or token of another tenant's live device |
| KeyHistory.ActivationRow | licensing-master/src/service.py:678-739 | what a successful activation leaves: one row, live, for the acting tenant, with the new key and one window of validity |
| KeyHistory.StepKey | licensing-master/src/service.py:678-739 | after any request a row's key is its old one, or the one this request minted for this very hardware |
| KeyHistory.KeysStayKnown | licensing-master/src/service.py:692-724 | with a fresh secret, a request keeps all stored keys distinct and of known origin |
| KeyHistory.KeysKnownOverRuns | licensing-master/src/service.py:692-724 | the same over every run with fresh secrets: each stored key is a placeholder or comes from a secret handed out before the run or in it, so secrets drawn later are fresh again |
| KeyHistory.ReplacedKeyIsRetired | licensing-master/src/service.py:692-704 | a rotation or re-booking leaves no device answering to the key it replaced |
| KeyHistory.RetiredForever | licensing-master/src/service.py:692-724 | a retired key stays retired over every run with fresh secrets |
| KeyHistory.ReplacedKeyNeverVerifies | licensing-master/src/service.py:874-898 | in every run from empty tables whose activations draw fresh secrets, a replaced key never verifies and never passes a heartbeat again, whatever follows and whoever asks |
| KeyHistory.KeyKeptWithoutActivation | licensing-master/src/service.py:411-442 | over any run without an activation of this hardware its key stays, through every revoke and reinstate |
| KeyHistory.OneKeyVerifies | licensing-master/src/service.py:879-898 | at most one tenant and key verify per hardware |
| KeyHistory.ActivationVerifies | licensing-master/src/service.py:784-806 | the key that an activation answers with verifies at once, as ACTIVE, for the acting tenant, for one window |
| KeyHistory.BookingVerifies | licensing-master/src/service.py:634-652 | a device booked by its backend verifies with its placeholder key, as ACTIVE, for the booking tenant, for one window, and with no other key |
| KeyHistory.RevokedNeverVerifies | licensing-master/src/service.py:820-823 | a device without a live row verifies with no key and has no heartbeat |
| TokenHistory.NewTokenVerifies | licensing-master/src/service.py:290-312 | a fresh token verifies for its own tenant, unless created expired, and for no other tenant |
| TokenHistory.BookingChargesToken | licensing-master/src/service.py:715-727 | a booking charges one seat to the token presented, and nothing else; that token was unrevoked and unexpired |
| TokenHistory.RevokedForever | licensing-master/src/service.py:315-325 | a revoked token stays revoked, or is deleted, over every run |
| TokenHistory.RevokedTokenBooksNothing | licensing-master/src/service.py:742-748 | after a revocation no later request of any run books a seat on the token, reinstatement apart, and it verifies for no one |
| Accounts.TermsAreHistory | licensing-master/src/service.py:190-209 | after any run a tenant's status, payment state, limits and subscription status are the last words of the accepted requests: it starts active and paid up on the terms asked for or the defaults, payments pay up, suspensions end that, patches say which |
| Accounts.GrantsAreHistory | licensing-master/src/service.py:290-325 | after any run a token has the tenant, text, quota and expiry that it was made for, and is revoked exactly if a revocation was accepted since |
| DeviceHistory.RowIsHistory | licensing-master/src/service.py:588-739 | after any run every column of a device row is what the accepted requests for it say: tenant, token, name and start from the last booking, key from the last booking or rotation, date from the last renewal, last sight, and whether it holds a seat |
| Answers.PublicAnswer | licensing-master/src/service.py:761-781 | a public activation answers an invalid token first, then a tenant that is not active, then what the devices say; payment is not asked |
| Answers.PublicWithoutToken | licensing-master/src/service.py:761-775 | without a token a field is missing; a text that no token has is an invalid one |
| Answers.CpAnswer | licensing-master/src/service.py:751-758 | a product backend's activation answers an invalid token if it is revoked, expired or of another tenant, and otherwise what the devices say |
| Answers.ConsumeAnswer | licensing-master/src/service.py:593-652 | a seat request books if the hardware has no seat, the tenant has fewer live devices than its limit and the token fewer than its quota; every other case has its error |
| Answers.CallerAnswers | licensing-master/src/service.py:484-487 | a backend without a tenant is forbidden, one of an unknown tenant not found, a missing token a missing field |
| Answers.VerifyTokenAnswer | licensing-master/src/service.py:515-527 | a token verifies exactly if it is unrevoked, unexpired, has fewer live devices than its quota, and belongs to the calling tenant if one is named |
| Answers.ReleaseAnswers | licensing-master/src/service.py:400-408 | a revocation of unknown hardware is not found, a release of it is done; both leave the same tables |
| Answers.ReinstateAnswer | licensing-master/src/service.py:411-442 | a revoked device comes back exactly if tenant and token have a seat, whatever else became of the token; a paid-up tenant's device is then valid for one window at least, another's keeps its date |
| Answers.StatusQuery | licensing-master/src/service.py:841-871 | a status names the interval and the days left, rounded down, by the tenant's grace or the default, and UNKNOWN with no days for unknown hardware |
| Answers.HeartbeatRefusals | licensing-master/src/service.py:809-823 | a heartbeat is refused exactly for a caller, a device or a key that does not fit, each with its error |
| Answers.HeartbeatAnswer | licensing-master/src/service.py:824-838 | an accepted heartbeat moves the date to one window of the caller exactly if that tenant is active and paid, changes nothing else but the last sight, and answers state and days left |
| Answers.VerifyDeviceAnswer | licensing-master/src/service.py:874-909 | a device verifies exactly with its own tenant and key, unrevoked and within its grace; a wrong key learns the state by the default grace, another tenant nothing |
| Answers.VerifyDeviceRefusals | licensing-master/src/service.py:874-880 | a check without a tenant is forbidden, of an unknown one not found, without hardware a missing field |
| Answers.CreateAnswer | licensing-master/src/service.py:196-208 | a tenant is made exactly if its limit, window and grace pass the column checks |
| Answers.PatchAnswer | licensing-master/src/service.py:268-287 | a patch, its audit entry apart, is accepted exactly if the patched terms pass the column checks |
| Answers.PaymentAnswer | licensing-master/src/service.py:328-332 | a payment to a known tenant is accepted exactly if it is not negative |
| Answers.GenerateAnswer | licensing-master/src/service.py:290-296 | a token is made for any positive quota |
| Answers.UnknownTenantAnswer | licensing-master/src/service.py:99-124 | every request of an administrator about an unknown tenant is not found |
| RunAnswers.PublicByHistory | licensing-master/src/service.py:761-781 | after any run, the answer to every public activation with the text of a token, by what the token was made for, its tenant's last status and limit and what was seen of the hardware |
| RunAnswers.PublicActivationIff | licensing-master/src/service.py:761-781 | after any run, new hardware is activated in public if and only if some token was made with the text, is unrevoked, unexpired and below its quota, and its tenant is active, paid or not, with a seat free |
| RunAnswers.PublicReactivationIff | licensing-master/src/service.py:678-711 | after any run, hardware with a seat is activated again if and only if the token is good and its tenant is active and owns the device, whatever quota and limit |
| RunAnswers.CpByHistory | licensing-master/src/service.py:751-758 | the same answer for a product backend, which must own the token and need not be active |
| RunAnswers.ConsumeByHistory | licensing-master/src/service.py:593-652 | and for its seat request |
| RunAnswers.VerifiesIffHistory | licensing-master/src/service.py:874-909 | after any run a device verifies if and only if it was last seen holding a seat of the calling tenant under this key and the tenant's grace is not over |
| RunAnswers.PaidUpIffHistory | licensing-master/src/service.py:349-371 | after any run a tenant is paid up if and only if it was last set active and the last accepted word on its payment, of creation, payments, suspensions and patches, is that it has paid |
| RunAnswers.HeartbeatByHistory | licensing-master/src/service.py:809-838 | after any run, when a heartbeat is accepted, which error it gets otherwise, and the date it leaves, by the histories of tenant and device |
| RunAnswers.PaymentRenews | licensing-master/src/service.py:344-350 | after an accepted payment of an active tenant its next heartbeat for a live device with its key sets the date to one window from then |
| RunAnswers.BooksItsQuota | licensing-master/src/service.py:530-542 | of any series of bookings of distinct new hardware on a token, exactly those up to its quota succeed and the rest are refused for want of a seat |
| RunAnswers.NewTokenBooksItsQuota | licensing-master/src/service.py:293-313 | so a token made for n devices books the first n of them |
| Validity.HeartbeatAgreesWithVerify | licensing-master/src/service.py:838-871 | a heartbeat of the device's own tenant answers the state that a verification with the same key gives at that moment |
| Validity.OfflineAgreesWithVerify | licensing-master/src/service.py:896-909 | the documented offline rule on a verdict the server gave agrees with the server at every later moment while nothing changes |
| Validity.NewTenantStarts | licensing-master/src/service.py:190-209 | a new tenant has a new id, is paid up for one window and holds no devices; it has a free seat unless none was asked for and the configured default gives none; zero counts as not given |
| Validity.StepUntil | licensing-master/src/service.py:809-838 | a request leaves a row's validity alone or sets it to one window from now, by an activation of this hardware or paid for by the paying tenant |
| Validity.AnyRowUntil | licensing-master/src/service.py:678-739 | the same for rows that the request makes |
| Validity.ValidityCeiling | licensing-master/src/service.py:700-724 | over every run from empty tables in which no window exceeds W days, no device is valid for more than W days from now, whoever makes the requests |
| Validity.CeilingAsWritten | licensing-master/src/service.py:269-287 | as the code stands, over every run a device is valid for at most the longest window that tenants are created with, since no patch is ever accepted |
| Validity.ValidityFloor | licensing-master/src/service.py:809-838 | over every run a device's date falls at most to one window of whoever gave it a new date since, through takeovers, deletions, window changes and foreign heartbeats; refused requests and those that change no date do not matter |
| Validity.ValidityClock | licensing-master/src/service.py:700-724 | with all windows at W days, between any two moments of any run from empty tables a device's date never moves back and never exceeds now plus W, whoever makes the requests |
| Validity.HeartbeatKeepsActive | licensing-master/src/service.py:824-838 | after a paid heartbeat the device is ACTIVE, unless revoked, at every moment of that window, over every run in which whoever gives it a new date has at least that window; deletion, takeover, window changes and refused requests included |
| Validity.HeartbeatsLeaveNoGap | licensing-master/src/service.py:824-838 | over every run with a paid heartbeat at least once a window, the device is ACTIVE, unless revoked, at every moment |
| Validity.HeartbeatExtendsIff | licensing-master/src/service.py:809-838 | a heartbeat with the right key extends a live device if and only if the calling tenant is paid up and its window reaches further, whatever the state of the device's own tenant |
| Validity.StaysNotActive | licensing-master/src/service.py:355-372 | only an explicit reactivation makes a suspended tenant active |
| Validity.SuspensionFreezes | licensing-master/src/service.py:428-434 | while the tenant is not active no payment, no refused request, no unpaid heartbeat, revoke, reinstate or foreign activation moves the device's validity |
| Validity.SuspendedExpires | licensing-master/src/service.py:355-372 | suspend a tenant anywhere in a run from empty tables with windows up to W: more than W plus grace days later its devices are EXPIRED or REVOKED and no key verifies them, unless a request to reactivate the tenant, to activate the device or to keep it alive for another paid tenant was accepted |
| Validity.PaymentsNeverLoseDays | licensing-master/src/service.py:344-350 | after n payments one after the other the date is exactly the greatest of v0 + nW and every ti + (n-i)W, counting payments from zero |
| Validity.SubUntil | licensing-master/src/service.py:328-352 | only an accepted payment of the tenant moves its subscription's date |
| Validity.SubscriptionFollowsPayments | licensing-master/src/service.py:328-352 | over every run with a fixed window the subscription's date is that of its accepted payments |
| PaymentInterleaving.SerialIffNeverOvertaken | licensing-master/src/service.py:328-350 | over every interleaving of payments the date is that of the same payments one after the other, throughout, if and only if no payment commits whose date has moved on since it was read, so far that it matters |
| PaymentInterleaving.OneByOneIsSerial | licensing-master/src/service.py:328-350 | with one payment under way at a time the date is always that of the payments one after the other |
| PaymentInterleaving.CarriesIff | licensing-master/src/service.py:344-350 | n windows are sure after k payments, over all runs with at most p under way, if and only if n is at most k for p = 1, and at most one for p above one |
| PaymentInterleaving.AloneIsStep | licensing-master/src/service.py:328-350 | a payment alone moves the date as its request does in the ledger |
| LicensingDatabase.Database.Execute | licensing-master/src/db.py:32-43 | a request commits its result or rolls back to the tables before it, partial writes included, and keeps the invariant |
| LicensingDatabase.Database.ExecuteAsWritten | licensing-master/src/service.py:269-287 | the same with the audit entry as written: an accepted patch raises after its UPDATE and is rolled back |
| LicensingDatabase.Database.ConsumeSeat | licensing-master/src/service.py:530-542 | the conditional UPDATE adds one seat exactly when the quota allows it |
| LicensingDatabase.Database.ReleaseSeat | licensing-master/src/service.py:560-585 | a live row is revoked and its seat returned; otherwise nothing changes |
| LicensingDatabase.Database.DoActivate | licensing-master/src/service.py:678-739 | rotation, re-booking and first booking reach the specified tables and reply |
| LicensingDatabase.Database.ReinstateDevice | licensing-master/src/service.py:411-442 | reinstating reaches the specified tables and reply |
| LicensingDatabase.Database.DeleteTenant | licensing-master/src/service.py:445-450 | the cascade, table by table, reaches the specified tables and reply |
| SeatInterleaving.SpendKeeps | licensing-master/src/service.py:530-542 | the conditional increment, as one step under the token's lock, keeps counter = live rows + claims + lost |
| SeatInterleaving.NextKeeps | licensing-master/src/service.py:411-442 | every single statement, commit or abort of any transaction keeps the interleaving invariant |
| SeatInterleaving.InterleavingKeeps | licensing-master/src/service.py:678-739 | every possible interleaving keeps it |
| SeatInterleaving.NeverOversold | licensing-master/src/service.py:530-542 | under every interleaving, live rows plus seats in flight never exceed the counter, nor the counter the quota |
| SeatInterleaving.ReleaseAlwaysReturns | licensing-master/src/service.py:560-585 | every revocation of a live row returns exactly one seat, even concurrently |
| SeatInterleaving.ExactWhenNothingLost | licensing-master/src/service.py:678-739 | once all transactions have ended, a counter is exact if and only if no commit overwrote a live row of the token |
| SeatInterleaving.NothingLostOverRuns | licensing-master/src/service.py:391-398 | no seat is lost in a run where no two transactions revive one hardware at once |
| SeatInterleaving.ExactWithoutOverlap | licensing-master/src/service.py:678-739 | such a run, once ended, leaves every counter exactly at its live rows |
| SeatInterleaving.OverlapLosesASeat | licensing-master/src/service.py:682-686 | a concrete run of two overlapping activations ends with two seats charged for one live device |
| SeatAlone.AloneIsStep | licensing-master/src/service.py:530-652 | an activation, booking, release, revocation or reinstatement that runs alone, statement by statement, ends in the counters and rows that its request has in the ledger |
| CapInterleaving.NextKeeps | licensing-master/src/service.py:545-557 | every step keeps live devices and granted bookings of a tenant together within its limit plus p - 1, with at most p of its bookings between count and commit |
| CapInterleaving.StepExceedsIff | licensing-master/src/service.py:545-557 | a step takes a tenant over its limit if and only if it commits a booking, of hardware that is not live for the tenant, after the last seat was taken |
| CapInterleaving.CapIsExact | licensing-master/src/service.py:545-557 | over all runs from empty tables with at most p overlapping bookings, the least bound on a tenant's live devices is `seat_limit` + p - 1, or none at all for a limit of zero |
| CapInterleaving.LimitHoldsIff | licensing-master/src/service.py:545-557 | the seat limit holds over all those runs if and only if p is one or the limit is zero |
| CapAlone.BookAlone | licensing-master/src/service.py:545-557 | a booking alone reads, counts and commits a live row of its tenant, or ends at the count exactly if no seat is left |
| CapAlone.RestoreAlone | licensing-master/src/service.py:411-442 | so does a reinstatement, for the tenant of its row |
| CapAlone.AloneIsStep | licensing-master/src/service.py:545-652 | these runs end in the live rows that the requests have in the ledger |
| LimiterModel.RecentIsSuffix | licensing-master/src/ratelimit.py:61-63 | on a sorted queue, dropping expired hits from the front leaves exactly the hits after the cutoff |
| LimiterModel.PruneMakesRoom | licensing-master/src/ratelimit.py:82-92 | pruning a full table makes room and evicts one key, the oldest, exactly when the sweep freed none |
| LimiterModel.RecordSound | licensing-master/src/ratelimit.py:54-65 | recording keeps the tables' invariant: bounded, locks tracked, queues sorted, non-empty, within one window, unlocked keys under the threshold |
| FailureLimiters.FailureLimiter.Create | licensing-master/src/ratelimit.py:21-39 | a limiter is made exactly when threshold, window and lockout are at least one, whatever the capacity |
| FailureLimiters.FailureLimiter.NoRoomNoLimit | licensing-master/src/ratelimit.py:82-92 | with a capacity below one nobody is ever held back |
| FailureLimiters.FailureLimiter.RetryAfter | licensing-master/src/ratelimit.py:41-52 | answers the least number of whole seconds that covers what is left of the lock, zero without one, and forgets a key whose lock ran out |
| FailureLimiters.FailureLimiter.RecordFailure | licensing-master/src/ratelimit.py:54-65 | raises exactly when the capacity is below one, changing nothing; otherwise prunes when full, then counts, trims and locks |
| FailureLimiters.FailureLimiter.Append | licensing-master/src/ratelimit.py:59-65 | the trimming loop leaves the hits inside the window and the lock is set exactly at the threshold |
| FailureLimiters.FailureLimiter.Clear | licensing-master/src/ratelimit.py:67-71 | forgets hits and lock of one key and of no other |
| FailureLimiters.FailureLimiter.Reset | licensing-master/src/ratelimit.py:73-76 | forgets everything |
| FailureLimiters.FailureLimiter.TrackedKeys | licensing-master/src/ratelimit.py:78-80 | the number of tracked keys, never above a capacity of at least one |
| FailureLimiters.FailureLimiter.Expired | licensing-master/src/ratelimit.py:84-85 | lists, each once, exactly the keys whose last hit left the window |
| FailureLimiters.FailureLimiter.Sweep | licensing-master/src/ratelimit.py:84-88 | the first loop forgets exactly the expired keys without a lock in force |
| FailureLimiters.FailureLimiter.Prune | licensing-master/src/ratelimit.py:82-92 | both loops together end below capacity with the oldest keys evicted, or raise exactly when the capacity is below one |
| LimiterHistory.VerdictIsHistory | licensing-master/src/ratelimit.py:41-52 | the answer for every key at every later time is determined by its failure history: the whole seconds, rounded up, until a lockout has passed since the failure that reached the threshold, or zero |
| LimiterHistory.SweepShows | licensing-master/src/ratelimit.py:84-88 | the expiry sweep changes no later answer for any key |
| LimiterHistory.RecordShows | licensing-master/src/ratelimit.py:54-65 | after recording, each queue is the window of the key's history |
| LimiterHistory.StepShows | licensing-master/src/ratelimit.py:41-76 | every gated call keeps tables and histories in step |
| LimiterRate.AnswersAreHistory | licensing-master/src/ratelimit.py:41-92 | over every run of gated calls, answers are those of the plain history |
| LimiterRate.WaitIsExact | licensing-master/src/ratelimit.py:47-52 | over every run, a caller told to wait n seconds is let in after n whole seconds if nothing else is recorded, and not after fewer |
| LimiterRate.TablesStayBounded | licensing-master/src/ratelimit.py:82-92 | over every run tracked keys stay within the capacity and locked keys among them |
| LimiterRate.RateIsBounded | licensing-master/src/ratelimit.py:54-65 | when lockout >= window, any window holds at most `max_failures` recorded failures of a key, any span that many per window it starts |
| LimiterRate.RateNeedsLongLockout | licensing-master/src/ratelimit.py:30-31 | the per-window bound holds over all runs of calls on the limiter if and only if lockout >= window |
| LimiterRate.ShortLockoutBreaksRate | licensing-master/src/ratelimit.py:30-31 | for every shorter lockout, a run of attempts of one key that the limiter lets in and that exceeds the bound |
| LimiterOverlap.MoveKeeps | licensing-master/src/ratelimit.py:41-92 | gates, records, sweeps, evictions and clears of overlapping requests keep the spacing of every key's failures |
| LimiterOverlap.SerialMovesAreCalls | licensing-master/src/ratelimit.py:41-71 | requests one after the other are the gated calls: one held back, one that fails, one that succeeds and clears or does not |
| LimiterOverlap.OverlappingRateIsBounded | licensing-master/src/ratelimit.py:41-65 | with at most p requests of a key between gate and end, a window holds at most `max_failures` + p - 1 + min(p, `max_failures`) - 1 recorded failures, a span that many per window it starts |
| LimiterOverlapRuns.OverlapBoundIsExact | licensing-master/src/ratelimit.py:41-65 | that number is the least that bounds every window of every such run, for every p and every limiter with lockout >= window |
| LimiterOverlapRuns.SerialBoundNeedsSerialRequests | licensing-master/src/routers.py:32-62 | `max_failures` bounds every window of every run if and only if p is one, whatever the threshold |
| HandlerRuns.ServeIsCalls | licensing-master/src/routers.py:71-122 | what a handler leaves in each limiter is the result of gated calls on it, in time order |
| HandlerRuns.HandlersKeepRate | licensing-master/src/routers.py:32-62 | over every run of handler requests, whatever the checks behind the gate answer, each limiter keeps the rate bound for every key since it last forgot it |
| HandlerRuns.FailuresAreLimited | licensing-master/src/routers.py:90-122 | over every run in which the limiter does not evict it, an address is answered with at most `max_failures` failures in any window, an e-mail with at most that many since its last login |
| HandlerRuns.UncrowdedEvictsNothing | licensing-master/src/ratelimit.py:82-92 | nothing is evicted, over however long a run, while the keys that failed within one lockout, or window if that is longer, fit into the limiter |
| AdminSessions.StepKeeps | licensing-master/src/admin_auth.py:183-190 | every call keeps sessions well-formed, and an inactive user has only revoked ones |
| AdminSessions.RunKeeps | licensing-master/src/admin_auth.py:132-328 | the same over every run |
| AdminSessions.RefusedIsDead | licensing-master/src/admin_auth.py:258-264 | a token is refused exactly when it is missing, revoked, past its end or idle too long; a disabled owner adds nothing |
| AdminSessions.DeadForever | licensing-master/src/admin_auth.py:240-270 | such a token stays so over every run |
| AdminSessions.RefusedForever | licensing-master/src/admin_auth.py:240-270 | an issued token once refused is refused after every later run of calls one after the other |
| AdminSessions.AcceptedIffHistory | licensing-master/src/admin_auth.py:240-270 | a token is answered with the user it was issued to exactly when it was issued, never revoked, is within its absolute lifetime and was last used within the idle timeout; otherwise it is refused |
| AdminSessions.SessionNamesItsUser | licensing-master/src/admin_auth.py:266-270 | whatever follows a login, a check or a logout with its token names the user that logged in, or nobody |
| AdminSessions.LogoutIffHistory | licensing-master/src/admin_auth.py:273-291 | after any run a logout names the user of the token unless it was never issued, revoked before, or cleaned up by a later login |
| AdminSessions.HistoriesAreWellUsed | licensing-master/src/admin_auth.py:262-269 | in every history each use came within the idle timeout of the one before and before the absolute end |
| AdminSessions.HousekeepingIsInvisible | licensing-master/src/admin_auth.py:224-225 | over every run, deleting expired sessions changes no login and no session verdict |
| AdminSessions.HousekeepingShowsInLogout | licensing-master/src/admin_auth.py:273-291 | a purge changes the reply to a logout if and only if the session is unrevoked, of a known user, and expired more than a day before |
| AdminSessions.HousekeepingOverRuns | licensing-master/src/admin_auth.py:224-225 | after any run the logout replies with and without housekeeping differ if and only if the session is unrevoked and expired more than a day before the last login |
| AdminSessions.StepConsumesOnce | licensing-master/src/admin_auth.py:312-328 | a login consumes a step above all earlier ones and within one of the current step; a failed login changes nothing |
| AdminSessions.CodesAreUsedOnce | licensing-master/src/admin_auth.py:97-108 | from any tables, consumed steps strictly increase between resets, so at most c1 - c0 + 3 logins succeed while the clock runs from step c0 to c1 |
| AdminSessions.CodeReplayFails | licensing-master/src/admin_auth.py:313-321 | after a login, and any run without a reset of the secret, a code logs the user in only if it belongs to a step above the consumed one |
| AdminSessions.LoginIffHistory | licensing-master/src/admin_auth.py:297-328 | after any run a login succeeds exactly when the account was created and last enabled, the password, of at most 1024 characters, fits the hash set last, and the code, six digits, belongs, under the secret set last, to one of the three thirty-second steps around the clock, above all consumed since |
| AdminSessions.PasswordIffHistory | licensing-master/src/admin_auth.py:331-339 | after any run the password that an active account is asked for is the one whose hash was set last |
| AdminSessions.AccountAnswer | licensing-master/src/admin_auth.py:79-83 | after any run a change of an account is refused exactly when the account is missing, or there already if it is to be made, or the new password is shorter than 12 or longer than 1024 characters |
| AdminSessions.StepLastsThirtySeconds | licensing-master/src/admin_auth.py:101-104 | a time step is thirty seconds of the clock |
| AdminAuths.MatchTotpStep | licensing-master/src/admin_auth.py:97-108 | the loop without early exit finds the lowest neighbouring step that the code belongs to, or none |
| AdminAuths.AdminAuth.Execute | licensing-master/src/admin_auth.py:132-328 | every call reaches the specified tables and reply and keeps the invariant |
| AdminAuths.AdminAuth.Login | licensing-master/src/admin_auth.py:297-328 | both factors are checked first, against the stored hash and secret of an active user, then the step is consumed only if new, then the session is created |
| AdminAuths.AdminAuth.CreateSession | licensing-master/src/admin_auth.py:220-237 | the new row is added, exactly the rows that expired more than a day ago are gone, and no other row appears or changes |
| AdminAuths.AdminAuth.RevokeUserSessions | licensing-master/src/admin_auth.py:149-155 | every session of the user ends up revoked, earlier revocations keep their moment, no other column, owner or row is touched |
| AdminInterleaving.NextKeeps | licensing-master/src/admin_auth.py:149-190 | every statement, commit or abort of logins and account changes keeps the interleaving invariant |
| AdminInterleaving.StepsAreSpentOnce | licensing-master/src/admin_auth.py:312-323 | under every interleaving, two sessions opened while the user has one secret have consumed different time steps |
| AdminInterleaving.CodesDifferIff | licensing-master/src/admin_auth.py:306-323 | a step uses a code twice if and only if it commits a login whose secret was replaced between its read and its UPDATE and whose code has opened a session |
| AdminInterleaving.CodesAreUsedOnce | licensing-master/src/admin_auth.py:306-323 | over every interleaving each code opens at most one session, throughout, if and only if no such login commits |
| AdminInterleaving.NotOvertakenIsUsedOnce | licensing-master/src/admin_auth.py:306-323 | so a code is never used twice while no overtaken login commits |
| AdminInterleaving.OneCodeTwoSessions | licensing-master/src/admin_auth.py:314-321 | a possible run in which one code opens two sessions and the second is accepted |
| AdminInterleaving.LegitimateIff | licensing-master/src/admin_auth.py:306-323 | a step leaves a live session of an inactive user or of replaced credentials if and only if it commits an overtaken login |
| AdminInterleaving.LegitimateUnlessOvertaken | licensing-master/src/admin_auth.py:183-190 | over every interleaving inactive users have only revoked sessions, and sessions do not outlive their credentials, if and only if no overtaken login commits |
| AdminInterleaving.RefusedForever | licensing-master/src/admin_auth.py:258-259 | while no overtaken login has committed, a session refused for its state is refused after every later interleaving |
| AdminInterleaving.RefusedForeverIff | licensing-master/src/admin_auth.py:258-259 | after any interleaving, a refused session stays refused over every later one if and only if it is revoked |
| AdminInterleaving.OvertakenLoginRevives | licensing-master/src/admin_auth.py:307-323 | a concrete run in which a login overtaken by a disable leaves a session that is refused and later accepted |
| AdminAlone.LoginIsStep | licensing-master/src/admin_auth.py:297-328 | a login that runs alone, statement by statement, ends in the users and sessions that the call has |
| AdminAlone.ChangeIsStep | licensing-master/src/admin_auth.py:149-190 | so does every change of password, secret or activity |
| AdminAlone.RevocationIsStep | licensing-master/src/admin_auth.py:149-155 | and every revocation of a user's sessions |
| Routers.Router.LoginGate | licensing-master/src/routers.py:71-78 | tells the longer of the two waits, the least number of seconds that covers both locks; zero exactly when neither login limiter holds the caller back |
| Routers.Router.Login | licensing-master/src/routers.py:90-122 | does to the limiters what `Serve` says; a locked-out caller touches no account and is told the wait, one let in leaves the accounts as a login leaves them, and is logged in only with the password that fits the stored hash of an active user |
| Routers.Router.Activate | licensing-master/src/routers.py:41-56 | does to the limiter what `Serve` says: only an invalid token counts; a locked-out address causes no database work, one let in exactly the request's |
| Routers.Router.DeleteTenant | licensing-master/src/routers.py:186-206 | does to the limiters what `Serve` says; past the gate the tenant is deleted exactly if the password given fits the stored hash of the caller, who must be active |
| CanonicalJson.PrintPrefix | licensing-master/src/signer.py:25-26 | printed values are self-delimiting: the text determines the value and where it ends |
| CanonicalJson.PrintInjective | licensing-master/src/signer.py:25-26 | different values print differently |
| CanonicalJson.SortForgetsOrder | licensing-master/src/signer.py:25-26 | two dicts sort to the same list exactly when they hold the same fields |
| CanonicalJson.CanonicalIffSameFields | licensing-master/src/signer.py:25-26 | canonical texts agree exactly when the dicts hold the same keys with values that are equal up to the order of their own keys |
| CanonicalJson.FlatCanonical | licensing-master/src/signer.py:25-26 | for the flat payloads that are signed: equal text if and only if equal fields, whatever the insertion order |
| CanonicalJson.UnsortedTextDiffers | licensing-master/src/service.py:655-670 | printing without sorted keys gives the signed text only if the keys were inserted in ascending order |
| JsonReader.ValueIsRead | licensing-master/src/signer.py:25-26 | a reader of RFC 8259 text reads back every printed value and stops where it ends |
| JsonReader.CanonicalReadsBack | licensing-master/src/signer.py:25-26 | the signed text reads as the payload with its keys in order |
| JsonReader.EnvelopeReadsBack | licensing-master/src/service.py:655-675 | the envelope reads as that payload and the signature of its text |
| Envelope.EmbeddedIsSigned | licensing-master/src/service.py:655-675 | the envelope holds the signed text byte for byte, behind the `payload` key and before its signature |
| Envelope.FindKey | licensing-master/tests/test_device_config_signature.py:34-35 | finds the first occurrence of the key, or none |
| Envelope.ScanBraces | licensing-master/tests/test_device_config_signature.py:36-45 | the loop with a depth counter computes the balanced-brace scan |
| Envelope.ExtractPayload | licensing-master/tests/test_device_config_signature.py:30-45 | the client's extraction is the scan from behind the first key |
| Envelope.ScanStopsIfBalanced | licensing-master/tests/test_device_config_signature.py:36-44 | the scan stops exactly behind the closing brace if and only if the braces inside pair up |
| Envelope.PrintAlike | licensing-master/src/signer.py:25-26 | printing and escaping neither add nor hide a brace of the caller's strings |
| Envelope.ExtractedIffBalanced | licensing-master/tests/test_device_config_signature.py:30-45 | the client cuts out exactly the signed text if and only if the braces in the payload's strings, in key order, pair up |
| Envelope.BraceFreeIsExtracted | licensing-master/tests/test_device_config_signature.py:30-45 | in particular whenever no key and no string value holds a brace |
| Envelope.OneBracedString | licensing-master/tests/test_device_config_signature.py:30-45 | when only one string of the payload may hold braces, the signed text is cut out if and only if the braces of that string pair up |
| Envelope.BraceInNameIsNotExtracted | licensing-master/tests/test_device_config_signature.py:30-45 | for every payload of flat fields, a lone closing brace in `device_name` and no brace elsewhere defeats the extraction |

## Left out

- Audit log, listing views, tenant patches, products, slugs, base URLs, branch references, notes, plan names and service-token minting: single-branch bookkeeping that no seat, key or date depends on.
- Conversion and normalisation of body fields (`str()`, `int()`, strip, e-mail form, spaces in one-time codes, digits outside ASCII): fields arrive converted, or absent.
- Column widths of integers, `Decimal` amounts, and `timedelta` overflow: integers are unbounded.
- Float rounding in `_days_remaining` and in the limiter's clock: instants are whole microseconds.
- A request reads the clock once; the code sometimes reads it again within one request.
- DoActivate: does not model a missing or invalid signing key, because the settings refuse to start without one; building the signed envelope is modelled apart, in `Envelope.dfy`.
- SQL itself, unique indexes and foreign keys: indexes are maps kept in step, checks are explicit refusals, and the id sequences also return to their old value on rollback.
- Argon2, HMAC, SHA-256, Ed25519, base64 and random tokens: uninterpreted functions and secrets from a source that never repeats; an e-mail stands for the user, a raw token for its hash.
- Tenant deletion and patches in the interleavings: tenants, limits, windows and quotas stay as they are there. In `SeatInterleaving` a refused cap check is one of the aborts that may happen at any moment, in `CapInterleaving` a refused quota check is; validity dates of devices are claimed of serial runs only.
- The limiter's mutex and threads: its calls are atomic. The test helper that rewrites `max_failures` is not modelled.
- TablesStayBounded: is about capacities of at least one; with less the limiter tracks nothing.
- RateIsBounded: counts from the last clear, reset or eviction of the key, each of which starts its history afresh, and takes gate and record as one call; overlapping requests have a bound of their own.
- AdminInterleaving: expiry, the deletion of expired sessions, logout and the sliding of the idle timer; each touches one session row, and only towards refusal or not at all.
- Numbers, lists and lone surrogates in JSON: no signed payload holds them.
- The limiter in front of the service tokens of product backends: the same class, gated in the same order.
- The portal, the command line, migrations, settings parsing, CORS, cookies, the CSRF header and response envelopes.
