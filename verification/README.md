# Verified model of the booking worker

This project models the parts of the booking worker in which several processes share database rows,
and the arithmetic around them, and proves what they promise. Each protocol is a state machine: every
SQL statement, committed transaction, queue call or remote call is one step, the steps of any number
of actors interleave, actors may crash where the code tolerates it, and what is proved holds in every
reachable state or over every run. Beside each machine stands the code that drives it, as classes
whose methods update their tables in place; they are proved to leave the tables in a state the machine
can reach, and to leave in them what their contracts say, whichever of their statements throws.

| file | what it covers |
|---|---|
| `DomainOutbox.dfy`, `DomainOutboxRuntime.dfy` | the domain outbox: claims from an unlocked read, attempts as fencing tokens, workers that finish first |
| `NotificationOutbox.dfy`, `NotificationOutboxTheorems.dfy`, `NotificationOutboxRuns.dfy`, `NotificationOutboxRuntime.dfy` | the notification outbox: unfenced writes under any number of schedulers, stale reclaim without an attempt, one job per row for as long as the queue remembers it |
| `BookingIdempotency.dfy`, `BookingIdempotencyTheorems.dfy`, `BookingResponse.dfy`, `RequestHash.dfy`, `BookingCreationRuntime.dfy` | idempotent booking creation: claim, lease theft, attach, charge, checkpoint, complete, replay, cleanup |
| `BookingCalendar.dfy`, `BookingCalendarRuntime.dfy` | the calendar of each car under car locks |
| `ReferralLedger.dfy`, `ReferralCounters.dfy`, `ReferralCounterRaces.dfy`, `ReferralCounterTheorems.dfy`, `ReferralInvariants.dfy`, `ReferralEffects.dfy`, `ReferralTheorems.dfy`, `ReferralRuns.dfy`, `ReferralRuntime.dfy` | the one-time discount, referral credits, rewards and counters under user and booking locks |
| `FlightAlert.dfy`, `FlightAlertRuntime.dfy` | the alert lease with compensation |
| `FlightStatus.dfy` | flight status, notifications and redelivery |
| `CarApproval.dfy`, `CarApprovalRuntime.dfy`, `ChauffeurApproval.dfy` | review of cars with uncommitted asset writes; the unlocked chauffeur cascade |
| `BookingLegs.dfy`, `BookingPricing.dfy`, `BookingPreview.dfy`, `VehicleRanking.dfy` | legs, money, preview segments and ranking |
| `Foundations.dfy`, `Sorting.dfy` | sums over tables and the stable sort |

`dafny verify dfyconfig.toml` checks the whole project.

## Assumptions

- One shared clock that never goes back; a statement's own reading of the clock is that of its write.
- Each SQL statement is atomic, reads see committed rows and the transaction's own writes, and a row
  lock is held until commit or abort. Every write of a row bumps its `updatedAt`.
- Row ids are never reused; the database, the queue and the provider hand out ids not seen before.
- Money is exact reals and time integer milliseconds. Hashes are injective, and tokens are functions
  of what they are derived from.
- Remote services answer or fail as they like. A provider that accepts a payment returns a non-empty
  reference. A write that throws has not been applied.
- The queue ignores a job whose id it knows. It knows a job of the notification outbox for a day after it
  has finished, so for at least a day after it was added; ids of domain outbox jobs never repeat.

## Where the code does not keep a promise

For each of these the model has a run or an input that shows it, and the exact condition under which the
code is right.

- A domain outbox tick of thirty minutes or more can dispatch one attempt twice
  (`LongTickDispatchesTwice`, `DispatchHidesRowIffTimely`).
- Several notification schedulers can undo a dispatch when a flight outlives the two minutes of its claim
  (`TwoSchedulersUndoADispatch`); a claim hides its row for exactly those two minutes
  (`ClaimHidesRowIffTimely`, `FlightsInTimeMeet`, `OverdueFlightCanBeOverrun`), and everything that holds with one
  scheduler holds with any number whose writes land in time (`EveryLandingMeets`).
- A notification row enqueued again a day after its job was added can get a second job
  (`DayLongOutageQueuesTwice`, `SecondJobPossibleIff`, `OneJobPerRowIff`).
- A payment failure that is handled only after the booking was paid and refunded commits its credits
  again, so that more is committed than earned (`LateFailureOverspends`, `MarkUnpaidIsSafeIff`). It takes a
  payment request whose answer was lost although the provider accepted it.
- The referral counters are read and written in two statements. The comment that a transaction's snapshot
  makes them safe (`src/modules/booking/booking-eligibility.service.ts:271-287`) does not hold between
  transactions: a decrement can be lost (`ADecrementCanBeLost`). A write leaves counters and rewards in agreement
  exactly when its row is still as it was read (`CountersSurviveIffFresh`, `FreshRunsConserveCounters`).
- The hourly activation writes by id alone. If a booking is cancelled between its read and its write,
  only the exclusion constraint keeps the car from being booked twice (`LateActivationDoubleBooks`,
  `ActivationKeepsApartIff`).
- Chauffeur approval counts without a lock: overlapping reviews can leave a chauffeur unapproved with
  every document approved, or approved with one rejected (`OverlappingApprovalsStrand`,
  `LateApprovalOverwritesRejection`); `SaveIsExactIff` and `ExactAllAlongIff` say exactly when not.
- A second flight cancellation with the same payload as the first is lost (`IdenticalCancellationIsLost`,
  `LastCancellationCountsIff`), and a delay that creeps up in steps under ten minutes is never announced
  (`CreepingDelayIsSilent`, `DelayIsAnnouncedIff`).
- The assistant estimates a day booking from its dates and not from its window, although
  `src/modules/booking/booking.helper.ts:8-13` promises the same count: two days asked for are estimated as one
  leg (`TwoDaysAreEstimatedAsOne`, `EstimateIsRightIff`).
- A booking stores the discount its customer is entitled to; when the payable floor cut it short, the stored
  figures do not add up to the stored total (`DiscountOfWholePriceIsNotExplained`, `StoredTotalIsExplainedIff`).
- The comment that the effective end date is never before the start
  (`src/modules/booking/booking.helper.ts:93-96`) holds only for ends at midnight
  (`EffectiveEndCanPrecedeStart`, `EffectiveEndNotBeforeStartIff`); day legs of a booking given backwards come out in reverse order
  (`DayLegsOrderedIff`).

One comment errs the other way: that `approveCar` can leave a car approved with rejected assets
(`src/modules/car/car.service.ts:460-463`) does not match the code, which cannot (`RejectedAssetBlocks`).

## Model

| member | source | states |
|---|---|---|
| DomainOutbox.NoAttemptIsDispatchedTwice | src/modules/domain-outbox/domain-outbox.service.ts:65-177 | In every run with ticks under thirty minutes, any number of schedulers and workers, no two queued jobs share an event and an attempt |
| DomainOutbox.ClaimIsFenced | src/modules/domain-outbox/domain-outbox.service.ts:111-147 | Although the attempt number was computed from an earlier unlocked read, a successful claim leaves exactly that number in the row |
| DomainOutbox.CompletedMeansEffectRan | src/modules/domain-outbox/domain-outbox.service.ts:208-230 | COMPLETED implies the effect ran to its end under the attempt the row shows |
| DomainOutbox.FailedRowsHaveAttemptsLeft | src/modules/domain-outbox/domain-outbox.service.ts:232-259 | FAILED implies at least one and fewer than eight attempts |
| DomainOutbox.TerminalRowsNeverChange | src/modules/domain-outbox/domain-outbox.service.ts:111-259 | COMPLETED and DEAD_LETTER rows never change again, in every run, timely or not |
| DomainOutbox.OlderJobsNeverTouchTheRow | src/modules/domain-outbox/domain-outbox.service.ts:208-259 | A worker of an attempt the row has left behind changes nothing, whatever it reports |
| DomainOutbox.WorkerMayFinishFirst | src/modules/domain-outbox/domain-outbox.service.ts:148-160 | Whichever way the worker settles a row before the DISPATCHED write, retry included, the late write changes nothing, and both orders end in the same status and attempt |
| DomainOutbox.OpenRowsFallDue | src/modules/domain-outbox/domain-outbox.service.ts:65-84 | Nothing is stranded: thirty minutes after its last write every non-terminal row is a candidate, and stays one |
| DomainOutbox.OpenRowsCanBeClaimed | src/modules/domain-outbox/domain-outbox.service.ts:65-147 | From every reachable state an idle scheduler can bring any open row to its next attempt |
| DomainOutbox.DispatchHidesRowIffTimely | src/modules/domain-outbox/domain-outbox.service.ts:148-160 | The DISPATCHED write hides the row from all ticks under way if and only if it lands within thirty minutes of its own tick |
| DomainOutbox.LongTickDispatchesTwice | src/modules/domain-outbox/domain-outbox.service.ts:65-159 | A run with a tick longer than thirty minutes in which one attempt is dispatched twice: the bound is needed |
| DomainOutbox.BackoffDoubles | src/modules/domain-outbox/domain-outbox.service.ts:286-289 | Retry delays start at ten seconds, double with each attempt and stop at fifteen minutes |
| DomainOutbox.DueFrom | src/modules/domain-outbox/domain-outbox.service.ts:65-98 | A waiting or dispatched row is due from its next attempt on, a PROCESSING one exactly two minutes after its last write, a terminal one never; a claim matches a due row of the status read and no other |
| DomainOutbox.WrittenRowsFallDue | src/modules/domain-outbox/domain-outbox.service.ts:111-259 | What each statement writes, and from which millisecond its row is due again: 120000 after a claim, 1800000 after the tick of a dispatch, the end of the backoff after a failure |
| DomainOutbox.ClaimedRowIsLeftAlone | src/modules/domain-outbox/domain-outbox.service.ts:65-147 | Over any run of less than 120000 ms since a claim in which neither its scheduler nor its worker acts: the row is unchanged, keeps its attempt and gets no job |
| DomainOutboxRuntime.DomainOutboxService.CreateMany | src/modules/domain-outbox/domain-outbox.service.ts:47-63 | Inserts the events whose dedupe key is new and no others |
| DomainOutboxRuntime.DomainOutboxService.FindCandidates | src/modules/domain-outbox/domain-outbox.service.ts:65-98 | Exactly due rows, a PROCESSING one from 120000 ms after its last write on, earliest due first, as many as the limit allows |
| DomainOutboxRuntime.DomainOutboxService.ProcessPendingEvents | src/modules/domain-outbox/domain-outbox.service.ts:65-109 | Every row after an undisturbed tick, the jobs it added in order and the count it returns, for any pattern of throwing statements; one row's error keeps the tick from no other row, and a row claimed less than two minutes ago is neither chosen nor changed |
| DomainOutboxRuntime.DomainOutboxService.ProcessEvent | src/modules/domain-outbox/domain-outbox.service.ts:111-177 | One candidate: its row, the job queued under attempt + 1 and the value returned or thrown, whichever of its four statements throw |
| DomainOutboxRuntime.DomainOutboxService.ResolveExecutableEvent | src/modules/domain-outbox/domain-outbox.service.ts:179-206 | A job's row is returned exactly when it still has the job's type and aggregate, the job's attempt is its own and it is in flight |
| DomainOutboxRuntime.DomainOutboxService.MarkCompleted | src/modules/domain-outbox/domain-outbox.service.ts:208-230 | After the effect has run: completed for good and no candidate any more exactly when the job is still the row's attempt in flight, nothing written otherwise, no other row touched, the tables still reachable |
| DomainOutboxRuntime.DomainOutboxService.MarkFailed | src/modules/domain-outbox/domain-outbox.service.ts:232-259 | After the effect threw: dead exactly when terminal or at the eighth attempt, else a candidate again exactly from the end of the backoff; nothing written for a job the row has left behind; the tables still reachable |
| DomainOutboxRuntime.DomainOutboxProcessor.Process | src/modules/domain-outbox/domain-outbox.processor.ts:27-94 | The row and the rethrow decision for every outcome of the effect and of the settling write, including the missing booking and the last queue attempt |
| DomainOutboxRuntime.SettlingEndsTheAttempt | src/modules/domain-outbox/domain-outbox.processor.ts:42-94 | A job that ran settles its row, schedules its retry, or is left to the queue, and in each case which |
| DomainOutboxRuntime.DomainOutboxScheduler.ProcessDomainOutbox | src/modules/domain-outbox/domain-outbox.scheduler.ts:17-37 | A firing takes up the first twenty-five due rows and leaves every other row, with the jobs added and every row afterwards; one that finds another under way, or whose query throws, changes nothing; the guard is cleared either way |
| NotificationOutboxTheorems.OneJobPerRowIff | src/modules/notification/notification-outbox.service.ts:209-311 | Over every run of any number of schedulers: no row gets a second job if and only if no enqueue comes after the queue has forgotten the row's job |
| NotificationOutboxTheorems.RetentionKeepsOneJob | src/modules/notification/notification-outbox.service.ts:41-46 | However often a row is retried or reclaimed, it gets one job as long as each enqueue comes within a day of its last job |
| NotificationOutboxTheorems.SecondJobPossibleIff | src/modules/notification/notification-outbox.service.ts:264-271 | An enqueue can add a second job if and only if the first was accepted a day ago or longer |
| NotificationOutboxRuns.DayLongOutageQueuesTwice | src/modules/notification/notification-outbox.service.ts:264-279 | A run with one scheduler in which a crash before the DISPATCHED write and a day without a scheduler queue one notification twice |
| NotificationOutboxTheorems.EveryLandingMeets | src/modules/notification/notification-outbox.service.ts:250-311 | With one scheduler at a time, or with any number whose flights land within two minutes of their claims, every unfenced final write meets its row as the claim left it |
| NotificationOutboxTheorems.AttemptsAreBounded | src/modules/notification/notification-outbox.service.ts:209-311 | Under each of these disciplines, any number of schedulers and crashes included, attempts never exceed eight |
| NotificationOutboxTheorems.StaleReclaimUsesNoAttempt | src/modules/notification/notification-outbox.service.ts:209-248 | Taking over a stale PROCESSING row repeats its attempt; every other claim uses one more; the number computed from the earlier read is the row's |
| NotificationOutboxTheorems.EighthFailureIsFinal | src/modules/notification/notification-outbox.service.ts:203-207 | A failed dispatch ends in DEAD_LETTER exactly when it was the eighth attempt |
| NotificationOutboxTheorems.TerminalRowsNeverChange | src/modules/notification/notification-outbox.service.ts:209-311 | Through every such run, for any number of schedulers, DISPATCHED and DEAD_LETTER rows never change |
| NotificationOutboxTheorems.OpenRowsFallDue | src/modules/notification/notification-outbox.service.ts:93-127 | An open row is a candidate fifteen minutes after its last write, and stays one |
| NotificationOutboxTheorems.DueFrom | src/modules/notification/notification-outbox.service.ts:93-127 | When a row of each status is due, in milliseconds, and that a claim matches exactly the due rows that are claimed, or not, as they were read |
| NotificationOutboxTheorems.WrittenRowsFallDue | src/modules/notification/notification-outbox.service.ts:209-311 | What each statement writes and when its row is due again; dead from the eighth attempt on |
| NotificationOutboxTheorems.AtMostFiveInFlight | src/modules/notification/notification-outbox.service.ts:129-145 | In every reachable state a tick has at most five rows under way, and takes up the next exactly when it has fewer |
| NotificationOutboxTheorems.ClaimHidesRowIffTimely | src/modules/notification/notification-outbox.service.ts:217-244 | A claim hides its row from every tick under way if and only if less than two minutes have passed since |
| NotificationOutboxTheorems.FlightsInTimeMeet | src/modules/notification/notification-outbox.service.ts:250-311 | Whatever other schedulers do, a flight less than two minutes old still owns its row, and no other such flight does |
| NotificationOutboxTheorems.OverdueFlightCanBeOverrun | src/modules/notification/notification-outbox.service.ts:217-228 | From then on any idle scheduler can take the row from under the flight: the bound is exact |
| NotificationOutboxRuns.TwoSchedulersUndoADispatch | src/modules/notification/notification-outbox.service.ts:270-311 | A run in which a flight of two minutes sets a row to FAILED that another scheduler has dispatched |
| NotificationOutboxRuntime.NotificationOutboxService.WriteEvent | src/modules/notification/notification-outbox.service.ts:147-196 | At most one inbox row and one outbox row per dedupe key |
| NotificationOutboxRuntime.NotificationOutboxService.ProcessPendingEvents | src/modules/notification/notification-outbox.service.ts:93-145 | Every row after an undisturbed pass and the exact number it dispatched, for any pattern of throwing statements; one row's error keeps the pass from no other |
| NotificationOutboxRuntime.NotificationOutboxService.ProcessEvent | src/modules/notification/notification-outbox.service.ts:209-311 | One candidate: its row, the queue and the value returned or thrown, for parsable and unparsable payloads and whichever of its statements throw |
| NotificationOutboxRuntime.NotificationOutboxScheduler.ProcessNotificationOutbox | src/modules/notification/notification-outbox.scheduler.ts:32-62 | The drain loop: at most five passes, each over the first twenty-five due rows and with the table before and after it, each before the last having dispatched something, ending at the first that dispatches nothing or throws; the guard is cleared however it ends |
| BookingIdempotencyTheorems.OneBookingPerKey | src/modules/booking/booking-creation-idempotency.service.ts:80-185 | Of two bookings ever committed for one key, one has had its row retired by retention cleanup: lease theft never yields two |
| BookingIdempotencyTheorems.AttachedKeyBlocksCommits | src/modules/booking/booking-creation.service.ts:443-542 | While a key's row holds a booking, no other request for that key commits one |
| BookingIdempotencyTheorems.LostClaimAborts | src/modules/booking/booking-creation-idempotency.service.ts:169-185 | A claimant whose row was deleted after its lease expired aborts its creation transaction at the attachment, however late it arrives |
| BookingIdempotencyTheorems.DeletedRowsNeverReturn | src/modules/booking/booking-creation-idempotency.service.ts:134-149 | A deleted idempotency row never comes back under its id |
| BookingIdempotencyTheorems.OnlyCleanUpDeletesAttachedRows | src/modules/booking/booking-creation-idempotency.service.ts:257-301 | Only retention deletes a row with a booking, and then only a completed row or one whose booking has ended, a day after its last write |
| BookingIdempotencyTheorems.CleanUpDeletesExactly | src/modules/booking/booking-creation-idempotency.service.ts:257-301 | A row is deleted exactly when it is more than a day old and completed, without a booking, or with an ended one; nothing else changes |
| BookingIdempotencyTheorems.LeaseIsRespected | src/modules/booking/booking-creation-idempotency.service.ts:109-149 | In every reachable state, for sixty seconds after its last write nobody steals or takes over a claim under way, and only the release of a claim that holds no booking removes it |
| BookingIdempotencyTheorems.RowDecides | src/modules/booking/booking-creation-idempotency.service.ts:98-149 | What a request does about each kind of row, with the lease in milliseconds, in both directions |
| BookingIdempotencyTheorems.ThreeAttempts | src/modules/booking/booking-creation-idempotency.service.ts:80-108 | A free key is claimed at the first, second and third attempt; beyond it the request is turned away and nothing changes |
| BookingIdempotencyTheorems.OneCheckoutPerBooking | src/modules/booking/booking-creation.service.ts:535-643 | Over every interleaving of creators, resumers and crashes, at most one provider call per booking |
| BookingIdempotencyTheorems.ResumeNeverPays | src/modules/booking/booking-creation.service.ts:267-292 | Every resumed request finds the payment marker and stops; neither it nor the payment API ever reaches the provider for such a booking |
| BookingIdempotencyTheorems.CompletedRowsAreComplete | src/modules/booking/booking-creation-idempotency.service.ts:151-167 | COMPLETED implies a booking and a response |
| BookingIdempotencyTheorems.ResponseIsWrittenOnce | src/modules/booking/booking-creation-idempotency.service.ts:187-221 | A stored response and the booking it belongs to are never written again |
| BookingIdempotencyTheorems.AnswersAreTheOriginal | src/modules/booking/booking-creation-idempotency.service.ts:109-167 | Every answer a request gets, created or replayed, is the response first built for the booking it names |
| BookingIdempotencyTheorems.ReplaysAgree | src/modules/booking/booking-creation-idempotency.service.ts:303-338 | Two requests answered about one booking get the same response, the derived token included |
| BookingResponse.PersistThenParse | src/modules/booking/booking-creation-idempotency.service.ts:187-199 | A stored response reads back as itself if and only if its date is real and its token is absent or the derivable one |
| BookingResponse.TokenIsNotStored | src/modules/booking/booking-creation-idempotency.service.ts:195-199 | Responses that differ only in their token are stored alike |
| BookingResponse.StoredUnderItsNames | src/modules/booking/booking-creation-idempotency.service.ts:187-199 | The stored form has every part of the response under its own name, and of the token only whether there is one |
| BookingResponse.ParseThenPersist | src/modules/booking/booking-creation-idempotency.service.ts:303-338 | Whatever parses is, up to extra fields, the stored form of what it parses to |
| RequestHash.SameHashIffSameMeaning | src/modules/booking/booking-creation-idempotency.service.ts:59-70 | Two requests give the same text to hash if and only if they mean the same: key order and undefined entries at any depth never matter, everything else does |
| RequestHash.CanonicalKeepsMeaning | src/modules/booking/booking-creation-idempotency.service.ts:348-363 | Sorting keys and dropping undefined entries changes no value's meaning |
| RequestHash.OneIncreasingOrder | src/modules/booking/booking-creation-idempotency.service.ts:353-361 | A set of keys has one sorted order, so the canonical text is determined by the content |
| BookingCreationRuntime.BookingCreationIdempotencyService.Claim | src/modules/booking/booking-creation-idempotency.service.ts:72-78 | The claim of an undisturbed request: a free key is claimed, an expired bare claim is stolen, anything else is answered from the row, with the exact table afterwards |
| BookingCreationRuntime.BookingCreationIdempotencyService.ClaimWithAttempt | src/modules/booking/booking-creation-idempotency.service.ts:80-149 | The same from any attempt on: beyond the third the request is turned away, and a theft at the third attempt leaves the key free |
| BookingCreationRuntime.BookingCreationIdempotencyService.FinalizeCheckpointedResponse | src/modules/booking/booking-creation-idempotency.service.ts:151-167 | The conditional completion of a checkpointed row that may have changed since it was read |
| BookingCreationRuntime.BookingCreationIdempotencyService.TakeOverClaim | src/modules/booking/booking-creation-idempotency.service.ts:122-133 | A resume takes the lease only on the very version it read |
| BookingCreationRuntime.BookingCreationIdempotencyService.StealClaim | src/modules/booking/booking-creation-idempotency.service.ts:134-146 | A theft deletes only the very version it read, unattached and still PROCESSING |
| BookingCreationRuntime.BookingCreationIdempotencyService.AttachBooking | src/modules/booking/booking-creation.service.ts:443-542 | Booking, payment marker and attachment are committed together or not at all |
| BookingCreationRuntime.BookingCreationIdempotencyService.CheckpointPaymentResult | src/modules/booking/booking-creation-idempotency.service.ts:187-221 | The provider's reference and the stored response are committed together or not at all |
| BookingCreationRuntime.BookingCreationIdempotencyService.Complete | src/modules/booking/booking-creation-idempotency.service.ts:223-245 | Completion succeeds on a PROCESSING row or one already completed with a response, and fails otherwise |
| BookingCreationRuntime.BookingCreationIdempotencyService.Release | src/modules/booking/booking-creation-idempotency.service.ts:247-255 | Only an unattached PROCESSING claim is given up |
| BookingCreationRuntime.BookingCreationIdempotencyService.CleanupExpiredRecords | src/modules/booking/booking-creation-idempotency.service.ts:257-301 | Deletes exactly the expired rows and returns their number |
| BookingCreationRuntime.BookingCreationService.CreateBooking | src/modules/booking/booking-creation.service.ts:105-227 | A key that is free, or whose expired claim may be stolen, is served and completed, or left free again on an early failure; any other key is answered from its row, refused, replayed or in progress, without a booking or a provider call; what a request that paid is answered, field by field; the provider is called at most once |
| BookingCreationRuntime.BookingCreationService.CreateBookingWithPayment | src/modules/booking/booking-creation.service.ts:398-572 | Result and tables of creation and payment for every combination of lost claim, refusing provider and failing checkpoint; on success the reference and the URL are the provider's, total and expiry the plan's, and the token the booking's own for guests alone |
| BookingCreationRuntime.BookingCreationService.CreatePaymentAndSync | src/modules/booking/booking-creation.service.ts:587-643 | Result and tables of the payment step, exactly one provider call, and the response field by field |
| BookingCreationRuntime.BookingCreationService.ResumeBookingPayment | src/modules/booking/booking-creation.service.ts:267-292 | Always answers that the request is in progress, without a provider call |
| BookingCreationRuntime.StoredResponsesParse | src/modules/booking/booking-creation-idempotency.service.ts:303-319 | In every reachable state a stored response parses, to the booking's original response |
| BookingCalendar.QueryMatchesConstraint | src/shared/availability-buffer.helper.ts:18-39 | The raw-column query with both sides buffered finds exactly the rows whose end-extended ranges overlap, which are those less than two hours apart |
| BookingCalendar.NoDoubleBooking | src/modules/booking/booking-validation.service.ts:251-297 | Over every run of creations, updates, confirmations, cancellations, expiries and flight-driven moves, any two blocking bookings of one car stay two hours apart, and the database constraint never has to refuse |
| BookingCalendar.CheckedStaysAvailable | src/modules/booking/booking-creation.service.ts:443-455 | What a transaction has checked under the car lock stays available until it commits, whatever others commit |
| BookingCalendar.CommitSparesOthers | src/modules/booking/booking-update.service.ts:230-266 | A commit disturbs no other transaction's view of the cars it has locked |
| BookingCalendar.ActivationKeepsApartIff | src/modules/status-change/status-change.service.ts:70-137 | The activation by id alone keeps the calendar apart if and only if the booking still holds its place or the place is free |
| BookingCalendar.LateActivationDoubleBooks | src/modules/status-change/status-change.service.ts:100-108 | A run in which a booking cancelled between read and write is activated over its successor: here only the exclusion constraint protects |
| BookingCalendarRuntime.BookingCalendarService.CheckCarAvailability | src/modules/booking/booking-validation.service.ts:251-297 | Available if and only if every other blocking booking of the car is at least two hours away |
| BookingCalendarRuntime.BookingCalendarService.CreateBooking | src/modules/booking/booking-creation.service.ts:443-526 | Created if and only if available; the exact calendar either way |
| BookingCalendarRuntime.BookingCalendarService.UpdateBooking | src/modules/booking/booking-update.service.ts:199-349 | Moved if and only if confirmed, unchanged since read, in time and available; the exact calendar either way |
| BookingCalendarRuntime.BookingCalendarService.SyncConfirmedAirportBookingWindows | src/modules/flightaware/flightaware-webhook.service.ts:609-680 | The loop over the flight's bookings, car by car, keeps the calendar reachable: every confirmed booking with one leg of positive length that does not start at the expected arrival yet then starts at it and lasts as long as before, or is reported and left; nothing else is touched |
| BookingCalendarRuntime.SyncMovesOrReports | src/modules/flightaware/flightaware-webhook.service.ts:625-670 | Every movable booking, the condition given in fields, is reported with its window unchanged, or not reported and moved to the expected arrival for the length of its leg |
| BookingCalendarRuntime.SyncSkips | src/modules/flightaware/flightaware-webhook.service.ts:626-640 | A listed booking is passed over if and only if it is not confirmed, has not exactly one leg of positive length, or starts at the expected arrival already |
| BookingCalendarRuntime.SyncEffects | src/modules/flightaware/flightaware-webhook.service.ts:609-680 | The effect of the whole loop on every listed booking, by start, length and conflict flag |
| BookingCalendarRuntime.SyncLeavesOthers | src/modules/flightaware/flightaware-webhook.service.ts:626-635 | Bookings that are not movable keep their dates and are not reported |
| BookingCalendarRuntime.CarsAreLockedInOrder | src/modules/flightaware/flightaware-webhook.service.ts:624-640 | The loop takes up every booking once and locks cars in one order for all webhooks |
| ReferralTheorems.CreditsAreNeverOverspent | src/modules/booking/booking-eligibility.service.ts:441-485 | In every reachable state a user's committed credits are at most their released rewards, if no refunded booking is marked unpaid afterwards |
| ReferralTheorems.MarkUnpaidIsSafeIff | src/modules/booking/booking-persistence.service.ts:62-67 | Marking a booking unpaid leaves the committed credits alone if and only if it is unpaid already, cancelled, or holds no credits |
| ReferralRuns.LateFailureOverspends | src/modules/booking/booking-creation.service.ts:645-674 | A run in which a late payment failure marks a refunded booking unpaid and commits its credits a second time: two hundred committed, one hundred earned |
| ReferralTheorems.ConfirmationKeepsTotal | src/modules/booking/booking-confirmation.service.ts:100-112 | Confirmation moves reserved credits to used without changing the total |
| ReferralTheorems.CommitCreateTotals | src/modules/booking/booking-eligibility.service.ts:108-125 | A creation adds its own credits for its own user and commits nothing else |
| ReferralTheorems.OneDiscountAtATime | src/modules/booking/booking-eligibility.service.ts:127-187 | At most one of a user's pending, confirmed or active bookings has the discount reserved, applied or rewarded, under every race of attempts, releases, expiries and confirmations |
| ReferralTheorems.DiscountIsUsedOnceInARun | src/modules/booking/booking-eligibility.service.ts:127-247 | Over a whole run at most one booking of a user ever becomes APPLIED, cancellations included |
| ReferralTheorems.DiscountIsUsedOnce | src/modules/booking/booking-confirmation.service.ts:125-143 | No state has two bookings of a user that used the discount, and the user's flag is set with the first |
| ReferralTheorems.SettledForever | src/modules/booking/booking-eligibility.service.ts:220-236 | APPLIED and REWARDED are never taken back by any step |
| ReferralTheorems.ClaimCheckNeverFails | src/modules/booking/booking-eligibility.service.ts:169-183 | After the release loop the check for another claim never finds one: the flag or the release has already dealt with it |
| ReferralCounterTheorems.FreshRunsConserveCounters | src/modules/booking/booking-eligibility.service.ts:249-334 | Statement by statement, for any number of interleaved transactions with any number of reversals, pay-outs and creations: as long as every write finds its row as it was read, each referrer's pending total, referral count and granted total are the sums of their rewards, and no floor ever takes effect |
| ReferralCounterTheorems.CountersSurviveIffFresh | src/modules/booking/booking-eligibility.service.ts:302-332 | The last write of a transaction and its commit leave counters and rewards in agreement if and only if the row still shows what was read of it |
| ReferralCounterTheorems.ADecrementCanBeLost | src/modules/booking/booking-eligibility.service.ts:271-287 | From every state at rest with two pending rewards of one referrer, a run of two transactions that loses a decrement: the snapshot the comment relies on does not prevent it |
| ReferralTheorems.CountersAreConserved | src/modules/booking/booking-eligibility.service.ts:249-334 | In the ledger, where a counter changes with its reward, the counters are the sums of the rewards in every reachable state |
| ReferralCounters.ReversalAgrees | src/modules/booking/booking-eligibility.service.ts:322-332 | Reversing one pending reward keeps counters and rewards in agreement |
| ReferralCounters.CreationAgrees | src/modules/booking/booking-eligibility.service.ts:406-429 | Creating one pending reward keeps them in agreement, with or without a row for the referrer |
| ReferralCounters.GrantAgrees | src/modules/referral/referral-processing.service.ts:176-216 | Paying one reward out keeps them in agreement |
| ReferralCounters.GroupingIsExact | src/modules/booking/booking-eligibility.service.ts:288-298 | One floored decrement per referrer equals one floored decrement per reward, from any counters |
| ReferralCounters.DecrementReferralStatsForReversedRewards | src/modules/booking/booking-eligibility.service.ts:284-334 | The two loops over a per-referrer map compute exactly the reward-by-reward decrements |
| ReferralRuntime.ReferralService.ReleaseReferralReservation | src/modules/booking/booking-eligibility.service.ts:211-247 | Releases exactly a reserved, pending, unpaid booking, with its rewards and their counters, or nothing |
| ReferralRuntime.ReferralService.ReleaseStaleReferralReservationsForUser | src/modules/booking/booking-eligibility.service.ts:359-376 | The loop releases every stale reservation of the user and nothing else |
| ReferralRuntime.ReferralService.VerifyAndReserveReferralDiscount | src/modules/booking/booking-eligibility.service.ts:127-187 | Refused if and only if the discount has been used; otherwise the stale reservations are released |
| ReferralRuntime.ReferralService.CreateBooking | src/modules/booking/booking-creation.service.ts:443-534 | The referral side of the creation transaction, with the exact tables and the exact credits granted |
| ReferralRuntime.ReferralService.ConfirmFromPayment | src/modules/booking/booking-confirmation.service.ts:68-154 | Only a pending booking is confirmed, and then paid, column by column; its reserved discount is used up and nobody's committed credits change |
| ReferralRuntime.ReferralService.CancelExpiredReservation | src/modules/booking/booking-reservation.service.ts:21-108 | Cancelled if and only if pending, unpaid, expired, after ten minutes where the session has no end, and without a successful payment; its credits and reservation are freed, column by column |
| ReferralRuntime.ReferralService.CancelBooking | src/modules/booking/booking-cancellation.service.ts:32-143 | Which error or success, and the whole new state: CANCELLED, refund under way, both credit columns zero, no pending reward of the booking left, every other column, row and reward as before |
| ReferralRuntime.BalanceIsSpendable | src/modules/booking/booking-eligibility.service.ts:441-485 | The balance is the smaller of the cap and what is available, never negative, and spending all of it does not overspend |
| ReferralEffects.CancelWrites | src/modules/booking/booking-cancellation.service.ts:75-91 | The cancelled row column by column, exactly its pending rewards reversed, and everything else as before |
| ReferralEffects.ExpireWrites | src/modules/booking/booking-reservation.service.ts:66-108 | The expired row column by column, with its discount and pending reward when it had one reserved |
| ReferralEffects.ConfirmWrites | src/modules/booking/booking-confirmation.service.ts:100-143 | The confirmed row column by column, the discount applied and the flag of its user set exactly when it was reserved |
| ReferralEffects.ReleasesWrite | src/modules/booking/booking-eligibility.service.ts:211-247 | Released bookings lose their discount and referrer and nothing else; exactly their pending rewards are reversed |
| ReferralEffects.CreateWrites | src/modules/booking/booking-creation.service.ts:443-534 | The new booking and its reward column by column; other bookings change only where they are released |
| ReferralEffects.CountersWrite | src/modules/booking/booking-eligibility.service.ts:406-429 | What a new and a paid reward leave in the counters, with or without a row for the referrer |
| ReferralEffects.UserLockIff | src/modules/booking/booking-eligibility.service.ts:127-187 | A creation waits exactly while another creation or confirmation holds the row of its own user |
| ReferralEffects.FindStaleLists | src/modules/booking/booking-eligibility.service.ts:359-376 | The reservations listed for release are all pending, unpaid ones of the user |
| ReferralEffects.ReleaseOneWrites | src/modules/booking/booking-eligibility.service.ts:211-247 | Each listed reservation is taken up once, and released if it still is one |
| ReferralEffects.ClaimsDecide | src/modules/booking/booking-eligibility.service.ts:169-183 | The discount is granted if and only if no other booking of the user claims it |
| ReferralEffects.ReleaseRewardWrites | src/modules/referral/referral-processing.service.ts:150-216 | One reward released, its booking rewarded, and every other reward and column as before |
| ReferralEffects.CommitsIs | src/modules/booking/booking-eligibility.service.ts:441-485 | What counts as committed for each status and payment status |
| ReferralRuntime.ReversalsCompose | src/modules/booking/booking-eligibility.service.ts:373-375 | Releasing booking by booking comes to the same rewards and counters as releasing all at once |
| FlightAlert.LiveAlertsAreAccountedFor | src/modules/flightaware/flightaware-alert.service.ts:222-262 | Every live remote alert is the enabled row's, held by an unfinished claimant, or one whose deletion or creation report failed |
| FlightAlert.NothingLeftBehind | src/modules/flightaware/flightaware-alert.service.ts:244-262 | When all claimants have finished and no remote call went wrong, exactly the row's alert is left |
| FlightAlert.OneHolder | src/modules/flightaware/flightaware-alert.service.ts:199-211 | At most one unfinished claimant has its token on the row; every other has been superseded and can neither persist nor release |
| FlightAlert.WinnerStays | src/modules/flightaware/flightaware-alert.service.ts:225-243 | A row with an alert is never overwritten, however late a superseded claimant is |
| FlightAlert.AnswersAgree | src/modules/flightaware/flightaware-alert.service.ts:193-195 | Everybody who is given an alert is given the same live one |
| FlightAlert.LeaseIsRespected | src/modules/flightaware/flightaware-alert.service.ts:197-201 | A claim is stolen only two full minutes after it was made |
| FlightAlert.ClaimableWithinTwoMinutes | src/modules/flightaware/flightaware-alert.service.ts:197-211 | A flight without an alert can be claimed again within two minutes of any state |
| FlightAlertRuntime.FlightAlertService.ClaimFlight | src/modules/flightaware/flightaware-alert.service.ts:178-212 | The claim transaction: which answer, and the row afterwards |
| FlightAlertRuntime.FlightAlertService.Persist | src/modules/flightaware/flightaware-alert.service.ts:225-243 | The result is written if and only if the row has no alert and still carries the claimant's token |
| FlightAlertRuntime.FlightAlertService.ReleaseFlightAlertClaim | src/modules/flightaware/flightaware-alert.service.ts:265-280 | Only the claimant's own token is cleared |
| FlightAlertRuntime.FlightAlertService.GetOrCreateFlightAlert | src/modules/flightaware/flightaware-alert.service.ts:167-263 | Every outcome: no flight, the alert there is, provisioning under way, the new alert in the row, or a failure that leaves the row unclaimed and the created alert, if it could be deleted, gone; with the live alerts afterwards |
| FlightStatus.CancellationsAlternate | src/modules/flightaware/flightaware-webhook.service.ts:276-306 | For every sequence of deliveries from a flight under way: cancellations and reinstatements alternate, CANCELLED means exactly one cancellation more, and departures are at most one more than reinstatements |
| FlightStatus.ArrivedOrDivertedOnce | src/modules/flightaware/flightaware-webhook.service.ts:404-442 | Arrival and diversion are announced at most once in total, exactly when the flight has landed or diverted |
| FlightStatus.LandedIff | src/modules/flightaware/flightaware-webhook.service.ts:276-306 | Over any deliveries to a flight that has not landed: it is LANDED in the end if and only if some applied delivery was an arrival while it was under way |
| FlightStatus.EventsTakeEffect | src/modules/flightaware/flightaware-webhook.service.ts:276-442 | A new payload for a flight under way: arrival, on and in land it, diverted, cancelled and departure, out and off set their status, each with its notification, and no other event changes the status |
| FlightStatus.OnlyAChangeReinstates | src/modules/flightaware/flightaware-webhook.service.ts:285-287 | A cancelled flight comes back, with a notification, by a change that says it is not cancelled and by nothing else |
| FlightStatus.DetailsTakeEffect | src/modules/flightaware/flightaware-webhook.service.ts:444-466 | Gate and terminal become what a payload gives for them, and a change of either is announced by changes alone |
| FlightStatus.DelayIsMeasured | src/modules/flightaware/flightaware-webhook.service.ts:320-346 | Which two times a delay is measured between, in nearest whole minutes |
| FlightStatus.FinalStatusStays | src/modules/flightaware/flightaware-webhook.service.ts:281-283 | LANDED and DIVERTED are absorbing |
| FlightStatus.AppliedExactlyOnce | src/modules/flightaware/flightaware-webhook.service.ts:112-155 | A payload is applied at most once, and as soon as one of its deliveries succeeds |
| FlightStatus.RedeliveryChangesNothing | src/modules/flightaware/flightaware-webhook.service.ts:144-155 | Repeated and failed deliveries change nothing |
| FlightStatus.DelayIsAnnouncedIff | src/modules/flightaware/flightaware-webhook.service.ts:468-513 | When a delay or recovery is announced, with which minutes, and when the customer is told |
| FlightStatus.IdenticalCancellationIsLost | src/modules/flightaware/flightaware-webhook.service.ts:308-318 | A second cancellation with the payload of the first is taken for a redelivery, and the flight stays scheduled |
| FlightStatus.CancellationTakesEffectIff | src/modules/flightaware/flightaware-webhook.service.ts:144-155 | A cancellation of a flight under way takes effect if and only if its payload is new |
| FlightStatus.LastCancellationCountsIff | src/modules/flightaware/flightaware-webhook.service.ts:144-155 | After any deliveries and one more cancellation, the flight is cancelled if and only if it was before, or was under way and that payload had never arrived |
| FlightStatus.CreepingDelayIsSilent | src/modules/flightaware/flightaware-webhook.service.ts:475-481 | A delay that grows by nine minutes at a time reaches any size without one notification |
| FlightStatus.FlightAwareWebhookService.HandleWebhook | src/modules/flightaware/flightaware-webhook.service.ts:61-274 | Refusal, duplicate and application: what is written in each case, the status and the notification of each kind of event, and the notice of a schedule conflict included |
| CarApproval.ApprovalIsExact | src/modules/car/car-approval.service.ts:229-272 | In every committed state of every run a car is APPROVED if and only if nothing of it is pending or rejected, an image is approved and both required documents are |
| CarApproval.RejectedAssetBlocks | src/modules/car/car-approval.service.ts:157-190 | A car with a rejected or pending asset is not approved, whoever has just approved what |
| CarApproval.LastApprovalApproves | src/modules/car/car-approval.service.ts:128-155 | The approval that completes the review approves the car, even when the last two overlap |
| CarApproval.OutcomeIsExact | src/modules/car/car-approval.service.ts:230-271 | What a reviewer decides under the car lock is right for the assets it is about to commit |
| CarApproval.LocksArePerCar | src/modules/car/car-approval.service.ts:157-190 | A review waits exactly while another transaction of the same car holds its lock |
| CarApproval.FullyReviewedIff | src/modules/car/car-approval.service.ts:229-272 | A full review means every asset of the car approved, and at least an image and both required documents among them |
| CarApproval.FailedUploadUndoesTheCar | src/modules/car/car.service.ts:309-327 | A failed upload leaves everything as it was before the car |
| CarApprovalRuntime.CarApprovalService.ApproveCarIfFullyReviewed | src/modules/car/car-approval.service.ts:229-272 | Three counts and the distinct approved document types, taken row by row, promote exactly a car with nothing pending or rejected, an approved image and both documents approved |
| CarApprovalRuntime.CountsDecideReview | src/modules/car/car-approval.service.ts:253-262 | The counts being zero, zero and positive with both types present means a full review, and nothing else does |
| CarApprovalRuntime.CarApprovalService.ApproveCar | src/modules/car/car-approval.service.ts:97-126 | Missing car, blocked approval or success, and the cars afterwards |
| CarApprovalRuntime.CarApprovalService.ApproveAsset | src/modules/car/car-approval.service.ts:128-155 | The asset is approved in its own car only, and the car if that completes its review |
| CarApprovalRuntime.CarApprovalService.RejectAsset | src/modules/car/car-approval.service.ts:157-190 | The asset is rejected and its car falls back to pending |
| CarApprovalRuntime.CarApprovalService.ReplaceRejectedFile | src/modules/car/car.service.ts:418-513 | Only a rejected file is replaced; it goes back to review and the car to pending |
| CarApprovalRuntime.CarApprovalService.CreateCar | src/modules/car/car.service.ts:309-327 | A new car and its files, all of them pending |
| ChauffeurApproval.SaveIsExactIff | src/modules/documents/document-approval.service.ts:28-115 | A review leaves the chauffeur approved exactly when every document is if and only if it saves a rejection, an approval whose count would still come out the same, or for a chauffeur approved already |
| ChauffeurApproval.ExactAllAlongIff | src/modules/documents/document-approval.service.ts:28-115 | Over whole runs of any number of overlapping reviews: exact all along if and only if every save is of this kind |
| ChauffeurApproval.CarefulReviewIsExact | src/modules/documents/document-approval.service.ts:28-115 | So in every run of one review at a time, and in every run that saves nothing stale, a chauffeur is approved if and only if every document is |
| ChauffeurApproval.OverlappingApprovalsStrand | src/modules/documents/document-approval.service.ts:101-115 | A run in which the last two approvals overlap and leave the chauffeur unapproved with every document approved: this cascade takes no lock |
| ChauffeurApproval.LateApprovalOverwritesRejection | src/modules/documents/document-approval.service.ts:60-99 | A run in which an approval that counted before a rejection overwrites it: an approved chauffeur with a rejected document |
| BookingLegs.LegsAreOrderedAndDisjoint | src/modules/booking/booking-leg.service.ts:33-206 | Every booking that starts before it ends gets legs in order and without overlap, for every type |
| BookingLegs.DayLegsOrderedIff | src/modules/booking/booking.helper.ts:49-55 | Day legs are in order if and only if the effective end is not before the first day |
| BookingLegs.FullDayLegsTile | src/modules/booking/booking-leg.service.ts:136-166 | Full-day legs tile the time from the pickup, and their number is the least of at least one that covers the effective end |
| BookingLegs.CountMatchesLegsIff | src/modules/booking/booking.helper.ts:20-84 | The count of given dates is the number of legs generated from them if and only if, for full days, every number of days reaches the end from the start exactly when it does from the pickup |
| BookingLegs.NormalizedCountMatches | src/shared/booking-time-window.helper.ts:11-43 | For every window normalised as the callers of the generator normalise it, the count is the number of legs |
| BookingLegs.EstimateIsRightIff | src/modules/booking-agent/booking-agent-search.service.ts:207-222 | The assistant's estimate from bare dates is the number of legs the booking will have if and only if it is for nights or full days, or for a single day picked up no later than noon |
| BookingLegs.TwoDaysAreEstimatedAsOne | src/modules/booking-agent/booking-agent-search.service.ts:212-222 | Two days asked for are estimated as one leg and booked as two |
| BookingLegs.EffectiveEndNotBeforeStartIff | src/modules/booking/booking.helper.ts:86-114 | The effective end is not before the start if and only if the end is not, or is at midnight |
| BookingLegs.DayLegDatesAreTheDays | src/modules/booking/booking.helper.ts:49-55 | Day legs fall on exactly the days from the start to the effective end |
| BookingLegs.NightLegsAreNights | src/modules/booking/booking-leg.service.ts:94-123 | Each night leg lasts six hours and starts a day after the one before |
| BookingLegs.AirportLegFollowsTheFlight | src/modules/booking/booking-leg.service.ts:180-206 | An airport leg starts 2400000 ms after the arrival, or after the start date, and lasts six fifths of the drive, two hours when it is not known |
| BookingLegs.DayLegsStartAtPickup | src/modules/booking/booking-leg.service.ts:63-85 | A day leg starts at the pickup time of its own date and lasts 43200000 ms |
| BookingLegs.NightLegsStartAtEleven | src/modules/booking/booking-leg.service.ts:94-123 | A night leg starts at 23:00 of its own day and lasts 21600000 ms |
| BookingLegs.FullDayLegsStartAtPickup | src/modules/booking/booking-leg.service.ts:136-166 | Full-day legs start at the pickup time of the first day, one every 86400000 ms |
| BookingLegs.AlwaysALeg | src/modules/booking/booking.helper.ts:65-84 | No dates leave a booking without a leg |
| BookingLegs.PickupTimesAreUnique | src/modules/booking/booking-leg.service.ts:217-233 | The 12-hour clock names every time of day once |
| BookingLegs.EachDayOfInterval | src/modules/booking/booking.helper.ts:49-55 | The day loop lists the midnights of the interval, backwards for a reversed one |
| BookingLegs.GenerateNightLegs | src/modules/booking/booking-leg.service.ts:94-123 | The night loop builds the specified legs |
| BookingLegs.GenerateFullDayLegs | src/modules/booking/booking-leg.service.ts:136-166 | The full-day loop builds the specified legs |
| BookingLegs.GenerateLegs | src/modules/booking/booking-leg.service.ts:33-50 | The generator builds the specified legs for every type |
| BookingPricing.MoneyAddsUp | src/modules/booking/booking-calculation.service.ts:71-129 | Discounted subtotal, referral discount and credits add up to net, security, fuel and fee; payout and commission to net and security; a payable subtotal stays payable |
| BookingPricing.ReductionsAreCappedAndGreedy | src/modules/booking/booking-calculation.service.ts:344-371 | Credits and discount are at most what was asked and available, and all of it while the floor leaves room |
| BookingPricing.ChargesArePercentages | src/modules/booking/booking-calculation.service.ts:88-124 | Fee, commission and VAT are their percentages of net with fuel, of net, and of what is left to pay |
| BookingPricing.PercentIsOfAHundred | src/modules/booking/booking-calculation.service.ts:88-124 | A percentage is so many in every hundred |
| BookingPricing.EachLegAdds | src/modules/booking/booking-calculation.service.ts:74-84 | Each further leg adds its price, its base price and one security rate where asked for |
| BookingPricing.FuelIsChargedIff | src/modules/booking/booking-calculation.service.ts:321-339 | Fuel costs its rate if and only if the car comes without it, a full tank is asked for and there are one or two legs; it costs nothing otherwise |
| BookingPricing.LegPricesAre | src/modules/booking/booking-calculation.service.ts:223-275 | The rate is the base of every leg; a found promotion is kept with its price |
| BookingPricing.StoredTotalIsExplainedIff | src/modules/booking/booking-persistence.service.ts:178-220 | The stored total follows from the other stored figures if and only if the floor left room for the discount that is stored |
| BookingPricing.SharesSumBack | src/modules/booking/booking-persistence.service.ts:223-254 | The per-leg prices, shares, commissions and earnings sum back to the booking's totals |
| BookingPricing.CreatePricedBooking | src/modules/booking/booking-creation.service.ts:170-215 | A booking is stored exactly when the accepted price is within a hundredth of both calculations; then its total is the second one, its figures and those of its legs add up, and its credits are within the balance |
| BookingPricing.BaseCostStandsWithoutReductions | src/modules/booking/booking-creation.service.ts:170-197 | The calculation without reductions equals the full one whenever there are none, so it stands unrepeated |
| BookingPricing.GetBookingWindow | src/modules/booking/booking-calculation.service.ts:207-217 | The earliest start and the latest end of the legs |
| BookingPricing.FirstPromotion | src/modules/booking/booking-calculation.service.ts:277-287 | The promotion of the first leg that has one among those overlapping, if any has |
| BookingPreview.BuildSegments | src/modules/booking/booking-pricing-preview.service.ts:199-241 | The map loop builds one segment per price, with its promotion, and sorts them |
| BookingPreview.SegmentsNameTheirPromotion | src/modules/booking/booking-pricing-preview.service.ts:220-236 | A promotional segment, and no other, has a promotion and a label: those of the first leg in it |
| BookingPreview.SegmentsSumToNet | src/modules/booking/booking-pricing-preview.service.ts:199-235 | Segment units add up to the legs and segment totals to the net total |
| BookingPreview.TotalIsUnitsTimesPrice | src/modules/booking/booking-pricing-preview.service.ts:203-218 | A segment's total is its unit price repeated once per unit |
| BookingPreview.PreviewIsGroupedAndOrdered | src/modules/booking/booking-pricing-preview.service.ts:237-241 | One segment per key, promotions first, each kind in order of first appearance |
| BookingPreview.CoverageMeans | src/modules/booking/booking-pricing-preview.service.ts:181-197 | Full, partial and no coverage, each by which legs have a promotion |
| BookingPreview.SavingsAreExact | src/modules/booking/booking-pricing-preview.service.ts:132-153 | The comparison total is never below the charged one, so the saving shown is their exact difference |
| VehicleRanking.RankingIsTotalPreorder | src/modules/booking-agent/vehicle-search-alternative.ranker.ts:59-74 | The four-key comparison is a total preorder |
| VehicleRanking.AlternativesAreTopK | src/modules/booking-agent/vehicle-search-alternative.ranker.ts:46-76 | The result is sorted, has no id twice, is as long as it can be, and no candidate left out ranks better than one kept |
| VehicleRanking.ExactAndAlternativeAreDisjoint | src/modules/booking-agent/vehicle-search-alternative.ranker.ts:37-76 | An alternative is the first occurrence of its id, no exact match, and never among the exact matches |
| VehicleRanking.CandidatesAre | src/modules/booking-agent/vehicle-search-alternative.ranker.ts:50-58 | The candidates are exactly the deduplicated vehicles that do not match, each with its own score and reason |
| VehicleRanking.DedupeKeepsFirst | src/modules/booking-agent/vehicle-search-alternative.ranker.ts:122-131 | Exactly the first occurrence of each id is kept |
| VehicleRanking.DedupeKeepsIds | src/modules/booking-agent/vehicle-search-alternative.ranker.ts:122-131 | No id is kept twice and none is lost |
| VehicleRanking.DedupeById | src/modules/booking-agent/vehicle-search-alternative.ranker.ts:122-131 | The loop over a set of seen ids keeps what the specification keeps |
| VehicleRanking.RankAlternatives | src/modules/booking-agent/vehicle-search-alternative.ranker.ts:46-76 | Deduplicate, score, sort and cut as specified |
| VehicleRanking.MatchingMoreScoresMore | src/modules/booking-agent/vehicle-search-alternative.ranker.ts:133-148 | Matching more of what was asked never scores less, and scores the same only when the matches are the same |
| VehicleRanking.TextMatchesIff | src/modules/booking-agent/vehicle-search-alternative.ranker.ts:97-120 | Texts match when they normalise to the same, or when both have two characters or more and one is the other with something around it |
| VehicleRanking.ExactIffAllPoints | src/modules/booking-agent/vehicle-search-alternative.ranker.ts:78-95 | A vehicle matches exactly if and only if it scores all the points of what was asked for |
| VehicleRanking.PointsOfOneCriterion | src/modules/booking-agent/vehicle-search-alternative.ranker.ts:133-148 | Forty, twenty-five, twenty, fifteen and ten points for model, make, colour, type and tier |
| VehicleRanking.PriceAlignmentScores | src/modules/booking-agent/vehicle-search-alternative.ranker.ts:214-220 | Eight points for a price from 85 to 115 per cent of a positive reference |
| VehicleRanking.ReasonIs | src/modules/booking-agent/vehicle-search-alternative.ranker.ts:150-169 | Each reason is given exactly under its own condition |
| VehicleRanking.TargetIsMeanOfClosestGroup | src/modules/booking-agent/vehicle-search-alternative.ranker.ts:181-207 | The reference rate is within one half of the mean of the same model, else of the same class, else of all; there is none exactly without vehicles |
| VehicleRanking.KeysDecideInOrder | src/modules/booking-agent/vehicle-search-alternative.ranker.ts:59-74 | Each key decides among those that the keys before it leave equal |
| VehicleRanking.ExactMatchesAreSelected | src/modules/booking-agent/vehicle-search-alternative.ranker.ts:37-44 | Exact matches are selected while there is room, and nothing else is |
| VehicleRanking.MeanIsNearest | src/modules/booking-agent/vehicle-search-alternative.ranker.ts:209-212 | The reference rate is the whole number nearest to the mean, halves up |

## Left out

- Payment provider, flight data, maps, messaging and model calls, and the queue's internals: success and failure are inputs.
- `cleanupFlightAlert`: its final write is unfenced and it is no part of the lease protocol.
- Extension confirmation: it advances an end date without a lock and rests on the exclusion constraint alone.
- Deadlock freedom: lock orders differ between flows; only safety is claimed, and aborts are always possible.
- A bound on domain-outbox attempts: reclaims of rows in flight can pass eight, so only FAILED rows are bounded.
- Fairness of the candidate queries when more rows are due than one batch takes.
- Undisturbed methods: a class method carries out its own statements without a break and, in the outboxes, without time passing, so a branch that only another process can cause between two of them, such as the row that vanishes between insert and read, appears in the machine and not in the method.
- BookingCalendar.NoDoubleBooking: locks on single booking rows, and the dates of the legs that move with a booking, are left out; leaving the locks out only allows more interleavings.
- ReferralTheorems.CreditsAreNeverOverspent: is stated for runs in which no refunded booking is marked unpaid later, because it is false in the others; `MarkUnpaidIsSafeIff` gives the exact condition.
- ReferralTheorems.CountersAreConserved: counters change in one step with their rewards; the two statements of the code, and exactly when they do as much, are in `ReferralCounterRaces` and `ReferralCounterTheorems`.
- Parallelism inside a pass of the notification outbox: the machine has up to five rows of a tick in flight, the method `ProcessPendingEvents` takes them one after the other.
- The hourly activation in the referral ledger: only its guarded form, since the unguarded one concerns the calendar.
- Amounts of bookings in the referral ledger: a reservation that is released keeps its discounted total, and whether the customer then pays it is not modelled.
- FlightAlert.LiveAlertsAreAccountedFor: claimants do not crash; a crash between the remote call and the write leaves an alert nobody knows of.
- FlightStatus.FlightAwareWebhookService.HandleWebhook: the outbox row is represented by its notifications; the calendar side of the same transaction is in `BookingCalendarRuntime`, and whether it found conflicts is an input here.
- BookingLegs.LegsAreOrderedAndDisjoint: the drive time is exact arithmetic, while the code multiplies in floating point and may lose a millisecond; pickup times are taken as parsed.
- BookingPricing.MoneyAddsUp: decimal rounding is left out.
- RequestHash.SameHashIffSameMeaning: the order in which JavaScript lists integer-like keys is left out; it depends on the keys alone.
- VehicleRanking.AlternativesAreTopK: trimming, lower-casing and the collation of names are parameters.
- Promotion search, rates, reward configuration and expiry dates of discounts: taken as inputs, with non-negative rates and discounted prices no higher than the base price.
- Time zones: dates and times of day are in UTC throughout.
- Controllers, guards, schemas, throttling, templates, dashboards, authentication, configuration and logging.
