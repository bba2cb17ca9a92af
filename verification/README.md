# Online Parking: verified models

This project models the stateful core of the Online Parking services in Dafny and proves what their protocols keep. It
covers the life of a booking and the spot that goes with it (booking-service and parking-service), the payment protocol
(payment-service), the event pipeline and the subscriber hub (notification-service), the two caches (booking-service and
user-service), and the rotation of refresh tokens (auth-service).

`dafny verify dfyconfig.toml` checks the whole project.

## How the models are built

* **Machines.** Each protocol is a total step function over a state, folded over an arbitrary list of events. A step that
  is not enabled does nothing, so the theorems hold for every list. Whatever the program cannot decide (replies, lost
  replies, clocks, random draws, generated ids, cache expiry) is part of the event. A remote call has three outcomes:
  answered, no effect, or an effect whose reply was lost.
* **Serial and interleaved.** `BookingRuns` takes whole service operations as steps. `BookingInterleaving`,
  `PaymentProtocol` and `RefreshRaces` cut them at every SQL statement, Redis command and HTTP call, for any number of
  calls at once. `UninterruptedIsSerial` of each service proves that a call left alone is the serial operation.
* **Objects.** The repositories and services that update state in place are classes. Each method's contract equates its
  new state and its result with the specification function that the theorems are about.
* **Answers.** What an operation stores and answers is stated a second time without its specification function: the fields
  of the row, the literal numbers and texts, and the condition of each error.
* **Exactness.** Where a promise of the code fails, an if-and-only-if says when it does, and a run from the empty state
  shows that it happens.

| file | what it holds |
|---|---|
| `Basics`, `GoText`, `WordsOfText`, `Intervals` | shared vocabulary, white space and words as Go treats them, half-open time ranges |
| `BookingAnswers`, `SpotAnswers`, `PaymentAnswers`, `TokenAnswers`, `UserWrites`, `EventOutcomes` | what each operation stores, field by field, and answers, case by case |
| `BookingDomain`, `BookingStore`, `BookingQuery`, `BookingRepository` | bookings, their table with its constraints and cache, `List` |
| `ParkingSpots`, `SpotCapacity` | spots, reservation, and how far concurrent `CreateSpot` calls overrun a lot |
| `BookingFlow`, `BookingService` | the five operations of the booking service, as functions and as methods |
| `BookingRuns`, `BookingMatching`, `BookingRelease`, `BookingHistory` | what serial runs keep, and what becomes of a spot |
| `BookingInterleaving`, `BookingRaces` | what every schedule keeps, and exactly when one breaks what serial runs keep |
| `BookingScenarios`, `PaymentScenarios`, `RefreshScenarios` | runs from the empty state in which the exceptions happen |
| `Pricing`, `PaymentStore`, `PaymentProtocol`, `PaymentService` | rounding to hours, payment rows, the protocol as a machine and as methods |
| `PaymentRows`, `PaymentLocks` | what every run keeps in the payments table, and what the lock adds |
| `EventKeys`, `EventPipeline`, `EventDelivery` | de-duplication keys, the job queue and its workers, how often an event is handled |
| `NotificationHub`, `HubBroadcasts` | the hub with one broadcast at a time, and with many |
| `UserStore`, `UserReads`, `UserRepository` | one record under two cache keys |
| `RefreshTokens`, `RefreshRaces`, `AuthService` | token rotation, serially and in every interleaving |

## What the proofs found

* Completing a started booking does not free its spot: `ReleaseSpot` accepts only RESERVED, `StartBooking` has set
  OCCUPIED, and no operation of the booking service leaves OCCUPIED again (`BookingMatching.OccupiedForever`). The spot
  becomes AVAILABLE if and only if the call that should have set it OCCUPIED never took effect and the release does
  (`BookingRelease.CompletionFreesExactly`). The number of bookings ever started is bounded by the number of spots
  (`BookingMatching.SpotsMatchBookings`).
* The parking client reports a refused reservation by its HTTP status alone, so none of the texts that
  `normalizeParkingError` looks for occurs, and a creation that cannot reserve its spot answers `ErrInvalidInput`, always
  (`BookingRuns.RefusedReservationExactly`). On serial runs that keep the cache right no creation answers
  `ErrBookingConflict` at all (`BookingRuns.NoCreationConflicts`); a race can (`BookingInterleaving.RaceForOneSpot`).
* A confirmation or a cancellation that answers an error has taken effect all the same if and only if publishing its event
  failed (`BookingAnswers.ChangeAnswersExactly`).
* `UpdateStatus` is unconditional. A confirmation that read the booking before its cancellation revives it
  (`BookingInterleaving.CancelledBookingRevived`), and so does a serial confirmation when both cache commands of the
  cancellation were lost (`BookingHistory.StaleCacheRevivesBooking`). Interleaved calls keep the order of the statuses
  if and only if no update writes a status that the row, as the update finds it, may not take
  (`BookingRaces.LifecycleExactly`, and `BookingRaces.RevivedExactly` for one step). The schedules include serial runs
  with lost cache commands. Non-overlap survives all of this.
* Two creations that both saw a spot AVAILABLE both book it for different times, or the loser's compensation makes the
  winner's spot AVAILABLE (`BookingInterleaving.RaceForOneSpot`). A live booking gets exposed on an AVAILABLE spot if and
  only if its spot is released under it or it comes to life on such a spot (`BookingRaces.ExposedExactly`); a spot gets a
  second live booking if and only if one is inserted or revived there (`BookingRaces.SharedExactly`).
* A cancelled payment can still become paid by its own creator (`PaymentRows.CancelledMayStillBePaid`). A CreatePayment
  that answers an error has paid the booking if and only if it got as far as marking the payment paid and failed after
  that (`PaymentService.PaidDespiteErrorExactly`), and it is never retried (`PaymentService.PaidBookingIsNeverRetried`).
  When a lock expires under its holder, or without a cache, a booking can be paid twice
  (`PaymentService.ExpiredLockPaysTwice`, `PaymentService.NoLockPaysTwice`): exactly when `MarkAsPaid`, which has no such
  guard, reaches the row of a booking that already has a paid payment (`PaymentRows.TwicePaidExactly`). That a paid row
  is never written again, and that provider id and time of payment are set exactly on paid rows, needs no lock.
* When the reply of a SET NX is lost, the key is set and the event is given up: it is not handled until the key expires and
  the event comes again (`EventOutcomes.HandledExactly`).
* The de-duplication key drops white space at the end of a payload only, because the subject stands in front of it
  (`EventKeys.KeysAgreeExactly`).
* `GetBatch` does not filter deleted users and caches what it finds, after which `GetByID` returns a deleted user
  (`UserReads.DeletedUserReturns`). The same happens through `CreateWithID` over a deleted user and when a deletion loses
  the command that drops the key, and in no other way (`UserReads.DeletedFoundExactly`).
* Refreshes of one token that are on their way at the same time each leave a valid token
  (`RefreshRaces.RacersAllLand`). When revocations take effect a login owns at most one token more than there were
  such overlaps (`RefreshRaces.LiveBoundedByOverlaps`), and that many are reached (`RefreshScenarios.OverlapsAreReached`).
  A refresh on its way when all sessions are revoked can still bring one back (`RefreshRaces.RevokeAllIsFinalExactly`).
* Broadcasts at the same time can reach two subscribers of one user in different orders (`HubBroadcasts.OrdersDiffer`);
  each subscriber is still offered all of them once (`HubBroadcasts.EachBroadcastReachesOnce`).

## Model

| member | source | states |
|---|---|---|
| BookingDomain.TransitionsClimb | services/booking-service/internal/domain/booking.go:73-84 | every allowed transition raises the rank of the status, and exactly the completed and cancelled statuses allow none |
| BookingDomain.NormalizePlateIdempotent | services/booking-service/internal/domain/booking.go:124-126 | normalising a vehicle plate twice is normalising it once |
| WordsOfText.NormalizedText | services/booking-service/internal/domain/booking.go:124-126 | a normalised plate has exactly the words of the given text, with a to z turned into A to Z, and single blanks between them |
| WordsOfText.SpacesAre | services/booking-service/internal/domain/booking.go:124-126 | the code points that count as white space for trimming and splitting |
| BookingDomain.ValidateIsStable | services/booking-service/internal/domain/booking.go:86-103 | an accepted input has a non-empty time range and a lot, and is accepted again unchanged |
| Intervals.SqlOverlapIsRangeOverlap | services/booking-service/internal/repository/booking_repository.go:38-46 | for non-empty ranges the SQL test holds exactly when the half-open ranges share an instant |
| Intervals.EmptyRangeSplitsTheTests | services/booking-service/internal/repository/booking_repository.go:44 | an empty range overlaps nothing for the constraint, while the SQL test holds for it exactly strictly inside the other range |
| Intervals.DisjointRangesFit | services/booking-service/migrations/0001_init.sql:34-40 | pairwise disjoint ranges inside a window have a total length of at most the window, for any number of ranges |
| BookingStore.InsertKeepsSound | services/booking-service/migrations/0001_init.sql:34-40 | a row that the constraints admit leaves the table free of overlapping live bookings on one spot |
| BookingStore.UpdateKeepsSound | services/booking-service/internal/repository/booking_repository.go:173-199 | a status update admitted by the constraints does so as well, whatever the old and new statuses are |
| BookingStore.ConflictQueryForeseesConstraint | services/booking-service/internal/repository/booking_repository.go:37-52 | with nothing in between, the conflict query finds nothing exactly when the exclusion constraint admits the new row |
| BookingStore.ReplayIsCoherent | services/booking-service/internal/repository/booking_repository.go:173-241 | after every serial history in which each update got a cache delete or a cache set through, every cached booking equals its row |
| BookingStore.ReadsEqualDatabase | services/booking-service/internal/repository/booking_repository.go:84-111 | after such a history, with any expiry, a read answers what the table holds or reports a database error |
| BookingStore.UpdateStaysCoherentExactly | services/booking-service/internal/repository/booking_repository.go:173-241 | an update that changes the status keeps the cache right if and only if a cache command got through or nothing was cached |
| BookingStore.SpotNeverOversold | services/booking-service/migrations/0001_init.sql:34-40 | the live bookings of one spot inside a window have a total length of at most the window |
| BookingQuery.ConditionNarrows | services/booking-service/internal/repository/booking_repository.go:114-137 | appending an argument and a condition that names it by number narrows the selected rows by exactly that condition |
| BookingQuery.BuiltInFull | services/booking-service/internal/repository/booking_repository.go:114-137 | the built WHERE clause with its numbered arguments selects a booking if and only if every set field of the filter agrees |
| BookingQuery.SelectionIsExact | services/booking-service/internal/repository/booking_repository.go:136-171 | the delivered bookings are exactly the matching ones of the table order |
| BookingQuery.SelectionOfTable | services/booking-service/internal/repository/booking_repository.go:136-171 | over a whole table the selection holds each matching row exactly once and nothing else, the latest start first |
| BookingQuery.SelectionKeepsOrder | services/booking-service/internal/repository/booking_repository.go:148-155 | the selection keeps the order of start time and creation time |
| BookingQuery.PagesArePrefix | services/booking-service/internal/repository/booking_repository.go:147-155 | the first n pages put together are the first n times page size bookings |
| BookingQuery.PagesCoverSelection | services/booking-service/internal/repository/booking_repository.go:147-155 | all pages put together are the whole filtered list, without gap or repetition, and one page fewer is not |
| BookingQuery.NormalizeGivesUsablePages | services/booking-service/internal/domain/booking.go:105-122 | a normalised filter has a page of at least 1 and a page size from 1 to 100, and is its own normal form |
| BookingQuery.NormalizeExactly | services/booking-service/internal/domain/booking.go:105-122 | a filter is refused exactly for a status that there is not; a page below 1 becomes 1, a page size below 1 becomes 20 and one above 100 becomes 100, the user is trimmed and the rest stays |
| BookingQuery.StatusTextsExactly | services/booking-service/internal/domain/booking.go:11-17 | the texts of the five statuses, which are the ones a filter may name |
| BookingRepository.Repository.Create | services/booking-service/internal/repository/booking_repository.go:30-82 | the conflict query, the insert and the cache set, tied to the specification in state and result |
| BookingRepository.Repository.GetByID | services/booking-service/internal/repository/booking_repository.go:84-111 | the cached record or the row, which is then cached |
| BookingRepository.Repository.UpdateStatus | services/booking-service/internal/repository/booking_repository.go:173-199 | the unconditional update, then cache delete and cache set, each of which may get lost |
| BookingRepository.Repository.List | services/booking-service/internal/repository/booking_repository.go:113-171 | the number of matching bookings and exactly the asked-for page of them, or the error when the count or the page query fails |
| BookingRepository.Repository.BuildWhere | services/booking-service/internal/repository/booking_repository.go:114-137 | conditions and arguments as the filter demands, each placeholder the number of its own argument |
| ParkingSpots.SpotUsecase.CreateSpot | services/parking-service/internal/usecase/spot_usecase.go:28-60 | all error cases in order, and one new AVAILABLE spot under a new id |
| ParkingSpots.SpotUsecase.ReserveSpot | services/parking-service/internal/usecase/spot_usecase.go:78-87 | only an AVAILABLE spot becomes RESERVED, with an error in every other case |
| ParkingSpots.SpotUsecase.ReleaseSpot | services/parking-service/internal/usecase/spot_usecase.go:89-98 | only a RESERVED spot becomes AVAILABLE, with an error in every other case |
| SpotAnswers.CheckAnswersExactly | services/parking-service/internal/usecase/spot_usecase.go:28-51 | when exactly each error of CreateSpot is the answer, and that the number is stored without surrounding white space |
| SpotAnswers.InsertStoresExactly | services/parking-service/internal/usecase/spot_usecase.go:52-60 | a new spot is AVAILABLE, under the next id, with the given lot and number; other spots stay |
| SpotAnswers.ReserveExactly | services/parking-service/internal/usecase/spot_usecase.go:78-87 | when exactly a reservation succeeds and when each error is the answer; only the status of that spot changes |
| SpotAnswers.ReleaseExactly | services/parking-service/internal/usecase/spot_usecase.go:89-98 | the same for a release |
| SpotAnswers.UpdateStatusExactly | services/parking-service/internal/usecase/spot_usecase.go:100-102 | setting a status asks for nothing and changes nothing but the status of that spot |
| SpotCapacity.OverrunBound | services/parking-service/internal/usecase/spot_usecase.go:43-58 | in every interleaving, deletes included, with at most k CreateSpot calls in flight a lot holds at most TotalSpots + k - 1 spots |
| SpotCapacity.OverrunIsReached | services/parking-service/internal/usecase/spot_usecase.go:43-58 | for every lot and every k some schedule reaches that bound |
| SpotAnswers.CapacityStepsExactly | services/parking-service/internal/usecase/spot_usecase.go:43-60 | a check lets a call on exactly when it succeeds and writes nothing, an insert stores the lot and number of its call, and a delete takes away one spot |
| BookingService.Service.CreateBooking | services/booking-service/internal/service/booking_service.go:58-112 | validation, lookups, choice of the spot, reservation, insert and compensation: both stores and the result as specified |
| BookingService.Service.PickRandomAvailableSpot | services/booking-service/internal/service/booking_service.go:266-289 | the drawn one of the AVAILABLE spots of the lot in id order, or that there is none |
| BookingService.Service.ConfirmBooking | services/booking-service/internal/service/booking_service.go:139-161 | the guarded change to confirmed and the outcome of publishing |
| BookingService.Service.CancelBooking | services/booking-service/internal/service/booking_service.go:163-194 | the guarded change to cancelled with its reason, and the release of the spot whose outcome is ignored |
| BookingService.Service.StartBooking | services/booking-service/internal/service/booking_service.go:196-220 | the check of status and clock, the change to active, and the spot set OCCUPIED |
| BookingService.Service.CompleteBooking | services/booking-service/internal/service/booking_service.go:222-233 | the guarded change to completed and the attempt to release the spot |
| BookingAnswers.CreationStoresRequest | services/booking-service/internal/repository/booking_repository.go:54-82 | a creation that succeeds answers the stored row, field by field: the user without surrounding white space, the words of the plate in upper case, lot and times as asked for, the named spot or an AVAILABLE one, pending, no reason, no time of cancellation, both times those of the insert; no other row changes, and the spot turns from AVAILABLE to RESERVED |
| BookingAnswers.CreationAnswersExactly | services/booking-service/internal/service/booking_service.go:58-112 | on serial runs that keep the cache right, when exactly a creation succeeds and when exactly each of its errors is the answer |
| BookingAnswers.StatusChangeKeepsRest | services/booking-service/internal/repository/booking_repository.go:180-185 | with a right cache a status operation that takes effect sets status, reason, time of cancellation and time of change of its own row as asked for and nothing else; one that does not, and every other row, stays |
| BookingAnswers.ChangeAnswersExactly | services/booking-service/internal/service/booking_service.go:139-251 | on serial runs that keep the cache right, when exactly a status operation succeeds, with the stored row as its answer, and when exactly each error is the answer; an error after taking effect comes exactly from a failed publication |
| BookingAnswers.ReadFillsExactly | services/booking-service/internal/repository/booking_repository.go:84-111 | a read writes nothing but its own missing cache entry, which becomes the row |
| BookingAnswers.EveryUpdateKeepsRest | services/booking-service/internal/repository/booking_repository.go:180-185 | in every schedule a statement leaves a row as it is or is the update of one status operation on it, which sets those four fields and keeps all others |
| BookingAnswers.EveryInsertStoresInput | services/booking-service/internal/repository/booking_repository.go:54-69 | in every schedule a new row holds, field by field, what the creation that inserts it carries |
| BookingAnswers.BeginCarriesRequest | services/booking-service/internal/service/booking_service.go:58-91 | in every schedule a creation carries, field by field, the request it began with, cleaned, and the chosen spot |
| BookingAnswers.EnvironmentExactly | services/booking-service/internal/repository/booking_repository.go:219-241 | an expiry takes one cached booking away and an added spot is AVAILABLE; nothing else changes |
| BookingAnswers.ParkingTextsExactly | services/booking-service/internal/service/booking_service.go:307-328 | which text of the parking client would stand for which error |
| BookingRuns.ChangeShape | services/booking-service/internal/service/booking_service.go:235-251 | with a right cache each of the four status operations is one guarded update of the stored row and one call for its spot, or changes nothing but the cache |
| BookingRuns.CommitKeepsConsistent | services/booking-service/internal/service/booking_service.go:92-109 | reserving, inserting and compensating keep both stores consistent, and the insert of a serial run never reports a conflict |
| BookingRuns.RefusedReservationExactly | services/booking-service/internal/service/booking_service.go:92-109 | a creation that has chosen its spot answers invalid input if and only if its reservation was not answered or met a spot that is not AVAILABLE, and a booking conflict if and only if it reserved an AVAILABLE spot and the conflict query then found one |
| BookingRuns.RunIsConsistent | services/booking-service/internal/service/booking_service.go:58-251 | every serial run keeps the table sound, the cache right, and each live booking alone on a spot that is RESERVED or OCCUPIED |
| BookingRuns.OneLiveBookingPerSpot | services/booking-service/internal/service/booking_service.go:92-101 | on serial runs, whatever calls to the parking service get lost, a spot has at most one live booking and is never AVAILABLE while it has one |
| BookingRuns.NoCreationConflicts | services/booking-service/internal/service/booking_service.go:58-112 | on serial runs that keep the cache right no creation answers with a booking conflict, whatever is asked for and whatever the replies are |
| BookingMatching.SpotsMatchBookings | services/booking-service/internal/service/booking_service.go:174-230 | with the parking service answering, RESERVED spots correspond one to one to pending and confirmed bookings, OCCUPIED spots one to one to bookings ever started |
| BookingMatching.OccupiedForever | services/parking-service/internal/usecase/spot_usecase.go:89-98 | no operation of the booking service takes a spot out of OCCUPIED, whatever the replies are |
| BookingRelease.OccupiedExactly | services/booking-service/internal/service/booking_service.go:209-217 | after any serial run that keeps the cache right the spot of a live booking is OCCUPIED if and only if the call of its own start to occupy it took effect, and RESERVED otherwise |
| BookingRelease.CompletionFreesExactly | services/booking-service/internal/service/booking_service.go:222-233 | after any serial run that keeps the cache right a completion that succeeds makes its spot AVAILABLE if and only if that call never took effect and the release does; otherwise no spot changes |
| BookingMatching.QuickBookingExactly | services/booking-service/internal/service/booking_service.go:71-104 | without a spot id, creation fails for want of spots if and only if the lot has no AVAILABLE spot; otherwise it books the drawn one, for every draw |
| BookingMatching.EveryAvailableSpotCanBeDrawn | services/booking-service/internal/service/booking_service.go:266-289 | every AVAILABLE spot of the lot is chosen by some random number |
| BookingMatching.NamedBookingExactly | services/booking-service/internal/service/booking_service.go:71-104 | creation with a spot id succeeds if and only if that spot belongs to the lot and is AVAILABLE |
| BookingHistory.RowsMoveForward | services/booking-service/internal/service/booking_service.go:196-251 | one serial operation adds one pending row or moves one row along the transition table, and starts a booking only at or after its start time |
| BookingHistory.HistoryIsPath | services/booking-service/internal/domain/booking.go:73-84 | the statuses of each booking form a path of the transition table from pending with at most three changes; time and reason of cancellation are set exactly while it is cancelled |
| BookingHistory.FinalRowsAreFrozen | services/booking-service/internal/repository/booking_repository.go:173-199 | on a serial run that keeps the cache right, no later operation changes a completed or cancelled row |
| BookingHistory.StaleCacheRevivesBooking | services/booking-service/internal/repository/booking_repository.go:173-241 | when both cache commands of a cancellation get lost, a later confirmation revives the booking next to another live one on its spot |
| BookingInterleaving.EveryScheduleKeepsTable | services/booking-service/internal/repository/booking_repository.go:37-52 | in every interleaving of statements the table stays free of overlaps and its cancellation marks stay right |
| BookingInterleaving.NoDoubleBooking | services/booking-service/migrations/0001_init.sql:34-40 | in every interleaving two live bookings of one spot share no instant, and the live bookings of any spot fit into any window that holds them |
| BookingInterleaving.UninterruptedIsSerial | services/booking-service/internal/service/booking_service.go:58-251 | a call that nothing interrupts leaves the stores and the result of the serial operation |
| BookingInterleaving.CancelledBookingRevived | services/booking-service/internal/repository/booking_repository.go:180-185 | a confirmation that read before a whole cancellation and updates after it revives the booking; both calls succeed and the spot stays AVAILABLE |
| BookingInterleaving.RaceForOneSpot | services/parking-service/internal/usecase/spot_usecase.go:78-87 | of two creations that saw the same spot AVAILABLE, both are booked if their times do not meet; otherwise one meets the conflict and its compensation frees the winner's spot |
| BookingRaces.StatusChangesExactly | services/booking-service/internal/repository/booking_repository.go:173-199 | in an interleaving a row takes another status in one step if and only if the step is an admitted update of a call that read and checked the booking before |
| BookingRaces.RevivedExactly | services/booking-service/internal/repository/booking_repository.go:180-185 | a completed or cancelled booking is live after the next step if and only if that step is the update of a confirmation or a start of it that gets through and that the constraints admit |
| BookingRaces.LifecycleExactly | services/booking-service/internal/repository/booking_repository.go:173-199 | under any schedule the statuses of a booking form a path of the transition table if and only if no update ever writes a status that the row as it finds it may not take |
| BookingRaces.LiveExactly | services/booking-service/internal/repository/booking_repository.go:48-66 | a booking comes to life in a step if and only if the step inserts or revives it, and a live one stays live if and only if the step does not complete or cancel it |
| BookingRaces.ExposedExactly | services/parking-service/internal/usecase/spot_usecase.go:89-98 | under any schedule a live booking is on an AVAILABLE spot after the next step, and was not before, if and only if that step releases its spot or brings the booking to life on an AVAILABLE one |
| BookingRaces.SharedExactly | services/booking-service/internal/repository/booking_repository.go:54-66 | two bookings become live on one spot in a step if and only if the step inserts or revives one of them on the spot of the other live one |
| BookingScenarios.StaleCacheInARun | services/booking-service/internal/repository/booking_repository.go:173-241 | some serial run from an empty table, with one pair of cache commands lost and nothing else, gives one spot two live bookings |
| BookingScenarios.RevivalInARun | services/booking-service/internal/repository/booking_repository.go:180-185 | a schedule from an empty table, with every reply arriving, passes through a cancelled booking and ends with it confirmed on an AVAILABLE spot |
| BookingScenarios.RaceInARun | services/parking-service/internal/usecase/spot_usecase.go:78-98 | both ends of the race for one spot are reached from an empty table |
| BookingScenarios.ChangedDespiteErrorInARun | services/booking-service/internal/service/booking_service.go:139-161 | after a run from an empty table a confirmation answers an error and has confirmed the booking |
| Pricing.BilledHours | services/payment-service/internal/service/payment_service.go:110-117 | the exact quotient of the stay by an hour, rounded up, or an error for an empty stay |
| Pricing.CeilIsStartedHours | services/payment-service/internal/service/payment_service.go:115-117 | the rounded-up quotient of reals is the number of started hours of whole numbers |
| Pricing.ChargeCoversStay | services/parking-service/internal/usecase/tariff_usecase.go:77-92 | the charge is at least the exact price of the stay and less than one hour's price above it |
| Pricing.ChargeIsMonotone | services/parking-service/internal/usecase/tariff_usecase.go:77-92 | a longer stay never costs less |
| Pricing.PriceExactly | services/parking-service/internal/usecase/tariff_usecase.go:77-92 | the price for whole started hours is the charge, and when exactly each refusal is the answer |
| Pricing.SplitInTwoExactly | services/payment-service/internal/service/payment_service.go:110-119 | two parts cost as much as the whole if and only if one ends on the hour or the remainders exceed an hour |
| Pricing.SplittingCosts | services/payment-service/internal/service/payment_service.go:110-119 | n positive pieces cost at least the whole and at most n - 1 hours' price more |
| PaymentStore.Repository.MarkPaid | services/payment-service/internal/repository/payment_repository.go:175-212 | the row becomes paid with provider id and time, whatever its status was |
| PaymentStore.Repository.Cancel | services/payment-service/internal/repository/payment_repository.go:252-288 | only a pending row becomes cancelled, with an error in every other case |
| PaymentLocks.MutualExclusion | services/payment-service/internal/service/payment_service.go:79-91 | in every run in which no lock expires under its holder, at most one call at a time is between taking and giving back the lock of a booking |
| PaymentLocks.AtMostOnePaidPayment | services/payment-service/internal/service/payment_service.go:74-165 | in every interleaving of creations and cancellations, with any step failing, a booking has at most one paid payment as long as no lock expires under its holder |
| PaymentRows.PaidForever | services/payment-service/internal/repository/payment_repository.go:252-288 | in every run, with or without a lock and whatever locks expire, no later step writes a paid row again |
| PaymentRows.CancelledMayStillBePaid | services/payment-service/internal/repository/payment_repository.go:175-212 | in every run, with or without a lock, a cancelled payment becomes paid in some next step if and only if its creator still stands before the update that marks it paid and that update can reach the database |
| PaymentRows.MarksExactlyPaid | services/payment-service/internal/repository/payment_repository.go:175-212 | in every run, with or without a lock, provider id and time of payment are set exactly on the paid rows |
| PaymentRows.DoublePayExactly | services/payment-service/internal/repository/payment_repository.go:175-212 | one step gives a booking its second paid payment if and only if it is an update marking a row paid that gets through while the booking of that row already has a paid payment |
| PaymentRows.TwicePaidExactly | services/payment-service/internal/repository/payment_repository.go:175-212 | in a run, with or without a lock, some booking is paid twice if and only if such an update happens at some point of it |
| PaymentRows.PaidBookingAdmitsNoNewcomer | services/payment-service/internal/service/payment_service.go:101-108 | in every run, only calls that were past their check when a booking became paid can be past it later |
| PaymentService.Service.CreatePayment | services/payment-service/internal/service/payment_service.go:74-165 | the refusal of a missing booking and of a missing or unknown payment method, then lock, steps inside, unlock on every exit: table, locks and result as specified |
| PaymentService.Service.CancelPayment | services/payment-service/internal/service/payment_service.go:185-200 | a pending payment cancelled, and each error with its name: empty id, failed read, no such payment, not pending, a cancellation that did not get through, and one whose reply was lost |
| PaymentService.UninterruptedIsSerial | services/payment-service/internal/service/payment_service.go:74-165 | nine steps of a call left alone give the table, locks and result of the method |
| PaymentService.UninterruptedCancelIsSerial | services/payment-service/internal/service/payment_service.go:185-200 | a cancellation of the protocol left alone gives the table and result of the method |
| PaymentService.CreateSucceedsExactly | services/payment-service/internal/service/payment_service.go:93-164 | creation succeeds if and only if the listed replies are all good; it then adds one paid row whose amount covers the stay |
| PaymentAnswers.CreationPaysTheStay | services/payment-service/internal/service/payment_service.go:110-164 | a creation that succeeds answers the stored row, field by field: the tariff times the least whole number of hours of 3600 seconds that covers the stay, user, lot and spot of the booking, method and booking of the request, "local-" with the drawn id, paid at the time of the update |
| PaymentAnswers.RefusedCases | services/payment-service/internal/service/payment_service.go:93-127 | which check that fails gives which error, in their order, with nothing written |
| PaymentAnswers.PayableCases | services/payment-service/internal/service/payment_service.go:129-164 | once the checks have passed, which row is in the table, pending or paid, and which answer is given, for every combination of replies |
| PaymentAnswers.LockCases | services/payment-service/internal/service/payment_service.go:74-91 | the refusals before the checks, and what becomes of the lock: a call that got it gives it back unless that command is lost, and other locks stay |
| PaymentAnswers.CancelCases | services/payment-service/internal/service/payment_service.go:185-200 | when exactly a cancellation succeeds and when each error is the answer; only status and time of change of that payment change |
| PaymentAnswers.EveryStepKeepsRest | services/payment-service/internal/repository/payment_repository.go:175-288 | in every interleaving a step leaves a stored payment as it is, marks it paid or cancels it while pending, each keeping all other fields |
| PaymentService.PaidBookingIsNeverRetried | services/payment-service/internal/service/payment_service.go:101-108 | in every run, once a booking has a paid payment, every later CreatePayment for it fails and leaves the table as it is |
| PaymentService.PaidDespiteErrorExactly | services/payment-service/internal/service/payment_service.go:144-164 | for a booking not paid before, a CreatePayment that answers an error has paid it all the same if and only if it got its lock, everything up to the update that marks the payment paid was in order, that update took effect, and its reply, the confirmation or the publication then failed |
| PaymentService.ExpiredLockPaysTwice | services/payment-service/internal/service/payment_service.go:79-91 | when the lock expires while its holder stands before marking its payment paid, a second call pays and then the first pays too |
| PaymentService.NoLockPaysTwice | services/payment-service/internal/service/payment_service.go:79-91 | without a cache two calls past the check both pay |
| PaymentScenarios.ExpiryInARun | services/payment-service/internal/service/payment_service.go:79-91 | some run from an empty table in which a lock expires under its holder leaves a booking with two paid payments |
| PaymentScenarios.NoLockInARun | services/payment-service/internal/service/payment_service.go:79-91 | some run without a cache leaves a booking with two paid payments |
| PaymentScenarios.PaidDespiteErrorInARun | services/payment-service/internal/service/payment_service.go:144-164 | under each such set of replies, with or without a lock, a run from an empty table answers the call with an error and has the booking paid |
| EventKeys.KeysAgreeExactly | services/notification-service/internal/service/notification_service.go:172-175 | two events of subscribed subjects share a key if and only if the subjects are equal and the payloads differ at most in white space at the end |
| EventKeys.TrailingSpaceIsIgnored | services/notification-service/internal/service/notification_service.go:172-175 | white space at the end of a payload makes no difference to the key |
| EventKeys.KeyExactly | services/notification-service/internal/repository/notification_repository.go:201-212 | the key of a subscribed event is "notification:event:", the subject, a colon, and the payload without the white space at its end |
| EventPipeline.JobsAreConserved | services/notification-service/internal/app/app.go:130-187 | on every run received = dropped + queued + in progress + finished for each job with its multiplicity, and the queue never exceeds workers times 64 |
| EventPipeline.DroppedExactly | services/notification-service/internal/app/app.go:170-181 | on every run the dropped occurrences of a job are exactly those that arrived at an open queue with no place left |
| EventDelivery.HandledAtMostOnce | services/notification-service/internal/repository/notification_repository.go:201-212 | with any number of workers and redeliveries an event, that is a subject with a payload up to white space at its end, is handled at most once more often than its key expired, the handling in progress included |
| EventDelivery.NotificationsBoundedByEvents | services/notification-service/internal/service/notification_service.go:172-196 | while no key expires, deliveries make at most as many notifications as there are distinct events (subject, and payload up to white space at its end) among those received |
| EventDelivery.AcceptedIsHandledOnce | services/notification-service/internal/service/notification_service.go:172-196 | with subscribed subjects and every SET NX answered, when the workers have stopped the event of every accepted job has been handled at least once and at most once more often than its key expired: no event is taken for the repetition of another |
| EventOutcomes.HandledExactly | services/notification-service/internal/repository/notification_repository.go:201-212 | on every run the handlings of an event, done or going on, are exactly the answered SET NX steps for it that found its key not set since its last expiry; an error or a lost reply handles nothing |
| EventOutcomes.HandledIfWon | services/notification-service/internal/repository/notification_repository.go:201-212 | when the workers have stopped, an event was handled as often as a SET NX for it was answered with its key not set |
| EventOutcomes.CreatedExactly | services/notification-service/internal/service/notification_service.go:172-196 | the notifications of an event are exactly its handlings that could make one |
| EventOutcomes.QueueIsFifo | services/notification-service/internal/app/app.go:138-181 | the jobs that workers took, followed by those that wait, are the accepted jobs in the order of their arrival |
| EventOutcomes.WorkersStay | services/notification-service/internal/app/app.go:98-117 | there are as many workers as configured, five when no positive number is |
| EventPipeline.ClosedWorkProgresses | services/notification-service/internal/app/app.go:138-157 | in a closed pipeline every step of a worker that has not stopped brings the end closer |
| EventPipeline.StoppedMeansDone | services/notification-service/internal/app/app.go:239-244 | when all workers have stopped, the queue is empty and every received job is dropped or finished, with its multiplicity |
| EventPipeline.PanicsExactly | services/notification-service/internal/app/app.go:170-244 | a send on the closed channel happens if and only if a callback runs after the close |
| EventPipeline.App.Shutdown | services/notification-service/internal/app/app.go:230-244 | close and wait end, for any order of worker steps and any replies, with every accepted job finished and nothing dropped on the way |
| EventPipeline.App.OnMessage | services/notification-service/internal/app/app.go:170-181 | the job of this subject and payload is enqueued if and only if the queue has room, and dropped otherwise |
| EventPipeline.App.RunWorker | services/notification-service/internal/app/app.go:138-157 | one step of a worker, tied to the machine |
| NotificationHub.DisciplinedRunsAreOrderly | services/notification-service/internal/service/notification_service.go:16-49 | when each subscriber unsubscribes at most once and from its own user: no panic, the registered channels are exactly the ones listened to, all open, no user keeps an empty set, and no channel exceeds 32 |
| NotificationHub.SubscribersAreServed | services/notification-service/internal/service/notification_service.go:51-66 | what a subscriber read and what is buffered is an in-order subsequence of its user's broadcasts since it subscribed; exactly those that met 32 queued ones are missing |
| HubBroadcasts.EachChannelIsSerial | services/notification-service/internal/service/notification_service.go:51-66 | with broadcasts that run at the same time and offer channel by channel in any order, nothing panics and each channel is as after broadcasts one after the other, in the order in which they reached it |
| HubBroadcasts.EachBroadcastReachesOnce | services/notification-service/internal/service/notification_service.go:51-66 | each broadcast started while a channel was registered for its user reaches the channel exactly once or is still to come |
| HubBroadcasts.ServedUnderConcurrency | services/notification-service/internal/service/notification_service.go:51-66 | what a subscriber read and what is buffered is an in-order part of what reached its channel, only what met a full channel missing |
| HubBroadcasts.OrdersDiffer | services/notification-service/internal/service/notification_service.go:51-66 | a run brings two notifications to two channels of one user in different orders |
| NotificationHub.UnsubscribingTwice | services/notification-service/internal/service/notification_service.go:38-49 | unsubscribing a channel twice panics if and only if the user has another subscriber, and otherwise does nothing |
| NotificationHub.MisdirectedUnsubscribe | services/notification-service/internal/service/notification_service.go:38-66 | unsubscribing a channel from a foreign user makes the next broadcast to its owner panic if and only if that user has subscribers, and otherwise does nothing |
| NotificationHub.Hub.Subscribe | services/notification-service/internal/service/notification_service.go:25-36 | a new open channel is registered for the user |
| NotificationHub.Hub.Unsubscribe | services/notification-service/internal/service/notification_service.go:38-49 | removal, close and clean-up as specified, with the panic of a second close |
| NotificationHub.Hub.Broadcast | services/notification-service/internal/service/notification_service.go:51-66 | every registered channel of the user is offered the notification once, in any order, and no other channel changes; on a panic no channel changes but by such an offer |
| NotificationHub.NotificationService.CreateAndDeliver | services/notification-service/internal/service/notification_service.go:198-231 | the stored row, the returned notification and one broadcast agree on how the delivery went, with the time of sending exactly on sent ones and none of them read; the row stays pending if noting it failed |
| UserStore.RunIsCoherent | services/user-service/internal/repository/user_repository.go:246-388 | on every serial run that creates under new ids and gets enough cache commands through, each id key equals the stored row, and each e-mail key names a user with that address and lags at most in flags, ban reason and time of change, never ahead in a flag |
| UserReads.CachedReadByIdExactly | services/user-service/internal/repository/user_repository.go:34-51 | a cached read by id equals the direct one if and only if the key is not filled with a deleted user |
| UserReads.ReadsEqualDatabase | services/user-service/internal/repository/user_repository.go:34-80 | if batches ask only for users that are not deleted, reads by id equal direct reads, and reads by address find the same user with at most lagging flags |
| UserReads.DeletedUserReturns | services/user-service/internal/repository/user_repository.go:166-189 | create, delete and a batch over the same id make GetByID return the deleted user |
| UserReads.DeletedFoundExactly | services/user-service/internal/repository/user_repository.go:166-189 | in a serial run GetByID finds a deleted user at some point if and only if a batch or a CreateWithID over it fills its key, or its deletion loses the command that drops the key |
| UserReads.BatchIsExact | services/user-service/internal/repository/user_repository.go:143-192 | with right id keys, whichever ids are cached and in whatever order the rest arrives, a batch holds as a set exactly the stored users of the requested ids |
| UserReads.BatchAfterRun | services/user-service/internal/repository/user_repository.go:143-192 | the same after every serial run, as long as each write deletes or sets the id key or finds it empty; overwriting an existing user is allowed |
| UserReads.VerifyEmailExactly | services/user-service/internal/repository/user_repository.go:269-280 | verifying keeps the keys right if and only if the id key is deleted, was empty, or the row did not change |
| UserReads.UpdateExactly | services/user-service/internal/repository/user_repository.go:246-267 | an update keeps the keys right if and only if each of the two keys was deleted, overwritten, empty, somebody else's, or already up to date |
| UserReads.OverwriteExactly | services/user-service/internal/repository/user_repository.go:424-457 | whichever cache commands are lost, CreateWithID over an existing user keeps the keys right if and only if the id key is overwritten, empty or up to date, and a key of the old address that names this user stands under the same address and is overwritten or has nothing to lose but flags |
| UserWrites.CreateExactly | services/user-service/internal/repository/user_repository.go:211-244 | a new id gets a fresh user with the given profile, no flag set, unless a user that is not deleted has the address; no other row changes |
| UserWrites.OverwriteSetsProfile | services/user-service/internal/repository/user_repository.go:424-457 | CreateWithID on a stored id sets the profile and keeps flags, time of creation and deletion, unless the address is taken |
| UserWrites.UpdateSetsNames | services/user-service/internal/repository/user_repository.go:246-267 | an update of a user that is not deleted sets both names, the phone and the time of change, and nothing else |
| UserWrites.VerifyExactly | services/user-service/internal/repository/user_repository.go:269-280 | verifying sets that flag and the time of change of a user that is not deleted, and nothing else |
| UserWrites.BanExactly | services/user-service/internal/repository/user_repository.go:282-293 | a ban sets its flag, its reason and the time of change of a user that is not deleted, and nothing else |
| UserWrites.DeleteExactly | services/user-service/internal/repository/user_repository.go:295-317 | a deletion marks the row of a user that is not deleted, sets its time of change, and keeps the rest |
| UserWrites.BannedUserIsSeen | services/user-service/internal/repository/user_repository.go:282-293 | after a ban that dropped its key a read by id finds the user banned for that reason and otherwise unchanged |
| UserWrites.VerifiedUserIsSeen | services/user-service/internal/repository/user_repository.go:269-280 | after a verification that dropped its key a read by id finds the user verified and otherwise unchanged |
| UserWrites.DeletedUserIsGone | services/user-service/internal/repository/user_repository.go:295-317 | after a deletion that dropped its key a read by id finds nobody |
| UserWrites.WritesAreSeen | services/user-service/internal/repository/user_repository.go:34-51 | on serial runs whose writes keep the id keys, a read by id finds the stored user, through the cache or not |
| UserWrites.WritesKeepOtherKeys | services/user-service/internal/repository/user_repository.go:354-388 | what each write that reaches the table does to the two keys of its user, with each command possibly lost, and that no other key changes |
| UserWrites.ReadsSetKeys | services/user-service/internal/repository/user_repository.go:34-80 | a read that misses its key and finds the user sets both keys of that user, and any other read leaves the cache alone |
| UserWrites.BatchSetsKeys | services/user-service/internal/repository/user_repository.go:166-189 | a batch sets both keys of exactly the users that the query delivers |
| UserWrites.ReadsKeepRows | services/user-service/internal/repository/user_repository.go:34-192 | reads, expiries and batches leave the table alone |
| UserWrites.ForgettingExactly | services/user-service/internal/repository/user_repository.go:374-388 | a key that expires or is cleared is gone, and no other |
| UserWrites.CachedReadsExactly | services/user-service/internal/repository/user_repository.go:34-80 | a read that finds its key answers the entry and needs no database |
| UserWrites.DirectReadExactly | services/user-service/internal/repository/user_repository.go:319-334 | a read by id without the cache: when exactly the user and when exactly each error is the answer |
| UserWrites.DirectReadByEmailExactly | services/user-service/internal/repository/user_repository.go:53-80 | the same by address, among users that are not deleted |
| UserRepository.Repository.GetByID | services/user-service/internal/repository/user_repository.go:34-51 | cached record, row or error, and both keys filled from the row |
| UserRepository.Repository.GetByEmail | services/user-service/internal/repository/user_repository.go:53-80 | cached record, the one live row with the address, or an error |
| UserRepository.Repository.GetBatch | services/user-service/internal/repository/user_repository.go:143-192 | hits in request order, then the fetched rows; with right id keys exactly the stored users of the requested ids; an error if the query fails or breaks off, with the rows delivered until then cached |
| UserRepository.Repository.Update | services/user-service/internal/repository/user_repository.go:246-267 | row, two deleted keys, two set keys and the error cases |
| UserRepository.Repository.Delete | services/user-service/internal/repository/user_repository.go:295-317 | the row marked deleted and both keys dropped, or an error |
| RefreshTokens.RevokedIsNeverAccepted | services/auth-service/internal/service/auth_service.go:121-131 | a token that was revoked once is refused after every later history, and asking changes nothing |
| RefreshTokens.RefreshCounts | services/auth-service/internal/service/auth_service.go:121-158 | a successful refresh keeps every user's number of unrevoked tokens, except that a failed revocation adds one for the owner |
| TokenAnswers.RefreshAnswersExactly | services/auth-service/internal/service/auth_service.go:121-158 | a refresh succeeds if and only if the lookup answers, the token is stored, not revoked and not expired, the user is found, the new token is not taken, the insert is answered and signing works; when exactly each error is the answer |
| TokenAnswers.RefreshStoresExactly | services/auth-service/internal/service/auth_service.go:121-144 | a token that is expired or otherwise not usable leaves the table as it is; a usable one is revoked if its revocation takes effect, and the new row has its owner and the given expiry; all other rows stay |
| TokenAnswers.LoginStoresExactly | services/auth-service/internal/repository/auth_repository.go:125-135 | a login adds exactly its token, for the user, with the given expiry, unrevoked |
| TokenAnswers.RevocationsExactly | services/auth-service/internal/repository/auth_repository.go:167-190 | a logout revokes exactly its token, and a revocation of all sessions exactly those of the user |
| TokenAnswers.AdmissionExactly | services/auth-service/internal/service/auth_service.go:121-136 | in every interleaving a refresh gets past its checks exactly when its token is usable at that moment, and answers the error that applies otherwise |
| TokenAnswers.OneStatementIsSerial | services/auth-service/internal/service/auth_service.go:86-162 | in every interleaving a login, a logout and a revocation of all sessions are the serial operations |
| RefreshTokens.OneLiveTokenPerFamily | services/auth-service/internal/service/auth_service.go:86-158 | when revocations take effect, each unrevoked token ends a chain from one login of its user whose earlier links are all revoked, and two different unrevoked tokens come from different logins |
| RefreshTokens.LiveTokensBoundedByLogins | services/auth-service/internal/service/auth_service.go:86-158 | a user then has at most as many unrevoked tokens as logins |
| RefreshTokens.RefreshSplitsFamilyExactly | services/auth-service/internal/service/auth_service.go:138 | old and new token are both unrevoked after a successful refresh if and only if the ignored revocation failed |
| RefreshRaces.RacersAllLand | services/auth-service/internal/service/auth_service.go:121-144 | refreshes of one token that have all been admitted, their statements in any order: when all are through, each has left an unrevoked token of the login in place of the one token |
| RefreshRaces.UninterruptedIsSerial | services/auth-service/internal/service/auth_service.go:121-158 | a refresh left alone is the serial operation in table and answer, whichever of its statements take effect |
| RefreshRaces.TwoLiveExactly | services/auth-service/internal/repository/auth_repository.go:125-135 | with checks, revocations, insertions, logins, logouts and revocations of all sessions in any order, some login comes to own two unrevoked tokens if and only if at some point a refresh inserts its token while its login already owns one |
| RefreshRaces.LiveBoundedByOverlaps | services/auth-service/internal/service/auth_service.go:121-144 | when revocations take effect, in every interleaving a login owns at most one unrevoked token more than there were refreshes admitted while another refresh of the same token was on its way |
| RefreshScenarios.OverlapsAreReached | services/auth-service/internal/service/auth_service.go:121-144 | for every k some run reaches that bound with k unrevoked tokens of one login |
| RefreshRaces.RevokeAllIsFinalExactly | services/auth-service/internal/service/auth_service.go:265-267 | after all sessions of a user were revoked, the user can get an unrevoked token without a new login if and only if a refresh of that user is on its way whose insertion can still land |
| AuthService.AuthRepository.FindRefreshToken | services/auth-service/internal/repository/auth_repository.go:137-165 | owner and expiry of a stored token that is not revoked, or the error that applies |
| AuthService.AuthService.Login | services/auth-service/internal/service/auth_service.go:86-119 | exactly one more unrevoked token for the user if and only if input, account, password, signing and insert all succeed; otherwise the error of the first one that fails |
| AuthService.AuthService.RefreshToken | services/auth-service/internal/service/auth_service.go:121-158 | the checks in their order, revocation with its outcome ignored, then the new token |
| AuthService.AuthService.Logout | services/auth-service/internal/service/auth_service.go:160-162 | the token is no longer valid after a successful logout |
| AuthService.AuthService.RevokeAllSessions | services/auth-service/internal/service/auth_service.go:265-267 | returns the number of the user's unrevoked tokens, as a signed 32-bit number, and leaves none |

## Left out

- HTTP and gRPC handlers, error-to-status mapping, configuration, metrics, the front end and the reverse proxy.
- SQL and Redis as engines: tables and caches are maps, each statement is one atomic step, constraints are guards, and a commit error counts as not committed. A statement that takes effect after its caller gave up is modelled where the outcome type has a lost reply (calls between services, payment writes, the lock, SetNX, token inserts, notification rows) and not for the booking and user tables.
- The second schema copy in `postgres/init.sql`; the models follow the per-service migrations.
- Outside calls to the endpoints that set a spot's status or delete it, in the booking models: the environment only adds spots. `SpotCapacity` allows deletes.
- BookingDomain.NormalizePlateIdempotent: upper-casing is modelled for ASCII letters; other letters stay as they are.
- UUID spelling variants and white space in ids: ids are canonical, so the payment lock of one booking is one key. The normalisation of e-mail addresses and ids in the user repository: its model takes them in normal form.
- Optional wiring: a booking service without user or parking lookup, and repositories without a cache. A payment service without its lock is modelled.
- Enrichment of returned bookings with the user's e-mail address, and the contents of the published messages.
- Pricing.BilledHours: real numbers in place of 64-bit floating point; the stay is a whole number of microseconds, and rounding in the last bit of the quotient is not modelled.
- Pricing.ChargeCoversStay: whole hundredths in place of a floating-point price; overflow of the NUMERIC column is not modelled.
- BookingRepository.Repository.List: unbounded integers, so the overflow of the offset for huge page numbers is not modelled; the count and the page are taken from one table.
- The 30 seconds of the payment lock and the 24 hours of the event keys as durations: expiry is an event that may come at any time, and that a lock outlives its holder is a stated assumption.
- NATS: redelivery is any repetition of a receive event; `Drain` is replaced by the assumption that callbacks have stopped before the channel is closed, and `PanicsExactly` shows what that assumption is worth.
- What `Shutdown` does after the workers have stopped.
- NotificationHub.Hub.Broadcast: one broadcast at a time, `HubBroadcasts` has them together; when it panics, which of the other channels were served before depends on the order of a Go map and is not specified.
- NotificationHub.SubscribersAreServed: one broadcast at a time; `HubBroadcasts.ServedUnderConcurrency` is the form for many.
- NotificationHub.NotificationService.CreateAndDeliver: the type of a notification is only whether it goes out by mail, and mail delivery is one bit.
- Decoding of event payloads, templates, mail texts, preferences, history lists and bulk sending.
- `MarkFailed`, the payment lists and the lookups by booking id of the payment repository.
- `List`, `CheckExists` and the statistics of the user service.
- Signing, password hashing, random tokens and hashing of tokens: a refresh token stands for its hash, and tokens that collide are refused by the unique index. Verification and password-reset tokens are not modelled.
- AuthService.AuthService.Login: what the validation of the input and the comparison of the password compute is not modelled, only their outcomes.
- The parking lot cache and tariff administration.
