# Booking saga — a Dafny model

This project models the booking saga of a microservice rental platform. Four services take part:

- **Accommodation service (the inventory ledger).** It keeps a table of per-day availability slots with a `locked` flag. Accommodation records carry an optimistic `version`. `lockDates` is a version-gated lock; `unlockDates` is not gated.
- **Accommodation saga consumers.** They reserve dates for a booking-created event and unlock them for a cancellation request.
- **Booking service.** It holds the booking table and its status machine (PENDING / CONFIRMED / CANCELED / EXPIRED). Its parts:
  - the saga handlers, including the two-flag barrier that finishes a cancellation;
  - the Kafka listener that routes each saga message;
  - synchronous booking creation with compensation;
  - the repository's queries.
- **Payment service.** It holds a payment table with a unique booking id, a refund-gated cancel listener, and the Stripe webhook stub.
- **Address and auth services.** A find-or-insert address table, and user registration.

Each table the source changes in place is a field of a class: a `seq` or `map` with a `nextId` counter. Each service method that changes it is a `method` with a `modifies` clause. The method is proved equal to a pure function of the old state, and the source's promises are proved as lemmas about those functions. Messages sent to a broker are appended to an outbox sequence. Calls to other services are appended to a call log. The answers of remote services, of the payment provider and of the password encoder, and "today", are parameters.

Files follow the services: `availability.dfy`, `accommodation.dfy`, `accommodation_messaging.dfy` (accommodation side); `booking.dfy`, `booking_repository.dfy`, `booking_saga.dfy`, `booking_listener.dfy`, `booking_compensation.dfy`, `booking_service.dfy` (booking side); `payment.dfy`, `payment_listener.dfy` (payment side); `address.dfy`, `users.dfy`; `common.dfy` holds Option, Result and Outcome.

## Model

| member | source | states |
|---|---|---|
| Availability.Between | accommodation-service/src/main/java/com/samilyak/accommodationservice/repository/AvailabilitySlotRepository.java:11-15 | the range query returns exactly the rows of the unit dated from..to, both ends included |
| Availability.Without | accommodation-service/src/main/java/com/samilyak/accommodationservice/service/AccommodationAvailabilityServiceImpl.java:25 | deleting a unit's rows keeps exactly the other units' rows |
| Availability.Available | accommodation-service/src/main/java/com/samilyak/accommodationservice/service/AccommodationAvailabilityServiceImpl.java:48-56 | available iff some row of the unit lies in the range and no such row is locked |
| Availability.FreshSlots | accommodation-service/src/main/java/com/samilyak/accommodationservice/service/AccommodationAvailabilityServiceImpl.java:29-35 | the rows the loop builds: no function contract; ReinitializedSlots states that they are n unlocked rows dated today..today+n-1 |
| Availability.Reinitialized | accommodation-service/src/main/java/com/samilyak/accommodationservice/service/AccommodationAvailabilityServiceImpl.java:23-37 | delete the unit's rows, then save the fresh ones: no function contract; ReinitializedSlots states its promise |
| Availability.Flagged | accommodation-service/src/main/java/com/samilyak/accommodationservice/service/AccommodationAvailabilityServiceImpl.java:62 | one row after setLocked when the range query finds it: no function contract; LockFlagTouchesOnlyRange states its effect |
| Availability.WithLockFlag | accommodation-service/src/main/java/com/samilyak/accommodationservice/service/AccommodationAvailabilityServiceImpl.java:59-74 | the table after lockDates or unlockDates: no function contract; LockFlagTouchesOnlyRange, LockFlagIdempotent, LockedRangeUnavailable and UnlockedRangeAvailable state its promises |
| Availability.ReinitializedSlots | accommodation-service/src/main/java/com/samilyak/accommodationservice/service/AccommodationAvailabilityServiceImpl.java:23-37 | after initialisation the unit has exactly n rows, one per day today..today+n-1, all unlocked; other units' rows are unchanged; uniqueness is kept |
| Availability.WithoutUnique | accommodation-service/src/main/java/com/samilyak/accommodationservice/model/AvailabilitySlot.java:26-27 | deleting a unit's rows keeps the (accommodation, date) unique constraint |
| Availability.LockFlagTouchesOnlyRange | accommodation-service/src/main/java/com/samilyak/accommodationservice/service/AccommodationAvailabilityServiceImpl.java:59-74 | lock and unlock create and delete no row, set the flag on every row in the range, leave every other row alone, and keep uniqueness |
| Availability.LockFlagIdempotent | accommodation-service/src/main/java/com/samilyak/accommodationservice/service/AccommodationAvailabilityServiceImpl.java:68-74 | locking or unlocking a range twice is doing it once |
| Availability.LockedRangeUnavailable | accommodation-service/src/main/java/com/samilyak/accommodationservice/service/AccommodationAvailabilityServiceImpl.java:48-65 | once a range is locked, every range sharing an existing row with it reads unavailable |
| Availability.UnlockedRangeAvailable | accommodation-service/src/main/java/com/samilyak/accommodationservice/service/AccommodationAvailabilityServiceImpl.java:48-74 | after unlocking a range that has a row, that range reads available |
| Availability.MissingRowsUnavailable | accommodation-service/src/main/java/com/samilyak/accommodationservice/service/AccommodationAvailabilityServiceImpl.java:49-51 | a range with no rows is never available |
| Availability.PartialRangeAvailable | accommodation-service/src/main/java/com/samilyak/accommodationservice/service/AccommodationAvailabilityServiceImpl.java:51 | a range where only some days have rows is available when those rows are unlocked |
| Availability.AvailabilityService.InitializeAvailabilitySlots | accommodation-service/src/main/java/com/samilyak/accommodationservice/service/AccommodationAvailabilityServiceImpl.java:23-37 | the loop builds the fresh rows; the new table is the old one with the unit's rows replaced, and uniqueness is kept |
| Availability.AvailabilityService.UpdateAvailabilitySlots | accommodation-service/src/main/java/com/samilyak/accommodationservice/service/AccommodationAvailabilityServiceImpl.java:41-44 | the same as initialisation, so no row of the unit is locked afterwards |
| Availability.AvailabilityService.AreDatesAvailable | accommodation-service/src/main/java/com/samilyak/accommodationservice/service/AccommodationAvailabilityServiceImpl.java:48-56 | the answer is Available over the current table |
| Availability.AvailabilityService.LockDates | accommodation-service/src/main/java/com/samilyak/accommodationservice/service/AccommodationAvailabilityServiceImpl.java:59-65 | the range's rows become locked, and uniqueness is kept |
| Availability.AvailabilityService.UnlockDates | accommodation-service/src/main/java/com/samilyak/accommodationservice/service/AccommodationAvailabilityServiceImpl.java:68-74 | the range's rows become unlocked, and uniqueness is kept |
| Availability.AvailabilityService.SetLockFlag | accommodation-service/src/main/java/com/samilyak/accommodationservice/service/AccommodationAvailabilityServiceImpl.java:62 | the in-place loop over the rows gives exactly the flagged table |
| Accommodations.Lock | accommodation-service/src/main/java/com/samilyak/accommodationservice/service/AccommodationServiceImpl.java:138-168 | an unknown id is an error; success iff the expected version equals the stored one and the range is available; a failure changes nothing and carries no rate |
| Accommodations.Unlock | accommodation-service/src/main/java/com/samilyak/accommodationservice/service/AccommodationServiceImpl.java:172-180 | unlocking changes the range's slots only, and never the records or their versions |
| Accommodations.Patched | accommodation-service/src/main/java/com/samilyak/accommodationservice/service/AccommodationServiceImpl.java:52-69 | update replaces exactly the present fields and keeps id, type, size, address and version |
| Accommodations.WithAddressIn | accommodation-service/src/main/java/com/samilyak/accommodationservice/service/AccommodationServiceImpl.java:84-113 | the by-city and by-country queries return exactly the records whose address id the address service returned |
| Accommodations.LockSuccess | accommodation-service/src/main/java/com/samilyak/accommodationservice/service/AccommodationServiceImpl.java:154-162 | a successful lock carries the unit's rate, locks the range, bumps only that unit's version by exactly one and touches no other unit |
| Accommodations.AtMostOneWinner | accommodation-service/src/main/java/com/samilyak/accommodationservice/service/AccommodationServiceImpl.java:142-156 | two locks in a row that present the same expected version cannot both succeed |
| Accommodations.UnlockKeepsVersionSpent | accommodation-service/src/main/java/com/samilyak/accommodationservice/service/AccommodationServiceImpl.java:172-180 | an unlock in between does not make a spent version win again |
| Accommodations.NoDoubleBooking | accommodation-service/src/main/java/com/samilyak/accommodationservice/service/AccommodationServiceImpl.java:148-162 | after a successful lock, a lock of any range sharing one of its slots is refused |
| Accommodations.LockThenUnlockRestoresSlots | accommodation-service/src/main/java/com/samilyak/accommodationservice/service/AccommodationServiceImpl.java:154-180 | unlocking exactly the locked range gives the slot table back |
| Accommodations.PatchIdempotent | accommodation-service/src/main/java/com/samilyak/accommodationservice/service/AccommodationServiceImpl.java:56-65 | applying an update twice is applying it once |
| Accommodations.EmptyPatchIsIdentity | accommodation-service/src/main/java/com/samilyak/accommodationservice/service/AccommodationServiceImpl.java:56-65 | an update with every field absent changes nothing |
| Accommodations.AccommodationService.Create | accommodation-service/src/main/java/com/samilyak/accommodationservice/service/AccommodationServiceImpl.java:35-48 | the address failure propagates; otherwise a new record with version 0 and availability defaulting to 1, and that many fresh slots |
| Accommodations.AccommodationService.Update | accommodation-service/src/main/java/com/samilyak/accommodationservice/service/AccommodationServiceImpl.java:52-69 | unknown id is not found; otherwise the patched record is stored, and a present availability reinitialises the slots |
| Accommodations.AccommodationService.GetById | accommodation-service/src/main/java/com/samilyak/accommodationservice/service/AccommodationServiceImpl.java:118-123 | the stored record, or not found |
| Accommodations.AccommodationService.GetAll | accommodation-service/src/main/java/com/samilyak/accommodationservice/service/AccommodationServiceImpl.java:74-79 | exactly the stored records |
| Accommodations.AccommodationService.GetByAddressIds | accommodation-service/src/main/java/com/samilyak/accommodationservice/service/AccommodationServiceImpl.java:84-113 | a subset of all records: exactly those with one of the address ids |
| Accommodations.AccommodationService.DeleteById | accommodation-service/src/main/java/com/samilyak/accommodationservice/service/AccommodationServiceImpl.java:126-128 | exactly that record is removed |
| Accommodations.AccommodationService.IsAvailable | accommodation-service/src/main/java/com/samilyak/accommodationservice/service/AccommodationServiceImpl.java:132-134 | delegates to the slot table's availability check |
| Accommodations.AccommodationService.LockDates | accommodation-service/src/main/java/com/samilyak/accommodationservice/service/AccommodationServiceImpl.java:138-168 | the answer and the new records and slots are those of Lock on the old state |
| Accommodations.AccommodationService.UnlockDates | accommodation-service/src/main/java/com/samilyak/accommodationservice/service/AccommodationServiceImpl.java:172-180 | the new state is Unlock of the old one |
| AccommodationMessaging.AttemptFor | accommodation-service/src/main/java/com/samilyak/accommodationservice/messaging/kafka/BookingCreationConsumer.java:42-47 | the reservation uses the event's unit, dates and version |
| AccommodationMessaging.CreationReply | accommodation-service/src/main/java/com/samilyak/accommodationservice/messaging/kafka/BookingCreationConsumer.java:41-68 | reserved iff the reservation returned, failed iff it raised, never a third kind; it carries the booking, user, price and phone, or the exception's message |
| AccommodationMessaging.NightsLastDay | accommodation-service/src/main/java/com/samilyak/accommodationservice/messaging/kafka/BookingCancellationConsumer.java:37 | the unlock ends the day before check-out |
| AccommodationMessaging.BookingCreationConsumer.OnBookingCreated | accommodation-service/src/main/java/com/samilyak/accommodationservice/messaging/kafka/BookingCreationConsumer.java:26-69 | an unparsable message does nothing; otherwise one attempt and exactly one reply |
| AccommodationMessaging.BookingCancellationConsumer.HandleCancellation | accommodation-service/src/main/java/com/samilyak/accommodationservice/messaging/kafka/BookingCancellationConsumer.java:24-47 | unlocks check-in..check-out-1 on the slot table, then sends one dates-unlocked event; the accommodation records are outside its frame |
| AccommodationMessaging.CheckoutDayStaysLocked | accommodation-service/src/main/java/com/samilyak/accommodationservice/messaging/kafka/BookingCancellationConsumer.java:34-38 | after a successful lock and the cancellation's unlock, a slot of the booked range is locked iff it is the check-out day's |
| AccommodationMessaging.CheckoutDayBlocksLaterStays | accommodation-service/src/main/java/com/samilyak/accommodationservice/messaging/kafka/BookingCancellationConsumer.java:37 | so every later range containing the old check-out day reads unavailable |
| Bookings.Booking.MarkPaymentCanceled | booking-service/src/main/java/com/samilyak/bookingservice/saga/BookingSagaService.java:43 | sets the payment flag and nothing else |
| Bookings.Booking.MarkDatesUnlocked | booking-service/src/main/java/com/samilyak/bookingservice/saga/BookingSagaService.java:53 | sets the inventory flag and nothing else |
| BookingQueries.FindAllByUserId | booking-service/src/main/java/com/samilyak/bookingservice/repository/BookingRepository.java:16 | exactly the bookings of that user |
| BookingQueries.FindByUserIdAndStatus | booking-service/src/main/java/com/samilyak/bookingservice/repository/BookingRepository.java:14 | exactly the user's bookings with that status |
| BookingQueries.OverlapCondition | booking-service/src/main/java/com/samilyak/bookingservice/repository/BookingRepository.java:18-26 | the JPQL condition: no function contract; OverlapOnlyConfirmed, OverlapIsSound and EnclosingBookingNotReturned state what it admits and misses |
| BookingQueries.FindOverlappingBookings | booking-service/src/main/java/com/samilyak/bookingservice/repository/BookingRepository.java:18-26 | exactly the CONFIRMED bookings of the unit whose check-in or check-out lies in from..to |
| BookingQueries.FindExpiredBookings | booking-service/src/main/java/com/samilyak/bookingservice/repository/BookingRepository.java:28-29 | exactly the bookings with check-out on or before the day and status other than CANCELED |
| BookingQueries.FindTopByOrderByIdDesc | booking-service/src/main/java/com/samilyak/bookingservice/repository/BookingRepository.java:31 | empty iff the table is empty, otherwise the booking with the largest id |
| BookingQueries.OverlapOnlyConfirmed | booking-service/src/main/java/com/samilyak/bookingservice/repository/BookingRepository.java:18-21 | only CONFIRMED bookings of the asked-for unit come back |
| BookingQueries.OverlapIsSound | booking-service/src/main/java/com/samilyak/bookingservice/repository/BookingRepository.java:19-20 | a returned booking with ordered dates really intersects from..to |
| BookingQueries.EnclosingBookingNotReturned | booking-service/src/main/java/com/samilyak/bookingservice/repository/BookingRepository.java:19-20 | a CONFIRMED booking that strictly encloses the range is not returned, though it occupies the range |
| BookingQueries.ExpiredIncludesEveryLiveStatus | booking-service/src/main/java/com/samilyak/bookingservice/repository/BookingRepository.java:28-29 | the expiry query returns PENDING, CONFIRMED and EXPIRED bookings, never CANCELED ones |
| BookingSaga.CancellationRequest | booking-service/src/main/java/com/samilyak/bookingservice/saga/BookingSagaService.java:28-36 | the event carries the booking's id, unit, dates, payment id and refund flag |
| BookingSaga.Finalized | booking-service/src/main/java/com/samilyak/bookingservice/saga/BookingSagaService.java:63-76 | finalizeBookingCreation on one booking: no function contract; FinalizeConfirmsPending and FinalizeIsIdempotent state its promises |
| BookingSaga.CreationFailed | booking-service/src/main/java/com/samilyak/bookingservice/saga/BookingSagaService.java:81-91 | failBookingCreation on one booking: no function contract; FailCancelsOnlyPending states its promise |
| BookingSaga.CancellationChecked | booking-service/src/main/java/com/samilyak/bookingservice/saga/BookingSagaService.java:93-99 | the barrier check: no function contract; BarrierWaitsForBoth and BarrierOrderIndependent state its promises |
| BookingSaga.AfterPaymentCanceled | booking-service/src/main/java/com/samilyak/bookingservice/saga/BookingSagaService.java:41-49 | handlePaymentCanceled on one booking: no function contract; BarrierOrderIndependent, BarrierWaitsForBoth and BarrierHandlersIdempotent state its promises |
| BookingSaga.AfterDatesUnlocked | booking-service/src/main/java/com/samilyak/bookingservice/saga/BookingSagaService.java:51-59 | handleDatesUnlocked on one booking: no function contract; BarrierOrderIndependent, BarrierWaitsForBoth and BarrierHandlersIdempotent state its promises |
| BookingSaga.CancellationStarted | booking-service/src/main/java/com/samilyak/bookingservice/saga/BookingSagaService.java:25 | startCancellation, whose status is a parameter: no function contract; CancelBooking states what is saved and sent |
| BookingSaga.Apply | booking-service/src/main/java/com/samilyak/bookingservice/saga/BookingSagaService.java:41-91 | a saga call changes only the status, the payment id and the two barrier flags of a booking, and only finalisation touches the payment id |
| BookingSaga.Handle | booking-service/src/main/java/com/samilyak/bookingservice/saga/BookingSagaService.java:41-104 | not found iff the booking is unknown, and then the table is unchanged; otherwise the named booking becomes Apply of it, every other booking and the key set are unchanged |
| BookingSaga.FinalizeConfirmsPending | booking-service/src/main/java/com/samilyak/bookingservice/saga/BookingSagaService.java:66-69 | a PENDING booking becomes CONFIRMED with the session id as payment id; nothing else changes |
| BookingSaga.FinalizeIsIdempotent | booking-service/src/main/java/com/samilyak/bookingservice/saga/BookingSagaService.java:66-75 | a duplicate payment success is a no-op, whatever session it carries |
| BookingSaga.FailCancelsOnlyPending | booking-service/src/main/java/com/samilyak/bookingservice/saga/BookingSagaService.java:81-91 | PENDING becomes CANCELED, any other status is kept, and a second call changes nothing |
| BookingSaga.FirstCreationOutcomeWins | booking-service/src/main/java/com/samilyak/bookingservice/saga/BookingSagaService.java:63-91 | between a success and a failure for one booking, the first to arrive decides |
| BookingSaga.BarrierOrderIndependent | booking-service/src/main/java/com/samilyak/bookingservice/saga/BookingSagaService.java:41-59 | both cancellation answers, in either order, give the same booking, and it is CANCELED |
| BookingSaga.BarrierWaitsForBoth | booking-service/src/main/java/com/samilyak/bookingservice/saga/BookingSagaService.java:93-99 | one answer alone keeps the status while the other flag is unset |
| BookingSaga.BarrierHandlersIdempotent | booking-service/src/main/java/com/samilyak/bookingservice/saga/BookingSagaService.java:41-59 | a duplicate payment-canceled or dates-unlocked delivery changes nothing more |
| BookingSaga.UnknownBookingChangesNothing | booking-service/src/main/java/com/samilyak/bookingservice/saga/BookingSagaService.java:101-104 | every handler on an unknown booking raises not found and changes no booking |
| BookingSaga.HandleTouchesOneBooking | booking-service/src/main/java/com/samilyak/bookingservice/saga/BookingSagaService.java:41-91 | a handler changes only the booking it names and keeps the table's keys |
| BookingSaga.TableBarrierOrderIndependent | booking-service/src/main/java/com/samilyak/bookingservice/saga/BookingSagaService.java:41-59 | over the whole table, both answers in either order give the same table, with that booking CANCELED |
| BookingSaga.BookingSagaService.GetBookingOrThrow | booking-service/src/main/java/com/samilyak/bookingservice/saga/BookingSagaService.java:101-104 | the stored booking, or not found |
| BookingSaga.BookingSagaService.CancelBooking | booking-service/src/main/java/com/samilyak/bookingservice/saga/BookingSagaService.java:22-39 | not found changes nothing; otherwise the started booking is saved and exactly one cancellation request built from it is sent |
| BookingSaga.BookingSagaService.HandlePaymentCanceled | booking-service/src/main/java/com/samilyak/bookingservice/saga/BookingSagaService.java:41-49 | the new table and error are those of the pure handler |
| BookingSaga.BookingSagaService.HandleDatesUnlocked | booking-service/src/main/java/com/samilyak/bookingservice/saga/BookingSagaService.java:51-59 | the new table and error are those of the pure handler |
| BookingSaga.BookingSagaService.FinalizeBookingCreation | booking-service/src/main/java/com/samilyak/bookingservice/saga/BookingSagaService.java:63-76 | the new table and error are those of the pure handler; no event is sent |
| BookingSaga.BookingSagaService.FailBookingCreation | booking-service/src/main/java/com/samilyak/bookingservice/saga/BookingSagaService.java:81-91 | the new table and error are those of the pure handler; no event and no unlock |
| BookingSaga.BookingSagaService.CheckCancellationComplete | booking-service/src/main/java/com/samilyak/bookingservice/saga/BookingSagaService.java:93-99 | with both flags set the booking is saved CANCELED, otherwise nothing changes |
| BookingListener.Route | booking-service/src/main/java/com/samilyak/bookingservice/messaging/kafka/BookingKafkaListener.java:30-112 | each topic goes to its saga call for the message's booking: success to finalise with the session id, both failures to fail with the reason, and the two cancellation answers to their handlers |
| BookingListener.RedeliveryIsHarmless | booking-service/src/main/java/com/samilyak/bookingservice/messaging/kafka/BookingKafkaListener.java:30-112 | a message delivered twice leaves the table as one delivery did |
| BookingListener.BookingKafkaListener.Receive | booking-service/src/main/java/com/samilyak/bookingservice/messaging/kafka/BookingKafkaListener.java:30-39 | an unparsable message makes no call; otherwise exactly one routed call, and its not-found error is swallowed |
| BookingListener.BookingKafkaListener.OnPaymentSuccess | booking-service/src/main/java/com/samilyak/bookingservice/messaging/kafka/BookingKafkaListener.java:30-39 | exactly one finalise call with the booking and session id |
| BookingListener.BookingKafkaListener.OnInventoryFailure | booking-service/src/main/java/com/samilyak/bookingservice/messaging/kafka/BookingKafkaListener.java:48-57 | exactly one fail call with the event's reason |
| BookingListener.BookingKafkaListener.OnPaymentFailure | booking-service/src/main/java/com/samilyak/bookingservice/messaging/kafka/BookingKafkaListener.java:66-76 | exactly one fail call with the event's reason |
| BookingListener.BookingKafkaListener.OnPaymentCanceled | booking-service/src/main/java/com/samilyak/bookingservice/messaging/kafka/BookingKafkaListener.java:85-94 | exactly one payment-canceled barrier call |
| BookingListener.BookingKafkaListener.OnDatesUnlocked | booking-service/src/main/java/com/samilyak/bookingservice/messaging/kafka/BookingKafkaListener.java:103-112 | exactly one dates-unlocked barrier call |
| Compensation.Lookup | booking-service/src/main/java/com/samilyak/bookingservice/service/BookingCompensationService.java:24-29 | found iff the booking is in the table |
| Compensation.NeedsCompensation | booking-service/src/main/java/com/samilyak/bookingservice/service/BookingCompensationService.java:24-34 | the two early returns: no function contract; CompensationCalls and CompensationIsIdempotent state its effect |
| Compensation.Compensated | booking-service/src/main/java/com/samilyak/bookingservice/service/BookingCompensationService.java:67-68 | the key set is kept; a present booking ends CANCELED with nothing else about it changed; every other booking is unchanged |
| Compensation.CompensationCalls | booking-service/src/main/java/com/samilyak/bookingservice/service/BookingCompensationService.java:22-76 | no call for a missing or CANCELED booking; otherwise an unlock of the request's full range with no version, then a payment cancel iff a payment id is recorded |
| Compensation.CompensationEndsCanceled | booking-service/src/main/java/com/samilyak/bookingservice/service/BookingCompensationService.java:67-68 | the booking ends CANCELED with nothing else about it changed, and no other booking is touched |
| Compensation.CompensationIsIdempotent | booking-service/src/main/java/com/samilyak/bookingservice/service/BookingCompensationService.java:31-34 | a second compensation makes no call and changes nothing |
| Compensation.BookingCompensationService.Compensate | booking-service/src/main/java/com/samilyak/bookingservice/service/BookingCompensationService.java:22-76 | the new table and the calls made are those above, whatever the two calls did; nothing escapes |
| BookingServices.ValidateDates | booking-service/src/main/java/com/samilyak/bookingservice/service/BookingServiceImpl.java:60-66 | invalid iff check-out is not after check-in; in the past iff otherwise check-in is before today; accepted iff neither |
| BookingServices.CallerError | booking-service/src/main/java/com/samilyak/bookingservice/service/BookingServiceImpl.java:289-300 | a missing user becomes user-not-found, any other lookup failure a runtime failure |
| BookingServices.Nights | booking-service/src/main/java/com/samilyak/bookingservice/service/BookingServiceImpl.java:98 | DAYS.between: no function contract; ValidStayHasNights and PricedNightsAreTheUnlockedDays state that an accepted stay has at least one night and that the nights priced are the days its cancellation unlocks |
| BookingServices.RateFor | booking-service/src/main/java/com/samilyak/bookingservice/service/BookingServiceImpl.java:99-101 | the lock answer's rate, else the accommodation's: no function contract; CreateBooking states the price the saved booking carries |
| BookingServices.TotalPrice | booking-service/src/main/java/com/samilyak/bookingservice/service/BookingServiceImpl.java:102 | rate times nights: no function contract; CreateBooking states the price the saved booking carries |
| BookingServices.PendingBooking | booking-service/src/main/java/com/samilyak/bookingservice/service/BookingServiceImpl.java:141-151 | the row savePendingBooking builds: no function contract; SavePendingBooking and SavedBookingMeetsTheSaga state its promises |
| BookingServices.StayNights | booking-service/src/main/java/com/samilyak/bookingservice/service/BookingServiceImpl.java:98-103 | the nights the total price is charged for: as many dates as nights between check-in and check-out, none for an empty or reversed stay |
| BookingServices.ValidStayHasNights | booking-service/src/main/java/com/samilyak/bookingservice/service/BookingServiceImpl.java:60-66 | an accepted request covers at least one night |
| BookingServices.PricedNightsAreTheUnlockedDays | booking-service/src/main/java/com/samilyak/bookingservice/service/BookingServiceImpl.java:98-103 | for a booking, a slot lies in the range its cancellation unlocks (check-in .. check-out minus one day) iff it is the booking unit's and its date is one of the priced nights, so the check-out day is never unlocked; the total price is the rate times the number of those nights |
| BookingServices.SavedBookingMeetsTheSaga | booking-service/src/main/java/com/samilyak/bookingservice/service/BookingServiceImpl.java:141-160 | a just-saved booking is confirmed alike by confirmBooking and by the saga's finalisation; once confirmed, a late failure or duplicate success changes nothing; a single cancellation answer leaves it PENDING |
| BookingServices.BookingService.CreateBooking | booking-service/src/main/java/com/samilyak/bookingservice/service/BookingServiceImpl.java:54-138 | validation and the user lookup fail before any other call; lookup and lock failures save and compensate nothing; success saves PENDING, then CONFIRMED with the session id at the priced total, after exactly the lookup, the lock, the payment creation and the notification; a later failure compensates and raises the error again |
| BookingServices.BookingService.Compensate | booking-service/src/main/java/com/samilyak/bookingservice/service/BookingServiceImpl.java:219-277 | the same effect as the compensation service's routine |
| BookingServices.BookingService.SavePendingBooking | booking-service/src/main/java/com/samilyak/bookingservice/service/BookingServiceImpl.java:141-151 | a new PENDING row under a fresh id with the request's fields, the user and the price |
| BookingServices.BookingService.ConfirmBooking | booking-service/src/main/java/com/samilyak/bookingservice/service/BookingServiceImpl.java:154-160 | only the payment id and the status change; unknown id is not found |
| BookingServices.BookingService.GetUserBookings | booking-service/src/main/java/com/samilyak/bookingservice/service/BookingServiceImpl.java:170-176 | the caller lookup's error, or exactly the caller's bookings |
| BookingServices.BookingService.GetBookingById | booking-service/src/main/java/com/samilyak/bookingservice/service/BookingServiceImpl.java:180-191 | not found first, then the lookup error; the booking iff its user is the caller, access denied iff it is not |
| BookingServices.BookingService.GetUserIdByBookingId | booking-service/src/main/java/com/samilyak/bookingservice/service/BookingServiceImpl.java:195-202 | the booking's user, or not found |
| BookingServices.BookingService.DeleteBookingById | booking-service/src/main/java/com/samilyak/bookingservice/service/BookingServiceImpl.java:206-211 | not found changes nothing; otherwise exactly that booking goes |
| BookingServices.BookingService.GetLastBooking | booking-service/src/main/java/com/samilyak/bookingservice/service/BookingServiceImpl.java:214-217 | an error iff there are no bookings, else the booking with the largest id |
| Payments.FindById | payment-service/src/main/java/com/samilyak/paymentservice/service/PaymentServiceImpl.java:65-70 | found iff some payment has that id; an unknown id is not found |
| Payments.WithSession | payment-service/src/main/java/com/samilyak/paymentservice/service/PaymentServiceImpl.java:99-102 | a row is among them iff it is in the table and carries that session id |
| Payments.FindBySessionId | payment-service/src/main/java/com/samilyak/paymentservice/service/PaymentServiceImpl.java:99-102 | found iff exactly one payment has the session; none is not found, more than one a non-unique error |
| Payments.WithStatusOf | payment-service/src/main/java/com/samilyak/paymentservice/service/PaymentServiceImpl.java:76-80 | only the payment with that id takes the new status (and intent when given); each other payment is unchanged |
| Payments.PaymentsOfUser | payment-service/src/main/java/com/samilyak/paymentservice/service/PaymentServiceImpl.java:86-96 | succeeds iff every owner lookup answers a user; then exactly the payments whose booking belongs to the user |
| Payments.PaymentsOfUserSplits | payment-service/src/main/java/com/samilyak/paymentservice/service/PaymentServiceImpl.java:89-95 | the filter keeps table order: a table's result is its halves' results, one after the other |
| Payments.StatusUpdateIsFound | payment-service/src/main/java/com/samilyak/paymentservice/service/PaymentServiceImpl.java:73-82 | a status update keeps the table well formed, and the payment is then found with the new status |
| Payments.StatusUpdateIsUnguarded | payment-service/src/main/java/com/samilyak/paymentservice/service/PaymentServiceImpl.java:79-80 | any status can follow any other: a second update simply overrides the first |
| Payments.CreatedPaymentIsFound | payment-service/src/main/java/com/samilyak/paymentservice/model/Payment.java:41-42 | a created payment is found by its id, the table stays well formed, and the booking id is then taken |
| Payments.PaymentService.CreatePayment | payment-service/src/main/java/com/samilyak/paymentservice/service/PaymentServiceImpl.java:31-61 | provider and lookup failures, a null user and a duplicate booking id save nothing; otherwise one PENDING payment with the request's fields, the session and the user is appended |
| Payments.PaymentService.GetPaymentById | payment-service/src/main/java/com/samilyak/paymentservice/service/PaymentServiceImpl.java:65-70 | found iff a payment has that id |
| Payments.PaymentService.UpdatePaymentStatus | payment-service/src/main/java/com/samilyak/paymentservice/service/PaymentServiceImpl.java:73-82 | not found iff the id is unknown, and then nothing changes; otherwise the table is the status update of the old one |
| Payments.PaymentService.UpdatePaymentWithIntent | payment-service/src/main/java/com/samilyak/paymentservice/controller/StripeWebhookStubController.java:61-65 | as the status update, also recording the intent id |
| Payments.PaymentService.GetPaymentsByUserId | payment-service/src/main/java/com/samilyak/paymentservice/service/PaymentServiceImpl.java:86-96 | on success exactly the payments whose booking belongs to the user |
| Payments.PaymentService.GetBySessionId | payment-service/src/main/java/com/samilyak/paymentservice/service/PaymentServiceImpl.java:99-102 | the unique payment with that session, an error otherwise |
| PaymentMessaging.InitializationFailure | payment-service/src/main/java/com/samilyak/paymentservice/messaging/kafka/PaymentKafkaListener.java:38-46 | the reason is the fixed prefix followed by the exception's message |
| PaymentMessaging.ReservedReply | payment-service/src/main/java/com/samilyak/paymentservice/messaging/kafka/PaymentKafkaListener.java:26-48 | no event iff the initiation succeeded; otherwise exactly one payment-failed event for that booking and user |
| PaymentMessaging.CancellationCalls | payment-service/src/main/java/com/samilyak/paymentservice/messaging/kafka/PaymentKafkaListener.java:58-68 | a cancel call iff a refund is needed |
| PaymentMessaging.PaymentKafkaListener.OnInventoryReserved | payment-service/src/main/java/com/samilyak/paymentservice/messaging/kafka/PaymentKafkaListener.java:26-48 | initiates with the event's booking, user and price, then sends the reply above |
| PaymentMessaging.PaymentKafkaListener.OnBookingCancellationRequested | payment-service/src/main/java/com/samilyak/paymentservice/messaging/kafka/PaymentKafkaListener.java:54-78 | a cancel call iff a refund is needed, and one payment-canceled event with the booking and payment id whatever the refund did |
| PaymentMessaging.StripeWebhookStub.HandleFakeStripeEvent | payment-service/src/main/java/com/samilyak/paymentservice/controller/StripeWebhookStubController.java:34-91 | a bad signature is a bad request and a missing session "ignored", both with no effect; completed sets PAID with the intent and sends one success event; expired cancels and sends one "Session expired" failure; any other type changes nothing |
| Addresses.LastMatchUpTo | address-service/src/main/java/com/samilyak/addressservice/service/AddressServiceImpl.java:24-29 | the largest id up to n whose row matches the four-field key, if any |
| Addresses.CreateAddress | address-service/src/main/java/com/samilyak/addressservice/service/AddressServiceImpl.java:23-40 | one match returns that row and inserts nothing; no match inserts exactly the request's row under a fresh id; several matches fail |
| Addresses.CreateAddressIsIdempotent | address-service/src/main/java/com/samilyak/addressservice/service/AddressServiceImpl.java:23-40 | two identical requests give the same answer (the same row, or the same several-match failure), and the second inserts nothing |
| Addresses.ZipCodeIsNotMatched | address-service/src/main/java/com/samilyak/addressservice/service/AddressServiceImpl.java:24-29 | requests that differ only in the zip code give the same answer |
| Addresses.UpdateCanDuplicateKey | address-service/src/main/java/com/samilyak/addressservice/service/AddressServiceImpl.java:59-70 | an update can give two rows the same key, after which find-or-insert for that key fails |
| Addresses.IdsInCities | address-service/src/main/java/com/samilyak/addressservice/service/AddressServiceImpl.java:50-55 | exactly the ids of rows in one of the cities |
| Addresses.InCity | address-service/src/main/java/com/samilyak/addressservice/service/AddressServiceImpl.java:89-94 | exactly the rows of that city |
| Addresses.InCountry | address-service/src/main/java/com/samilyak/addressservice/service/AddressServiceImpl.java:81-86 | exactly the rows of that country |
| Addresses.WithIds | address-service/src/main/java/com/samilyak/addressservice/service/AddressServiceImpl.java:73-78 | exactly the rows with one of the ids; unknown ids are skipped |
| Addresses.AddressService.Create | address-service/src/main/java/com/samilyak/addressservice/service/AddressServiceImpl.java:23-40 | the new table, counter and answer are those of CreateAddress on the old state |
| Addresses.AddressService.GetAddressById | address-service/src/main/java/com/samilyak/addressservice/service/AddressServiceImpl.java:43-47 | the row, or not found |
| Addresses.AddressService.UpdateAddress | address-service/src/main/java/com/samilyak/addressservice/service/AddressServiceImpl.java:59-70 | not found changes nothing; otherwise all five fields of that row alone are overwritten |
| Users.ToLower | auth-service/src/main/java/com/samilyak/authservice/service/UserServiceImpl.java:35 | the same length, lower case, and each letter lower-cased |
| Users.ToLowerIdempotent | auth-service/src/main/java/com/samilyak/authservice/service/UserServiceImpl.java:35 | lower-casing twice is lower-casing once, and lower-case strings are fixed |
| Users.UserIdByEmail | auth-service/src/main/java/com/samilyak/authservice/service/UserServiceImpl.java:92-96 | found iff some user has exactly that e-mail, else user not found |
| Users.Register | auth-service/src/main/java/com/samilyak/authservice/service/UserServiceImpl.java:33-51 | a taken lower-cased e-mail is refused with nothing saved; otherwise one user with the lower-cased e-mail, the encoded password and the role defaulting to CUSTOMER is added |
| Users.RegisterThenLookUp | auth-service/src/main/java/com/samilyak/authservice/service/UserServiceImpl.java:33-51 | a registered user is found by the lower-cased e-mail, and registering again in any letter case is refused |
| Users.LookUpIsCaseSensitive | auth-service/src/main/java/com/samilyak/authservice/service/UserServiceImpl.java:92-96 | an e-mail with an upper-case letter finds no user, since stored e-mails are lower case |
| Users.UserService.RegisterUser | auth-service/src/main/java/com/samilyak/authservice/service/UserServiceImpl.java:33-51 | the new table, counter and answer are those of Register on the old state |
| Users.UserService.GetCurrentUserProfile | auth-service/src/main/java/com/samilyak/authservice/service/UserServiceImpl.java:55-63 | the principal iff there is an authenticated one |
| Users.UserService.UpdateCurrentUserProfile | auth-service/src/main/java/com/samilyak/authservice/service/UserServiceImpl.java:66-73 | only the caller's names change |
| Users.UserService.UpdateRoleById | auth-service/src/main/java/com/samilyak/authservice/service/UserServiceImpl.java:76-84 | unknown id is not found and changes nothing; otherwise only that user's role changes |
| Users.UserService.ExistsById | auth-service/src/main/java/com/samilyak/authservice/service/UserServiceImpl.java:87-89 | true iff the id is in the table |
| Users.UserService.GetUserIdByEmail | auth-service/src/main/java/com/samilyak/authservice/service/UserServiceImpl.java:92-96 | found iff some user has exactly that e-mail |
| Users.UserService.ChangePassword | auth-service/src/main/java/com/samilyak/authservice/service/UserServiceImpl.java:100-112 | a mismatching old password is refused and nothing is saved; otherwise only the password becomes the encoded new one |

## Left out

- Transactions and concurrency: each service call is one atomic step; `@Transactional` rollback, caching and Kafka partition ordering are not modelled.
- Broker and HTTP I/O: sent messages are appended to outbox sequences, remote calls to call logs; JSON parsing is only "parsed (Some) or not (None)".
- Remote answers (Feign clients, the Stripe client, the password encoder) and `LocalDate.now()` are parameters of the calls that use them.
- Generated ids (database keys, UUIDs) are a `nextId` counter per table.
- Money is an unbounded integer, not BigDecimal; dates are integer day numbers.
- Booking.java lacks the fields and methods the saga uses. The model adds `paymentCanceled`, `datesUnlocked` and `refundNeeded` (all false at creation); `markPaymentCanceled`/`markDatesUnlocked` set a flag.
- BookingSaga.CancellationStarted: the status `startCancellation` sets is not in the source, so it is the parameter `next`.
- Accommodation.java has no `version` field, although the service reads and bumps one: the model adds it.
- Missing called methods: attemptReservation, initiatePayment and cancelPayment are modelled as a recorded call whose outcome is a parameter.
- Payments.PaymentService.UpdatePaymentWithIntent: updatePaymentWithIntent is not declared; it is read as updatePaymentStatus that also records the intent id.
- The booking-side cancellation event declares four fields but is built with six; the six-field shape of the accommodation side is used.
- Source that does not compile as given:
  - the payment request is built with three of its four fields;
  - the lock request is built with four arguments for three fields;
  - getAccommodationById is called with two arguments;
  - the accommodation DTO is built with eight values for seven fields;
  - createPayment, lockDates and unlockDates are called with an extra bearer-token argument their client interfaces do not declare.
  The model follows the evident intent of each call.
- cancelPayment takes the booking id as text; the model keeps the number.
- Accommodations.AccommodationService.LockDates: the catch of a database failure during the lock is not modelled.
- Accommodations.AccommodationService.DeleteById: the slots of a deleted accommodation stay in the slot table, as in the source.
- The address lookup in the accommodation DTO mapping is left out; the queries return records.
- BookingServices.BookingService.CreateBooking: a null daily rate (a NullPointerException) is not modelled, and the final read-back of the booking is read from the table directly.
- BookingServices.BookingService.CreateBooking: the booking table's unique payment id constraint is not modelled.
- BookingServices.BookingService.CreateBooking: the user lookup by e-mail (getUserIdByEmail) is a parameter and is not recorded in the call log, so the log begins with the accommodation lookup.
- The bearer-token resolution of the booking service is left out; the user lookup's answer is a parameter.
- BookingServices.BookingService.Compensate: the service's private copy of compensate is run through the compensation service, since the two routines perform the same steps.
- PaymentMessaging.StripeWebhookStub.HandleFakeStripeEvent: the webhook secret is a constant field; a null event type, which fails in the switch after the lookup, is the answer NullEventType; the PaymentCanceled event class is missing from the payment service and is modelled with booking id and payment id.
- Addresses.AddressService.UpdateAddress: JPA dirty checking without an explicit save is treated as a write.
- Addresses.CreateAddress: the Optional finder fails when more than one row matches; that is the MoreThanOneMatch error.
- Users.ToLower: lower-casing covers ASCII letters only; Java's is Unicode- and locale-aware.
- Users.Register: the role the mapper puts on the entity is a parameter, since the request carries none; User.java is not part of this model, so the roles CUSTOMER and MANAGER come from the security configuration.
- Users.UserService.UpdateCurrentUserProfile, Users.UserService.ChangePassword: the authenticated principal is taken to be the stored row of that user.
- HTTP controllers, JWT and authentication code, notification delivery, mappers and exception handlers are outside this model.
