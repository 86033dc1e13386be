# Hotel booking engine, modelled in Dafny

This project models the booking engine of a small Java hotel management
system. A `Hotel` registers rooms by number and users by id, and keeps a
global list of room bookings. Each `Room` has an occupancy status and its
own booking list, and each `Guest` has a booking list too. `createBooking`
validates a request, asks the room whether the window is free and, when it
is, adds a new PENDING booking to all three lists. `confirmBooking` and
`cancelBooking` are status-guarded transitions, and cancel removes the
booking from all three lists. A receptionist checks guests in and out.
Two command objects drive the hotel: `BookRoomCommand` creates and then
confirms a booking, and `CancelBookingCommand` looks a booking up and
cancels it. Two search strategies filter a list of rooms by availability
and by style.

The model is sequential. Dates are integer millisecond timestamps. A day is
`DAY = 86400000` ms, and adding n calendar days is adding `n * DAY`. The
clock is a parameter `now`. A null `Date` is `Option.None`, and a null room
style is `None` too. The notifications sent to a guest become entries
(guest id, reservation number, room number, kind) in a ghost `log` on the
hotel.

Files and modules:

- `Types.dfy` (`Types`): statuses, errors, notifications, the overlap test
  of the availability scan, and the list operations (`List.remove` as
  `RemoveFirst`), with their lemmas.
- `Model.dfy` (`Model`): the classes `RoomBooking`, `Room`, `Guest` and
  `Receptionist`, plus the `User` datatype. They share one module because
  each refers to the others.
- `Search.dfy` (`Search`): the two search strategies. Each is a loop
  specified by the pure filter `Matching`.
- `Hotel.dfy` (`Registry`): the `Hotel` class. Its invariant `Valid()`
  says that rooms and users sit under their own keys and that the three
  booking lists are in lockstep. Its property `NoDoubleBookings()` says
  that no two CONFIRMED/CHECKED_IN bookings of one room overlap.
- `Commands.dfy` (`Commands`): the two command classes.
- `Scenarios.dfy` (`Scenarios`): the flows of the repository's test suite
  on freshly built hotels, each stating in its contract what the flow
  observes.

The main properties proved:

- Every failed `createBooking` returns the first failing check, in the
  source's order, and changes nothing.
- A successful one appends exactly one PENDING booking to the three lists.
- Cancel removes the booking from all three lists, and the next lookup of
  its number finds the next booking with that number.
- The lockstep invariant is kept by createBooking, confirmBooking,
  cancelBooking and both commands. addRoom and addUser keep it for a room
  or guest that has no bookings or is already registered.
- Booking through the commands never creates a double booking.
- Bookings that are not active never block the availability scan.
  `PendingBookingsDoNotBlock` uses this to show that two overlapping
  bookings made with `createBooking` alone can both be confirmed.

## Model

Source paths are relative to the repository root.

| member | source | states |
|---|---|---|
| Types.OverlapsSymmetric | src/main/java/pratikwayase/model/Room.java:73-74 | the overlap test gives the same answer with the requested and the existing window swapped |
| Types.OverlapsIffSharedInstant | src/main/java/pratikwayase/model/Room.java:57-76 | for positive durations the strict before/before test holds exactly when the two half-open windows share an instant |
| Types.AdjacentStaysDoNotOverlap | src/main/java/pratikwayase/model/Room.java:73-74 | a stay that begins the instant another ends conflicts with it in neither order |
| Types.ThreeDayStayExamples | src/main/java/pratikwayase/model/Room.java:57-76 | against a three-day stay from D, a request for [D+2, D+4) overlaps, while [D+3, D+5) and [D-1, D) do not |
| Types.RemoveFirst | src/main/java/pratikwayase/model/Room.java:118-125 | List.remove(Object): the result holds only input elements, equals the input when x is absent, and is one shorter when x is present |
| Types.RemoveFirstSplice | src/main/java/pratikwayase/model/Room.java:118-125 | when x is present, the removal cuts out its first occurrence, at an index before which x does not appear, and keeps the elements before and after it in their order |
| Types.RemoveFirstMultiset | src/main/java/pratikwayase/model/Guest.java:32-34 | the removal takes away exactly one occurrence of x: the multiset of the result is the input's minus {x} |
| Types.RemoveFirstNoDuplicates | src/main/java/pratikwayase/model/Hotel.java:174-178 | on a list without duplicates the removal leaves no x, keeps every other element, and keeps the list free of duplicates |
| Types.RemoveFirstAppended | src/main/java/pratikwayase/model/Hotel.java:140-144 | removing the booking just appended restores the list as it was before the append |
| Model.BookingRejection | src/main/java/pratikwayase/model/RoomBooking.java:22-37 | the constructor accepts exactly when the number is not blank, room and guest are present, the start is not before now minus a day and the duration is positive; a blank number is reported before anything else |
| Model.RoomBooking.constructor | src/main/java/pratikwayase/model/RoomBooking.java:39-45 | the fields are the arguments, the status is PENDING and the total price is room price times duration |
| Model.RoomBooking.Create | src/main/java/pratikwayase/model/RoomBooking.java:20-46 | fails, with the reason of the first failing check, exactly when a check fails; otherwise a fresh PENDING booking carrying the arguments |
| Model.RoomBooking.SetStatus | src/main/java/pratikwayase/model/RoomBooking.java:63-65 | any status is assigned, with no transition guard, and nothing else changes |
| Model.AdmitFreeBooking | src/main/java/pratikwayase/model/Hotel.java:134-143 | appending a booking whose window the scan found free keeps a list free of double bookings |
| Model.InactiveBookingNeverBlocks | src/main/java/pratikwayase/model/Room.java:64-65 | a booking that is not CONFIRMED or CHECKED_IN never changes the outcome of the scan |
| Model.RoomRejection | src/main/java/pratikwayase/model/Room.java:23-28 | the room constructor accepts exactly a non-blank number and a positive price |
| Model.Room.constructor | src/main/java/pratikwayase/model/Room.java:17-35 | a new room carries its arguments, is AVAILABLE and has an empty booking list |
| Model.Room.Create | src/main/java/pratikwayase/model/Room.java:20-35 | fails, with the reason of the first failing check, exactly when a check fails; otherwise a fresh AVAILABLE room with no bookings |
| Model.Room.IsRoomAvailable | src/main/java/pratikwayase/model/Room.java:43-84 | true exactly when a date is given, the duration is positive, the room is AVAILABLE and no CONFIRMED/CHECKED_IN booking overlaps the half-open window; changes nothing |
| Model.Room.CheckIn | src/main/java/pratikwayase/model/Room.java:87-95 | the status becomes OCCUPIED whatever it was; the booking list is untouched |
| Model.Room.CheckOut | src/main/java/pratikwayase/model/Room.java:97-105 | the status becomes AVAILABLE whatever it was; the booking list is untouched |
| Model.Room.AddBooking | src/main/java/pratikwayase/model/Room.java:108-115 | the booking is appended at the end; the status is unchanged |
| Model.Room.RemoveBooking | src/main/java/pratikwayase/model/Room.java:118-125 | the first occurrence of the booking is removed, if any; the status is unchanged |
| Model.OccupiedRoomUnavailable | src/main/java/pratikwayase/model/Room.java:52-54 | an OCCUPIED room is unavailable for every window |
| Model.Guest.constructor | src/main/java/pratikwayase/model/Guest.java:15-19 | a new guest has an empty booking list |
| Model.Guest.GetBookings | src/main/java/pratikwayase/model/Guest.java:22-24 | returns the list's current contents, as a snapshot, and changes nothing |
| Model.Guest.AddBooking | src/main/java/pratikwayase/model/Guest.java:27-29 | the booking is appended at the end |
| Model.Guest.RemoveBooking | src/main/java/pratikwayase/model/Guest.java:32-34 | the first occurrence of the booking is removed; an absent booking leaves the list as it was |
| Model.Receptionist.constructor | src/main/java/pratikwayase/model/Receptionist.java:8-10 | a receptionist with the given id |
| Model.Receptionist.CheckInGuest | src/main/java/pratikwayase/model/Receptionist.java:22-30 | for any booking, whatever its status: CHECKED_IN, its room OCCUPIED and unavailable for every window, the room's list unchanged; a checked-in CONFIRMED booking keeps the room free of double bookings; null changes nothing |
| Model.Receptionist.CheckOutGuest | src/main/java/pratikwayase/model/Receptionist.java:37-45 | for any booking: CHECKED_OUT and its room AVAILABLE, the room's list unchanged and still free of double bookings; null changes nothing |
| Model.User.Type | src/main/java/pratikwayase/model/Guest.java:17-19 | the account type is GUEST exactly for guests |
| Search.AvailabilitySearch | src/main/java/pratikwayase/strategy/RoomAvailabilitySearchStrategy.java:9-17 | the loop returns the filter Matching(ByAvailability): the available rooms of the given style, or of any style for a null style, in input order |
| Search.StyleSearch | src/main/java/pratikwayase/strategy/RoomStyleSearchStrategy.java:10-20 | the loop returns the filter Matching(ByStyle): the rooms of exactly the given style that are available, in input order |
| Search.Run | src/main/java/pratikwayase/model/Hotel.java:94 | the strategy object's search returns its filter |
| Search.MatchingMembers | src/main/java/pratikwayase/strategy/RoomAvailabilitySearchStrategy.java:11-16 | a room is in the result exactly when it is in the input and meets the strategy's condition |
| Search.MatchingIsSubsequence | src/main/java/pratikwayase/strategy/RoomAvailabilitySearchStrategy.java:10-16 | the result is a subsequence of the input, kept in input order, and is never longer |
| Search.MatchingMask | src/main/java/pratikwayase/strategy/RoomStyleSearchStrategy.java:11-19 | the result is the input selected by one flag per room, set exactly when the room meets the condition |
| Search.MatchingNoDuplicates | src/main/java/pratikwayase/strategy/RoomStyleSearchStrategy.java:11-19 | distinct input rooms give distinct result rooms |
| Search.NullStyleIsWildcard | src/main/java/pratikwayase/strategy/RoomAvailabilitySearchStrategy.java:12 | with a null style the availability strategy keeps every available room |
| Search.NullStyleMatchesOnlyUnstyled | src/main/java/pratikwayase/strategy/RoomStyleSearchStrategy.java:15 | with a null style the style strategy keeps only rooms whose own style is null |
| Search.NonPositiveDurationFindsNothing | src/main/java/pratikwayase/model/Room.java:45-47 | a duration that is not positive gives an empty result under either strategy |
| Registry.WithNumber | src/main/java/pratikwayase/model/Hotel.java:76-83 | the bookings carrying the number are exactly those of the list with that number, and no more numerous than the list |
| Registry.RemoveFirstMatch | src/main/java/pratikwayase/model/Hotel.java:171-178 | removing the first booking with a number drops exactly that one from the matches, so the next lookup finds the one after it |
| Registry.WithNumberRemoveOther | src/main/java/pratikwayase/model/Hotel.java:76-83 | removing a booking with a different number leaves the bookings with this number unchanged, so their lookup finds the same booking after a cancel |
| Registry.WithNumberAppend | src/main/java/pratikwayase/model/Hotel.java:119-141 | duplicate numbers are not rejected: appending a booking extends the matches by it exactly when it carries the number |
| Registry.ValuesOf | src/main/java/pratikwayase/model/Hotel.java:94 | the copy of the map's values lists every value once and nothing else |
| Registry.ListedAfterAppend | src/main/java/pratikwayase/model/Hotel.java:140-144 | appending a new booking to the global list and to the lists it belongs to keeps every room and guest list in lockstep |
| Registry.ListedAfterRemove | src/main/java/pratikwayase/model/Hotel.java:174-178 | removing a booking from the global list and from the lists it belongs to keeps every list in lockstep |
| Registry.Hotel.RoomsFreeOfDoubleBookings | src/main/java/pratikwayase/model/Hotel.java:140-144 | with the lists in lockstep, the global list has no double booking exactly when no registered room's list has one |
| Registry.Hotel.constructor | src/main/java/pratikwayase/model/Hotel.java:20-31 | a new hotel has no rooms, users, bookings or notifications, and its invariant holds |
| Registry.Hotel.AddRoom | src/main/java/pratikwayase/model/Hotel.java:38-40 | the room is stored under its number, replacing any previous room; the invariant is kept when the room is unbooked or already registered, and the no-double-booking property is unchanged |
| Registry.Hotel.AddUser | src/main/java/pratikwayase/model/Hotel.java:47-51 | the user is stored under its id, replacing any previous user; the invariant is kept when a guest is unbooked or already registered, and the no-double-booking property is unchanged |
| Registry.Hotel.FindBookingByReservationNumber | src/main/java/pratikwayase/model/Hotel.java:76-83 | null exactly when no booking carries the number; otherwise the first booking in list order that carries it |
| Registry.Hotel.SearchRooms | src/main/java/pratikwayase/model/Hotel.java:93-95 | the result lists, once each, exactly the registered rooms the strategy keeps; nothing changes |
| Registry.Hotel.CreateBooking | src/main/java/pratikwayase/model/Hotel.java:109-148 | fails with the first failing check (past start, duration, blank number, unknown room, not a guest, room not available) and changes nothing; otherwise one fresh PENDING booking is appended to the global, room and guest lists; invariant and no-double-booking kept |
| Registry.Hotel.Commit | src/main/java/pratikwayase/model/Hotel.java:138-147 | the booking joins the global list, the room's list and the guest's list, keeping the lists in lockstep; a booking that is not active adds no double booking |
| Registry.Hotel.ConfirmBooking | src/main/java/pratikwayase/model/Hotel.java:151-165 | PENDING becomes CONFIRMED and only that booking's guest is notified with its reservation and room numbers; any other status, or null, changes nothing; a booking the scan found free keeps the room free of double bookings |
| Registry.Hotel.CancelBooking | src/main/java/pratikwayase/model/Hotel.java:171-190 | PENDING or CONFIRMED becomes CANCELLED, leaves the room, guest and global lists, and its guest is notified; any other status, or null, changes nothing; invariant and no-double-booking kept |
| Registry.Hotel.Withdraw | src/main/java/pratikwayase/model/Hotel.java:174-178 | the booking is removed from its room's list, its guest's list and the global list, and the lists stay in lockstep |
| Commands.BookRoomCommand.constructor | src/main/java/pratikwayase/command/BookRoomCommand.java:26-33 | the command holds its arguments and no created booking |
| Commands.BookRoomCommand.Execute | src/main/java/pratikwayase/command/BookRoomCommand.java:36-46 | a failed creation propagates its error, changes nothing and keeps the previous created booking; otherwise the new booking is CONFIRMED, in all three lists, recorded as the created booking, and its guest is notified; no double booking appears |
| Commands.BookRoomCommand.CreateThenConfirm | src/main/java/pratikwayase/command/BookRoomCommand.java:39-40 | createBooking, then confirmBooking on the booking it returns, with the same outcome on the hotel as Execute |
| Commands.CancelBookingCommand.constructor | src/main/java/pratikwayase/command/CancelBookingCommand.java:17-20 | the command holds its hotel and number |
| Commands.CancelBookingCommand.Execute | src/main/java/pratikwayase/command/CancelBookingCommand.java:23-31 | an unknown number is an InvalidBooking error that changes nothing; a found PENDING/CONFIRMED booking is cancelled and removed, and the next lookup of its number finds the next match; other statuses are left as they are, without error |
| Scenarios.SetupRooms | src/test/java/pratikwayase/HotelTest.java:41-48 | the fixture hotel holds room 101 (DELUXE) and room 102 (BUSINESS_SUITE), both AVAILABLE and unbooked |
| Scenarios.Setup | src/test/java/pratikwayase/HotelTest.java:40-59 | the fixture adds guests G001 and G002; the invariant and the no-double-booking property hold |
| Scenarios.BookConfirmed | src/test/java/pratikwayase/HotelTest.java:67-72 | the test helper: a BookRoomCommand then a lookup; with a number not used before, the lookup finds the created booking |
| Scenarios.SuccessfulBooking | src/test/java/pratikwayase/HotelTest.java:89-96 | a booking of room 101 by G001 is CONFIRMED and listed under the guest |
| Scenarios.BookedFixture | src/test/java/pratikwayase/HotelTest.java:101 | room 101 booked by G001 and confirmed for the given days from five days on |
| Scenarios.OverlappingBooking | src/test/java/pratikwayase/HotelTest.java:98-109 | a second command overlapping a confirmed stay fails with RoomNotAvailable and leaves no booking under its number |
| Scenarios.CancelledFixture | src/test/java/pratikwayase/HotelTest.java:111-120 | the cancelled booking is CANCELLED and out of the room's list; a second cancel of its number is not found |
| Scenarios.CancelAndRebook | src/main/java/pratikwayase/model/Hotel.java:171-178 | after the cancel, the freed window of room 101 can be booked again |
| Scenarios.SearchByStyle | src/test/java/pratikwayase/HotelTest.java:122-137 | with room 101 booked from five days on, a DELUXE availability search finds one room for today and none for the booked date |
| Scenarios.StaffedSetup | src/test/java/pratikwayase/HotelTest.java:141-143 | the fixture with receptionist R001 registered as well |
| Scenarios.ReceptionFixture | src/test/java/pratikwayase/HotelTest.java:145 | room 101 booked by G001 from today for one day and confirmed |
| Scenarios.ReceptionistWorkflow | src/test/java/pratikwayase/HotelTest.java:139-156 | check-in gives CHECKED_IN and OCCUPIED; check-out gives CHECKED_OUT and AVAILABLE |
| Scenarios.ConcurrencyFixture | src/test/java/pratikwayase/HotelTest.java:161-162 | the fixture with room CON_001 (BUSINESS_SUITE) added, AVAILABLE and unbooked |
| Scenarios.SequentialBookings | src/test/java/pratikwayase/HotelTest.java:158-191 | run one after another, of any number of commands for CON_001 over the same day exactly one succeeds, the others fail only with RoomNotAvailable, and the room ends with one booking |
| Scenarios.OnePending | src/main/java/pratikwayase/model/Hotel.java:138-147 | createBooking alone leaves the new booking PENDING in the global and room lists |
| Scenarios.TwoPending | src/main/java/pratikwayase/model/Room.java:64-65 | a PENDING booking does not block a second createBooking for the same room and window |
| Scenarios.PendingBookingsDoNotBlock | src/main/java/pratikwayase/model/Hotel.java:151-165 | confirming both pending bookings leaves two CONFIRMED bookings of one room whose windows overlap |

## Left out

- Threads, locks, `synchronized`, `volatile` and the concurrent maps are not modelled: the model is sequential. The thread-pool test is modelled by `SequentialBookings`, one attempt after another. The concurrent claim that only one thread succeeds is not proved. The availability check and the insert take the lock separately, and a new booking is PENDING, which the scan ignores.
- Scenarios.SequentialBookings: every attempt uses the same reservation number, `CON_RES`. The test uses the thread id, and the availability check never looks at the number.
- `java.util.Date` and `Calendar`: time zones and daylight-saving shifts are not modelled, because a day is a fixed 86400000 ms.
- Registry.Hotel.CreateBooking: reads the clock once, as `now`. The source reads it once in `createBooking` and again in the `RoomBooking` constructor.
- Prices are positive integers and the total price is their exact product. Floating-point rounding of the `double` prices is not modelled.
- Printing is not modelled, including the text `Guest.update` renders. A notification is recorded as an entry in the ghost `log`.
- A null string is not distinguished from a blank one for the reservation number (Hotel.java:119, RoomBooking.java:22) and for the room number given to the Room constructor (Room.java:23). Both fail the same check there.
- Registry.Hotel.CreateBooking: a null room number or a null guest id makes the map lookup throw NullPointerException (Hotel.java:123 and 128). Strings are never null in the model, so these exits are not represented. A blank room number is looked up like any other and fails as a room not found.
- Registry.Hotel.AddUser: a user with a null id makes `users.put` throw NullPointerException (Hotel.java:48). This exit is not represented either.
- Model.Guest.GetBookings: Java returns a live read-only view of the list, so a later add or remove on the guest shows through a view obtained earlier. The model returns a snapshot of the list at the call, so that aliasing is not captured.
- Model.Receptionist.CheckInGuest: a booking with a null room cannot be built (the constructor rejects it), so that branch of the null test is not represented. The same holds for Model.Receptionist.CheckOutGuest.
- Registry.Hotel.SearchRooms: `rooms.values()` has an order a hash map leaves unspecified. The model fixes membership and distinctness of the result, not its order.
- `findUserById`, `findRoomByNumber` and `getName` are plain map reads and a getter. The scenarios read `rooms`, `users` and `name` directly.
- `getCreatedBooking` is modelled as the `createdBooking` field that Execute's contract describes.
- `RoomStyle.java`, `AccountType.java`, `BookingStatus.java` and `RoomStatus.java` are not part of this model's sources. The values of `RoomStyle` are the ones the code uses: DELUXE, BUSINESS_SUITE and FAMILY_SUITE.
- `Main.java`, the service templates, `SystemNotifier`, `BookingConfirmationEvent`, the room factories, the `SearchStrategy` interface and `PaymentStatus` are left out. They only print, are unused, or wrap the `Room` constructor. The strategy interface is the `Strategy` datatype.
- Registry.Hotel.Withdraw: does not promise the no-double-booking property itself. CancelBooking, which calls it after the status change, proves it.
- Commands.CancelBookingCommand.Execute: states that the cancelled booking leaves the three lists through their `RemoveFirst` equalities. The fact that it is no longer in any of them follows from those equalities and `Valid()`.
