/** The flows of the hotel's test suite, run on freshly built hotels: each
    method builds its own hotel, drives it through the commands, and states
    in its contract what the flow observes. */
module Scenarios {
  import opened Types
  import opened Model
  import opened Search
  import opened Registry
  import opened Commands

  /** The hotel of the fixture with its two rooms: a DELUXE room 101 and a
      BUSINESS_SUITE room 102. */
  method SetupRooms() returns (hotel: Hotel, deluxe: Room, business: Room)
    ensures fresh(hotel) && fresh(deluxe) && fresh(business)
    ensures hotel.Valid() && hotel.NoDoubleBookings()
    ensures hotel.rooms == map["101" := deluxe, "102" := business] && hotel.users == map[]
    ensures hotel.bookings == [] && hotel.log == []
    ensures deluxe.number == "101" && deluxe.style == Some(Deluxe) && deluxe.price == 150
    ensures deluxe.status == Available && deluxe.bookings == []
    ensures business.number == "102" && business.style == Some(BusinessSuite)
    ensures business.status == Available && business.bookings == []
  {
    assert "101"[0] == '1' && "102"[0] == '1';
    deluxe := new Room("101", Some(Deluxe), 150, false);
    business := new Room("102", Some(BusinessSuite), 200, false);
    hotel := new Hotel("Grand Plaza");
    hotel.AddRoom(deluxe);
    hotel.AddRoom(business);
  }

  /** The fixture: the hotel with its two rooms, and the guests G001 (Alice)
      and G002 (Bob). */
  method Setup() returns (hotel: Hotel, deluxe: Room, business: Room, alice: Guest, bob: Guest)
    ensures fresh(hotel) && fresh(deluxe) && fresh(business) && fresh(alice) && fresh(bob)
    ensures hotel.Valid() && hotel.NoDoubleBookings()
    ensures hotel.rooms == map["101" := deluxe, "102" := business]
    ensures hotel.users == map["G001" := GuestUser(alice), "G002" := GuestUser(bob)]
    ensures hotel.bookings == [] && hotel.log == []
    ensures deluxe.number == "101" && deluxe.style == Some(Deluxe) && deluxe.price == 150
    ensures deluxe.status == Available && deluxe.bookings == []
    ensures business.number == "102" && business.style == Some(BusinessSuite)
    ensures business.status == Available && business.bookings == []
    ensures alice.id == "G001" && alice.bookings == [] && bob.id == "G002" && bob.bookings == []
  {
    hotel, deluxe, business := SetupRooms();
    alice := new Guest("G001", "Alice");
    bob := new Guest("G002", "Bob");
    hotel.AddUser(GuestUser(alice));
    hotel.AddUser(GuestUser(bob));
  }

  /** The test helper: a BookRoomCommand, then a lookup by the number.
      With a number not used before, the lookup finds the created booking. */
  method BookConfirmed(hotel: Hotel, reservationNumber: string, roomNumber: string, guestId: string,
                       start: int, days: int, now: int)
    returns (failure: Option<Error>, created: RoomBooking?, found: RoomBooking?)
    requires hotel.Valid() && hotel.NoDoubleBookings()
    modifies hotel`bookings, hotel`log, hotel.RoomSet(roomNumber)`bookings, hotel.GuestSet(guestId)`bookings
    ensures hotel.Valid() && hotel.NoDoubleBookings()
    ensures hotel.rooms == old(hotel.rooms) && hotel.users == old(hotel.users)
    ensures failure == old(hotel.CreateRejection(reservationNumber, roomNumber, guestId, Some(start), days, now))
    ensures failure.Some? ==>
      && created == null
      && hotel.bookings == old(hotel.bookings) && hotel.log == old(hotel.log)
      && unchanged(hotel.RoomSet(roomNumber)) && unchanged(hotel.GuestSet(guestId))
    ensures failure.None? ==>
      && roomNumber in hotel.rooms && guestId in hotel.users && hotel.users[guestId].GuestUser?
      && var room := hotel.rooms[roomNumber]; var guest := hotel.users[guestId].guest;
      && created != null && fresh(created) && created.status == Confirmed
      && created.reservationNumber == reservationNumber && created.room == room && created.guest == guest
      && created.start == start && created.duration == days
      && hotel.bookings == old(hotel.bookings) + [created]
      && room.bookings == old(room.bookings) + [created] && room.status == old(room.status)
      && guest.bookings == old(guest.bookings) + [created]
    ensures found == (if WithNumber(hotel.bookings, reservationNumber) == [] then null
                      else WithNumber(hotel.bookings, reservationNumber)[0])
    ensures failure.None? && WithNumber(old(hotel.bookings), reservationNumber) == [] ==> found == created
  {
    var command := new BookRoomCommand(hotel, reservationNumber, roomNumber, guestId, Some(start), days);
    failure := command.Execute(now);
    created := command.createdBooking;
    found := hotel.FindBookingByReservationNumber(reservationNumber);
    if failure.None? && WithNumber(old(hotel.bookings), reservationNumber) == [] {
      WithNumberAppend(old(hotel.bookings), created, reservationNumber);
    }
  }

  /** A booking of room 101 for two days from five days on is confirmed and
      listed under its guest. */
  method SuccessfulBooking(now: int) returns (status: BookingStatus, roomNumber: string, guestId: string, listed: bool)
    ensures status == Confirmed && roomNumber == "101" && guestId == "G001" && listed
  {
    var hotel, deluxe, business, alice, bob := Setup();
    assert "RES_001"[0] == 'R';
    var failure, created, booking := BookConfirmed(hotel, "RES_001", "101", "G001", now + 5 * DAY, 2, now);
    status, roomNumber, guestId, listed := booking.status, booking.room.number, booking.guest.id, booking in alice.bookings;
  }

  /** The fixture with room 101 booked by G001 under reservationNumber and
      confirmed, for the given number of days from five days on. */
  method BookedFixture(reservationNumber: string, days: int, now: int)
    returns (hotel: Hotel, deluxe: Room, business: Room, alice: Guest, bob: Guest, booking: RoomBooking)
    requires !Blank(reservationNumber) && days > 0
    ensures fresh(hotel) && fresh(deluxe) && fresh(business) && fresh(alice) && fresh(bob) && fresh(booking)
    ensures hotel.Valid() && hotel.NoDoubleBookings()
    ensures hotel.rooms == map["101" := deluxe, "102" := business]
    ensures hotel.users == map["G001" := GuestUser(alice), "G002" := GuestUser(bob)]
    ensures hotel.bookings == [booking] && deluxe.bookings == [booking] && alice.bookings == [booking]
    ensures deluxe.status == Available && bob.id == "G002" && bob.bookings == []
    ensures deluxe.style == Some(Deluxe) && business.style == Some(BusinessSuite)
    ensures booking.status == Confirmed && booking.reservationNumber == reservationNumber
    ensures booking.room == deluxe && booking.guest == alice
    ensures booking.start == now + 5 * DAY && booking.duration == days
  {
    hotel, deluxe, business, alice, bob := Setup();
    var failure, created, found := BookConfirmed(hotel, reservationNumber, "101", "G001", now + 5 * DAY, days, now);
    booking := created;
  }

  /** With room 101 booked and confirmed for three days from five days on,
      a second command for two days from the same date is refused as not
      available and leaves no booking under its number. */
  method OverlappingBooking(now: int) returns (failure: Option<Error>, found: bool)
    ensures failure == Some(RoomNotAvailable) && !found
  {
    assert "RES_002"[0] == 'R';
    var hotel, deluxe, business, alice, bob, booking := BookedFixture("RES_002", 3, now);
    assert "RES_003"[0] == 'R' && "RES_002"[6] != "RES_003"[6];
    assert booking.Blocks(now + 5 * DAY, 2) && booking in deluxe.bookings;
    var created, lookup;
    failure, created, lookup := BookConfirmed(hotel, "RES_003", "101", "G002", now + 5 * DAY, 2, now);
    assert WithNumber(hotel.bookings, "RES_003") == [];
    found := lookup != null;
  }

  /** The fixture booking RES_004 cancelled: it leaves the room's list, and a
      second cancel of the number finds nothing. */
  method CancelledFixture(now: int)
    returns (hotel: Hotel, deluxe: Room, business: Room, alice: Guest, bob: Guest,
             status: BookingStatus, inRoomList: bool, again: Option<Error>)
    ensures fresh(hotel) && fresh(deluxe) && fresh(business) && fresh(alice) && fresh(bob)
    ensures hotel.Valid() && hotel.NoDoubleBookings()
    ensures hotel.rooms == map["101" := deluxe, "102" := business]
    ensures hotel.users == map["G001" := GuestUser(alice), "G002" := GuestUser(bob)]
    ensures hotel.bookings == [] && deluxe.bookings == [] && deluxe.status == Available
    ensures status == Cancelled && !inRoomList
    ensures again == Some(InvalidBooking(BookingNotFound))
  {
    assert "RES_004"[0] == 'R';
    var booking;
    hotel, deluxe, business, alice, bob, booking := BookedFixture("RES_004", 2, now);
    var cancel := new CancelBookingCommand(hotel, "RES_004");
    assert cancel.Target() == booking;
    var failure := cancel.Execute();
    status, inRoomList := booking.status, booking in deluxe.bookings;
    again := cancel.Execute();
  }

  /** A confirmed booking is cancelled and leaves the room's list; a second
      cancel of the number finds nothing, and the freed window can be
      booked again. */
  method CancelAndRebook(now: int)
    returns (status: BookingStatus, inRoomList: bool, again: Option<Error>, rebooked: Option<Error>)
    ensures status == Cancelled && !inRoomList
    ensures again == Some(InvalidBooking(BookingNotFound))
    ensures rebooked == None
  {
    var hotel, deluxe, business, alice, bob;
    hotel, deluxe, business, alice, bob, status, inRoomList, again := CancelledFixture(now);
    assert "RES_007"[0] == 'R';
    var created, found;
    rebooked, created, found := BookConfirmed(hotel, "RES_007", "101", "G002", now + 5 * DAY, 2, now);
  }

  /** With room 101 booked from five days on for two days, an availability
      search for DELUXE rooms finds room 101 for one day from now and no
      room for one day from the booked date. */
  method SearchByStyle(now: int) returns (todayCount: nat, futureCount: nat)
    ensures todayCount == 1 && futureCount == 0
  {
    assert "RES_005"[0] == 'R';
    var hotel, deluxe, business, alice, bob, booking := BookedFixture("RES_005", 2, now);
    var today := hotel.SearchRooms(ByAvailability, Some(Deluxe), Some(now), 1);
    var future := hotel.SearchRooms(ByAvailability, Some(Deluxe), Some(now + 5 * DAY), 1);
    assert hotel.rooms["101"] == deluxe && hotel.rooms["102"] == business;
    assert forall r :: r in hotel.rooms.Values <==> r == deluxe || r == business;
    assert !booking.Blocks(now, 1) && booking.Blocks(now + 5 * DAY, 1) && booking in deluxe.bookings;
    assert Matches(ByAvailability, deluxe, Some(Deluxe), Some(now), 1);
    assert !Matches(ByAvailability, deluxe, Some(Deluxe), Some(now + 5 * DAY), 1);
    OnlyElement(today, deluxe);
    DistinctElementsBound(future, {});
    todayCount, futureCount := |today|, |future|;
  }

  /** The fixture with the receptionist R001 registered as well. */
  method StaffedSetup() returns (hotel: Hotel, deluxe: Room, receptionist: Receptionist)
    ensures fresh(hotel) && fresh(deluxe) && fresh(receptionist)
    ensures hotel.Valid() && hotel.NoDoubleBookings()
    ensures "101" in hotel.rooms && hotel.rooms["101"] == deluxe
    ensures deluxe.number == "101" && deluxe.status == Available && deluxe.bookings == []
    ensures "G001" in hotel.users && hotel.users["G001"].GuestUser?
    ensures hotel.users["G001"].guest.id == "G001" && fresh(hotel.users["G001"].guest)
    ensures "R001" in hotel.users && hotel.users["R001"] == ReceptionistUser(receptionist)
  {
    var business, alice, bob;
    hotel, deluxe, business, alice, bob := Setup();
    receptionist := new Receptionist("R001", "John");
    hotel.AddUser(ReceptionistUser(receptionist));
  }

  /** The staffed fixture with room 101 booked by G001 from now for one day. */
  method ReceptionFixture(now: int)
    returns (receptionist: Receptionist, deluxe: Room, booking: RoomBooking)
    ensures fresh(receptionist) && fresh(deluxe) && fresh(booking)
    ensures booking.room == deluxe && deluxe.number == "101" && booking.guest.id == "G001"
    ensures booking.status == Confirmed && deluxe.status == Available
  {
    var hotel;
    hotel, deluxe, receptionist := StaffedSetup();
    assert "RES_006"[0] == 'R';
    var failure, created, found := BookConfirmed(hotel, "RES_006", "101", "G001", now, 1, now);
    booking := created;
  }

  /** Check-in makes the booking CHECKED_IN and its room OCCUPIED; check-out
      makes them CHECKED_OUT and AVAILABLE. */
  method ReceptionistWorkflow(now: int)
    returns (roomNumber: string, guestId: string, inStatus: BookingStatus, inRoom: RoomStatus,
             outStatus: BookingStatus, outRoom: RoomStatus)
    ensures roomNumber == "101" && guestId == "G001"
    ensures inStatus == CheckedIn && inRoom == Occupied
    ensures outStatus == CheckedOut && outRoom == Available
  {
    var receptionist, deluxe, booking := ReceptionFixture(now);
    receptionist.CheckInGuest(booking);
    inStatus, inRoom := booking.status, deluxe.status;
    receptionist.CheckOutGuest(booking);
    outStatus, outRoom := booking.status, deluxe.status;
    roomNumber, guestId := booking.room.number, booking.guest.id;
  }

  /** The fixture with the BUSINESS_SUITE room CON_001 added. */
  method ConcurrencyFixture() returns (hotel: Hotel, con: Room)
    ensures fresh(hotel) && fresh(con)
    ensures hotel.Valid() && hotel.NoDoubleBookings()
    ensures "CON_001" in hotel.rooms && hotel.rooms["CON_001"] == con
    ensures "G001" in hotel.users && hotel.users["G001"].GuestUser? && fresh(hotel.users["G001"].guest)
    ensures con.status == Available && con.bookings == []
  {
    var deluxe, business, alice, bob;
    hotel, deluxe, business, alice, bob := Setup();
    assert "CON_001"[0] == 'C';
    con := new Room("CON_001", Some(BusinessSuite), 250, false);
    hotel.AddRoom(con);
  }

  /** The sequential shadow of the concurrency test: of several commands for
      room CON_001 over the same day, the first succeeds and every later one
      is refused as not available, so the room ends with one booking. */
  method SequentialBookings(attempts: nat, now: int) returns (successes: nat, otherFailures: nat, listed: nat)
    requires attempts >= 1
    ensures successes == 1 && otherFailures == 0 && listed == 1
  {
    var hotel, con := ConcurrencyFixture();
    assert "CON_RES"[0] == 'C';
    successes, otherFailures := 0, 0;
    var i := 0;
    while i < attempts
      invariant 0 <= i <= attempts
      invariant hotel.Valid() && hotel.NoDoubleBookings()
      invariant "CON_001" in hotel.rooms && hotel.rooms["CON_001"] == con
      invariant "G001" in hotel.users && hotel.users["G001"].GuestUser? && fresh(hotel.users["G001"].guest)
      invariant con.status == Available
      invariant successes == (if i == 0 then 0 else 1) && otherFailures == 0
      invariant i == 0 ==> con.bookings == []
      invariant i > 0 ==> |con.bookings| == 1 && con.bookings[0].Blocks(now, 1)
    {
      if i == 0 {
        assert hotel.CreateRejection("CON_RES", "CON_001", "G001", Some(now), 1, now) == None;
      } else {
        assert con.bookings[0] in con.bookings;
        assert hotel.CreateRejection("CON_RES", "CON_001", "G001", Some(now), 1, now) == Some(RoomNotAvailable);
      }
      var failure, created, found := BookConfirmed(hotel, "CON_RES", "CON_001", "G001", now, 1, now);
      successes := successes + if failure.None? then 1 else 0;
      otherFailures := otherFailures + if failure.Some? && failure != Some(RoomNotAvailable) then 1 else 0;
      i := i + 1;
    }
    listed := |con.bookings|;
  }

  /** The fixture with room 101 booked through createBooking alone, for two
      days from five days on: the booking is left PENDING. */
  method OnePending(now: int) returns (hotel: Hotel, deluxe: Room, bob: Guest, first: RoomBooking)
    ensures fresh(hotel) && fresh(deluxe) && fresh(bob) && fresh(first)
    ensures hotel.Valid()
    ensures "101" in hotel.rooms && hotel.rooms["101"] == deluxe && deluxe.status == Available
    ensures "G002" in hotel.users && hotel.users["G002"] == GuestUser(bob)
    ensures hotel.bookings == [first] && deluxe.bookings == [first]
    ensures first.room == deluxe && first.status == Pending
    ensures first.start == now + 5 * DAY && first.duration == 2
  {
    var business, alice;
    hotel, deluxe, business, alice, bob := Setup();
    assert "RES_101"[0] == 'R';
    var result := hotel.CreateBooking("RES_101", "101", "G001", Some(now + 5 * DAY), 2, now);
    assert result.Success?;
    first := result.value;
  }

  /** A second createBooking for the same room and window succeeds as well:
      the first booking, still PENDING, does not block it. */
  method TwoPending(now: int) returns (hotel: Hotel, first: RoomBooking, second: RoomBooking)
    ensures fresh(hotel) && fresh(first) && fresh(second)
    ensures hotel.Valid() && hotel.bookings == [first, second]
    ensures first != second && first.room == second.room
    ensures first.status == Pending && second.status == Pending
    ensures first.start == now + 5 * DAY && first.duration == 2
    ensures second.start == now + 5 * DAY && second.duration == 2
  {
    var deluxe, bob;
    hotel, deluxe, bob, first := OnePending(now);
    assert "RES_102"[0] == 'R';
    assert !first.Blocks(now + 5 * DAY, 2);
    var result := hotel.CreateBooking("RES_102", "101", "G002", Some(now + 5 * DAY), 2, now);
    assert result.Success?;
    second := result.value;
  }

  /** Confirming both pending bookings of TwoPending leaves two CONFIRMED
      bookings of one room whose windows overlap: only the command, which
      confirms at once, keeps the room free of double bookings. */
  method PendingBookingsDoNotBlock(now: int)
    returns (firstStatus: BookingStatus, secondStatus: BookingStatus, sameRoom: bool, overlapping: bool)
    ensures firstStatus == Confirmed && secondStatus == Confirmed && sameRoom && overlapping
  {
    var hotel, first, second := TwoPending(now);
    hotel.ConfirmBooking(first);
    hotel.ConfirmBooking(second);
    firstStatus, secondStatus := first.status, second.status;
    sameRoom := first.room == second.room;
    overlapping := Overlaps(first.start, first.duration, second.start, second.duration);
  }
}
