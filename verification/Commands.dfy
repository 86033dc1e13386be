/** The command objects: booking a room (create, then confirm at once) and
    cancelling a booking by its reservation number. */
module Commands {
  import opened Types
  import opened Model
  import opened Registry

  /** Books a room for a guest and confirms the booking straight away. */
  class BookRoomCommand {
    const hotel: Hotel
    const reservationNumber: string
    const roomNumber: string
    const guestId: string
    const start: Option<int>
    const days: int
    /** The booking made by the last successful execution, or null. */
    var createdBooking: RoomBooking?

    constructor (hotel: Hotel, reservationNumber: string, roomNumber: string, guestId: string,
                 start: Option<int>, days: int)
      ensures this.hotel == hotel && this.reservationNumber == reservationNumber
      ensures this.roomNumber == roomNumber && this.guestId == guestId
      ensures this.start == start && this.days == days
      ensures createdBooking == null
    {
      this.hotel := hotel;
      this.reservationNumber := reservationNumber;
      this.roomNumber := roomNumber;
      this.guestId := guestId;
      this.start := start;
      this.days := days;
      createdBooking := null;
    }

    /** Creates the booking and, when that succeeds, confirms it and records
        it as the created booking. A failed creation is returned as the
        error, leaves the hotel as it was and does not touch createdBooking. */
    method Execute(now: int) returns (failure: Option<Error>)
      requires hotel.Valid()
      modifies this`createdBooking, hotel`bookings, hotel`log, hotel.RoomSet(roomNumber)`bookings, hotel.GuestSet(guestId)`bookings
      ensures hotel.Valid()
      ensures hotel.rooms == old(hotel.rooms) && hotel.users == old(hotel.users)
      ensures failure == old(hotel.CreateRejection(reservationNumber, roomNumber, guestId, start, days, now))
      ensures failure.Some? ==>
        && createdBooking == old(createdBooking)
        && hotel.bookings == old(hotel.bookings) && hotel.log == old(hotel.log)
        && unchanged(hotel.RoomSet(roomNumber)) && unchanged(hotel.GuestSet(guestId))
      ensures failure.None? ==>
        && roomNumber in hotel.rooms && guestId in hotel.users && hotel.users[guestId].GuestUser?
        && var b := createdBooking; var room := hotel.rooms[roomNumber]; var guest := hotel.users[guestId].guest;
        && b != null && fresh(b) && b.status == Confirmed
        && b.reservationNumber == reservationNumber && b.room == room && b.guest == guest
        && start == Some(b.start) && b.duration == days
        && hotel.bookings == old(hotel.bookings) + [b]
        && room.bookings == old(room.bookings) + [b] && room.status == old(room.status)
        && guest.bookings == old(guest.bookings) + [b]
        && hotel.log == old(hotel.log) + [Notification(guestId, reservationNumber, roomNumber, BookingConfirmed)]
      ensures old(hotel.NoDoubleBookings()) ==> hotel.NoDoubleBookings()
    {
      var booking;
      failure, booking := CreateThenConfirm(now);
      if failure.None? {
        createdBooking := booking;
      }
    }

    /** The hotel's part of execute: createBooking, then confirmBooking on
        the booking it returns. */
    method CreateThenConfirm(now: int) returns (failure: Option<Error>, booking: RoomBooking?)
      requires hotel.Valid()
      modifies hotel`bookings, hotel`log, hotel.RoomSet(roomNumber)`bookings, hotel.GuestSet(guestId)`bookings
      ensures hotel.Valid()
      ensures hotel.rooms == old(hotel.rooms) && hotel.users == old(hotel.users)
      ensures failure == old(hotel.CreateRejection(reservationNumber, roomNumber, guestId, start, days, now))
      ensures failure.Some? ==>
        && booking == null
        && hotel.bookings == old(hotel.bookings) && hotel.log == old(hotel.log)
        && unchanged(hotel.RoomSet(roomNumber)) && unchanged(hotel.GuestSet(guestId))
      ensures failure.None? ==>
        && roomNumber in hotel.rooms && guestId in hotel.users && hotel.users[guestId].GuestUser?
        && var room := hotel.rooms[roomNumber]; var guest := hotel.users[guestId].guest;
        && booking != null && fresh(booking) && booking.status == Confirmed
        && booking.reservationNumber == reservationNumber && booking.room == room && booking.guest == guest
        && start == Some(booking.start) && booking.duration == days
        && hotel.bookings == old(hotel.bookings) + [booking]
        && room.bookings == old(room.bookings) + [booking] && room.status == old(room.status)
        && guest.bookings == old(guest.bookings) + [booking]
        && hotel.log == old(hotel.log) + [Notification(guestId, reservationNumber, roomNumber, BookingConfirmed)]
      ensures old(hotel.NoDoubleBookings()) ==> hotel.NoDoubleBookings()
    {
      var result := hotel.CreateBooking(reservationNumber, roomNumber, guestId, start, days, now);
      if result.Failure? {
        return Some(result.error), null;
      }
      booking := result.value;
      ghost var room, guest := hotel.rooms[roomNumber], hotel.users[guestId].guest;
      ghost var roomList, guestList, all, log := room.bookings, guest.bookings, hotel.bookings, hotel.log;
      assert booking.guest.id == guestId && booking.room.number == roomNumber;
      assert !ConflictIn(booking.room.bookings, booking.start, booking.duration);
      hotel.ConfirmBooking(booking);
      assert room.bookings == roomList && guest.bookings == guestList && hotel.bookings == all;
      assert hotel.log == log + [Notification(guestId, reservationNumber, roomNumber, BookingConfirmed)];
      return None, booking;
    }
  }

  /** Cancels the booking found under a reservation number. */
  class CancelBookingCommand {
    const hotel: Hotel
    const reservationNumber: string

    constructor (hotel: Hotel, reservationNumber: string)
      ensures this.hotel == hotel && this.reservationNumber == reservationNumber
    {
      this.hotel := hotel;
      this.reservationNumber := reservationNumber;
    }

    /** The booking the lookup finds: the first with the number, or null. */
    function Target(): (target: RoomBooking?)
      reads this, hotel
    {
      var matches := WithNumber(hotel.bookings, reservationNumber);
      if matches == [] then null else matches[0]
    }

    /** Looks the booking up and cancels it; an unknown number is an error
        and changes nothing. A booking in any status but PENDING or CONFIRMED
        is found, left as it is, and no error is returned. */
    method Execute() returns (failure: Option<Error>)
      requires hotel.Valid()
      modifies hotel`bookings, hotel`log, (if Target() == null then {} else {Target()})`status
      modifies (if Target() == null then {} else {Target().room})`bookings
      modifies (if Target() == null then {} else {Target().guest})`bookings
      ensures hotel.Valid()
      ensures hotel.rooms == old(hotel.rooms) && hotel.users == old(hotel.users)
      ensures old(Target()) == null ==>
        && failure == Some(InvalidBooking(BookingNotFound))
        && hotel.bookings == old(hotel.bookings) && hotel.log == old(hotel.log)
      ensures old(Target()) != null ==>
        && failure == None
        && var b := old(Target());
        && (old(b.status) in {Pending, Confirmed} ==>
              && b.status == Cancelled
              && hotel.bookings == RemoveFirst<RoomBooking>(old(hotel.bookings), b)
              && b.room.bookings == RemoveFirst<RoomBooking>(old(b.room.bookings), b)
              && b.room.status == old(b.room.status)
              && b.guest.bookings == RemoveFirst<RoomBooking>(old(b.guest.bookings), b)
              && WithNumber(hotel.bookings, reservationNumber) == old(WithNumber(hotel.bookings, reservationNumber))[1..]
              && hotel.log == old(hotel.log) + [Notification(b.guest.id, reservationNumber, b.room.number, BookingCancelled)])
        && (old(b.status) !in {Pending, Confirmed} ==>
              && hotel.bookings == old(hotel.bookings) && hotel.log == old(hotel.log)
              && unchanged(b, b.room, b.guest))
      ensures old(hotel.NoDoubleBookings()) ==> hotel.NoDoubleBookings()
    {
      var booking := hotel.FindBookingByReservationNumber(reservationNumber);
      if booking == null {
        return Some(InvalidBooking(BookingNotFound));
      }
      assert booking == old(Target());
      ghost var status, rooms, users := booking.status, hotel.rooms, hotel.users;
      hotel.CancelBooking(booking);
      assert hotel.rooms == rooms && hotel.users == users;
      if status == Pending || status == Confirmed {
        RemoveFirstMatch(old(hotel.bookings), reservationNumber);
      }
      return None;
    }
  }
}
