/** The entities of the booking engine: bookings, rooms, guests and the
    receptionist. The classes refer to one another (a booking knows its room
    and guest, both keep lists of bookings), so they share one module. */
module Model {
  import opened Types

  // ---------------------------------------------------------------------
  // RoomBooking

  /** The first check the booking constructor fails, in its order, or None. */
  function BookingRejection(reservationNumber: string, room: Room?, guest: Guest?,
                            start: Option<int>, days: int, now: int): (r: Option<InvalidReason>)
    ensures r == None <==>
      !Blank(reservationNumber) && room != null && guest != null && !IsPastStart(start, now) && days > 0
    ensures Blank(reservationNumber) ==> r == Some(BlankReservationNumber)
  {
    if Blank(reservationNumber) then Some(BlankReservationNumber)
    else if room == null then Some(MissingRoom)
    else if guest == null then Some(MissingGuest)
    else if IsPastStart(start, now) then Some(PastStart)
    else if days <= 0 then Some(NonPositiveDuration)
    else None
  }

  /** A reservation of one room by one guest. Everything but the status is
      fixed at construction. */
  class RoomBooking {
    const reservationNumber: string
    const room: Room
    const guest: Guest
    const start: int
    const duration: int
    const totalPrice: int
    var status: BookingStatus

    /** The constructor after its checks have passed; see Create for the
        checks themselves. */
    constructor (reservationNumber: string, room: Room, guest: Guest, start: int, duration: int, now: int)
      requires BookingRejection(reservationNumber, room, guest, Some(start), duration, now) == None
      ensures this.reservationNumber == reservationNumber && this.room == room && this.guest == guest
      ensures this.start == start && this.duration == duration
      ensures status == Pending
      ensures totalPrice == room.price * duration
    {
      this.reservationNumber := reservationNumber;
      this.room := room;
      this.guest := guest;
      this.start := start;
      this.duration := duration;
      this.status := Pending;
      this.totalPrice := room.price * duration;
    }

    /** The validating constructor: throws InvalidBooking for the first check
        that fails, otherwise yields a new PENDING booking. */
    static method Create(reservationNumber: string, room: Room?, guest: Guest?,
                         start: Option<int>, days: int, now: int)
      returns (result: Result<RoomBooking, Error>)
      ensures var rejection := BookingRejection(reservationNumber, room, guest, start, days, now);
        && (result.Failure? <==> rejection.Some?)
        && (result.Failure? ==> result.error == InvalidBooking(rejection.value))
      ensures result.Success? ==>
        var b := result.value;
        && fresh(b) && b.status == Pending
        && b.reservationNumber == reservationNumber && b.room == room && b.guest == guest
        && start == Some(b.start) && b.duration == days && b.totalPrice == b.room.price * days
    {
      if Blank(reservationNumber) {
        return Failure(InvalidBooking(BlankReservationNumber));
      }
      if room == null {
        return Failure(InvalidBooking(MissingRoom));
      }
      if guest == null {
        return Failure(InvalidBooking(MissingGuest));
      }
      if start.None? || start.value < now - DAY {
        return Failure(InvalidBooking(PastStart));
      }
      if days <= 0 {
        return Failure(InvalidBooking(NonPositiveDuration));
      }
      var b := new RoomBooking(reservationNumber, room, guest, start.value, days, now);
      return Success(b);
    }

    /** This booking takes part in the overlap scan (its status is active)
        and its window overlaps the requested one. */
    predicate Blocks(from: int, days: int)
      reads this
    {
      IsActive(status) && Overlaps(from, days, start, duration)
    }

    /** Any status may be assigned: there is no transition guard here. */
    method SetStatus(newStatus: BookingStatus)
      modifies this`status
      ensures status == newStatus
    {
      status := newStatus;
    }
  }

  /** Some booking of the list blocks the requested window. */
  predicate ConflictIn(bs: seq<RoomBooking>, from: int, days: int)
    reads bs
  {
    exists b :: b in bs && b.Blocks(from, days)
  }

  /** No two distinct active bookings of the list for the same room overlap. */
  predicate NoDoubleBookingIn(bs: seq<RoomBooking>)
    reads bs
  {
    forall b1, b2 {:trigger b1 in bs, b2 in bs} :: b1 in bs && b2 in bs && b1 != b2 && b1.room == b2.room
      && IsActive(b1.status) && IsActive(b2.status)
      ==> !Overlaps(b1.start, b1.duration, b2.start, b2.duration)
  }

  /** Appending a booking whose window the scan found free keeps a list
      free of double bookings, whatever the new booking's status. */
  lemma AdmitFreeBooking(bs: seq<RoomBooking>, b: RoomBooking)
    requires NoDoubleBookingIn(bs)
    requires !ConflictIn(bs, b.start, b.duration)
    ensures NoDoubleBookingIn(bs + [b])
  {
    forall b1, b2 | b1 in bs + [b] && b2 in bs + [b] && b1 != b2 && b1.room == b2.room
      && IsActive(b1.status) && IsActive(b2.status)
      ensures !Overlaps(b1.start, b1.duration, b2.start, b2.duration)
    {
      if b1 == b {
        assert b2 in bs && !b2.Blocks(b.start, b.duration);
      } else if b2 == b {
        assert b1 in bs && !b1.Blocks(b.start, b.duration);
        OverlapsSymmetric(b1.start, b1.duration, b.start, b.duration);
      }
    }
  }

  /** A booking that is not active never changes the outcome of the scan. */
  lemma InactiveBookingNeverBlocks(bs: seq<RoomBooking>, b: RoomBooking, from: int, days: int)
    requires !IsActive(b.status)
    ensures ConflictIn(bs + [b], from, days) == ConflictIn(bs, from, days)
  {
    if ConflictIn(bs + [b], from, days) {
      var c :| c in bs + [b] && c.Blocks(from, days);
      assert c in bs;
    }
  }

  /** The set of bookings attached to the given rooms. */
  ghost function AttachedTo(rs: set<Room>): (attached: set<RoomBooking>)
    reads rs
  {
    set r, b | r in rs && b in r.bookings :: b
  }

  // ---------------------------------------------------------------------
  // Room

  /** The first check the room constructor fails, or None. */
  function RoomRejection(number: string, price: int): (r: Option<InvalidReason>)
    ensures r == None <==> !Blank(number) && price > 0
  {
    if Blank(number) then Some(BlankRoomNumber)
    else if price <= 0 then Some(NonPositivePrice)
    else None
  }

  /** A bookable room: a fixed identity and price, an occupancy status and
      the list of bookings attached to it. */
  class Room {
    const number: string
    const style: Option<RoomStyle>
    const price: int
    const smoking: bool
    var status: RoomStatus
    var bookings: seq<RoomBooking>

    constructor (number: string, style: Option<RoomStyle>, price: int, smoking: bool)
      requires RoomRejection(number, price) == None
      ensures this.number == number && this.style == style && this.price == price && this.smoking == smoking
      ensures status == Available && bookings == []
    {
      this.number := number;
      this.style := style;
      this.price := price;
      this.smoking := smoking;
      status := Available;
      bookings := [];
    }

    /** The validating constructor: a blank number, then a price that is
        not positive, throws InvalidBooking. */
    static method Create(number: string, style: Option<RoomStyle>, price: int, smoking: bool)
      returns (result: Result<Room, Error>)
      ensures result.Failure? <==> RoomRejection(number, price).Some?
      ensures result.Failure? ==> result.error == InvalidBooking(RoomRejection(number, price).value)
      ensures result.Success? ==>
        var r := result.value;
        && fresh(r) && r.number == number && r.style == style && r.price == price && r.smoking == smoking
        && r.status == Available && r.bookings == []
    {
      if Blank(number) {
        return Failure(InvalidBooking(BlankRoomNumber));
      }
      if price <= 0 {
        return Failure(InvalidBooking(NonPositivePrice));
      }
      var r := new Room(number, style, price, smoking);
      return Success(r);
    }

    /** What the availability test answers. */
    predicate AvailableFor(start: Option<int>, days: int)
      reads this, bookings
    {
      start.Some? && days > 0 && status == Available && !ConflictIn(bookings, start.value, days)
    }

    /** No two active bookings of this room overlap. */
    predicate NoDoubleBooking()
      reads this, bookings
    {
      NoDoubleBookingIn(bookings)
    }

    /** The availability test: false for a missing date, a duration that is
        not positive or an occupied room; otherwise a scan for an active
        booking whose half-open window overlaps the request. */
    method IsRoomAvailable(start: Option<int>, days: int) returns (available: bool)
      ensures available == AvailableFor(start, days)
    {
      if start.None? || days <= 0 {
        return false;
      }
      if status != Available {
        return false;
      }
      var requestedEnd := start.value + days * DAY;
      var i := 0;
      while i < |bookings|
        invariant 0 <= i <= |bookings|
        invariant forall k :: 0 <= k < i ==> !bookings[k].Blocks(start.value, days)
      {
        var booking := bookings[i];
        if booking.status == Confirmed || booking.status == CheckedIn {
          var existingEnd := booking.start + booking.duration * DAY;
          if start.value < existingEnd && booking.start < requestedEnd {
            return false;
          }
        }
        i := i + 1;
      }
      return true;
    }

    method CheckIn()
      modifies this`status
      ensures status == Occupied && bookings == old(bookings)
    {
      status := Occupied;
    }

    method CheckOut()
      modifies this`status
      ensures status == Available && bookings == old(bookings)
    {
      status := Available;
    }

    method AddBooking(booking: RoomBooking)
      modifies this`bookings
      ensures bookings == old(bookings) + [booking] && status == old(status)
    {
      bookings := bookings + [booking];
    }

    method RemoveBooking(booking: RoomBooking)
      modifies this`bookings
      ensures bookings == RemoveFirst(old(bookings), booking) && status == old(status)
    {
      bookings := RemoveFirst(bookings, booking);
    }
  }

  /** An occupied room is unavailable for every window. */
  lemma OccupiedRoomUnavailable(room: Room, start: Option<int>, days: int)
    requires room.status == Occupied
    ensures !room.AvailableFor(start, days)
  {
  }

  // ---------------------------------------------------------------------
  // Guest, Receptionist, User

  /** A guest account and its own list of bookings. */
  class Guest {
    const id: string
    const name: string
    var bookings: seq<RoomBooking>

    constructor (id: string, name: string)
      ensures this.id == id && this.name == name && bookings == []
    {
      this.id := id;
      this.name := name;
      bookings := [];
    }

    /** A read-only view of the list. */
    method GetBookings() returns (view: seq<RoomBooking>)
      ensures view == bookings
    {
      view := bookings;
    }

    method AddBooking(booking: RoomBooking)
      modifies this`bookings
      ensures bookings == old(bookings) + [booking]
    {
      bookings := bookings + [booking];
    }

    method RemoveBooking(booking: RoomBooking)
      modifies this`bookings
      ensures bookings == RemoveFirst(old(bookings), booking)
    {
      bookings := RemoveFirst(bookings, booking);
    }
  }

  /** Front-desk staff: checks guests in and out, changing both the room
      and the booking, whatever the booking's status was. */
  class Receptionist {
    const id: string
    const name: string

    constructor (id: string, name: string)
      ensures this.id == id && this.name == name
    {
      this.id := id;
      this.name := name;
    }

    method CheckInGuest(booking: RoomBooking?)
      modifies (if booking == null then {} else {booking})`status
      modifies (if booking == null then {} else {booking.room})`status
      ensures booking != null ==>
        && booking.status == CheckedIn && booking.room.status == Occupied
        && booking.room.bookings == old(booking.room.bookings)
      ensures booking != null ==> forall start, days :: !booking.room.AvailableFor(start, days)
      ensures booking != null && old(booking.status) == Confirmed && old(booking.room.NoDoubleBooking())
        ==> booking.room.NoDoubleBooking()
    {
      if booking != null {
        booking.room.CheckIn();
        booking.SetStatus(CheckedIn);
      }
    }

    method CheckOutGuest(booking: RoomBooking?)
      modifies (if booking == null then {} else {booking})`status
      modifies (if booking == null then {} else {booking.room})`status
      ensures booking != null ==>
        && booking.status == CheckedOut && booking.room.status == Available
        && booking.room.bookings == old(booking.room.bookings)
      ensures booking != null && old(booking.room.NoDoubleBooking()) ==> booking.room.NoDoubleBooking()
    {
      if booking != null {
        booking.room.CheckOut();
        booking.SetStatus(CheckedOut);
      }
    }
  }

  datatype AccountType = GuestAccount | ReceptionistAccount

  /** A registered user: a guest, who can hold bookings, or a receptionist. */
  datatype User = GuestUser(guest: Guest) | ReceptionistUser(receptionist: Receptionist) {
    function Id(): (id: string) {
      match this
      case GuestUser(g) => g.id
      case ReceptionistUser(r) => r.id
    }

    function Type(): (t: AccountType)
      ensures t == GuestAccount <==> GuestUser?
    {
      match this
      case GuestUser(_) => GuestAccount
      case ReceptionistUser(_) => ReceptionistAccount
    }
  }
}
