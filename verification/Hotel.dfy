/** The hotel: the registry of rooms by number and users by id, the global
    booking list, and the operations that create, confirm and cancel
    bookings while keeping the global list, the room lists and the guest
    lists in step. */
module Registry {
  import opened Types
  import opened Model
  import opened Search

  /** The bookings of the list that carry the given reservation number, in
      list order. */
  function WithNumber(bs: seq<RoomBooking>, reservationNumber: string): (r: seq<RoomBooking>)
    ensures forall b :: b in r ==> b in bs && b.reservationNumber == reservationNumber
    ensures forall b :: b in bs && b.reservationNumber == reservationNumber ==> b in r
    ensures |r| <= |bs|
  {
    if bs == [] then []
    else
      assert bs == [bs[0]] + bs[1..];
      (if bs[0].reservationNumber == reservationNumber then [bs[0]] else [])
        + WithNumber(bs[1..], reservationNumber)
  }

  /** Removing the first booking with a number drops exactly that one from
      the bookings with the number: the next lookup finds the one after it. */
  lemma {:induction false} RemoveFirstMatch(bs: seq<RoomBooking>, reservationNumber: string)
    requires WithNumber(bs, reservationNumber) != []
    ensures WithNumber(RemoveFirst(bs, WithNumber(bs, reservationNumber)[0]), reservationNumber)
      == WithNumber(bs, reservationNumber)[1..]
  {
    var first := WithNumber(bs, reservationNumber)[0];
    if bs[0] != first {
      assert bs[0].reservationNumber != reservationNumber;
      assert WithNumber(bs, reservationNumber) == WithNumber(bs[1..], reservationNumber);
      RemoveFirstMatch(bs[1..], reservationNumber);
      assert RemoveFirst(bs, first) == [bs[0]] + RemoveFirst(bs[1..], first);
      assert ([bs[0]] + RemoveFirst(bs[1..], first))[1..] == RemoveFirst(bs[1..], first);
    }
  }

  /** Removing a booking with another number leaves the bookings with this
      number as they were: the lookup of this number finds the same booking. */
  lemma {:induction false} WithNumberRemoveOther(bs: seq<RoomBooking>, x: RoomBooking, reservationNumber: string)
    requires x.reservationNumber != reservationNumber
    ensures WithNumber(RemoveFirst(bs, x), reservationNumber) == WithNumber(bs, reservationNumber)
  {
    if bs != [] && bs[0] != x {
      var rest := RemoveFirst(bs[1..], x);
      assert RemoveFirst(bs, x) == [bs[0]] + rest;
      assert ([bs[0]] + rest)[0] == bs[0] && ([bs[0]] + rest)[1..] == rest;
      WithNumberRemoveOther(bs[1..], x, reservationNumber);
    }
  }

  /** Appending one booking extends the bookings with a number by that
      booking exactly when it carries the number. */
  lemma {:induction false} WithNumberAppend(bs: seq<RoomBooking>, b: RoomBooking, reservationNumber: string)
    ensures WithNumber(bs + [b], reservationNumber)
      == WithNumber(bs, reservationNumber) + (if b.reservationNumber == reservationNumber then [b] else [])
  {
    if bs == [] {
      assert [b][1..] == [];
    } else {
      assert (bs + [b])[0] == bs[0];
      assert (bs + [b])[1..] == bs[1..] + [b];
      WithNumberAppend(bs[1..], b, reservationNumber);
    }
  }

  /** The values of a map, listed once each in some order: the copy of
      `rooms.values()` into a fresh list, whose order a hash map leaves
      unspecified. */
  method ValuesOf(m: map<string, Room>) returns (list: seq<Room>)
    ensures NoDuplicates(list)
    ensures forall r :: r in list <==> r in m.Values
  {
    list := [];
    var remaining := m.Values;
    while remaining != {}
      invariant NoDuplicates(list)
      invariant forall r :: r in list <==> r in m.Values && r !in remaining
      invariant remaining <= m.Values
      decreases remaining
    {
      var r :| r in remaining;
      list := list + [r];
      remaining := remaining - {r};
    }
  }

  /** Whose list a booking list is: a room's or a guest's. */
  datatype Owner = RoomOwner(room: Room) | GuestOwner(guest: Guest)

  predicate Belongs(b: RoomBooking, owner: Owner) {
    match owner
    case RoomOwner(r) => b.room == r
    case GuestOwner(g) => b.guest == g
  }

  /** The owner's list holds, once each, exactly the bookings of the global
      list that belong to the owner. */
  predicate Listed(list: seq<RoomBooking>, all: seq<RoomBooking>, owner: Owner) {
    && NoDuplicates(list)
    && (forall b {:trigger b in list} :: b in list ==> Belongs(b, owner) && b in all)
    && (forall b {:trigger b in all} :: b in all && Belongs(b, owner) ==> b in list)
  }

  /** The commit appends a new booking to the global list and to the lists
      it belongs to; every list stays listed. */
  lemma ListedAfterAppend(list: seq<RoomBooking>, all: seq<RoomBooking>, owner: Owner, x: RoomBooking)
    requires Listed(list, all, owner) && x !in all
    ensures Listed(if Belongs(x, owner) then list + [x] else list, all + [x], owner)
  {
    if Belongs(x, owner) {
      assert x !in list;
      var l := list + [x];
      forall i, j | 0 <= i < j < |l| ensures l[i] != l[j] {
        if j == |list| {
          assert l[i] in list;
        }
      }
    }
  }

  /** Cancellation removes a booking from the global list and from the lists
      it belongs to; every list stays listed. */
  lemma ListedAfterRemove(list: seq<RoomBooking>, all: seq<RoomBooking>, owner: Owner, x: RoomBooking)
    requires Listed(list, all, owner) && NoDuplicates(all)
    ensures Listed(if Belongs(x, owner) then RemoveFirst(list, x) else list, RemoveFirst(all, x), owner)
  {
    RemoveFirstNoDuplicates(all, x);
    if Belongs(x, owner) {
      RemoveFirstNoDuplicates(list, x);
    } else {
      assert forall b :: b in list ==> b != x;
    }
  }

  class Hotel {
    const name: string
    var rooms: map<string, Room>
    var users: map<string, User>
    var bookings: seq<RoomBooking>
    /** Every room and every guest ever registered: a replaced map entry
        keeps its object here, and with it the bookings it holds. */
    ghost var knownRooms: set<Room>
    ghost var knownGuests: set<Guest>
    /** The notifications delivered to guests, oldest first. */
    ghost var log: seq<Notification>

    /** Rooms and users are stored under their own keys, and the three
        booking lists are in lockstep. */
    ghost predicate Valid()
      reads this, knownRooms, knownGuests
    {
      && (forall k :: k in rooms ==> rooms[k] in knownRooms && rooms[k].number == k)
      && (forall k :: k in users ==> users[k].Id() == k && (users[k].GuestUser? ==> users[k].guest in knownGuests))
      && NoDuplicates(bookings)
      && (forall b {:trigger b in bookings} :: b in bookings ==> b.room in knownRooms && b.guest in knownGuests)
      && (forall r {:trigger Listed(r.bookings, bookings, RoomOwner(r))} :: r in knownRooms ==> Listed(r.bookings, bookings, RoomOwner(r)))
      && (forall g {:trigger Listed(g.bookings, bookings, GuestOwner(g))} :: g in knownGuests ==> Listed(g.bookings, bookings, GuestOwner(g)))
    }

    /** No two active bookings of the global list for the same room overlap. */
    ghost predicate NoDoubleBookings()
      reads this, bookings
    {
      NoDoubleBookingIn(bookings)
    }

    /** With the lists in lockstep, the global property is the property of
        every registered room's own list. */
    lemma RoomsFreeOfDoubleBookings()
      requires Valid()
      ensures NoDoubleBookings() <==> forall r :: r in knownRooms ==> r.NoDoubleBooking()
    {
      if NoDoubleBookings() {
        forall r | r in knownRooms
          ensures NoDoubleBookingIn(r.bookings)
        {
          assert Listed(r.bookings, bookings, RoomOwner(r));
        }
      }
      if forall r :: r in knownRooms ==> r.NoDoubleBooking() {
        forall b1, b2 | b1 in bookings && b2 in bookings && b1 != b2 && b1.room == b2.room
          && IsActive(b1.status) && IsActive(b2.status)
          ensures !Overlaps(b1.start, b1.duration, b2.start, b2.duration)
        {
          assert Listed(b1.room.bookings, bookings, RoomOwner(b1.room));
          assert b1.room.NoDoubleBooking();
        }
      }
    }

    function RoomSet(number: string): (r: set<Room>)
      reads this
    {
      if number in rooms then {rooms[number]} else {}
    }

    function GuestSet(id: string): (g: set<Guest>)
      reads this
    {
      if id in users && users[id].GuestUser? then {users[id].guest} else {}
    }

    /** The error createBooking throws, by its checks in order, or None. */
    ghost function CreateRejection(reservationNumber: string, roomNumber: string, guestId: string,
                                   start: Option<int>, days: int, now: int): (e: Option<Error>)
      reads this, RoomSet(roomNumber), AttachedTo(RoomSet(roomNumber))
    {
      if IsPastStart(start, now) then Some(InvalidBooking(PastStart))
      else if days <= 0 then Some(InvalidBooking(NonPositiveDuration))
      else if Blank(reservationNumber) then Some(InvalidBooking(BlankReservationNumber))
      else if roomNumber !in rooms then Some(InvalidBooking(UnknownRoom))
      else if !(guestId in users && users[guestId].GuestUser?) then Some(InvalidBooking(NotAGuest))
      else
        var room := rooms[roomNumber];
        assert forall b :: b in room.bookings ==> b in AttachedTo(RoomSet(roomNumber));
        if !room.AvailableFor(start, days) then Some(RoomNotAvailable)
        else None
    }

    constructor (name: string)
      ensures this.name == name && rooms == map[] && users == map[] && bookings == []
      ensures knownRooms == {} && knownGuests == {} && log == []
      ensures Valid() && NoDoubleBookings()
    {
      this.name := name;
      rooms := map[];
      users := map[];
      bookings := [];
      knownRooms := {};
      knownGuests := {};
      log := [];
    }

    /** Stores the room under its number, replacing any room with that number. */
    method AddRoom(room: Room)
      requires Valid()
      modifies this`rooms, this`knownRooms
      ensures rooms == old(rooms)[room.number := room]
      ensures knownRooms == old(knownRooms) + {room}
      ensures old(room in knownRooms || room.bookings == []) ==> Valid()
      ensures NoDoubleBookings() == old(NoDoubleBookings())
    {
      rooms := rooms[room.number := room];
      knownRooms := knownRooms + {room};
    }

    /** Stores the user under its id, replacing any user with that id. */
    method AddUser(user: User)
      requires Valid()
      modifies this`users, this`knownGuests
      ensures users == old(users)[user.Id() := user]
      ensures knownGuests == old(knownGuests) + (if user.GuestUser? then {user.guest} else {})
      ensures old(!user.GuestUser? || user.guest in knownGuests || user.guest.bookings == []) ==> Valid()
      ensures NoDoubleBookings() == old(NoDoubleBookings())
    {
      users := users[user.Id() := user];
      if user.GuestUser? {
        knownGuests := knownGuests + {user.guest};
      }
    }

    /** The first booking of the global list with the number, or null. */
    method FindBookingByReservationNumber(reservationNumber: string) returns (found: RoomBooking?)
      ensures found == null <==> forall b :: b in bookings ==> b.reservationNumber != reservationNumber
      ensures found != null ==>
        exists i :: 0 <= i < |bookings| && bookings[i] == found && found.reservationNumber == reservationNumber
          && forall j :: 0 <= j < i ==> bookings[j].reservationNumber != reservationNumber
      ensures found == (if WithNumber(bookings, reservationNumber) == [] then null
                        else WithNumber(bookings, reservationNumber)[0])
    {
      var i := 0;
      while i < |bookings|
        invariant 0 <= i <= |bookings|
        invariant forall j :: 0 <= j < i ==> bookings[j].reservationNumber != reservationNumber
        invariant WithNumber(bookings, reservationNumber) == WithNumber(bookings[i..], reservationNumber)
      {
        if bookings[i].reservationNumber == reservationNumber {
          assert bookings[i..] == [bookings[i]] + bookings[i + 1..];
          return bookings[i];
        }
        assert bookings[i..] == [bookings[i]] + bookings[i + 1..];
        i := i + 1;
      }
      return null;
    }

    /** Runs the strategy over a snapshot of the registered rooms; reads only. */
    method SearchRooms(strategy: Strategy, style: Option<RoomStyle>, start: Option<int>, days: int)
      returns (result: seq<Room>)
      ensures NoDuplicates(result)
      ensures forall r :: r in result <==> r in rooms.Values && Matches(strategy, r, style, start, days)
    {
      var snapshot := ValuesOf(rooms);
      result := Run(strategy, snapshot, style, start, days);
      MatchingMembers(strategy, snapshot, style, start, days);
      MatchingNoDuplicates(strategy, snapshot, style, start, days);
    }

    /** Validates the request in order (start date, duration, reservation
        number, room, guest, availability) and, when every check passes,
        appends a new PENDING booking to the global list, the room's list
        and the guest's list. A failed check changes nothing. */
    method CreateBooking(reservationNumber: string, roomNumber: string, guestId: string,
                         start: Option<int>, days: int, now: int)
      returns (result: Result<RoomBooking, Error>)
      requires Valid()
      modifies this`bookings, RoomSet(roomNumber)`bookings, GuestSet(guestId)`bookings
      ensures Valid()
      ensures result.Failure? <==> old(CreateRejection(reservationNumber, roomNumber, guestId, start, days, now)).Some?
      ensures result.Failure? ==>
        && result.error == old(CreateRejection(reservationNumber, roomNumber, guestId, start, days, now)).value
        && bookings == old(bookings)
        && unchanged(RoomSet(roomNumber)) && unchanged(GuestSet(guestId))
      ensures result.Success? ==>
        && roomNumber in rooms && guestId in users && users[guestId].GuestUser?
        && var b := result.value; var room := rooms[roomNumber]; var guest := users[guestId].guest;
        && fresh(b) && b.status == Pending
        && b.reservationNumber == reservationNumber && b.room == room && b.guest == guest
        && start == Some(b.start) && b.duration == days && b.totalPrice == room.price * days
        && bookings == old(bookings) + [b]
        && room.bookings == old(room.bookings) + [b] && room.status == old(room.status)
        && guest.bookings == old(guest.bookings) + [b]
        && room.AvailableFor(start, days)
      ensures old(NoDoubleBookings()) ==> NoDoubleBookings()
    {
      if start.None? || start.value < now - DAY {
        return Failure(InvalidBooking(PastStart));
      }
      if days <= 0 {
        return Failure(InvalidBooking(NonPositiveDuration));
      }
      if Blank(reservationNumber) {
        return Failure(InvalidBooking(BlankReservationNumber));
      }
      if roomNumber !in rooms {
        return Failure(InvalidBooking(UnknownRoom));
      }
      var room := rooms[roomNumber];
      if !(guestId in users && users[guestId].GuestUser?) {
        return Failure(InvalidBooking(NotAGuest));
      }
      var guest := users[guestId].guest;
      var available := room.IsRoomAvailable(start, days);
      if !available {
        return Failure(RoomNotAvailable);
      }
      var booking := new RoomBooking(reservationNumber, room, guest, start.value, days, now);
      InactiveBookingNeverBlocks(room.bookings, booking, start.value, days);
      Commit(booking, room, guest);
      return Success(booking);
    }

    /** The commit of createBooking: the booking joins the global list, then
        the room's list, then the guest's list. */
    method Commit(booking: RoomBooking, room: Room, guest: Guest)
      requires Valid()
      requires room in knownRooms && guest in knownGuests
      requires booking.room == room && booking.guest == guest && booking !in bookings
      modifies this`bookings, room`bookings, guest`bookings
      ensures Valid()
      ensures bookings == old(bookings) + [booking]
      ensures room.bookings == old(room.bookings) + [booking] && room.status == old(room.status)
      ensures guest.bookings == old(guest.bookings) + [booking]
      ensures old(NoDoubleBookings()) && !IsActive(booking.status) ==> NoDoubleBookings()
    {
      bookings := bookings + [booking];
      room.AddBooking(booking);
      guest.AddBooking(booking);
      forall r | r in knownRooms
        ensures Listed(r.bookings, bookings, RoomOwner(r))
      {
        ListedAfterAppend(old(r.bookings), old(bookings), RoomOwner(r), booking);
      }
      forall g | g in knownGuests
        ensures Listed(g.bookings, bookings, GuestOwner(g))
      {
        ListedAfterAppend(old(g.bookings), old(bookings), GuestOwner(g), booking);
      }
    }

    /** A PENDING booking becomes CONFIRMED and its guest, and only its
        guest, is notified; any other status, or null, changes nothing. */
    method ConfirmBooking(booking: RoomBooking?)
      requires Valid()
      modifies this`log, (if booking == null then {} else {booking})`status
      ensures Valid()
      ensures booking != null && old(booking.status) == Pending ==>
        && booking.status == Confirmed
        && log == old(log) + [Notification(booking.guest.id, booking.reservationNumber, booking.room.number, BookingConfirmed)]
      ensures !(booking != null && old(booking.status) == Pending) ==>
        log == old(log) && (booking != null ==> booking.status == old(booking.status))
      ensures rooms == old(rooms) && users == old(users) && bookings == old(bookings)
      ensures booking != null ==> unchanged(booking.room, booking.guest)
      ensures old(NoDoubleBookings()) && (booking != null ==> old(!ConflictIn(booking.room.bookings, booking.start, booking.duration)))
        ==> NoDoubleBookings()
    {
      if booking != null && booking.status == Pending {
        booking.SetStatus(Confirmed);
        log := log + [Notification(booking.guest.id, booking.reservationNumber, booking.room.number, BookingConfirmed)];
        if old(NoDoubleBookings()) && old(!ConflictIn(booking.room.bookings, booking.start, booking.duration)) {
          // only the confirmed booking turned active, and nothing active overlapped it
          forall b1, b2 | b1 in bookings && b2 in bookings && b1 != b2 && b1.room == b2.room
            && IsActive(b1.status) && IsActive(b2.status)
            ensures !Overlaps(b1.start, b1.duration, b2.start, b2.duration)
          {
            if b1 == booking {
              assert old(Listed(booking.room.bookings, bookings, RoomOwner(booking.room)));
              assert old(!b2.Blocks(booking.start, booking.duration));
              OverlapsSymmetric(b1.start, b1.duration, b2.start, b2.duration);
            } else if b2 == booking {
              assert old(Listed(booking.room.bookings, bookings, RoomOwner(booking.room)));
              assert old(!b1.Blocks(booking.start, booking.duration));
            }
          }
        }
      }
    }

    /** A PENDING or CONFIRMED booking becomes CANCELLED, leaves the room's
        list, the guest's list and the global list, and its guest is
        notified; any other status, or null, changes nothing. */
    method CancelBooking(booking: RoomBooking?)
      requires Valid()
      modifies this`bookings, this`log, (if booking == null then {} else {booking})`status
      modifies (if booking == null then {} else {booking.room})`bookings
      modifies (if booking == null then {} else {booking.guest})`bookings
      ensures Valid()
      ensures booking != null && old(booking.status) in {Pending, Confirmed} ==>
        && booking.status == Cancelled
        && booking.room.bookings == RemoveFirst<RoomBooking>(old(booking.room.bookings), booking)
        && booking.guest.bookings == RemoveFirst<RoomBooking>(old(booking.guest.bookings), booking)
        && bookings == RemoveFirst<RoomBooking>(old(bookings), booking)
        && booking !in bookings
        && (booking.room in knownRooms ==> booking !in booking.room.bookings)
        && (booking.guest in knownGuests ==> booking !in booking.guest.bookings)
        && log == old(log) + [Notification(booking.guest.id, booking.reservationNumber, booking.room.number, BookingCancelled)]
      ensures !(booking != null && old(booking.status) in {Pending, Confirmed}) ==>
        && bookings == old(bookings) && log == old(log)
        && (booking != null ==> unchanged(booking, booking.room, booking.guest))
      ensures old(NoDoubleBookings()) ==> NoDoubleBookings()
    {
      if booking != null && (booking.status == Pending || booking.status == Confirmed) {
        booking.SetStatus(Cancelled);
        Withdraw(booking);
        if old(NoDoubleBookings()) {
          // what is left was listed before, and only the cancelled booking changed status
          forall b1, b2 | b1 in bookings && b2 in bookings && b1 != b2 && b1.room == b2.room
            && IsActive(b1.status) && IsActive(b2.status)
            ensures !Overlaps(b1.start, b1.duration, b2.start, b2.duration)
          {
            assert b1 in old(bookings) && b2 in old(bookings);
            assert old(IsActive(b1.status) && IsActive(b2.status));
          }
        }
        log := log + [Notification(booking.guest.id, booking.reservationNumber, booking.room.number, BookingCancelled)];
      }
    }

    /** The removals of cancelBooking: the booking leaves the room's list,
        the guest's list and the global list. */
    method Withdraw(booking: RoomBooking)
      requires Valid()
      modifies this`bookings, booking.room`bookings, booking.guest`bookings
      ensures Valid()
      ensures booking.room.bookings == RemoveFirst(old(booking.room.bookings), booking)
      ensures booking.room.status == old(booking.room.status)
      ensures booking.guest.bookings == RemoveFirst(old(booking.guest.bookings), booking)
      ensures bookings == RemoveFirst(old(bookings), booking)
      ensures booking !in bookings
      ensures booking.room in knownRooms ==> booking !in booking.room.bookings
      ensures booking.guest in knownGuests ==> booking !in booking.guest.bookings
    {
      var room, guest := booking.room, booking.guest;
      ghost var roomList, guestList, all := room.bookings, guest.bookings, bookings;
      assert room in knownRooms ==> Listed(roomList, all, RoomOwner(room));
      assert guest in knownGuests ==> Listed(guestList, all, GuestOwner(guest));
      room.RemoveBooking(booking);
      guest.RemoveBooking(booking);
      bookings := RemoveFirst(bookings, booking);
      forall r | r in knownRooms
        ensures Listed(r.bookings, bookings, RoomOwner(r))
      {
        ListedAfterRemove(old(r.bookings), all, RoomOwner(r), booking);
      }
      forall g | g in knownGuests
        ensures Listed(g.bookings, bookings, GuestOwner(g))
      {
        ListedAfterRemove(old(g.bookings), all, GuestOwner(g), booking);
      }
      RemoveFirstNoDuplicates(all, booking);
      if room in knownRooms {
        RemoveFirstNoDuplicates(roomList, booking);
      }
      if guest in knownGuests {
        RemoveFirstNoDuplicates(guestList, booking);
      }
    }
  }
}
