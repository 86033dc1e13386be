/** The two room-search strategies: order-preserving filters over a list of
    rooms that consult each room's availability test. */
module Search {
  import opened Types
  import opened Model

  datatype Strategy =
    | ByAvailability   // available, and of the given style unless the style is null
    | ByStyle          // of exactly the given style (null matches only null), and available

  /** The condition each strategy keeps a room on. */
  predicate Matches(strategy: Strategy, room: Room, style: Option<RoomStyle>, start: Option<int>, days: int)
    reads room, room.bookings
  {
    match strategy
    case ByAvailability => room.AvailableFor(start, days) && (style.None? || room.style == style)
    case ByStyle => room.style == style && room.AvailableFor(start, days)
  }

  /** The bookings of every room of the list. */
  ghost function Footprint(rooms: seq<Room>): (fp: set<object>)
    reads rooms
  {
    set r, b | r in rooms && b in r.bookings :: b as object
  }

  /** The rooms the strategy keeps, in input order. */
  ghost function Matching(strategy: Strategy, rooms: seq<Room>, style: Option<RoomStyle>, start: Option<int>, days: int): (r: seq<Room>)
    reads rooms, Footprint(rooms)
  {
    if rooms == [] then []
    else
      var last := rooms[|rooms| - 1];
      assert forall b :: b in last.bookings ==> b in Footprint(rooms);
      Matching(strategy, rooms[..|rooms| - 1], style, start, days)
        + (if Matches(strategy, last, style, start, days) then [last] else [])
  }

  /** RoomAvailabilitySearchStrategy.searchRooms. */
  method AvailabilitySearch(rooms: seq<Room>, style: Option<RoomStyle>, start: Option<int>, days: int)
    returns (result: seq<Room>)
    ensures result == Matching(ByAvailability, rooms, style, start, days)
  {
    result := [];
    var i := 0;
    while i < |rooms|
      invariant 0 <= i <= |rooms|
      // the scan changes nothing, so the prefix is matched in the entry state
      invariant result == old(Matching(ByAvailability, rooms[..i], style, start, days))
    {
      var room := rooms[i];
      var available := room.IsRoomAvailable(start, days);
      assert available == old(room.AvailableFor(start, days));
      if available && (style.None? || room.style == style) {
        result := result + [room];
      }
      assert rooms[..i + 1][..i] == rooms[..i];
      i := i + 1;
    }
    assert rooms[..i] == rooms;
    assert Footprint(rooms) == old(Footprint(rooms));
  }

  /** RoomStyleSearchStrategy.searchRooms. */
  method StyleSearch(rooms: seq<Room>, style: Option<RoomStyle>, start: Option<int>, days: int)
    returns (result: seq<Room>)
    ensures result == Matching(ByStyle, rooms, style, start, days)
  {
    result := [];
    var i := 0;
    while i < |rooms|
      invariant 0 <= i <= |rooms|
      invariant result == old(Matching(ByStyle, rooms[..i], style, start, days))
    {
      var room := rooms[i];
      if room.style == style {
        var available := room.IsRoomAvailable(start, days);
        assert available == old(room.AvailableFor(start, days));
        if available {
          result := result + [room];
        }
      }
      assert rooms[..i + 1][..i] == rooms[..i];
      i := i + 1;
    }
    assert rooms[..i] == rooms;
    assert Footprint(rooms) == old(Footprint(rooms));
  }

  /** The search the strategy object performs. */
  method Run(strategy: Strategy, rooms: seq<Room>, style: Option<RoomStyle>, start: Option<int>, days: int)
    returns (result: seq<Room>)
    ensures result == Matching(strategy, rooms, style, start, days)
  {
    match strategy
    case ByAvailability => result := AvailabilitySearch(rooms, style, start, days);
    case ByStyle => result := StyleSearch(rooms, style, start, days);
  }

  /** Exactly the input rooms that satisfy the strategy's condition are kept. */
  lemma {:induction false} MatchingMembers(strategy: Strategy, rooms: seq<Room>, style: Option<RoomStyle>, start: Option<int>, days: int)
    ensures forall r :: r in Matching(strategy, rooms, style, start, days) <==> r in rooms && Matches(strategy, r, style, start, days)
  {
    if rooms != [] {
      var init := rooms[..|rooms| - 1];
      MatchingMembers(strategy, init, style, start, days);
      assert rooms == init + [rooms[|rooms| - 1]];
    }
  }

  /** The result lists input rooms in input order: it is the input with
      the rooms that fail the condition dropped. */
  lemma MatchingIsSubsequence(strategy: Strategy, rooms: seq<Room>, style: Option<RoomStyle>, start: Option<int>, days: int)
    ensures Subsequence(Matching(strategy, rooms, style, start, days), rooms)
    ensures |Matching(strategy, rooms, style, start, days)| <= |rooms|
  {
    var keep := MatchingMask(strategy, rooms, style, start, days);
  }

  /** The keep-mask the filter applies: one flag per room, set when it matches. */
  lemma {:induction false} MatchingMask(strategy: Strategy, rooms: seq<Room>, style: Option<RoomStyle>, start: Option<int>, days: int)
    returns (keep: seq<bool>)
    ensures |keep| == |rooms|
    ensures forall i :: 0 <= i < |rooms| ==> keep[i] == Matches(strategy, rooms[i], style, start, days)
    ensures Matching(strategy, rooms, style, start, days) == Select(rooms, keep)
    ensures |Matching(strategy, rooms, style, start, days)| <= |rooms|
  {
    if rooms == [] {
      keep := [];
    } else {
      var init := rooms[..|rooms| - 1];
      var last := rooms[|rooms| - 1];
      var keepInit := MatchingMask(strategy, init, style, start, days);
      keep := keepInit + [Matches(strategy, last, style, start, days)];
      assert keep[..|keep| - 1] == keepInit;
      assert init == rooms[..|rooms| - 1];
    }
  }

  /** A list of distinct rooms gives a result of distinct rooms. */
  lemma {:induction false} MatchingNoDuplicates(strategy: Strategy, rooms: seq<Room>, style: Option<RoomStyle>, start: Option<int>, days: int)
    requires NoDuplicates(rooms)
    ensures NoDuplicates(Matching(strategy, rooms, style, start, days))
  {
    if rooms != [] {
      var init := rooms[..|rooms| - 1];
      var last := rooms[|rooms| - 1];
      MatchingNoDuplicates(strategy, init, style, start, days);
      MatchingMembers(strategy, init, style, start, days);
      assert last !in init;
    }
  }

  /** A null style is a wildcard for the availability strategy: every
      available room is kept. */
  lemma NullStyleIsWildcard(rooms: seq<Room>, start: Option<int>, days: int)
    ensures forall r :: r in Matching(ByAvailability, rooms, None, start, days) <==> r in rooms && r.AvailableFor(start, days)
  {
    MatchingMembers(ByAvailability, rooms, None, start, days);
  }

  /** For the style strategy a null style is no wildcard: only rooms whose
      own style is null can match it. */
  lemma NullStyleMatchesOnlyUnstyled(rooms: seq<Room>, start: Option<int>, days: int)
    ensures forall r :: r in Matching(ByStyle, rooms, None, start, days) ==> r.style == None
  {
    MatchingMembers(ByStyle, rooms, None, start, days);
  }

  /** A duration that is not positive makes every room unavailable, so
      either strategy returns nothing. */
  lemma {:induction false} NonPositiveDurationFindsNothing(strategy: Strategy, rooms: seq<Room>, style: Option<RoomStyle>, start: Option<int>, days: int)
    requires days <= 0
    ensures Matching(strategy, rooms, style, start, days) == []
  {
    if rooms != [] {
      NonPositiveDurationFindsNothing(strategy, rooms[..|rooms| - 1], style, start, days);
    }
  }
}
