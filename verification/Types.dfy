/** Values shared by the booking engine: statuses, errors, notifications,
    the time arithmetic of the overlap test, and the list operations the
    engine performs on its booking lists. Everything here is pure. */
module Types {

  datatype Option<+T> = None | Some(value: T)

  datatype Result<+R, +E> = Success(value: R) | Failure(error: E)

  /** One day in milliseconds: dates are millisecond timestamps, and adding
      n days (Calendar.add(DAY_OF_MONTH, n)) is adding n * DAY. */
  const DAY: int := 86400000

  datatype BookingStatus = Pending | Confirmed | CheckedIn | CheckedOut | Cancelled

  datatype RoomStatus = Available | Occupied

  datatype RoomStyle = Deluxe | BusinessSuite | FamilySuite

  /** Why an InvalidBookingException is thrown. */
  datatype InvalidReason =
    | PastStart               // start date missing or before now minus one day
    | NonPositiveDuration
    | BlankReservationNumber
    | UnknownRoom
    | NotAGuest               // user missing, or not a Guest
    | MissingRoom             // null room handed to the booking constructor
    | MissingGuest            // null guest handed to the booking constructor
    | BlankRoomNumber
    | NonPositivePrice
    | BookingNotFound         // cancel command: no booking with that number

  /** The two exceptions of the engine. */
  datatype Error = InvalidBooking(reason: InvalidReason) | RoomNotAvailable

  datatype NotificationKind = BookingConfirmed | BookingCancelled

  /** The payload a guest receives: whose booking, which reservation, which room. */
  datatype Notification = Notification(
    guestId: string, reservationNumber: string, roomNumber: string, kind: NotificationKind)

  /** String.trim().isEmpty(): trim strips every character up to ' '. */
  predicate Blank(s: string) {
    forall i :: 0 <= i < |s| ==> s[i] <= ' '
  }

  /** `start.before(now - one day)`, with a null start rejected as well. */
  predicate IsPastStart(start: Option<int>, now: int) {
    start.None? || start.value < now - DAY
  }

  /** Only these statuses take part in the room's overlap scan. */
  predicate IsActive(status: BookingStatus) {
    status == Confirmed || status == CheckedIn
  }

  /** The overlap test of the availability scan: the requested window
      [start1, start1 + days1 days) against an existing one. */
  predicate Overlaps(start1: int, days1: int, start2: int, days2: int) {
    start1 < start2 + days2 * DAY && start2 < start1 + days1 * DAY
  }

  /** Instant t lies in the half-open window [start, start + days days). */
  predicate InWindow(t: int, start: int, days: int) {
    start <= t < start + days * DAY
  }

  lemma OverlapsSymmetric(s1: int, d1: int, s2: int, d2: int)
    ensures Overlaps(s1, d1, s2, d2) == Overlaps(s2, d2, s1, d1)
  {
  }

  /** The overlap test is exactly "the two half-open windows share an instant". */
  lemma OverlapsIffSharedInstant(s1: int, d1: int, s2: int, d2: int)
    requires d1 > 0 && d2 > 0
    ensures Overlaps(s1, d1, s2, d2) <==> exists t :: InWindow(t, s1, d1) && InWindow(t, s2, d2)
  {
    if Overlaps(s1, d1, s2, d2) {
      var t := if s1 < s2 then s2 else s1;
      assert InWindow(t, s1, d1) && InWindow(t, s2, d2);
    }
  }

  /** A stay that begins the instant another ends does not conflict with it,
      in either order. */
  lemma AdjacentStaysDoNotOverlap(s: int, d: int, d2: int)
    ensures !Overlaps(s, d, s + d * DAY, d2)
    ensures !Overlaps(s + d * DAY, d2, s, d)
  {
  }

  /** An existing stay [D, D+3 days) against three requests: [D+2, D+4) overlaps,
      [D+3, D+5) and [D-1, D) do not. */
  lemma ThreeDayStayExamples(d: int)
    ensures Overlaps(d + 2 * DAY, 2, d, 3)
    ensures !Overlaps(d + 3 * DAY, 2, d, 3)
    ensures !Overlaps(d - DAY, 1, d, 3)
  {
  }

  // ---------------------------------------------------------------------
  // List operations: the booking lists are ArrayLists of object references.

  predicate NoDuplicates<T(==)>(s: seq<T>) {
    forall i, j :: 0 <= i < j < |s| ==> s[i] != s[j]
  }

  /** List.remove(Object): drop the first occurrence of x, if any. */
  function RemoveFirst<T(==)>(s: seq<T>, x: T): (r: seq<T>)
    ensures forall y :: y in r ==> y in s
    ensures x !in s ==> r == s
    ensures |r| == if x in s then |s| - 1 else |s|
  {
    if s == [] then []
    else if s[0] == x then s[1..]
    else [s[0]] + RemoveFirst(s[1..], x)
  }

  /** The removal takes away one occurrence of x and nothing else. */
  lemma {:induction false} RemoveFirstMultiset<T>(s: seq<T>, x: T)
    ensures multiset(RemoveFirst(s, x)) == multiset(s) - multiset{x}
  {
    if s != [] {
      assert s == [s[0]] + s[1..];
      if s[0] != x {
        RemoveFirstMultiset(s[1..], x);
      }
    }
  }

  /** On a list without duplicates the removal takes x out entirely and
      keeps every other element, in order. */
  lemma {:induction false} RemoveFirstNoDuplicates<T>(s: seq<T>, x: T)
    requires NoDuplicates(s)
    ensures NoDuplicates(RemoveFirst(s, x))
    ensures forall y :: y in RemoveFirst(s, x) <==> y in s && y != x
  {
    if s != [] && s[0] != x {
      assert NoDuplicates(s[1..]) by {
        forall i, j | 0 <= i < j < |s[1..]| ensures s[1..][i] != s[1..][j] {
          assert s[1..][i] == s[i + 1] && s[1..][j] == s[j + 1];
        }
      }
      RemoveFirstNoDuplicates(s[1..], x);
      var r := RemoveFirst(s, x);
      assert r == [s[0]] + RemoveFirst(s[1..], x);
      assert s[0] !in s[1..] by {
        forall k | 0 <= k < |s[1..]| ensures s[1..][k] != s[0] {
          assert s[1..][k] == s[k + 1];
        }
      }
      forall i, j | 0 <= i < j < |r| ensures r[i] != r[j] {
        if i == 0 {
          assert r[j] in RemoveFirst(s[1..], x);
        }
      }
      assert forall y :: y in s <==> y == s[0] || y in s[1..];
    } else if s != [] {
      assert forall k :: 0 < k < |s| ==> s[k] != s[0];
      assert forall y :: y in s <==> y == s[0] || y in s[1..];
    }
  }

  /** The removal takes out the first occurrence of x and keeps the elements
      before and after it in their order. */
  lemma {:induction false} RemoveFirstSplice<T>(s: seq<T>, x: T) returns (i: nat)
    requires x in s
    ensures i < |s| && s[i] == x && x !in s[..i]
    ensures RemoveFirst(s, x) == s[..i] + s[i + 1..]
  {
    if s[0] == x {
      i := 0;
    } else {
      assert x in s[1..] by {
        var k :| 0 <= k < |s| && s[k] == x;
        assert s[1..][k - 1] == x;
      }
      var j := RemoveFirstSplice(s[1..], x);
      i := j + 1;
      assert s[..i] == [s[0]] + s[1..][..j];
      assert s[i + 1..] == s[1..][j + 1..];
    }
  }

  /** Removing what was just appended restores the list. */
  lemma {:induction false} RemoveFirstAppended<T>(s: seq<T>, x: T)
    requires x !in s
    ensures RemoveFirst(s + [x], x) == s
  {
    if s != [] {
      assert (s + [x])[1..] == s[1..] + [x];
      RemoveFirstAppended(s[1..], x);
    } else {
      assert s + [x] == [x];
    }
  }

  /** A list without duplicates drawn from a set is no longer than the set. */
  lemma {:induction false} DistinctElementsBound<T>(s: seq<T>, S: set<T>)
    requires NoDuplicates(s)
    requires forall y :: y in s ==> y in S
    ensures |s| <= |S|
  {
    if s != [] {
      var init, last := s[..|s| - 1], s[|s| - 1];
      assert NoDuplicates(init) by {
        forall i, j | 0 <= i < j < |init|
          ensures init[i] != init[j]
        {
          assert init[i] == s[i] && init[j] == s[j];
        }
      }
      forall y | y in init
        ensures y in S - {last}
      {
        var k :| 0 <= k < |init| && init[k] == y;
        assert s[k] == y && k < |s| - 1;
      }
      DistinctElementsBound(init, S - {last});
    }
  }

  /** A list without duplicates whose only member is x is the list [x]. */
  lemma OnlyElement<T>(s: seq<T>, x: T)
    requires NoDuplicates(s)
    requires forall y :: y in s <==> y == x
    ensures s == [x]
  {
    DistinctElementsBound(s, {x});
    assert x in s && s[0] in s;
  }

  /** The elements of a whose flag in keep is set, in their order in a. */
  function Select<T>(a: seq<T>, keep: seq<bool>): (r: seq<T>)
    requires |keep| == |a|
  {
    if a == [] then []
    else Select(a[..|a| - 1], keep[..|keep| - 1]) + (if keep[|keep| - 1] then [a[|a| - 1]] else [])
  }

  /** b is a subsequence of a: a with some elements dropped, order kept. */
  ghost predicate Subsequence<T>(b: seq<T>, a: seq<T>) {
    exists keep :: |keep| == |a| && b == Select(a, keep)
  }
}
