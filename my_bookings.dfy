/**
 * MyBookings.tsx: the booking history. Bookings are split into an upcoming
 * list (dated no earlier than now and confirmed) and a past list (dated
 * before now or completed), both `.filter`s of the loaded list, and each
 * status is shown as a coloured badge with its first letter capitalised.
 *
 * `new Date(booking.date)` and `new Date()` are compared as instants; both
 * are modelled as integer timestamps, with now passed in.
 */
module MyBookings {
  import opened Text
  import opened Seqs

  const Confirmed: string := "confirmed"
  const Completed: string := "completed"
  const Cancelled: string := "cancelled"

  const GreenBadge: string := "bg-green-100 text-green-800"
  const BlueBadge: string := "bg-blue-100 text-blue-800"
  const RedBadge: string := "bg-red-100 text-red-800"
  const GrayBadge: string := "bg-gray-100 text-gray-800"

  /** The fields of a booking the page classifies and labels. */
  datatype Booking = Booking(id: nat, bookingId: string, title: string, date: int, status: string)

  /** `getStatusColor`: a switch on the status with gray as the default. */
  function StatusColor(status: string): (color: string)
    ensures color in {GreenBadge, BlueBadge, RedBadge, GrayBadge}
    ensures status == Confirmed ==> color == GreenBadge
    ensures status == Completed ==> color == BlueBadge
    ensures status == Cancelled ==> color == RedBadge
    ensures status !in {Confirmed, Completed, Cancelled} ==> color == GrayBadge
  {
    if status == Confirmed then GreenBadge
    else if status == Completed then BlueBadge
    else if status == Cancelled then RedBadge
    else GrayBadge
  }

  /** The badge tells the three known statuses apart from each other and from any other status. */
  lemma StatusColorDistinguishes(a: string, b: string)
    requires StatusColor(a) == StatusColor(b)
    ensures a == b || (a !in {Confirmed, Completed, Cancelled} && b !in {Confirmed, Completed, Cancelled})
  {
    assert GreenBadge[3] == 'g' && BlueBadge[3] == 'b' && RedBadge[3] == 'r' && GrayBadge[3] == 'g';
    assert GreenBadge[4] == 'r' && GrayBadge[4] == 'r' && GreenBadge[5] == 'e' && GrayBadge[5] == 'a';
  }

  predicate IsUpcoming(booking: Booking, now: int)
  {
    booking.date >= now && booking.status == Confirmed
  }

  predicate IsPast(booking: Booking, now: int)
  {
    booking.date < now || booking.status == Completed
  }

  function UpcomingTest(now: int): Booking -> bool
  {
    (b: Booking) => IsUpcoming(b, now)
  }

  function PastTest(now: int): Booking -> bool
  {
    (b: Booking) => IsPast(b, now)
  }

  /** `upcomingBookings`. */
  function Upcoming(bookings: seq<Booking>, now: int): (upcoming: seq<Booking>)
    ensures forall b :: b in upcoming <==> b in bookings && b.date >= now && b.status == Confirmed
    ensures IsSubsequence(upcoming, bookings)
  {
    FilterIsSubsequence(bookings, UpcomingTest(now));
    Filter(bookings, UpcomingTest(now))
  }

  /** `pastBookings`. */
  function Past(bookings: seq<Booking>, now: int): (past: seq<Booking>)
    ensures forall b :: b in past <==> b in bookings && (b.date < now || b.status == Completed)
    ensures IsSubsequence(past, bookings)
  {
    FilterIsSubsequence(bookings, PastTest(now));
    Filter(bookings, PastTest(now))
  }

  /** No booking is listed as both upcoming and past. */
  lemma UpcomingPastDisjoint(bookings: seq<Booking>, now: int)
    ensures forall b :: !(b in Upcoming(bookings, now) && b in Past(bookings, now))
  {
    assert Confirmed != Completed by { assert Confirmed[2] != Completed[2]; }
  }

  /**
   * A loaded booking is in neither list exactly when it is dated no earlier
   * than now and neither confirmed nor completed (a cancelled future
   * booking, say); every other booking is in exactly one list.
   */
  lemma NeitherListIff(bookings: seq<Booking>, now: int, b: Booking)
    requires b in bookings
    ensures b !in Upcoming(bookings, now) && b !in Past(bookings, now)
            <==> b.date >= now && b.status != Confirmed && b.status != Completed
  {
  }

  /** A cancelled booking that has not happened yet is hidden from both lists. */
  lemma CancelledFutureHidden(bookings: seq<Booking>, now: int, b: Booking)
    requires b in bookings && b.date >= now && b.status == Cancelled
    ensures b !in Upcoming(bookings, now) && b !in Past(bookings, now)
  {
    assert Cancelled != Confirmed by { assert Cancelled[3] != Confirmed[3]; }
    assert Cancelled != Completed by { assert Cancelled[2] != Completed[2]; }
  }

  /** `status.charAt(0).toUpperCase() + status.slice(1)`. */
  function StatusLabel(status: string): (shown: string)
    ensures |shown| == |status|
    ensures status != [] ==> shown[0] == UpperChar(status[0]) && shown[1..] == status[1..]
    ensures Lower(shown) == Lower(status)
  {
    if status == [] then [] else [UpperChar(status[0])] + status[1..]
  }

  /** The three known statuses read "Confirmed", "Completed" and "Cancelled". */
  lemma KnownStatusLabels()
    ensures StatusLabel(Confirmed) == "Confirmed"
    ensures StatusLabel(Completed) == "Completed"
    ensures StatusLabel(Cancelled) == "Cancelled"
  {
  }
}
