/** The renter's bookings page: each booking is sorted into the upcoming,
    past or cancelled tab by its status and dates against the current time. */
module MyBookings {
  import opened Common
  import CarDetail

  /** A booking as the bookings endpoint lists it; dates are milliseconds. */
  datatype Booking = Booking(id: string, status: string, startDate: int, endDate: int)

  datatype Category = Upcoming | Past | Cancelled

  /** `getBookingCategory`: cancelled status wins; then a completed status
      or an end before `now` means past; then a start after `now` or a
      confirmed/active status means upcoming; anything else is past. */
  function GetBookingCategory(b: Booking, now: int): (c: Category)
    ensures b.status == "cancelled" <==> c == Cancelled
    ensures b.status != "cancelled" && (b.status == "completed" || b.endDate < now) ==> c == Past
    ensures c == Upcoming <==>
              b.status != "cancelled" && b.status != "completed" && b.endDate >= now &&
              (b.startDate > now || b.status == "confirmed" || b.status == "active")
  {
    if b.status == "cancelled" then Cancelled
    else if b.status == "completed" || b.endDate < now then Past
    else if b.startDate > now || b.status == "confirmed" || b.status == "active" then Upcoming
    else Past
  }

  /** A pending booking that has started but not ended falls through to past. */
  lemma PendingInProgressIsPast(b: Booking, now: int)
    requires b.status == "pending" && b.startDate <= now <= b.endDate
    ensures GetBookingCategory(b, now) == Past
  {
  }

  /** `calculateDays`: the absolute span rounded up to whole days. */
  function CalculateDays(start: int, end: int): (d: int)
    ensures d >= 0
    ensures (d - 1) * MsPerDay < (if end >= start then end - start else start - end) <= d * MsPerDay
  {
    var diff := if end >= start then end - start else start - end;
    CeilDivUnique(diff, MsPerDay, CeilDiv(diff, MsPerDay));
    CeilDiv(diff, MsPerDay)
  }

  /** The day count does not depend on the order of the two dates. */
  lemma CalculateDaysSymmetric(start: int, end: int)
    ensures CalculateDays(start, end) == CalculateDays(end, start)
  {
  }

  /** For a forward span, the list page counts the same days as the car
      detail page bills. */
  lemma DaysAgreeWithCarDetail(start: int, end: int, price: int)
    requires start < end
    ensures CalculateDays(start, end) ==
            CarDetail.CalculateTotal(CarDetail.SelectedDates(Some(start), Some(end)), price).days
  {
    var s := CarDetail.CalculateTotal(CarDetail.SelectedDates(Some(start), Some(end)), price);
    CeilDivUnique(end - start, MsPerDay, s.days);
  }

  /** The category of each booking at time `now`. */
  function CategoryAt(now: int): Booking -> Category {
    b => GetBookingCategory(b, now)
  }

  /** Whether a classifier puts a booking on the given tab. */
  function OnTab(k: Booking -> Category, tab: Category): Booking -> bool {
    b => k(b) == tab
  }

  /** Whether a booking belongs on the given tab at time `now`. */
  function InTab(tab: Category, now: int): Booking -> bool {
    OnTab(CategoryAt(now), tab)
  }

  /** `filteredBookings`: the bookings of the active tab, in list order. */
  function FilteredBookings(bookings: seq<Booking>, tab: Category, now: int): seq<Booking> {
    Filter(bookings, InTab(tab, now))
  }

  lemma FilteredBookingsStep(bookings: seq<Booking>, tab: Category, now: int)
    requires bookings != []
    ensures FilteredBookings(bookings, tab, now) ==
            (if GetBookingCategory(bookings[0], now) == tab then [bookings[0]] else []) +
            FilteredBookings(bookings[1..], tab, now)
  {
  }

  /** Whatever the classifier, the three tabs it defines share the list
      out: each booking lands on exactly one tab, as often as it occurs. */
  lemma {:induction false} ClassifiedPartition(bookings: seq<Booking>, k: Booking -> Category)
    ensures multiset(Filter(bookings, OnTab(k, Upcoming))) +
            multiset(Filter(bookings, OnTab(k, Past))) +
            multiset(Filter(bookings, OnTab(k, Cancelled))) == multiset(bookings)
  {
    if bookings != [] {
      var b, t := bookings[0], bookings[1..];
      ClassifiedPartition(t, k);
      var u, p, c := Filter(t, OnTab(k, Upcoming)), Filter(t, OnTab(k, Past)), Filter(t, OnTab(k, Cancelled));
      assert bookings == [b] + t;
      assert multiset(bookings) == multiset{b} + multiset(t);
      match k(b)
      case Upcoming =>
        assert Filter(bookings, OnTab(k, Upcoming)) == [b] + u;
        assert Filter(bookings, OnTab(k, Past)) == p && Filter(bookings, OnTab(k, Cancelled)) == c;
      case Past =>
        assert Filter(bookings, OnTab(k, Past)) == [b] + p;
        assert Filter(bookings, OnTab(k, Upcoming)) == u && Filter(bookings, OnTab(k, Cancelled)) == c;
      case Cancelled =>
        assert Filter(bookings, OnTab(k, Cancelled)) == [b] + c;
        assert Filter(bookings, OnTab(k, Upcoming)) == u && Filter(bookings, OnTab(k, Past)) == p;
    }
  }

  /** The three tabs partition the list: every booking is counted in exactly
      one tab, as often as it occurs. */
  lemma TabsPartition(bookings: seq<Booking>, now: int)
    ensures multiset(FilteredBookings(bookings, Upcoming, now)) +
            multiset(FilteredBookings(bookings, Past, now)) +
            multiset(FilteredBookings(bookings, Cancelled, now)) == multiset(bookings)
  {
    ClassifiedPartition(bookings, CategoryAt(now));
  }

  /** Each tab keeps the list order, and a booking is shown on exactly the
      tab of its category. */
  lemma TabsOrderAndMembership(bookings: seq<Booking>, now: int, tab: Category)
    ensures IsSubsequence(FilteredBookings(bookings, tab, now), bookings)
    ensures forall b :: b in bookings ==>
              (b in FilteredBookings(bookings, tab, now) <==> tab == GetBookingCategory(b, now))
  {
    FilterIsSubsequence(bookings, InTab(tab, now));
    FilterMembers(bookings, InTab(tab, now));
  }

  /** The "Cancel" action is offered for confirmed and pending bookings. */
  predicate CanCancel(b: Booking) {
    b.status == "confirmed" || b.status == "pending"
  }

  /** "Book Again" is offered for completed bookings. */
  predicate CanBookAgain(b: Booking) {
    b.status == "completed"
  }

  /** No booking offers both actions; "Book Again" appears only on the past
      tab, and "Cancel" never on the cancelled tab. */
  lemma ActionsConsistent(b: Booking, now: int)
    ensures !(CanCancel(b) && CanBookAgain(b))
    ensures CanBookAgain(b) ==> GetBookingCategory(b, now) == Past
    ensures CanCancel(b) ==> GetBookingCategory(b, now) != Cancelled
  {
  }

  /** The totals the stats endpoint returns. */
  datatype BookingStats = BookingStats(upcomingTrips: int, completedTrips: int, totalSpent: int)

  const LoadFailedMessage: string := "Failed to load bookings. Please try again."

  class MyBookingsPage {
    var bookings: seq<Booking>
    var loading: bool
    var activeTab: Category
    var error: string
    var stats: BookingStats

    constructor ()
      ensures bookings == [] && loading && activeTab == Upcoming && error == ""
      ensures stats == BookingStats(0, 0, 0)
    {
      bookings := [];
      loading := true;
      activeTab := Upcoming;
      error := "";
      stats := BookingStats(0, 0, 0);
    }

    /** The list shown on the active tab. */
    function Shown(now: int): seq<Booking>
      reads this
    {
      FilteredBookings(bookings, activeTab, now)
    }

    method SelectTab(tab: Category)
      modifies this
      ensures activeTab == tab
      ensures bookings == old(bookings) && error == old(error) && loading == old(loading) && stats == old(stats)
    {
      activeTab := tab;
    }

    /** The page load. Without a session it goes to the login page and
        stays loading. Otherwise the bookings are fetched (`data.bookings`,
        else an empty list), then the stats (`data.stats`, else the old
        stats); a failure of either sets the error, keeping what was already
        set; loading ends in every case. */
    method Load(authenticated: bool, bookingsResult: Result<Option<seq<Booking>>>,
                statsResult: Result<Option<BookingStats>>) returns (redirectToLogin: bool)
      modifies this
      ensures redirectToLogin <==> !authenticated
      ensures !authenticated ==> bookings == old(bookings) && loading == old(loading) &&
                                 error == old(error) && stats == old(stats)
      ensures authenticated ==> !loading
      ensures authenticated && bookingsResult.Err? ==>
                bookings == old(bookings) && stats == old(stats) && error == LoadFailedMessage
      ensures authenticated && bookingsResult.Ok? ==> bookings == bookingsResult.value.GetOr([])
      ensures authenticated && bookingsResult.Ok? && statsResult.Err? ==>
                stats == old(stats) && error == LoadFailedMessage
      ensures authenticated && bookingsResult.Ok? && statsResult.Ok? ==>
                stats == statsResult.value.GetOr(old(stats)) && error == old(error)
      ensures activeTab == old(activeTab)
    {
      if !authenticated {
        return true;
      }
      if bookingsResult.Err? {
        error := LoadFailedMessage;
      } else {
        bookings := bookingsResult.value.GetOr([]);
        if statsResult.Err? {
          error := LoadFailedMessage;
        } else {
          stats := statsResult.value.GetOr(stats);
        }
      }
      loading := false;
      return false;
    }

    /** `handleCancelBooking`: nothing happens unless the user confirms;
        then the booking is cancelled and the list reloaded. A failure of
        either call is reported in an alert and the list is kept. */
    method HandleCancelBooking(confirmed: bool, cancelResult: Result<()>,
                               reloadResult: Result<Option<seq<Booking>>>) returns (alert: Option<string>)
      modifies this
      ensures !confirmed ==> alert == None && bookings == old(bookings)
      ensures confirmed && cancelResult.Err? ==>
                alert == Some("Failed to cancel booking: " + cancelResult.message) && bookings == old(bookings)
      ensures confirmed && cancelResult.Ok? && reloadResult.Err? ==>
                alert == Some("Failed to cancel booking: " + reloadResult.message) && bookings == old(bookings)
      ensures confirmed && cancelResult.Ok? && reloadResult.Ok? ==>
                alert == None && bookings == reloadResult.value.GetOr([])
      ensures activeTab == old(activeTab) && error == old(error) && loading == old(loading) && stats == old(stats)
    {
      if !confirmed {
        return None;
      }
      if cancelResult.Err? {
        return Some("Failed to cancel booking: " + cancelResult.message);
      }
      if reloadResult.Err? {
        return Some("Failed to cancel booking: " + reloadResult.message);
      }
      bookings := reloadResult.value.GetOr([]);
      return None;
    }
  }
}
