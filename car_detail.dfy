/** The car detail page: the rental-cost summary computed from the two
    chosen dates, and the booking confirmation dialog with its flat fee. */
module CarDetail {
  import opened Common

  /** The flat service fee shown in the confirmation dialog, in rupees. */
  const ServiceFee: int := 50

  /** The daily price of the page's sample car. */
  const SampleCarPrice: int := 5000

  /** The two date inputs as timestamps in milliseconds; `None` is an empty input. */
  datatype SelectedDates = SelectedDates(fromDate: Option<int>, toDate: Option<int>)

  const NoDates: SelectedDates := SelectedDates(None, None)

  /** The number of rental days and their cost. */
  datatype Summary = Summary(days: int, total: int)

  predicate BothSet(d: SelectedDates) {
    d.fromDate.Some? && d.toDate.Some?
  }

  /** `calculateTotal`: days is the span rounded up to whole days, and the
      total is that many days at the daily price; a missing date or a span
      that is not positive gives zero days and zero cost. */
  function CalculateTotal(d: SelectedDates, price: int): (s: Summary)
    ensures !BothSet(d) ==> s == Summary(0, 0)
    ensures BothSet(d) && d.toDate.value <= d.fromDate.value ==> s == Summary(0, 0)
    ensures BothSet(d) && d.toDate.value > d.fromDate.value ==>
              s.days >= 1 &&
              (s.days - 1) * MsPerDay < d.toDate.value - d.fromDate.value <= s.days * MsPerDay
    ensures s.days >= 0
    ensures s.total == s.days * price
  {
    if !BothSet(d) then Summary(0, 0)
    else
      var days := CeilDiv(d.toDate.value - d.fromDate.value, MsPerDay);
      if days > 0 then Summary(days, days * price) else Summary(0, 0)
  }

  /** A non-negative price gives a non-negative total. */
  lemma TotalNonNegative(d: SelectedDates, price: int)
    requires price >= 0
    ensures CalculateTotal(d, price).total >= 0
  {
    var s := CalculateTotal(d, price);
    MulMonotone(0, s.days, if price > 0 then price else 1);
    assert s.total == s.days * price;
    if price == 0 { assert s.total == 0; }
  }

  /** A span of 25 hours is billed as 2 days. */
  lemma TwentyFiveHoursIsTwoDays(from: int, price: int)
    ensures CalculateTotal(SelectedDates(Some(from), Some(from + 25 * 3600000)), price) ==
            Summary(2, 2 * price)
  {
    var s := CalculateTotal(SelectedDates(Some(from), Some(from + 25 * 3600000)), price);
    CeilDivUnique(25 * 3600000, MsPerDay, 2);
    assert s.days == 2;
  }

  /** Exactly one day's span is one day, not two. */
  lemma OneDayIsOneDay(from: int, price: int)
    ensures CalculateTotal(SelectedDates(Some(from), Some(from + MsPerDay)), price) == Summary(1, price)
  {
    CeilDivUnique(MsPerDay, MsPerDay, 1);
  }

  /** The dialog's grand total: the rental cost plus the flat fee. */
  function GrandTotal(s: Summary): (g: int)
    ensures g - s.total == ServiceFee
  {
    s.total + ServiceFee
  }

  const SelectBothDatesAlert: string := "Please select both dates"
  const ConfirmedAlert: string := "Booking confirmed! Redirecting to payment..."

  /** The page's state: the selected dates, whether the confirmation dialog
      is shown, and where the page has navigated to. */
  class CarDetailPage {
    var selectedDates: SelectedDates
    var showBookingModal: bool
    var navigatedTo: Option<string>
    const price: int

    constructor (price: int)
      ensures selectedDates == NoDates && !showBookingModal && navigatedTo == None
      ensures this.price == price
    {
      this.price := price;
      selectedDates := NoDates;
      showBookingModal := false;
      navigatedTo := None;
    }

    /** The summary shown beside the date inputs and in the dialog. */
    function CurrentSummary(): Summary
      reads this
    {
      CalculateTotal(selectedDates, price)
    }

    /** "Book Now" is enabled only when both dates are set. */
    predicate BookNowEnabled()
      reads this
    {
      BothSet(selectedDates)
    }

    /** The "From Date" input; only that date changes. */
    method SetFromDate(v: Option<int>)
      modifies this
      ensures selectedDates == old(selectedDates).(fromDate := v)
      ensures showBookingModal == old(showBookingModal) && navigatedTo == old(navigatedTo)
    {
      selectedDates := selectedDates.(fromDate := v);
    }

    /** The "To Date" input; only that date changes. */
    method SetToDate(v: Option<int>)
      modifies this
      ensures selectedDates == old(selectedDates).(toDate := v)
      ensures showBookingModal == old(showBookingModal) && navigatedTo == old(navigatedTo)
    {
      selectedDates := selectedDates.(toDate := v);
    }

    /** `checkAvailability`: with a date missing it alerts and the dialog
        stays closed; otherwise the (simulated) check opens the dialog. */
    method CheckAvailability() returns (alert: Option<string>)
      modifies this
      ensures selectedDates == old(selectedDates) && navigatedTo == old(navigatedTo)
      ensures !BothSet(selectedDates) ==> alert == Some(SelectBothDatesAlert) && showBookingModal == old(showBookingModal)
      ensures BothSet(selectedDates) ==> alert == None && showBookingModal
    {
      if !BothSet(selectedDates) {
        return Some(SelectBothDatesAlert);
      }
      showBookingModal := true;
      return None;
    }

    /** A click on "Book Now": a disabled button does nothing. */
    method ClickBookNow()
      modifies this
      ensures selectedDates == old(selectedDates) && navigatedTo == old(navigatedTo)
      ensures showBookingModal == (old(showBookingModal) || BookNowEnabled())
    {
      if BookNowEnabled() {
        showBookingModal := true;
      }
    }

    /** The dialog's close button and its "Cancel" button: the dialog
        closes and the dates are kept. */
    method CloseModal()
      modifies this
      ensures !showBookingModal
      ensures selectedDates == old(selectedDates) && navigatedTo == old(navigatedTo)
    {
      showBookingModal := false;
    }

    /** `confirmBooking`: alerts, closes the dialog and goes to the
        marketplace; no booking request is made. */
    method ConfirmBooking() returns (alert: string)
      modifies this
      ensures alert == ConfirmedAlert
      ensures !showBookingModal && navigatedTo == Some("/marketplace")
      ensures selectedDates == old(selectedDates)
    {
      showBookingModal := false;
      navigatedTo := Some("/marketplace");
      return ConfirmedAlert;
    }
  }

  /** Opening and cancelling the dialog leaves the dates and the price
      shown as they were. */
  method OpenThenCancel(page: CarDetailPage)
    modifies page
    ensures page.selectedDates == old(page.selectedDates) && !page.showBookingModal
    ensures page.CurrentSummary() == old(page.CurrentSummary())
  {
    page.ClickBookNow();
    page.CloseModal();
  }
}
