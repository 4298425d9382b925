/**
 * BookingSummary.tsx: the payment panel of the seat-booking flow. It shows
 * the price breakdown of the chosen seats, collects the customer's name,
 * email and phone, and on "Pay" refuses to start unless all three are
 * non-empty; otherwise it marks itself processing, waits for the simulated
 * payment, builds the booking record from the displayed amounts and clears
 * the processing flag whether the payment succeeded or not.
 *
 * The payment is split into a start step and a finish step around the
 * simulated wait; `Date.now()` is the `now` parameter of the finish step.
 */
module BookingSummary {
  import opened Text
  import opened Wrappers
  import opened Pricing

  const BookingIdPrefix: string := "BK"

  datatype CustomerInfo = CustomerInfo(name: string, email: string, phone: string)

  /** The `name` attribute of each input. */
  datatype CustomerField = Name | Email | Phone

  function FieldValue(info: CustomerInfo, field: CustomerField): string
  {
    match field
    case Name => info.name
    case Email => info.email
    case Phone => info.phone
  }

  /** `{ ...prev, [name]: value }`: only the named field changes. */
  function WithField(info: CustomerInfo, field: CustomerField, value: string): (updated: CustomerInfo)
    ensures FieldValue(updated, field) == value
    ensures forall other :: other != field ==> FieldValue(updated, other) == FieldValue(info, other)
  {
    match field
    case Name => info.(name := value)
    case Email => info.(email := value)
    case Phone => info.(phone := value)
  }

  /** The guard of `handlePayment`: every one of the three fields is non-empty. */
  predicate IsComplete(info: CustomerInfo)
  {
    info.name != "" && info.email != "" && info.phone != ""
  }

  /** Filling in the three fields one after the other with non-empty values passes the guard. */
  lemma FilledFormIsComplete(info: CustomerInfo, name: string, email: string, phone: string)
    requires name != "" && email != "" && phone != ""
    ensures IsComplete(WithField(WithField(WithField(info, Name, name), Email, email), Phone, phone))
  {
    var filled := WithField(WithField(WithField(info, Name, name), Email, email), Phone, phone);
    assert FieldValue(filled, Name) == name;
    assert FieldValue(filled, Email) == email;
  }

  /** `'BK' + Date.now()`. */
  function BookingId(now: nat): (id: string)
    ensures |id| > |BookingIdPrefix| && id[..|BookingIdPrefix|] == BookingIdPrefix
    ensures forall i :: |BookingIdPrefix| <= i < |id| ==> IsDigit(id[i])
    ensures ParseDigits(id[|BookingIdPrefix|..]) == now
  {
    ParseDigitsOfDigits(now);
    assert (BookingIdPrefix + Digits(now))[|BookingIdPrefix|..] == Digits(now);
    BookingIdPrefix + Digits(now)
  }

  /** Payments finished at different milliseconds get different booking ids. */
  lemma BookingIdsDiffer(m: nat, n: nat)
    requires m != n
    ensures BookingId(m) != BookingId(n)
  {
  }

  /** `bookingData`. */
  datatype BookingRecord = BookingRecord(
    movieId: nat, movieTitle: string, theater: string, date: string, time: string,
    seats: seq<string>, customer: CustomerInfo, amounts: PriceBreakdown, bookingId: string)

  class PaymentPanel {
    const movieId: nat
    const movieTitle: string
    const theater: string
    /** `date.toISOString().split('T')[0]`. */
    const date: string
    const time: string
    const seats: seq<string>

    var customerInfo: CustomerInfo
    var isProcessing: bool
    /** The customer details the payment in flight was started with. */
    var payingCustomer: CustomerInfo

    /** A payment is only ever in flight for a complete form. */
    predicate Valid()
      reads this
    {
      isProcessing ==> IsComplete(payingCustomer)
    }

    constructor (movieId: nat, movieTitle: string, theater: string, date: string, time: string, seats: seq<string>)
      ensures this.movieId == movieId && this.movieTitle == movieTitle && this.theater == theater
      ensures this.date == date && this.time == time && this.seats == seats
      ensures Valid()
      ensures customerInfo == CustomerInfo("", "", "") && !isProcessing
    {
      this.movieId := movieId;
      this.movieTitle := movieTitle;
      this.theater := theater;
      this.date := date;
      this.time := time;
      this.seats := seats;
      customerInfo := CustomerInfo("", "", "");
      isProcessing := false;
      payingCustomer := CustomerInfo("", "", "");
    }

    /** The amounts the card displays. */
    function Displayed(): (amounts: PriceBreakdown)
      ensures amounts.subtotal == Subtotal(seats)
      ensures amounts.convenienceFee == ConvenienceFee(amounts.subtotal)
      ensures amounts.taxes == Taxes(amounts.subtotal, amounts.convenienceFee)
      ensures amounts.totalAmount == amounts.subtotal + amounts.convenienceFee + amounts.taxes
    {
      Breakdown(seats)
    }

    /** `handleInputChange`. */
    method HandleInputChange(field: CustomerField, value: string)
      requires Valid()
      modifies this
      ensures Valid()
      ensures customerInfo == WithField(old(customerInfo), field, value)
      ensures isProcessing == old(isProcessing) && payingCustomer == old(payingCustomer)
    {
      customerInfo := WithField(customerInfo, field, value);
    }

    /**
     * `handlePayment` up to the simulated wait. The Pay button is disabled
     * while processing. An incomplete form aborts with nothing changed.
     */
    method StartPayment() returns (started: bool)
      requires Valid() && !isProcessing
      modifies this
      ensures Valid()
      ensures started <==> IsComplete(old(customerInfo))
      ensures isProcessing == started
      ensures started ==> payingCustomer == old(customerInfo)
      ensures !started ==> payingCustomer == old(payingCustomer)
      ensures customerInfo == old(customerInfo)
    {
      if !IsComplete(customerInfo) {
        return false;
      }
      isProcessing := true;
      payingCustomer := customerInfo;
      started := true;
    }

    /**
     * The wait ends. On success the booking record carries exactly the
     * seats and amounts shown; either way processing ends.
     */
    method FinishPayment(failed: bool, now: nat) returns (record: Option<BookingRecord>)
      requires Valid() && isProcessing
      modifies this
      ensures Valid()
      ensures !isProcessing
      ensures record.Some? <==> !failed
      ensures record.Some? ==> record.value.seats == seats && record.value.amounts == Displayed()
                               && record.value.customer == old(payingCustomer)
                               && IsComplete(record.value.customer)
                               && record.value.bookingId == BookingId(now)
                               && record.value.movieId == movieId && record.value.movieTitle == movieTitle
                               && record.value.theater == theater
                               && record.value.date == date && record.value.time == time
      ensures customerInfo == old(customerInfo)
    {
      if failed {
        record := None;
      } else {
        record := Some(BookingRecord(movieId, movieTitle, theater, date, time, seats,
                                     payingCustomer, Breakdown(seats), BookingId(now)));
      }
      isProcessing := false;
    }
  }

  /** `isProcessing ? 'Processing...' : 'Pay ₹' + totalAmount`, as what the button offers. */
  datatype PayButton = Processing | Pay(amount: nat)

  function PayButtonFor(isProcessing: bool, seats: seq<string>): (button: PayButton)
    ensures button.Processing? <==> isProcessing
    ensures button.Pay? ==> button.amount == Breakdown(seats).totalAmount && button.amount >= Subtotal(seats)
  {
    if isProcessing then Processing else Pay(Breakdown(seats).totalAmount)
  }
}
