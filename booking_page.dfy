/**
 * Booking.tsx: the generic booking form for a movie or an event. The form
 * record starts with one seat and every text field empty, each input
 * overwrites only its own field, and the total is the base price (200 for
 * a movie, 300 for an event) times the seat count. A submit shows
 * "Processing..." until the simulated call returns; on success the page
 * switches to the confirmation with a "BK" booking id.
 *
 * The submit is split into a start step and a finish step around the
 * simulated wait. The random part of the booking id is a parameter.
 */
module BookingPage {
  import opened Text

  const MoviePrice: nat := 200
  const EventPrice: nat := 300
  const MinSeats: nat := 1
  const MaxSeats: nat := 10
  const BookingIdPrefix: string := "BK"
  const TimeSlots: seq<string> := ["10:00 AM", "01:00 PM", "04:00 PM", "07:00 PM", "10:00 PM"]

  datatype BookingForm = BookingForm(
    name: string, email: string, phone: string, date: string, time: string,
    seats: nat, specialRequests: string)

  /** The text inputs and selects, by their `name` attribute; the seat select is handled apart. */
  datatype TextField = Name | Email | Phone | Date | Time | SpecialRequests

  const InitialForm: BookingForm := BookingForm("", "", "", "", "", 1, "")

  function FieldValue(form: BookingForm, field: TextField): string
  {
    match field
    case Name => form.name
    case Email => form.email
    case Phone => form.phone
    case Date => form.date
    case Time => form.time
    case SpecialRequests => form.specialRequests
  }

  /** `{ ...prev, [name]: value }` for a text field. */
  function WithField(form: BookingForm, field: TextField, value: string): (updated: BookingForm)
    ensures FieldValue(updated, field) == value
    ensures forall other :: other != field ==> FieldValue(updated, other) == FieldValue(form, other)
    ensures updated.seats == form.seats
  {
    match field
    case Name => form.(name := value)
    case Email => form.(email := value)
    case Phone => form.(phone := value)
    case Date => form.(date := value)
    case Time => form.(time := value)
    case SpecialRequests => form.(specialRequests := value)
  }

  /** The five time slots of the select, all different. */
  lemma TimeSlotsDistinct()
    ensures |TimeSlots| == 5
    ensures forall i, j :: 0 <= i < j < |TimeSlots| ==> TimeSlots[i] != TimeSlots[j]
  {
    assert TimeSlots[0][1] == '0' && TimeSlots[1][1] == '1' && TimeSlots[2][1] == '4';
    assert TimeSlots[3][1] == '7' && TimeSlots[4][1] == '0' && TimeSlots[4][0] == '1';
  }

  /** The initial form: one seat and every text field empty. */
  lemma InitialFormEmpty()
    ensures InitialForm.seats == MinSeats
    ensures forall field :: FieldValue(InitialForm, field) == ""
  {
  }

  /** `calculateTotal`: `(movie ? 200 : 300) * formData.seats`. */
  function Total(isMovie: bool, seats: nat): (total: nat)
    ensures isMovie ==> total == MoviePrice * seats
    ensures !isMovie ==> total == EventPrice * seats
  {
    (if isMovie then MoviePrice else EventPrice) * seats
  }

  /** Over the seat choices 1 to 10 a movie costs 200 to 2000 and an event 300 to 3000, and more seats cost more. */
  lemma TotalBounds(isMovie: bool, seats: nat, more: nat)
    requires MinSeats <= seats <= MaxSeats && seats <= more
    ensures MoviePrice <= Total(isMovie, seats) <= EventPrice * MaxSeats
    ensures Total(isMovie, seats) <= Total(isMovie, more)
    ensures Total(true, seats) < Total(false, seats)
  {
  }

  /** `'BK' + Math.random().toString(36).substr(2, 9).toUpperCase()`, the random digits given. */
  function BookingId(randomDigits: string): (id: string)
    ensures |id| == |BookingIdPrefix| + |randomDigits|
    ensures id[..|BookingIdPrefix|] == BookingIdPrefix
    ensures id[|BookingIdPrefix|..] == Upper(randomDigits)
    ensures Lower(id[|BookingIdPrefix|..]) == Lower(randomDigits)
  {
    assert (BookingIdPrefix + Upper(randomDigits))[|BookingIdPrefix|..] == Upper(randomDigits);
    LowerOfUpper(randomDigits);
    BookingIdPrefix + Upper(randomDigits)
  }

  /** `availableDates`: today and the six days after it, as day numbers. */
  function AvailableDates(today: int): (dates: seq<int>)
    ensures |dates| == 7 && dates[0] == today
    ensures forall i :: 0 < i < |dates| ==> dates[i] == dates[i - 1] + 1
  {
    seq(7, i => today + i)
  }

  class BookingPage {
    /** Whether the page was opened for a movie (otherwise for an event). */
    const isMovie: bool
    var formData: BookingForm
    var isLoading: bool
    var bookingConfirmed: bool
    var bookingId: string

    /** The seat count and the time stay among the choices of their selects ("" is "Choose time"). */
    predicate Valid()
      reads this
    {
      MinSeats <= formData.seats <= MaxSeats
      && (formData.time == "" || formData.time in TimeSlots)
    }

    constructor (isMovie: bool)
      ensures Valid()
      ensures this.isMovie == isMovie
      ensures formData == InitialForm && !isLoading && !bookingConfirmed && bookingId == ""
    {
      this.isMovie := isMovie;
      formData := InitialForm;
      isLoading := false;
      bookingConfirmed := false;
      bookingId := "";
    }

    /** The total shown in the summary and on the button. */
    function CurrentTotal(): (total: nat)
      reads this
      ensures isMovie ==> total == MoviePrice * formData.seats
      ensures !isMovie ==> total == EventPrice * formData.seats
      ensures Valid() ==> total <= EventPrice * MaxSeats
    {
      Total(isMovie, formData.seats)
    }

    /** `handleInputChange` for a text input; the time select only offers its slots. */
    method HandleInputChange(field: TextField, value: string)
      requires Valid()
      requires field == Time ==> value == "" || value in TimeSlots
      modifies this
      ensures Valid()
      ensures formData == WithField(old(formData), field, value)
      ensures isLoading == old(isLoading) && bookingConfirmed == old(bookingConfirmed) && bookingId == old(bookingId)
    {
      formData := WithField(formData, field, value);
    }

    /** `handleInputChange` for the seat select, which offers 1 to 10. */
    method ChooseSeats(seats: nat)
      requires Valid() && MinSeats <= seats <= MaxSeats
      modifies this
      ensures Valid()
      ensures formData == old(formData).(seats := seats)
      ensures isLoading == old(isLoading) && bookingConfirmed == old(bookingConfirmed) && bookingId == old(bookingId)
    {
      formData := formData.(seats := seats);
    }

    /** `handleSubmit` up to the simulated wait; the submit button is disabled while loading. */
    method StartSubmit()
      requires Valid() && !isLoading
      modifies this
      ensures Valid()
      ensures isLoading
      ensures formData == old(formData) && bookingConfirmed == old(bookingConfirmed) && bookingId == old(bookingId)
    {
      isLoading := true;
    }

    /** The wait ends: on success the confirmation is shown with its id; loading ends either way. */
    method FinishSubmit(failed: bool, randomDigits: string)
      requires Valid() && isLoading
      modifies this
      ensures Valid()
      ensures !isLoading
      ensures !failed ==> bookingConfirmed && bookingId == BookingId(randomDigits)
      ensures failed ==> bookingConfirmed == old(bookingConfirmed) && bookingId == old(bookingId)
      ensures formData == old(formData)
    {
      if !failed {
        bookingConfirmed := true;
        bookingId := BookingId(randomDigits);
      }
      isLoading := false;
    }
  }
}
