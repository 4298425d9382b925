# CineTime booking rules in Dafny

This project models the booking rules of the CineTime front end: a movie and event booking site for Hyderabad written as React components. The model covers the following parts:

- **Seat map and prices.** The seat grid of the seat map is rows A to J with twelve seats each. Twelve seats are booked. At most ten seats can be picked. A seat in row F or later costs 300 and any other seat costs 200.
- **Payment panel.** It shows the subtotal, the 5% convenience fee, the 18% GST and the total. It refuses to pay without a name, an email and a phone. It marks itself processing while a payment is in flight.
- **Generic booking form.** It handles one movie or event: 200 or 300 per seat, one to ten seats.
- **Movie and event lists.** Each has a category filter followed by a case-insensitive search.
- **Booking history.** It splits bookings into upcoming and past, shows a status badge colour, and shows the status label with its first letter capitalised.
- **Date strip.** Seven days are shown. The strip moves a week at a time, highlights the selected day, and disables days before today.
- **Home carousel.** It ticks through three slides and jumps when an indicator is clicked.
- **Showtime buttons.** A showtime is highlighted when its time and theatre match the selection.
- **Movie card.** It shows the first genre, the first two theatres and a "+N more" note.
- **Contact form.** It has field updates and a reset after a message is sent.
- **Two scripted chat assistants.** The floating widget and the assistant page each pick a canned reply with a first-match chain of `includes` tests on the lowered text. Each keeps a message log.

One Dafny module covers each source file:

| module | source file |
|---|---|
| `SeatSelection` | `SeatSelection.tsx` |
| `Pricing` | the price rules shared by `SeatSelection.tsx` and `BookingSummary.tsx` |
| `BookingSummary` | `BookingSummary.tsx` |
| `BookingPage` | `Booking.tsx` |
| `AIAssistant` | `AIAssistant.tsx` |
| `AssistantPage` | `Assistant.tsx` |
| `ChatExamples` | worked questions for both assistants |
| `Movies` | `Movies.tsx` |
| `SportsEvents` | `SportsEvents.tsx` |
| `MyBookings` | `MyBookings.tsx` |
| `DateSelector` | `DateSelector.tsx` |
| `HomeCarousel` | `Home.tsx` |
| `ShowtimeSelector` | `ShowtimeSelector.tsx` |
| `MovieCard` | `MovieCard.tsx` |
| `Contact` | `Contact.tsx` |

Four modules hold shared definitions:

- `Text`: ASCII `toLowerCase`/`toUpperCase`, `includes`, `trim()`-blankness and decimal rendering of numbers.
- `Seqs`: `filter` and order-preserving subsequences.
- `ChatRules`: a first-match rule table. It is the reference definition that both assistants' if/else chains are proved equal to.
- `Wrappers`: `Option`.

Components whose state the handlers update are classes. Their fields are the component's `useState` variables, and their methods are the handlers, each with a `modifies` clause. The filters, prices, reply choice and labels, which are pure computations, are functions. The lemmas about them state the properties.

Asynchronous handlers are split into two methods:

- **Start step.** It raises the loading or processing flag: `HandleSubmit`, `StartPayment`, `StartSubmit`.
- **Finish step.** It runs when the simulated delay ends and lowers the flag on every path: `FinishResponse`, `FinishPayment`, `FinishSubmit`.

The assistant widget's one-second reply timer is a queue of messages still waiting for their reply (`pendingReplies`).

## Model

| member | source | states |
|---|---|---|
| SeatSelection.SeatId | src/components/SeatSelection.tsx:27 | the id is the row letter followed by the decimal seat number |
| SeatSelection.ParseSeatIdOfSeatId | src/components/SeatSelection.tsx:27 | an id reads back as the row and number it was built from |
| SeatSelection.SeatIdInjective | src/components/SeatSelection.tsx:18-27 | different grid positions get different ids |
| SeatSelection.GenerateSeats | src/components/SeatSelection.tsx:16-43 | the nested loops build 10 rows of 12 seats; the seat at row r, column c has id row+(c+1) and is flagged booked, selected and premium exactly as the lists and `row >= 'F'` say |
| SeatSelection.LayoutPricing | src/components/SeatSelection.tsx:37 | a layout seat is premium iff its row is F or later, and then costs 300, else 200 |
| SeatSelection.UnavailableSeatsDistinct | src/components/SeatSelection.tsx:22 | the booked list holds twelve distinct ids |
| SeatSelection.UnavailableSeatsOnGrid | src/components/SeatSelection.tsx:18-22 | every booked id is the id of some grid seat |
| SeatSelection.Without | src/components/SeatSelection.tsx:52 | the filtered list holds every selected seat except the clicked one, and not that one |
| SeatSelection.SeatClick | src/components/SeatSelection.tsx:47-61 | a booked seat is ignored; a selected seat is removed; with ten picked a new seat is refused; otherwise the seat is appended at the end |
| SeatSelection.DeselectKeepsOrder | src/components/SeatSelection.tsx:51-52 | deselecting keeps the remaining seats in their order and shortens the list |
| SeatSelection.UnavailableClickIgnored | src/components/SeatSelection.tsx:48 | clicking a booked seat leaves the selection unchanged |
| SeatSelection.LimitKeepsSelection | src/components/SeatSelection.tsx:54-56 | with ten or more picked, a new seat is refused and nothing changes |
| SeatSelection.ClickKeepsValid | src/components/SeatSelection.tsx:47-61 | from a duplicate-free selection of at most ten unbooked seats, any click keeps all three properties |
| SeatSelection.SelectThenDeselect | src/components/SeatSelection.tsx:52-58 | picking a free seat and clicking it again restores the original list |
| SeatSelection.SeatSelector.constructor | src/components/SeatSelection.tsx:7-12 | the selection passed to the seat map starts empty |
| SeatSelection.SeatSelector.HandleSeatClick | src/components/SeatSelection.tsx:47-61 | the handler's branches produce exactly `SeatClick`'s outcome, alerting only at the limit |
| SeatSelection.SeatSelector.CalculateTotal | src/components/SeatSelection.tsx:68-74 | the grid total is the same subtotal the payment panel shows, between 200 and 300 per seat |
| Pricing.SeatPriceByRow | src/components/BookingSummary.tsx:43-46 | rows A to E cost 200 and rows F to J cost 300 |
| Pricing.Subtotal | src/components/BookingSummary.tsx:48-50 | the sum of seat prices lies between 200 and 300 per seat and is a multiple of 100 |
| Pricing.SubtotalAppend | src/components/BookingSummary.tsx:48-50 | the subtotal of two lists together is the sum of their subtotals |
| Pricing.SubtotalPermutation | src/components/BookingSummary.tsx:48-50 | the subtotal does not depend on the order the seats were picked in |
| Pricing.RoundedPercent | src/components/BookingSummary.tsx:52-53 | the result is the nearest integer to amount·percent/100, ties up (`Math.round`) |
| Pricing.ConvenienceFee | src/components/BookingSummary.tsx:52 | the fee is 5% of the subtotal rounded to nearest, and at most the subtotal |
| Pricing.Taxes | src/components/BookingSummary.tsx:53 | GST is 18% of subtotal plus fee rounded to nearest |
| Pricing.Breakdown | src/components/BookingSummary.tsx:52-54 | total = subtotal + fee + taxes, each from the formulas, and the total is at least the subtotal |
| Pricing.EmptyBreakdown | src/components/BookingSummary.tsx:48-54 | no seats cost nothing at all |
| Pricing.FeeIsExact | src/components/BookingSummary.tsx:43-52 | since prices are multiples of 100 the fee is exactly a twentieth of the subtotal |
| Pricing.WorkedExample | src/components/BookingSummary.tsx:43-54 | A1, A2, F1 give 700 + 35 + 132 = 867 |
| Pricing.TieRoundsUp | src/components/BookingSummary.tsx:53 | F1, A1 put the tax on 94.5, which becomes 95 (total 620) |
| BookingSummary.WithField | src/components/BookingSummary.tsx:56-59 | an input change sets its own field and leaves the other two alone |
| BookingSummary.FilledFormIsComplete | src/components/BookingSummary.tsx:62 | filling the three fields with non-empty text passes the payment guard |
| BookingSummary.BookingId | src/components/BookingSummary.tsx:92 | the id is "BK" followed by the decimal digits of the timestamp, which read back as that timestamp |
| BookingSummary.BookingIdsDiffer | src/components/BookingSummary.tsx:92 | payments at different milliseconds get different ids |
| BookingSummary.PaymentPanel.constructor | src/components/BookingSummary.tsx:36-41 | customer fields start empty and nothing is processing |
| BookingSummary.PaymentPanel.Displayed | src/components/BookingSummary.tsx:52-54 | the displayed subtotal is the seats' subtotal, the fee and GST follow from it by the rounding formulas, and the total is their sum |
| BookingSummary.PaymentPanel.HandleInputChange | src/components/BookingSummary.tsx:56-59 | only the named customer field changes |
| BookingSummary.PaymentPanel.StartPayment | src/components/BookingSummary.tsx:61-71 | payment starts iff name, email and phone are all non-empty; a refused start changes nothing |
| BookingSummary.PaymentPanel.FinishPayment | src/components/BookingSummary.tsx:76-118 | processing ends on success and failure; a success yields a record with the movie, theatre, date, time, displayed seats and amounts, the complete customer details it was started with and a "BK" id |
| BookingSummary.PayButtonFor | src/components/BookingSummary.tsx:269-272 | the button reads "Processing..." exactly while processing, otherwise offers the total |
| BookingPage.TimeSlotsDistinct | src/pages/Booking.tsx:34-36 | the time select offers five different slots |
| BookingPage.WithField | src/pages/Booking.tsx:51-57 | an input change sets its own field and leaves every other field, and the seat count, alone |
| BookingPage.InitialFormEmpty | src/pages/Booking.tsx:19-27 | the form starts with one seat and every text field empty |
| BookingPage.Total | src/pages/Booking.tsx:110-113 | 200 per seat for a movie, 300 per seat otherwise |
| BookingPage.TotalBounds | src/pages/Booking.tsx:110-113 | over the 1–10 seat choices the total lies in 200..3000, grows with seats, and a movie is cheaper than an event |
| BookingPage.BookingId | src/pages/Booking.tsx:84 | the id is "BK" followed by the random digits upper-cased, so it has their length and equals them ignoring case |
| BookingPage.AvailableDates | src/pages/Booking.tsx:39-43 | seven consecutive days starting today |
| BookingPage.BookingPage.constructor | src/pages/Booking.tsx:19-31 | initial form, not loading, not confirmed, empty id |
| BookingPage.BookingPage.CurrentTotal | src/pages/Booking.tsx:110-113 | the shown total is 200 per seat for a movie and 300 per seat for an event, and never exceeds 3000 |
| BookingPage.BookingPage.HandleInputChange | src/pages/Booking.tsx:51-57 | only the named field changes; seat count and time stay among their choices |
| BookingPage.BookingPage.ChooseSeats | src/pages/Booking.tsx:304-317 | the seat select sets a count from 1 to 10 and nothing else |
| BookingPage.BookingPage.StartSubmit | src/pages/Booking.tsx:59-61 | a submit raises `isLoading` and changes nothing else |
| BookingPage.BookingPage.FinishSubmit | src/pages/Booking.tsx:81-107 | loading ends on every path; success confirms with a "BK" id |
| ChatRules.FirstFiring | src/components/AIAssistant.tsx:42-53 | the chosen rule fires, no earlier rule fires, and there is none exactly when no rule fires (the shape of both if/else chains) |
| AIAssistant.ReplyRulesFire | src/components/AIAssistant.tsx:42-51 | each rule of the table fires exactly when the corresponding test of the chain holds |
| AIAssistant.ChooseIsFirstMatch | src/components/AIAssistant.tsx:40-54 | the chain is first-match-wins over telugu, comedy, evening/show, rating/best, action/imax, with the guidance as fallback |
| AIAssistant.GuidanceIffNoTrigger | src/components/AIAssistant.tsx:40-54 | the guidance is given exactly when no trigger occurs in the lowered message |
| AIAssistant.ChooseIgnoresCase | src/components/AIAssistant.tsx:42-51 | the message in capitals or lowered gets the same reply |
| AIAssistant.VisiblePresets | src/components/AIAssistant.tsx:136-140 | the first three presets are shown only while the log holds the greeting alone |
| AIAssistant.ChatWidget.constructor | src/components/AIAssistant.tsx:9-17 | closed, not minimised, the greeting as the only message, empty input |
| AIAssistant.ChatWidget.Presets | src/components/AIAssistant.tsx:136-140 | the presets shown for the current log |
| AIAssistant.ChatWidget.Open | src/components/AIAssistant.tsx:72 | opens, nothing else changes |
| AIAssistant.ChatWidget.ToggleMinimize | src/components/AIAssistant.tsx:96 | flips minimised, nothing else changes |
| AIAssistant.ChatWidget.Close | src/components/AIAssistant.tsx:104 | closes, the conversation is kept |
| AIAssistant.ChatWidget.SetInput | src/components/AIAssistant.tsx:159 | typing sets the input only |
| AIAssistant.ChatWidget.SendMessage | src/components/AIAssistant.tsx:27-36 | blank input is ignored; otherwise exactly one user message with the text is appended, the input is cleared and a reply is due |
| AIAssistant.ChatWidget.DeliverReply | src/components/AIAssistant.tsx:39-60 | the oldest pending message's scripted reply is appended, the greeting stays first |
| AssistantPage.Fallback | src/pages/Assistant.tsx:106 | the fallback quotes the question verbatim between the fixed opening and closing |
| AssistantPage.ResponseRulesFire | src/pages/Assistant.tsx:84-102 | each rule of the table fires exactly when the corresponding test of the chain holds |
| AssistantPage.LaterRulesAnswer | src/pages/Assistant.tsx:98-106 | past the first three tests, the chain and the table agree |
| AssistantPage.AnswerIsFirstMatch | src/pages/Assistant.tsx:83-107 | the chain is first-match-wins over movie/film, booking/ticket, event/concert/sports, refund/cancel, time/show, with the quoting fallback |
| AssistantPage.NotUnderstoodIffNoTrigger | src/pages/Assistant.tsx:83-107 | the question is quoted back exactly when no trigger occurs in it |
| AssistantPage.TriggersIgnoreCase | src/pages/Assistant.tsx:84 | the capitalised question fires the same rule, and gets the same answer when a rule fires |
| AssistantPage.AssistantPage.constructor | src/pages/Assistant.tsx:10-19 | the welcome is message 1; input empty; not loading |
| AssistantPage.AssistantPage.SetInput | src/pages/Assistant.tsx:217-218 | typing, possible only while not loading, sets the input only |
| AssistantPage.AssistantPage.AskQuickQuestion | src/pages/Assistant.tsx:109-111 | a quick question only fills the input |
| AssistantPage.AssistantPage.HandleSubmit | src/pages/Assistant.tsx:30-43 | blank input is ignored; otherwise the user message gets id length+1, the input is cleared and loading starts; ids stay 1, 2, 3, … |
| AssistantPage.AssistantPage.FinishResponse | src/pages/Assistant.tsx:57-80 | the answer, or the error message on failure, is appended with id pre-submit length+2; loading ends either way; ids stay consecutive |
| ChatExamples.ComedyBeatsShow | src/components/AIAssistant.tsx:44-47 | "Show me comedy films" contains "show" yet gets the comedy reply |
| ChatExamples.TeluguPreset | src/components/AIAssistant.tsx:20 | the first preset gets the Telugu reply |
| ChatExamples.GreetingGetsGuidance | src/components/AIAssistant.tsx:40-53 | "Hello" gets the guidance |
| ChatExamples.CancelBookingGetsBookingHelp | src/pages/Assistant.tsx:90-100 | "How do I cancel my booking?" gets the booking answer, not the refund one |
| ChatExamples.UnknownQuestionQuoted | src/pages/Assistant.tsx:106 | "Hello" is not understood and quoted back |
| Movies.FilterMovies | src/pages/Movies.tsx:99-114 | a movie is shown iff it is in the list, of the selected genre (or "All"), and, for a non-empty term, its lowered title or genre contains the lowered term |
| Movies.FilterMoviesIsOneFilter | src/pages/Movies.tsx:99-114 | the two stages equal one filter by the conjunction |
| Movies.FilterMoviesKeepsOrder | src/pages/Movies.tsx:99-114 | the shown list is an order-preserving subsequence of the movies |
| Movies.FilterMoviesIdempotent | src/pages/Movies.tsx:99-114 | refiltering with the same settings changes nothing |
| Movies.NoFiltersShowAll | src/pages/Movies.tsx:99-114 | "All" with an empty term shows every movie in order |
| Movies.MoviesPage.constructor | src/pages/Movies.tsx:10-13 | empty lists, empty search, genre "All" |
| Movies.MoviesPage.Load | src/pages/Movies.tsx:95-96 | loading stores the list and the shown list is its filter |
| Movies.MoviesPage.SetSearchTerm | src/pages/Movies.tsx:137 | typing sets the term and the shown list follows |
| Movies.MoviesPage.SelectGenre | src/pages/Movies.tsx:149 | a genre button sets the genre and the shown list follows |
| Movies.MoviesPage.ClearFilters | src/pages/Movies.tsx:212-215 | clearing shows every loaded movie again |
| SportsEvents.FilterEvents | src/pages/SportsEvents.tsx:99-115 | an event is shown iff it is in the list, of the selected category (or "All"), and, for a non-empty term, its lowered title, category or venue contains the lowered term |
| SportsEvents.FilterEventsIsOneFilter | src/pages/SportsEvents.tsx:99-115 | the two stages equal one filter by the conjunction |
| SportsEvents.FilterEventsKeepsOrder | src/pages/SportsEvents.tsx:99-115 | the shown list is an order-preserving subsequence of the events |
| SportsEvents.FilterEventsIdempotent | src/pages/SportsEvents.tsx:99-115 | refiltering with the same settings changes nothing |
| SportsEvents.VenueSearchFindsEvent | src/pages/SportsEvents.tsx:107-111 | a term found in the venue, ignoring case, finds the event |
| SportsEvents.SportsEventsPage.constructor | src/pages/SportsEvents.tsx:10-13 | empty lists, empty search, category "All" |
| SportsEvents.SportsEventsPage.Load | src/pages/SportsEvents.tsx:95-96 | loading stores the list and the shown list is its filter |
| SportsEvents.SportsEventsPage.SetSearchTerm | src/pages/SportsEvents.tsx:138 | typing sets the term and the shown list follows |
| SportsEvents.SportsEventsPage.SelectCategory | src/pages/SportsEvents.tsx:150 | a category button sets the category and the shown list follows |
| SportsEvents.SportsEventsPage.ClearFilters | src/pages/SportsEvents.tsx:215-218 | clearing shows every loaded event again |
| MyBookings.StatusColor | src/pages/MyBookings.tsx:93-104 | confirmed is green, completed blue, cancelled red, and any other status gray |
| MyBookings.StatusColorDistinguishes | src/pages/MyBookings.tsx:93-104 | equal badges mean equal status, unless both are outside confirmed/completed/cancelled (gray) |
| MyBookings.Upcoming | src/pages/MyBookings.tsx:106-108 | upcoming iff dated at or after now and confirmed, in list order |
| MyBookings.Past | src/pages/MyBookings.tsx:110-112 | past iff dated before now or completed, in list order |
| MyBookings.UpcomingPastDisjoint | src/pages/MyBookings.tsx:106-112 | no booking is in both lists |
| MyBookings.NeitherListIff | src/pages/MyBookings.tsx:106-112 | a booking is in neither list iff it is not yet due and neither confirmed nor completed |
| MyBookings.CancelledFutureHidden | src/pages/MyBookings.tsx:106-112 | a cancelled future booking appears in neither list |
| MyBookings.StatusLabel | src/pages/MyBookings.tsx:169 | same length, first character uppercased, rest unchanged, same text ignoring case |
| MyBookings.KnownStatusLabels | src/pages/MyBookings.tsx:241 | the labels read "Confirmed", "Completed", "Cancelled" |
| DateSelector.AddDays | src/components/DateSelector.tsx:19-20 | moving n days keeps the time of day and moves the instant by n days |
| DateSelector.WeekIsConsecutive | src/components/DateSelector.tsx:16-24 | the view is seven distinct consecutive days starting with the start date |
| DateSelector.GenerateWeekDates | src/components/DateSelector.tsx:16-24 | the loop builds exactly that week |
| DateSelector.SelectedInWeek | src/components/DateSelector.tsx:52-54 | the selected date is highlighted iff its day is in the week, and at most once |
| DateSelector.PastIffEarlierDay | src/components/DateSelector.tsx:86-87 | a date is disabled exactly when its day is before today's |
| DateSelector.ClickDate | src/components/DateSelector.tsx:100-101 | a click selects the date iff it is not disabled |
| DateSelector.WeekdayName | src/components/DateSelector.tsx:39 | the label of other days is a short weekday name |
| DateSelector.EpochIsThursday | src/components/DateSelector.tsx:39 | day 0 (1 January 1970) reads "Thu" and day 4 reads "Mon" |
| DateSelector.WeekdayNameNext | src/components/DateSelector.tsx:39 | the next day shows the next name of the cycle Thu, Fri, Sat, Sun, Mon, Tue, Wed |
| DateSelector.WeekNamesDistinct | src/components/DateSelector.tsx:16-39 | the seven days of a week view show seven different names |
| DateSelector.WeekdayNamePeriodic | src/components/DateSelector.tsx:39 | names repeat every seven days |
| DateSelector.FormatDay | src/components/DateSelector.tsx:28-44 | "Today" iff same day as today, "Tomorrow" iff the next day, otherwise the date's own weekday name |
| DateSelector.WeekFromTodayLabels | src/components/DateSelector.tsx:33-36 | a week starting today reads Today, Tomorrow, then weekdays |
| DateSelector.WeekStrip.constructor | src/components/DateSelector.tsx:13 | the week starts at now |
| DateSelector.WeekStrip.NavigateWeek | src/components/DateSelector.tsx:46-50 | next moves the start by +7 days, prev by −7 |
| DateSelector.WeekStrip.WeekDates | src/components/DateSelector.tsx:26 | the rendered dates are the week of the current start |
| DateSelector.NavigateRoundTrip | src/components/DateSelector.tsx:46-50 | next then prev (or prev then next) restores the start and the week |
| DateSelector.NextWeekFollows | src/components/DateSelector.tsx:46-50 | the next week begins the day after the current one ends |
| HomeCarousel.NextSlide | src/pages/Home.tsx:61 | the next slide is in range, one more, wrapping from the last to 0 |
| HomeCarousel.ThreeTicksReturn | src/pages/Home.tsx:60-61 | three ticks return to the same slide |
| HomeCarousel.TicksVisitEverySlide | src/pages/Home.tsx:60-61 | every slide is reached from slide 0 within two ticks |
| HomeCarousel.ExactlyOneActive | src/pages/Home.tsx:98-123 | exactly one slide and indicator are active |
| HomeCarousel.Carousel.constructor | src/pages/Home.tsx:9 | the carousel starts at slide 0 |
| HomeCarousel.Carousel.Tick | src/pages/Home.tsx:59-64 | a tick advances to the next slide and stays in range |
| HomeCarousel.Carousel.SelectSlide | src/pages/Home.tsx:122 | clicking indicator i shows slide i |
| ShowtimeSelector.Buttons | src/components/ShowtimeSelector.tsx:29-42 | one button per showtime in order; it passes that showtime and is highlighted iff time and theatre match the selection |
| ShowtimeSelector.NothingSelectedNothingHighlighted | src/components/ShowtimeSelector.tsx:30-31 | with no selection nothing is highlighted |
| ShowtimeSelector.AtMostOneHighlighted | src/components/ShowtimeSelector.tsx:30-31 | with distinct (time, theatre) pairs at most one button is highlighted |
| ShowtimeSelector.SelectedHighlightsItself | src/components/ShowtimeSelector.tsx:30-31 | the selection highlights itself whatever its price |
| MovieCard.FirstGenre | src/components/MovieCard.tsx:58 | the badge is the longest comma-free prefix of the genre, stopping right before the first comma |
| MovieCard.FirstGenreCases | src/components/MovieCard.tsx:58 | no comma: the whole genre; a comma: strictly shorter |
| MovieCard.FirstGenreExample | src/components/MovieCard.tsx:58 | "Action, Adventure" shows "Action" |
| MovieCard.ListedTheatres | src/components/MovieCard.tsx:81 | the first two theatres in order, or all when fewer |
| MovieCard.MoreNote | src/components/MovieCard.tsx:86-88 | the note appears iff there are more than two theatres, with a positive count |
| MovieCard.EveryTheatreAccountedFor | src/components/MovieCard.tsx:81-88 | listed theatres plus the note's count equal the theatre count |
| Contact.CategoryOptions | src/pages/Contact.tsx:24-30 | five distinct category values, "general" first |
| Contact.WithField | src/pages/Contact.tsx:32-38 | an input change sets its own field and no other |
| Contact.RewriteFieldIsNoop | src/pages/Contact.tsx:32-38 | writing a field's own value back changes nothing |
| Contact.LastWriteWins | src/pages/Contact.tsx:32-38 | two writes to a field keep only the second |
| Contact.ContactPage.constructor | src/pages/Contact.tsx:13-21 | every field empty, category "general", not loading |
| Contact.ContactPage.HandleInputChange | src/pages/Contact.tsx:32-38 | only the named field changes |
| Contact.ContactPage.StartSubmit | src/pages/Contact.tsx:40-42 | a submit raises `isLoading` and keeps the form |
| Contact.ContactPage.FinishSubmit | src/pages/Contact.tsx:56-82 | loading ends on every path; a sent message resets the form to its initial value, a failure keeps it |

## Left out

- `src/config/api.ts`: the models do not make any network calls. The commented-out `fetch` calls are not modelled, and the simulated delays are the start and finish steps.
- Rendering: the JSX markup, styling, toasts, `alert` text, `console` output and routing are left out. This includes the redirect from the booking page when neither a movie nor an event was passed (src/pages/Booking.tsx:45-49).
- Dates: JavaScript `Date`, time zones and `toLocaleDateString` are not modelled. The following are simplified:
  - The date strip uses a day number and the milliseconds into the day.
  - The booking history uses integer timestamps.
  - Today is a parameter.
  - The day-of-month and month lines of a date button are not modelled.
  - `DateSelector.WeekdayName` counts weekdays from 1 January 1970 in UTC.
- Case folding: `toLowerCase`/`toUpperCase` are ASCII only. Other letters are left as they are.
- Booking ids: the random part (`Math.random`) and the clock (`Date.now`) are parameters of the finish steps.
- Booking.tsx: the HTML `required` checks the browser makes before a submit are not modelled. `StartSubmit` therefore has no guard, like the handler itself.
- Booking.tsx: the seat select stores its value as a string, which `200 * formData.seats` coerces back to a number. The model keeps the number.
- Booking.tsx: the simulated call always succeeds. The `failed` parameter of `FinishSubmit` covers the `catch` path for a call that throws.
- Assistant.tsx: the simulated call never throws (src/pages/Assistant.tsx:56-68). The `failed` parameter of `AssistantPage.FinishResponse` covers the `catch` path (src/pages/Assistant.tsx:69-77) for a call that does throw. With `failed` false, every question gets its scripted answer.
- Contact.tsx: the browser's `required` checks on name, email, subject, category and message (src/pages/Contact.tsx:195-266) are not modelled. `ContactPage.StartSubmit` therefore accepts any form, like the handler itself.
- Contact.tsx: the simulated call never throws (src/pages/Contact.tsx:44-72). The `failed` parameter of `ContactPage.FinishSubmit` covers the `catch` path (src/pages/Contact.tsx:73-79) for a call that does throw.
- AIAssistant.tsx: `handlePresetQuery` sets the input and then calls `handleSendMessage`, which still sees the previous input (src/components/AIAssistant.tsx:63-66). This preset click is not modelled. Typing a preset and sending it is modelled.
- AIAssistant.tsx: a reply timer that fires after the widget was closed still appends its reply. The model allows `DeliverReply` in any state, but does not otherwise describe the widget's visibility.
- AIAssistant.ReplyText and AssistantPage.AnswerText: the canned reply texts are kept exactly, but they are separate from the choice of reply (`Choose` and `Classify`). All lemmas are stated about the choice. The text of a choice is fixed by these two functions.
- AssistantPage.ResponseContent: it has no contract. A bot message records the answer it gives (`Content.Answered`), and `ContentText` gives its text.
- ChatExamples: the worked questions cover five inputs. They are not a test suite.
- Message timestamps (`new Date()` in Assistant.tsx) and React keys are not modelled.
