/**
 * DateSelector.tsx: a strip of seven consecutive dates starting at
 * `currentWeekStart`, moved a week at a time by the arrow buttons. A date
 * is highlighted when it falls on the same calendar day as the selected
 * date; dates before today (today excepted) are disabled and their clicks
 * are dropped.
 *
 * A JavaScript `Date` is modelled as a `Moment`: a day number and the
 * milliseconds into that day. `setDate(getDate() + n)` moves the day number
 * by n and keeps the time of day; `toDateString()` equality is equality of
 * day numbers; `<` compares instants.
 */
module DateSelector {
  import opened Wrappers

  const MsPerDay: nat := 86_400_000
  const DaysShown: nat := 7
  /** Day 0 is 1 January 1970, a Thursday. */
  const WeekdayNames: seq<string> := ["Thu", "Fri", "Sat", "Sun", "Mon", "Tue", "Wed"]

  datatype Moment = Moment(day: int, msOfDay: nat)

  predicate ValidMoment(m: Moment)
  {
    m.msOfDay < MsPerDay
  }

  /** The instant as milliseconds since day 0. */
  function Instant(m: Moment): int
  {
    m.day * MsPerDay + m.msOfDay
  }

  /** `new Date(d); date.setDate(d.getDate() + n)`. */
  function AddDays(m: Moment, n: int): (r: Moment)
    ensures ValidMoment(m) ==> ValidMoment(r)
    ensures Instant(r) == Instant(m) + n * MsPerDay
  {
    Moment(m.day + n, m.msOfDay)
  }

  /** `a.toDateString() === b.toDateString()`. */
  predicate SameDay(a: Moment, b: Moment)
  {
    a.day == b.day
  }

  /** The seven dates of the week view: the start and the six days after it, at the same time of day. */
  function WeekOf(start: Moment): seq<Moment>
  {
    seq(DaysShown, i => AddDays(start, i))
  }

  /** The week view is seven consecutive calendar days starting on the start's day. */
  lemma WeekIsConsecutive(start: Moment)
    ensures |WeekOf(start)| == 7
    ensures WeekOf(start)[0] == start
    ensures forall i :: 0 <= i < 6 ==> WeekOf(start)[i + 1].day == WeekOf(start)[i].day + 1
    ensures forall i, j :: 0 <= i < j < 7 ==> !SameDay(WeekOf(start)[i], WeekOf(start)[j])
  {
  }

  /** `generateWeekDates`: the loop pushing `startDate + i` for i from 0 to 6. */
  method GenerateWeekDates(startDate: Moment) returns (dates: seq<Moment>)
    ensures dates == WeekOf(startDate)
  {
    dates := [];
    for i := 0 to DaysShown
      invariant |dates| == i
      invariant forall k :: 0 <= k < i ==> dates[k] == AddDays(startDate, k)
    {
      dates := dates + [AddDays(startDate, i)];
    }
  }

  /** `isDateSelected`. */
  predicate IsDateSelected(date: Moment, selectedDate: Moment)
  {
    SameDay(date, selectedDate)
  }

  /** The selected date is highlighted in the week view exactly when its day is one of the seven, and then only once. */
  lemma SelectedInWeek(start: Moment, selectedDate: Moment)
    ensures (exists i :: 0 <= i < 7 && IsDateSelected(WeekOf(start)[i], selectedDate))
            <==> start.day <= selectedDate.day < start.day + 7
    ensures forall i, j ::
              (0 <= i < 7 && 0 <= j < 7 && IsDateSelected(WeekOf(start)[i], selectedDate)
               && IsDateSelected(WeekOf(start)[j], selectedDate)) ==> i == j
  {
    if start.day <= selectedDate.day < start.day + 7 {
      var i := selectedDate.day - start.day;
      assert IsDateSelected(WeekOf(start)[i], selectedDate);
    }
  }

  /** `isPast`: strictly earlier than now and not on today's date. */
  predicate IsPast(date: Moment, now: Moment)
  {
    Instant(date) < Instant(now) && !SameDay(date, now)
  }

  /** A date is disabled exactly when its calendar day is before today's, whatever the times of day. */
  lemma PastIffEarlierDay(date: Moment, now: Moment)
    requires ValidMoment(date) && ValidMoment(now)
    ensures IsPast(date, now) <==> date.day < now.day
  {
    if date.day < now.day {
      assert Instant(date) < (date.day + 1) * MsPerDay <= Instant(now);
    } else if date.day > now.day {
      assert Instant(now) < (now.day + 1) * MsPerDay <= Instant(date);
    }
  }

  /** A click: `!isPast && onDateSelect(date)`; None when the click is dropped. */
  function ClickDate(date: Moment, now: Moment): (selected: Option<Moment>)
    ensures selected.Some? <==> !IsPast(date, now)
    ensures selected.Some? ==> selected.value == date
  {
    if IsPast(date, now) then None else Some(date)
  }

  /** The first line of a date button. */
  datatype DayName = Today | Tomorrow | Weekday(name: string)

  /** The short weekday name of a day number. */
  function WeekdayName(day: int): (name: string)
    ensures name in WeekdayNames
  {
    WeekdayNames[day % 7]
  }

  /** 1 January 1970, day 0, was a Thursday. */
  lemma EpochIsThursday()
    ensures WeekdayName(0) == "Thu" && WeekdayName(4) == "Mon"
  {
  }

  /** The seven short names are all different. */
  lemma WeekdayNamesDistinct()
    ensures forall i, j :: 0 <= i < j < 7 ==> WeekdayNames[i] != WeekdayNames[j]
  {
    assert WeekdayNames[0][0] == 'T' && WeekdayNames[1][0] == 'F' && WeekdayNames[2][0] == 'S';
    assert WeekdayNames[3][0] == 'S' && WeekdayNames[4][0] == 'M' && WeekdayNames[5][0] == 'T';
    assert WeekdayNames[6][0] == 'W';
    assert WeekdayNames[0][1] == 'h' && WeekdayNames[5][1] == 'u';
    assert WeekdayNames[2][1] == 'a' && WeekdayNames[3][1] == 'u';
  }

  /** The day after a day shows the next name of the cycle Thu, Fri, ..., Wed, Thu. */
  lemma WeekdayNameNext(day: int, k: nat)
    requires k < 7 && WeekdayName(day) == WeekdayNames[k]
    ensures WeekdayName(day + 1) == WeekdayNames[(k + 1) % 7]
  {
    WeekdayNamesDistinct();
    assert day % 7 == k;
    assert (day + 1) % 7 == (k + 1) % 7;
  }

  /** The seven days of any week view show seven different weekday names. */
  lemma WeekNamesDistinct(start: Moment)
    ensures forall i, j :: 0 <= i < j < 7 ==> WeekdayName(WeekOf(start)[i].day) != WeekdayName(WeekOf(start)[j].day)
  {
    WeekdayNamesDistinct();
    forall i, j | 0 <= i < j < 7
      ensures WeekdayName(WeekOf(start)[i].day) != WeekdayName(WeekOf(start)[j].day)
    {
      var a, b := WeekOf(start)[i].day, WeekOf(start)[j].day;
      assert a == start.day + i && b == start.day + j;
      assert a % 7 != b % 7;
    }
  }

  /** Weekday names repeat every seven days, so a week later shows the same names. */
  lemma WeekdayNamePeriodic(day: int)
    ensures WeekdayName(day + 7) == WeekdayName(day)
    ensures WeekdayName(day - 7) == WeekdayName(day)
  {
    assert (day + 7) % 7 == day % 7;
    assert (day - 7) % 7 == day % 7;
  }

  /** `formatDate(date).day`, with `today` the current moment. */
  function FormatDay(date: Moment, today: Moment): (shown: DayName)
    ensures shown == Today <==> SameDay(date, today)
    ensures shown == Tomorrow <==> date.day == today.day + 1
    ensures shown.Weekday? ==> date.day != today.day && date.day != today.day + 1 && shown.name in WeekdayNames
    ensures shown.Weekday? ==> shown.name == WeekdayName(date.day)
  {
    if SameDay(date, today) then Today
    else if SameDay(date, AddDays(today, 1)) then Tomorrow
    else Weekday(WeekdayName(date.day))
  }

  /** Labels in a week that starts today: "Today", "Tomorrow", then five weekday names. */
  lemma WeekFromTodayLabels(today: Moment)
    ensures FormatDay(WeekOf(today)[0], today) == Today
    ensures FormatDay(WeekOf(today)[1], today) == Tomorrow
    ensures forall i :: 2 <= i < 7 ==> FormatDay(WeekOf(today)[i], today).Weekday?
  {
  }

  datatype Direction = Prev | Next

  /** The week step: +7 days for next, -7 for prev. */
  function Step(direction: Direction): int
  {
    if direction == Next then 7 else -7
  }

  class WeekStrip {
    var currentWeekStart: Moment

    /** `useState(new Date())`: the view starts at now. */
    constructor (now: Moment)
      ensures currentWeekStart == now
    {
      currentWeekStart := now;
    }

    /** `navigateWeek`. */
    method NavigateWeek(direction: Direction)
      modifies this
      ensures currentWeekStart == AddDays(old(currentWeekStart), Step(direction))
    {
      currentWeekStart := AddDays(currentWeekStart, Step(direction));
    }

    /** `weekDates`, computed on every render. */
    method WeekDates() returns (dates: seq<Moment>)
      ensures dates == WeekOf(currentWeekStart)
    {
      dates := GenerateWeekDates(currentWeekStart);
    }
  }

  /** Next followed by prev, or prev followed by next, restores the week. */
  lemma NavigateRoundTrip(start: Moment, direction: Direction)
    ensures AddDays(AddDays(start, Step(direction)), -Step(direction)) == start
    ensures WeekOf(AddDays(AddDays(start, Step(Next)), Step(Prev))) == WeekOf(start)
  {
  }

  /** Moving a week forward shows the seven days right after the current ones. */
  lemma NextWeekFollows(start: Moment)
    ensures WeekOf(AddDays(start, Step(Next)))[0].day == WeekOf(start)[6].day + 1
  {
  }
}
