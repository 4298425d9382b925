/**
 * ShowtimeSelector.tsx: one button per showtime, highlighted when it is the
 * selected showtime. A showtime is recognised by its time and theater; the
 * price plays no part in the comparison.
 */
module ShowtimeSelector {
  import opened Wrappers

  datatype Showtime = Showtime(time: string, theater: string, price: int)

  /** `selectedShowtime?.time === showtime.time && selectedShowtime?.theater === showtime.theater`. */
  predicate IsSelected(selected: Option<Showtime>, showtime: Showtime)
  {
    selected.Some? && selected.value.time == showtime.time && selected.value.theater == showtime.theater
  }

  /** A rendered button: the showtime its click passes to `onShowtimeSelect`, and whether it is highlighted. */
  datatype ShowtimeButton = ShowtimeButton(showtime: Showtime, highlighted: bool)

  /** `showtimes.map(...)`: one button per showtime, in input order. */
  function Buttons(showtimes: seq<Showtime>, selected: Option<Showtime>): (buttons: seq<ShowtimeButton>)
    ensures |buttons| == |showtimes|
    ensures forall i :: 0 <= i < |showtimes| ==>
              buttons[i].showtime == showtimes[i] && buttons[i].highlighted == IsSelected(selected, showtimes[i])
  {
    seq(|showtimes|, i requires 0 <= i < |showtimes| => ShowtimeButton(showtimes[i], IsSelected(selected, showtimes[i])))
  }

  /** No two showtimes share both time and theater. */
  predicate DistinctSlots(showtimes: seq<Showtime>)
  {
    forall i, j :: 0 <= i < j < |showtimes| ==>
      showtimes[i].time != showtimes[j].time || showtimes[i].theater != showtimes[j].theater
  }

  /** With nothing selected, no button is highlighted. */
  lemma NothingSelectedNothingHighlighted(showtimes: seq<Showtime>)
    ensures forall b :: b in Buttons(showtimes, None) ==> !b.highlighted
  {
  }

  /** When the slots are distinct, at most one button is highlighted. */
  lemma AtMostOneHighlighted(showtimes: seq<Showtime>, selected: Option<Showtime>, i: nat, j: nat)
    requires DistinctSlots(showtimes)
    requires i < |showtimes| && j < |showtimes|
    requires Buttons(showtimes, selected)[i].highlighted && Buttons(showtimes, selected)[j].highlighted
    ensures i == j
  {
  }

  /** A selected showtime highlights its own button, and a change of price does not matter. */
  lemma SelectedHighlightsItself(showtime: Showtime, price: int)
    ensures IsSelected(Some(showtime), showtime)
    ensures IsSelected(Some(showtime.(price := price)), showtime)
  {
  }
}
