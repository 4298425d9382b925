/**
 * The seat map of SeatSelection.tsx: a 10 x 12 grid with a fixed list of
 * booked seats, and the click handler that toggles a seat in the selection
 * and caps the selection at ten seats.
 */
module SeatSelection {
  import opened Text
  import opened Seqs
  import opened Wrappers
  import Pricing

  const Rows: seq<char> := ['A', 'B', 'C', 'D', 'E', 'F', 'G', 'H', 'I', 'J']
  const SeatsPerRow: nat := 12
  /** Seats that are already booked and cannot be picked. */
  const UnavailableSeats: seq<string> := ["A5", "A6", "B8", "C3", "C4", "D7", "E9", "F5", "F6", "G2", "H10", "I4"]
  /** The most seats one booking may hold. */
  const MaxSeats: nat := 10

  /** `${row}${seatNum}`. */
  function SeatId(row: char, number: nat): (id: string)
    ensures |id| >= 2 && id[0] == row && id[1..] == Digits(number)
  {
    [row] + Digits(number)
  }

  /** Reads a seat id back into its row letter and seat number. */
  function ParseSeatId(id: string): Option<(char, nat)>
  {
    if |id| >= 2 && forall i :: 1 <= i < |id| ==> IsDigit(id[i])
    then Some((id[0], ParseDigits(id[1..])))
    else None
  }

  /** Parsing a seat id gives back the row and number it was built from. */
  lemma ParseSeatIdOfSeatId(row: char, number: nat)
    ensures ParseSeatId(SeatId(row, number)) == Some((row, number))
  {
    var id := SeatId(row, number);
    assert forall i :: 1 <= i < |id| ==> id[i] == id[1..][i - 1];
    ParseDigitsOfDigits(number);
  }

  /** Different grid positions have different ids. */
  lemma SeatIdInjective(r1: char, n1: nat, r2: char, n2: nat)
    requires SeatId(r1, n1) == SeatId(r2, n2)
    ensures r1 == r2 && n1 == n2
  {
    ParseSeatIdOfSeatId(r1, n1);
    ParseSeatIdOfSeatId(r2, n2);
  }

  /** One cell of the layout, as `generateSeats` builds it. */
  datatype Seat = Seat(id: string, row: char, number: nat, isUnavailable: bool, isSelected: bool, isPremium: bool)

  function MakeSeat(row: char, number: nat, selectedSeats: seq<string>): Seat
  {
    var id := SeatId(row, number);
    Seat(id, row, number, id in UnavailableSeats, id in selectedSeats, Pricing.IsPremiumRow(row))
  }

  /**
   * `generateSeats`: one inner list per row letter, seats numbered 1 to 12.
   */
  method GenerateSeats(selectedSeats: seq<string>) returns (layout: seq<seq<Seat>>)
    ensures |layout| == |Rows|
    ensures forall r :: 0 <= r < |Rows| ==> |layout[r]| == SeatsPerRow
    ensures forall r, c :: 0 <= r < |Rows| && 0 <= c < SeatsPerRow ==>
              layout[r][c] == MakeSeat(Rows[r], c + 1, selectedSeats)
  {
    layout := [];
    for r := 0 to |Rows|
      invariant |layout| == r
      invariant forall i :: 0 <= i < r ==> |layout[i]| == SeatsPerRow
      invariant forall i, c :: 0 <= i < r && 0 <= c < SeatsPerRow ==>
                  layout[i][c] == MakeSeat(Rows[i], c + 1, selectedSeats)
    {
      var row := Rows[r];
      var rowSeats: seq<Seat> := [];
      var seatNum := 1;
      while seatNum <= SeatsPerRow
        invariant 1 <= seatNum <= SeatsPerRow + 1
        invariant |rowSeats| == seatNum - 1
        invariant forall c :: 0 <= c < |rowSeats| ==> rowSeats[c] == MakeSeat(row, c + 1, selectedSeats)
      {
        var seatId := SeatId(row, seatNum);
        rowSeats := rowSeats + [Seat(seatId, row, seatNum, seatId in UnavailableSeats,
                                     seatId in selectedSeats, Pricing.IsPremiumRow(row))];
        seatNum := seatNum + 1;
      }
      layout := layout + [rowSeats];
    }
  }

  /** A seat of the layout is premium exactly when its row is F or later, and is priced accordingly. */
  lemma LayoutPricing(r: nat, number: nat, selectedSeats: seq<string>)
    requires r < |Rows|
    ensures MakeSeat(Rows[r], number, selectedSeats).isPremium <==> r >= 5
    ensures Pricing.SeatPrice(SeatId(Rows[r], number)) == (if r >= 5 then 300 else 200)
  {
  }

  /** The twelve booked seats are distinct. */
  lemma UnavailableSeatsDistinct()
    ensures |UnavailableSeats| == 12 && NoDuplicates(UnavailableSeats)
  {
  }

  /** A seat id that names a grid position. */
  predicate OnGrid(id: string)
  {
    exists r, n :: 0 <= r < |Rows| && 1 <= n <= SeatsPerRow && SeatId(Rows[r], n) == id
  }

  lemma BookedSeatsOfRowsAToD(id: string)
    requires id in ["A5", "A6", "B8", "C3", "C4", "D7"]
    ensures OnGrid(id)
  {
    if id == "A5" { assert SeatId(Rows[0], 5) == id; }
    else if id == "A6" { assert SeatId(Rows[0], 6) == id; }
    else if id == "B8" { assert SeatId(Rows[1], 8) == id; }
    else if id == "C3" { assert SeatId(Rows[2], 3) == id; }
    else if id == "C4" { assert SeatId(Rows[2], 4) == id; }
    else { assert SeatId(Rows[3], 7) == id; }
  }

  lemma BookedSeatsOfRowsEToI(id: string)
    requires id in ["E9", "F5", "F6", "G2", "H10", "I4"]
    ensures OnGrid(id)
  {
    if id == "E9" { assert SeatId(Rows[4], 9) == id; }
    else if id == "F5" { assert SeatId(Rows[5], 5) == id; }
    else if id == "F6" { assert SeatId(Rows[5], 6) == id; }
    else if id == "G2" { assert SeatId(Rows[6], 2) == id; }
    else if id == "H10" { assert SeatId(Rows[7], 10) == id; }
    else { assert SeatId(Rows[8], 4) == id; }
  }

  /** Every booked seat is a seat of the grid (so exactly twelve grid seats are booked). */
  lemma UnavailableSeatsOnGrid(id: string)
    requires id in UnavailableSeats
    ensures OnGrid(id)
  {
    if id in ["A5", "A6", "B8", "C3", "C4", "D7"] {
      BookedSeatsOfRowsAToD(id);
    } else {
      BookedSeatsOfRowsEToI(id);
    }
  }

  // ---------------------------------------------------------------------------
  // Toggling a seat
  // ---------------------------------------------------------------------------

  /** What a click on a seat does. */
  datatype ClickResult =
    | Ignored                      // the seat is booked: the handler returns at once
    | LimitReached                 // ten seats already picked: alert, no change
    | Selected(seats: seq<string>) // `onSeatSelect(newSelectedSeats)`

  /** `selectedSeats.filter(id => id !== seatId)`. */
  function Without(seats: seq<string>, seatId: string): (r: seq<string>)
    ensures seatId !in r
    ensures forall x :: x in r <==> x in seats && x != seatId
  {
    Filter(seats, x => x != seatId)
  }

  /** `handleSeatClick(seatId, isUnavailable)`. */
  function SeatClick(selectedSeats: seq<string>, seatId: string, isUnavailable: bool): (r: ClickResult)
    ensures r.Ignored? <==> isUnavailable
    ensures r.LimitReached? <==> !isUnavailable && seatId !in selectedSeats && |selectedSeats| >= MaxSeats
    ensures r.Selected? && seatId in selectedSeats ==>
              seatId !in r.seats && forall x :: x in r.seats <==> x in selectedSeats && x != seatId
    ensures r.Selected? && seatId !in selectedSeats ==>
              |selectedSeats| < MaxSeats && r.seats == selectedSeats + [seatId]
  {
    if isUnavailable then Ignored
    else if seatId in selectedSeats then Selected(Without(selectedSeats, seatId))
    else if |selectedSeats| >= MaxSeats then LimitReached
    else Selected(selectedSeats + [seatId])
  }

  /** The selection after a click: the new list when one was passed on, the old one otherwise. */
  function SelectionAfter(selectedSeats: seq<string>, seatId: string, isUnavailable: bool): seq<string>
  {
    match SeatClick(selectedSeats, seatId, isUnavailable)
    case Selected(seats) => seats
    case _ => selectedSeats
  }

  /** What every reachable selection satisfies: no seat twice, at most ten, none booked. */
  predicate ValidSelection(seats: seq<string>)
  {
    NoDuplicates(seats) && |seats| <= MaxSeats && forall i :: 0 <= i < |seats| ==> seats[i] !in UnavailableSeats
  }

  /** Deselecting keeps the remaining seats in the order they were picked. */
  lemma DeselectKeepsOrder(selectedSeats: seq<string>, seatId: string)
    requires seatId in selectedSeats
    ensures IsSubsequence(SelectionAfter(selectedSeats, seatId, false), selectedSeats)
    ensures |SelectionAfter(selectedSeats, seatId, false)| < |selectedSeats|
  {
    FilterIsSubsequence(selectedSeats, x => x != seatId);
    FilterDropsOne(selectedSeats, seatId);
  }

  lemma {:induction false} FilterDropsOne(s: seq<string>, v: string)
    requires v in s
    ensures |Filter(s, x => x != v)| < |s|
  {
    if s[0] != v {
      assert v in s[1..];
      FilterDropsOne(s[1..], v);
    }
  }

  /** A click on a booked seat changes nothing. */
  lemma UnavailableClickIgnored(selectedSeats: seq<string>, seatId: string)
    ensures SelectionAfter(selectedSeats, seatId, true) == selectedSeats
  {
  }

  /** With ten seats picked, a new seat is refused and the selection is unchanged. */
  lemma LimitKeepsSelection(selectedSeats: seq<string>, seatId: string)
    requires |selectedSeats| >= MaxSeats && seatId !in selectedSeats
    ensures SeatClick(selectedSeats, seatId, false) == LimitReached
    ensures SelectionAfter(selectedSeats, seatId, false) == selectedSeats
  {
  }

  /**
   * From a valid selection, a click on a seat of the layout (whose
   * `isUnavailable` flag says whether it is booked) yields a valid selection.
   */
  lemma ClickKeepsValid(selectedSeats: seq<string>, seatId: string)
    requires ValidSelection(selectedSeats)
    ensures ValidSelection(SelectionAfter(selectedSeats, seatId, seatId in UnavailableSeats))
  {
    var isUnavailable := seatId in UnavailableSeats;
    var r := SelectionAfter(selectedSeats, seatId, isUnavailable);
    if !isUnavailable {
      if seatId in selectedSeats {
        FilterNoDuplicates(selectedSeats, x => x != seatId);
        forall i | 0 <= i < |r| ensures r[i] !in UnavailableSeats {
          assert r[i] in r;
          var j :| 0 <= j < |selectedSeats| && selectedSeats[j] == r[i];
        }
      } else if |selectedSeats| < MaxSeats {
        assert r == selectedSeats + [seatId];
        forall i, j | 0 <= i < j < |r| ensures r[i] != r[j] {
          if j == |selectedSeats| {
            assert r[i] == selectedSeats[i];
            assert selectedSeats[i] in selectedSeats;
          }
        }
      }
    }
  }

  /** Selecting a free seat and then clicking it again restores the original selection. */
  lemma SelectThenDeselect(selectedSeats: seq<string>, seatId: string)
    requires seatId !in selectedSeats && |selectedSeats| < MaxSeats
    ensures SelectionAfter(SelectionAfter(selectedSeats, seatId, false), seatId, false) == selectedSeats
  {
    var added := selectedSeats + [seatId];
    FilterAppend(selectedSeats, [seatId], x => x != seatId);
    FilterKeepAll(selectedSeats, x => x != seatId);
    assert Filter([seatId], x => x != seatId) == [];
    assert selectedSeats + [] == selectedSeats;
  }

  /**
   * The component's owner: it holds the selection that `onSeatSelect`
   * replaces and passes it back to the grid.
   */
  class SeatSelector {
    var selectedSeats: seq<string>

    constructor ()
      ensures selectedSeats == []
    {
      selectedSeats := [];
    }

    /** `handleSeatClick` followed by `onSeatSelect`; `alerted` is the ten-seat alert. */
    method HandleSeatClick(seatId: string, isUnavailable: bool) returns (alerted: bool)
      modifies this
      ensures alerted <==> SeatClick(old(selectedSeats), seatId, isUnavailable).LimitReached?
      ensures selectedSeats == SelectionAfter(old(selectedSeats), seatId, isUnavailable)
    {
      alerted := false;
      if isUnavailable {
        return;
      }
      var newSelectedSeats;
      if seatId in selectedSeats {
        newSelectedSeats := Without(selectedSeats, seatId);
      } else {
        if |selectedSeats| >= MaxSeats {
          alerted := true;
          return;
        }
        newSelectedSeats := selectedSeats + [seatId];
      }
      selectedSeats := newSelectedSeats;
    }

    /** `calculateTotal`: the price of the picked seats, shown under the grid. */
    function CalculateTotal(): (total: nat)
      reads this
      ensures total == Pricing.Breakdown(selectedSeats).subtotal
      ensures 200 * |selectedSeats| <= total <= 300 * |selectedSeats|
    {
      Pricing.Subtotal(selectedSeats)
    }
  }
}
