/**
 * Seat pricing and the price breakdown shown before payment
 * (SeatSelection.tsx `getSeatPrice`/`calculateTotal`, BookingSummary.tsx
 * `getSeatPrice`, `calculateSubtotal`, `convenientFee`, `taxes`, `totalAmount`).
 *
 * Amounts are whole rupees. `Math.round(x * 0.05)` and
 * `Math.round(x * 0.18)` are modelled exactly as round-half-up on rationals:
 * the nearest integer, ties going up.
 */
module Pricing {

  const RegularPrice: nat := 200
  const PremiumPrice: nat := 300
  /** Rows from this letter on are premium (`row >= 'F'`). */
  const FirstPremiumRow: char := 'F'
  const FeePercent: nat := 5
  const TaxPercent: nat := 18

  /** `row >= 'F'`: the string comparison of a one-character row. */
  predicate IsPremiumRow(row: char)
  {
    row >= FirstPremiumRow
  }

  /** SeatSelection.tsx `getSeatPrice(isPremium)`. */
  function TierPrice(isPremium: bool): nat
  {
    if isPremium then PremiumPrice else RegularPrice
  }

  /**
   * BookingSummary.tsx `getSeatPrice(seatId)`: the tier of the seat's first
   * character. For an empty id `seatId[0]` is `undefined`, the comparison is
   * false and the seat is priced as regular.
   */
  function SeatPrice(seatId: string): nat
  {
    TierPrice(|seatId| > 0 && IsPremiumRow(seatId[0]))
  }

  /** Rows A to E cost 200 and rows F to J cost 300, whatever follows the row letter. */
  lemma SeatPriceByRow(row: char, rest: string)
    requires 'A' <= row <= 'J'
    ensures SeatPrice([row] + rest) == (if row <= 'E' then RegularPrice else PremiumPrice)
    ensures SeatPrice([row] + rest) == 200 || SeatPrice([row] + rest) == 300
  {
  }

  /**
   * `seats.reduce((total, id) => total + getSeatPrice(id), 0)`: a left fold,
   * so the last seat is added last.
   */
  function Subtotal(seats: seq<string>): (total: nat)
    ensures RegularPrice * |seats| <= total <= PremiumPrice * |seats|
    ensures total % 100 == 0
  {
    if seats == [] then 0 else Subtotal(seats[..|seats| - 1]) + SeatPrice(seats[|seats| - 1])
  }

  /** The subtotal of two lists one after the other is the sum of their subtotals. */
  lemma {:induction false} SubtotalAppend(a: seq<string>, b: seq<string>)
    ensures Subtotal(a + b) == Subtotal(a) + Subtotal(b)
    decreases |b|
  {
    if b == [] {
      assert a + b == a;
    } else {
      assert (a + b)[..|a + b| - 1] == a + b[..|b| - 1];
      SubtotalAppend(a, b[..|b| - 1]);
    }
  }

  /** The subtotal does not depend on the order in which the seats were picked. */
  lemma {:induction false} SubtotalPermutation(a: seq<string>, b: seq<string>)
    requires multiset(a) == multiset(b)
    ensures Subtotal(a) == Subtotal(b)
    decreases |a|
  {
    if a != [] {
      var n := |a| - 1;
      var x := a[n];
      assert x in multiset(b) by {
        assert a == a[..n] + [x];
        assert x in multiset(a);
      }
      var k :| 0 <= k < |b| && b[k] == x;
      var rest := b[..k] + b[k + 1..];
      assert b == b[..k] + [x] + b[k + 1..];
      assert a == a[..n] + [x];
      assert multiset(a[..n]) == multiset(rest) by {
        calc {
          multiset(a[..n]) + multiset{x};
          multiset(a);
          multiset(b);
          multiset(b[..k]) + multiset{x} + multiset(b[k + 1..]);
          multiset(rest) + multiset{x};
        }
        assert multiset(a[..n]) == multiset(a[..n]) + multiset{x} - multiset{x};
        assert multiset(rest) == multiset(rest) + multiset{x} - multiset{x};
      }
      SubtotalPermutation(a[..n], rest);
      SubtotalAppend(b[..k], [x]);
      SubtotalAppend(b[..k] + [x], b[k + 1..]);
      SubtotalAppend(b[..k], b[k + 1..]);
      assert Subtotal([x]) == SeatPrice(x) by {
        assert [x][..0] == [];
      }
    }
  }

  /**
   * `Math.round(amount * percent / 100)` for a non-negative amount: the
   * nearest integer to the exact percentage, a tie at .5 going up.
   */
  function RoundedPercent(amount: nat, percent: nat): (r: nat)
    ensures 100 * r <= amount * percent + 50 < 100 * r + 100
  {
    (amount * percent + 50) / 100
  }

  /** BookingSummary.tsx `convenientFee`: 5% of the subtotal, rounded. */
  function ConvenienceFee(subtotal: nat): (fee: nat)
    ensures 100 * fee <= 5 * subtotal + 50 < 100 * fee + 100
    ensures fee <= subtotal
  {
    RoundedPercent(subtotal, FeePercent)
  }

  /** BookingSummary.tsx `taxes`: 18% GST on subtotal plus fee, rounded. */
  function Taxes(subtotal: nat, fee: nat): (tax: nat)
    ensures 100 * tax <= 18 * (subtotal + fee) + 50 < 100 * tax + 100
    ensures tax <= subtotal + fee
  {
    RoundedPercent(subtotal + fee, TaxPercent)
  }

  /** The amounts the summary card shows and the booking record carries. */
  datatype PriceBreakdown = PriceBreakdown(subtotal: nat, convenienceFee: nat, taxes: nat, totalAmount: nat)

  /** The breakdown of a list of seats. */
  function Breakdown(seats: seq<string>): (b: PriceBreakdown)
    ensures b.subtotal == Subtotal(seats)
    ensures b.convenienceFee == ConvenienceFee(b.subtotal)
    ensures b.taxes == Taxes(b.subtotal, b.convenienceFee)
    ensures b.totalAmount == b.subtotal + b.convenienceFee + b.taxes
    ensures b.subtotal <= b.totalAmount
  {
    var subtotal := Subtotal(seats);
    var fee := ConvenienceFee(subtotal);
    var tax := Taxes(subtotal, fee);
    PriceBreakdown(subtotal, fee, tax, subtotal + fee + tax)
  }

  /** No seats: nothing to pay. */
  lemma EmptyBreakdown()
    ensures Breakdown([]) == PriceBreakdown(0, 0, 0, 0)
  {
    var b := Breakdown([]);
    assert b.subtotal == 0;
    assert b.convenienceFee == 0;
    assert b.taxes == 0;
  }

  /**
   * Seat prices are multiples of 100, so 5% of any subtotal is a whole
   * number and the fee involves no rounding at all.
   */
  lemma FeeIsExact(seats: seq<string>)
    ensures 20 * ConvenienceFee(Subtotal(seats)) == Subtotal(seats)
  {
    var subtotal := Subtotal(seats);
    var k := subtotal / 100;
    assert subtotal == 100 * k;
    assert 5 * subtotal + 50 == 100 * (5 * k) + 50;
    assert ConvenienceFee(subtotal) == 5 * k;
  }

  /** Seats A1, A2 and F1: 700 + 35 + 132 = 867. */
  lemma WorkedExample()
    ensures Breakdown(["A1", "A2", "F1"]) == PriceBreakdown(700, 35, 132, 867)
  {
    var seats := ["A1", "A2", "F1"];
    assert seats[..2] == ["A1", "A2"] && ["A1", "A2"][..1] == ["A1"] && ["A1"][..0] == [];
    assert Subtotal(seats) == 700;
  }

  /** Seats F1 and A1: a subtotal of 500 puts the tax exactly on 94.5, which rounds up. */
  lemma TieRoundsUp()
    ensures Breakdown(["F1", "A1"]) == PriceBreakdown(500, 25, 95, 620)
  {
    var seats := ["F1", "A1"];
    assert seats[..1] == ["F1"] && ["F1"][..0] == [];
    assert Subtotal(seats) == 500;
  }
}
