/** The seat map generator of src/data/mockSeatMap.ts: 30 rows of 6 seats,
    pushed row by row, whose type and surcharge follow from the row and whose
    availability follows from one `Math.random()` draw per seat (a parameter
    here: the seat is unavailable when its draw is below 0.2). */
module MockSeatMap {
  import opened Wrappers
  import opened Text
  import opened Types

  const Rows: nat := 30
  const Cols: nat := 6

  /** The letter of column `colIndex`: 0 is "A", 1 is "B", and so on. */
  function ColumnLetter(colIndex: nat): (r: string)
    requires colIndex < Cols
    ensures |r| == 1 && 'A' <= r[0] <= 'F'
  {
    FromCharCode(65 + colIndex)
  }

  /** Rows 1-3 are premium, rows 10-12 extra legroom, all others standard. */
  function SeatTypeForRow(row: nat): SeatType {
    if row <= 3 then Premium else if 10 <= row <= 12 then ExtraLegroom else Standard
  }

  function PriceForRow(row: nat): Option<real> {
    if row <= 3 then Some(45.0) else if 10 <= row <= 12 then Some(25.0) else None
  }

  /** The seat pushed at position `k` of the list, given its draw. */
  function SeatAt(k: nat, draw: real): Seat
    requires k < Rows * Cols
  {
    var row := k / Cols + 1;
    Seat(row, ColumnLetter(k % Cols), if draw < 0.2 then Unavailable else Available,
         PriceForRow(row), Some(SeatTypeForRow(row)))
  }

  /** The seats the generator produces for the given draws. */
  function MockSeats(draws: seq<real>): (seats: seq<Seat>)
    requires |draws| == Rows * Cols
    ensures |seats| == Rows * Cols
    ensures forall k :: 0 <= k < |seats| ==> seats[k] == SeatAt(k, draws[k])
    ensures forall k :: 0 <= k < |seats| ==> |seats[k].col| == 1 && 'A' <= seats[k].col[0] <= 'F'
    // row-major order, hence no (row, column) pair twice
    ensures forall j, k :: 0 <= j < k < |seats| ==>
              seats[j].row < seats[k].row || (seats[j].row == seats[k].row && seats[j].col[0] < seats[k].col[0])
    ensures forall k :: 0 <= k < |seats| ==>
              && 1 <= seats[k].row <= Rows
              && seats[k].status != Selected
              && (seats[k].status == Unavailable <==> draws[k] < 0.2)
    ensures forall k :: 0 <= k < |seats| && seats[k].row <= 3 ==>
              seats[k].seatType == Some(Premium) && seats[k].price == Some(45.0)
    ensures forall k :: 0 <= k < |seats| && 10 <= seats[k].row <= 12 ==>
              seats[k].seatType == Some(ExtraLegroom) && seats[k].price == Some(25.0)
    ensures forall k :: 0 <= k < |seats| && (3 < seats[k].row < 10 || 12 < seats[k].row) ==>
              seats[k].seatType == Some(Standard) && seats[k].price == None
  {
    seq(Rows * Cols, k requires 0 <= k < Rows * Cols => SeatAt(k, draws[k]))
  }

  /** The module-level loop: for each row from 1 to 30 and each column index
      from 0 to 5, choose the type, price and status, and push the seat. */
  method GenerateMockSeatMap(draws: seq<real>) returns (m: SeatMap)
    requires |draws| == Rows * Cols
    ensures m.rows == Rows && m.cols == Cols
    ensures m.seats == MockSeats(draws)
  {
    m := SeatMap(Rows, Cols, []);
    var row := 1;
    while row <= m.rows
      invariant 1 <= row <= Rows + 1
      invariant m.rows == Rows && m.cols == Cols
      invariant |m.seats| == (row - 1) * Cols
      invariant forall k :: 0 <= k < |m.seats| ==> m.seats[k] == SeatAt(k, draws[k])
    {
      var colIndex := 0;
      while colIndex < m.cols
        invariant 0 <= colIndex <= Cols
        invariant m.rows == Rows && m.cols == Cols
        invariant |m.seats| == (row - 1) * Cols + colIndex
        invariant forall k :: 0 <= k < |m.seats| ==> m.seats[k] == SeatAt(k, draws[k])
      {
        var col := FromCharCode(65 + colIndex);
        var seatType := Standard;
        var status := Available;
        var price: Option<real> := None;
        if row <= 3 {
          seatType := Premium;
          price := Some(45.0);
        } else if row >= 10 && row <= 12 {
          seatType := ExtraLegroom;
          price := Some(25.0);
        }
        var k := |m.seats|;
        if draws[k] < 0.2 {
          status := Unavailable;
        }
        assert k / Cols + 1 == row && k % Cols == colIndex;
        m := m.(seats := m.seats + [Seat(row, col, status, price, Some(seatType))]);
        colIndex := colIndex + 1;
      }
      row := row + 1;
    }
  }

  /** Every seat of the grid is present: row `r` (1-30), column `c` (0-5)
      sits at position `(r - 1) * 6 + c`. */
  lemma MockSeatsCover(draws: seq<real>, r: nat, c: nat)
    requires |draws| == Rows * Cols && 1 <= r <= Rows && c < Cols
    ensures var s := MockSeats(draws)[(r - 1) * Cols + c];
            s.row == r && s.col == ColumnLetter(c)
  {
  }
}
