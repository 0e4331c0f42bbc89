/** The seat picker of src/components/SeatMap.tsx: seat ids, the lookup of a
    seat by row and column, which seats can be clicked, the order in which
    the display's class suffixes take precedence, the column headers, and the
    hovered-seat state that mouse events set and clear. */
module SeatMapView {
  import opened Wrappers
  import opened Text
  import opened Types
  import MockSeatMap

  /** `${row}${col}`. */
  function SeatId(row: nat, col: string): (r: string)
    ensures |r| == |Decimal(row)| + |col| && r[..|Decimal(row)|] == Decimal(row)
    ensures r[|Decimal(row)|..] == col
  {
    Decimal(row) + col
  }

  /** Seat ids of single-letter columns identify the seat. */
  lemma SeatIdInjective(r1: nat, c1: string, r2: nat, c2: string)
    requires |c1| == 1 && |c2| == 1 && 'A' <= c1[0] <= 'Z' && 'A' <= c2[0] <= 'Z'
    requires SeatId(r1, c1) == SeatId(r2, c2)
    ensures r1 == r2 && c1 == c2
  {
    DecimalSuffixInjective(r1, c1, r2, c2);
  }

  predicate AtPosition(row: nat, col: string, s: Seat) {
    s.row == row && s.col == col
  }

  /** `seats.find(s => s.row === row && s.col === col)`: the first seat at the
      position, or nothing when no seat is there. */
  function FindSeat(seats: seq<Seat>, row: nat, col: string): (r: Option<Seat>)
    ensures r.None? <==> forall s :: s in seats ==> !AtPosition(row, col, s)
    ensures r.Some? ==> exists k :: 0 <= k < |seats| && seats[k] == r.value
                          && AtPosition(row, col, r.value)
                          && forall j :: 0 <= j < k ==> !AtPosition(row, col, seats[j])
  {
    var k := FindIndex(seats, s => AtPosition(row, col, s));
    if k == -1 then None else Some(seats[k])
  }

  /** `isAvailable && onSeatSelect(seatId)`: the id passed to the callback
      when the seat is clicked, if any. */
  function ClickSeat(seat: Seat, seatId: string): (r: Option<string>)
    ensures r.Some? <==> seat.status == Available
    ensures r.Some? ==> r.value == seatId
  {
    if seat.status == Available then Some(seatId) else None
  }

  /** The six appearances a rendered seat can take. */
  datatype SeatLook = SelectedLook | HoveredLook | PremiumLook | ExtraLegroomLook | StandardLook | UnavailableLook

  /** The class suffix each appearance appends. */
  function LookClasses(look: SeatLook): string {
    match look
    case SelectedLook => " bg-primary-600 text-white"
    case HoveredLook => " bg-primary-200 text-primary-800"
    case PremiumLook => " bg-accent-100 text-accent-800 hover:bg-accent-200"
    case ExtraLegroomLook => " bg-success-50 text-success-700 hover:bg-success-100"
    case StandardLook => " bg-secondary-100 text-secondary-800 hover:bg-secondary-200"
    case UnavailableLook => " bg-secondary-300 text-secondary-500 cursor-not-allowed opacity-50"
  }

  const BaseSeatClasses: string :=
    "w-10 h-10 flex items-center justify-center rounded-md m-1 text-sm cursor-pointer transition-colors"

  /** The appearance of a seat: selected beats hovered-and-available, which
      beats available-by-type, which beats unavailable. */
  function Look(seat: Seat, seatId: string, selectedSeat: Option<string>, hoveredSeat: Option<string>)
    : (r: SeatLook)
    ensures r == SelectedLook <==> selectedSeat == Some(seatId)
    ensures r == HoveredLook <==>
              selectedSeat != Some(seatId) && hoveredSeat == Some(seatId) && seat.status == Available
    ensures r == UnavailableLook <==> selectedSeat != Some(seatId) && seat.status != Available
    ensures r in {PremiumLook, ExtraLegroomLook, StandardLook} <==>
              selectedSeat != Some(seatId) && hoveredSeat != Some(seatId) && seat.status == Available
    ensures r == PremiumLook <==>
              selectedSeat != Some(seatId) && hoveredSeat != Some(seatId) && seat.status == Available
              && seat.seatType == Some(Premium)
    ensures r == ExtraLegroomLook <==>
              selectedSeat != Some(seatId) && hoveredSeat != Some(seatId) && seat.status == Available
              && seat.seatType == Some(ExtraLegroom)
  {
    if selectedSeat == Some(seatId) then SelectedLook
    else if hoveredSeat == Some(seatId) && seat.status == Available then HoveredLook
    else if seat.status == Available then
      (if seat.seatType == Some(Premium) then PremiumLook
       else if seat.seatType == Some(ExtraLegroom) then ExtraLegroomLook
       else StandardLook)
    else UnavailableLook
  }

  /** A seat drawn as unavailable never fires the selection callback, and a
      seat that fires it is never drawn as unavailable. A selected seat is
      drawn as selected even when it is not available, and then clicking it
      does nothing. */
  lemma LookAgreesWithClick(seat: Seat, seatId: string, selectedSeat: Option<string>, hoveredSeat: Option<string>)
    ensures Look(seat, seatId, selectedSeat, hoveredSeat) == UnavailableLook ==> ClickSeat(seat, seatId).None?
    ensures ClickSeat(seat, seatId).Some? ==> Look(seat, seatId, selectedSeat, hoveredSeat) != UnavailableLook
    ensures selectedSeat == Some(seatId) && seat.status != Available ==>
              Look(seat, seatId, selectedSeat, hoveredSeat) == SelectedLook && ClickSeat(seat, seatId).None?
  {
  }

  /** `columnHeaders`: one letter per column, starting at "A". */
  function ColumnHeaders(cols: nat): (r: seq<string>)
    requires 65 + cols <= 0xD800
    ensures |r| == cols
    ensures forall i :: 0 <= i < cols ==> |r[i]| == 1 && r[i][0] as int == 65 + i
  {
    seq(cols, i requires 0 <= i < cols => FromCharCode(65 + i))
  }

  /** The headers of the generated map are exactly the generator's columns. */
  lemma HeadersMatchGenerator(i: nat)
    requires i < MockSeatMap.Cols
    ensures ColumnHeaders(MockSeatMap.Cols)[i] == MockSeatMap.ColumnLetter(i)
  {
  }

  /** The (row, column) positions the rows-of-seats markup visits, in order:
      rows 1 to `rows`, and in each row every column header. */
  function VisitOrder(rows: nat, cols: nat): (r: seq<(nat, string)>)
    requires 65 + cols <= 0xD800
    ensures |r| == rows * cols
    ensures forall k :: 0 <= k < |r| ==> r[k] == (k / cols + 1, ColumnHeaders(cols)[k % cols])
  {
    if rows == 0 then []
    else
      var earlier := VisitOrder(rows - 1, cols);
      var last := seq(cols, c requires 0 <= c < cols => (rows, ColumnHeaders(cols)[c]));
      VisitRowsAppend(rows - 1, cols, earlier, last);
      earlier + last
  }

  lemma VisitRowsAppend(done: nat, cols: nat, earlier: seq<(nat, string)>, last: seq<(nat, string)>)
    requires 65 + cols <= 0xD800
    requires |earlier| == done * cols
    requires forall k :: 0 <= k < |earlier| ==> earlier[k] == (k / cols + 1, ColumnHeaders(cols)[k % cols])
    requires |last| == cols
    requires forall c :: 0 <= c < cols ==> last[c] == (done + 1, ColumnHeaders(cols)[c])
    ensures |earlier + last| == (done + 1) * cols
    ensures forall k :: 0 <= k < |earlier + last| ==>
              (earlier + last)[k] == (k / cols + 1, ColumnHeaders(cols)[k % cols])
  {
    forall k | |earlier| <= k < |earlier| + |last|
      ensures (earlier + last)[k] == (k / cols + 1, ColumnHeaders(cols)[k % cols])
    {
      var c := k - done * cols;
      assert k == done * cols + c && 0 <= c < cols;
      DivModUnique(k, cols, done, c);
    }
  }

  lemma {:induction false} DivModUnique(k: nat, n: nat, q: nat, c: nat)
    requires 0 <= c < n && k == q * n + c
    ensures k / n == q && k % n == c
  {
    var q2, c2 := k / n, k % n;
    assert k == q2 * n + c2 && 0 <= c2 < n;
    if q2 < q {
      MulStep(q2, q, n);
    } else if q < q2 {
      MulStep(q, q2, n);
    }
  }

  lemma {:induction false} MulStep(a: nat, b: nat, n: nat)
    requires a < b
    ensures a * n + n <= b * n
  {
    assert b * n == (b - 1) * n + n;
    if a < b - 1 {
      MulStep(a, b - 1, n);
    }
  }

  /** A rendered seat: its id, its class string, and what a click does. */
  datatype RenderedSeat = RenderedSeat(id: string, classes: string, look: SeatLook, onClick: Option<string>)

  /** The component's hover state and its `renderSeat`. */
  class SeatMapComponent {
    var hoveredSeat: Option<string>

    constructor ()
      ensures hoveredSeat == None
    {
      hoveredSeat := None;
    }

    /** `onMouseEnter`. */
    method MouseEnter(seatId: string)
      modifies this
      ensures hoveredSeat == Some(seatId)
    {
      hoveredSeat := Some(seatId);
    }

    /** `onMouseLeave`. */
    method MouseLeave()
      modifies this
      ensures hoveredSeat == None
    {
      hoveredSeat := None;
    }

    /** `renderSeat(row, col)`: nothing when no seat is at the position;
        otherwise the seat, its classes (the base classes with the suffix of
        its appearance appended), and the id a click passes on. */
    method RenderSeat(seatMap: SeatMap, selectedSeat: Option<string>, row: nat, col: string)
      returns (r: Option<RenderedSeat>)
      ensures r.None? <==> FindSeat(seatMap.seats, row, col).None?
      ensures r.Some? ==>
                var seat := FindSeat(seatMap.seats, row, col).value;
                var look := Look(seat, SeatId(row, col), selectedSeat, hoveredSeat);
                && r.value.id == SeatId(row, col)
                && r.value.look == look
                && r.value.classes == BaseSeatClasses + LookClasses(look)
                && r.value.onClick == ClickSeat(seat, SeatId(row, col))
    {
      var seatId := SeatId(row, col);
      var found := FindSeat(seatMap.seats, row, col);
      if found.None? {
        return None;
      }
      var seat := found.value;
      var isAvailable := seat.status == Available;
      var seatClasses := BaseSeatClasses;
      var look := Look(seat, seatId, selectedSeat, hoveredSeat);
      seatClasses := seatClasses + LookClasses(look);
      r := Some(RenderedSeat(seatId, seatClasses, look, if isAvailable then Some(seatId) else None));
    }
  }
}
