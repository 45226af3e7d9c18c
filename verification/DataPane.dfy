/// The scrollable data table: a selected row that wraps at both ends, a
/// selected column, a colour palette cycled with shift+arrows, and the
/// column widths computed from the headers and the cells.
module DataPane {
  import opened Wrappers
  import opened TuiActions
  import RustInts

  /// Number of colour palettes.
  const PaletteCount: nat := 4
  /// Screen lines per row, used for the scrollbar position.
  const ItemHeight: nat := 4
  const U16Modulus: nat := 0x1_0000

  /// `next_row`: the row after the selected one, wrapping to the first; no
  /// selection selects the first row.
  function NextRow(selected: Option<nat>, len: nat): (r: nat)
    requires len >= 1
    ensures selected.None? ==> r == 0
    ensures selected.Some? && selected.value < len - 1 ==> r == selected.value + 1
    ensures selected.Some? && selected.value >= len - 1 ==> r == 0
  {
    match selected
    case Some(i) => if i >= len - 1 then 0 else i + 1
    case None => 0
  }

  /// `previous_row`: the row before the selected one, wrapping to the last;
  /// no selection selects the first row.
  function PreviousRow(selected: Option<nat>, len: nat): (r: nat)
    requires len >= 1
    ensures selected.None? ==> r == 0
    ensures selected.Some? && selected.value == 0 ==> r == len - 1
    ensures selected.Some? && selected.value > 0 ==> r == selected.value - 1
  {
    match selected
    case Some(i) => if i == 0 then len - 1 else i - 1
    case None => 0
  }

  /// Row moves stay in the table and undo each other.
  lemma RowMovesInverse(i: nat, len: nat)
    requires i < len
    ensures NextRow(Some(i), len) < len && PreviousRow(Some(i), len) < len
    ensures PreviousRow(Some(NextRow(Some(i), len)), len) == i
    ensures NextRow(Some(PreviousRow(Some(i), len)), len) == i
  {
  }

  /// The column selection `TableState::select_next_column` makes: the
  /// column after the selected one, or the first with none selected.
  function SelectNextColumn(col: Option<nat>): nat {
    match col
    case Some(i) => i + 1
    case None => 0
  }

  /// `TableState::select_previous_column`: the column before, stopping at
  /// the first; with none selected, the largest index (the table clamps it
  /// to the last column when drawn).
  function SelectPreviousColumn(col: Option<nat>): nat {
    match col
    case Some(i) => if i >= 1 then i - 1 else 0
    case None => RustInts.UsizeMax
  }

  /// `next_column`: moves right only while the column is before the last.
  function NextColumn(col: Option<nat>, n: nat): (r: Option<nat>)
    requires n >= 1
    ensures (match col case Some(i) => i case None => 0) < n - 1 ==> r == Some(SelectNextColumn(col))
    ensures (match col case Some(i) => i case None => 0) >= n - 1 ==> r == col
  {
    var current := match col case Some(i) => i case None => 0;
    if current < n - 1 then Some(SelectNextColumn(col)) else col
  }

  /// Moving right never leaves a selected column past the last.
  lemma NextColumnBounded(col: Option<nat>, n: nat)
    requires n >= 1
    requires col.Some? ==> col.value <= n - 1
    ensures NextColumn(col, n).Some? ==> NextColumn(col, n).value <= n - 1
    ensures n >= 2 ==> NextColumn(col, n).Some?
  {
  }

  /// `next_color`.
  function NextColor(c: nat): (r: nat)
    ensures r < PaletteCount
  {
    (c + 1) % PaletteCount
  }

  /// `previous_color`.
  function PreviousColor(c: nat): (r: nat)
    ensures r < PaletteCount
  {
    (c + PaletteCount - 1) % PaletteCount
  }

  /// The colour moves are inverse to each other on palette indices, and
  /// four of either return to the start.
  lemma ColorMovesInverse(c: nat)
    requires c < PaletteCount
    ensures PreviousColor(NextColor(c)) == c && NextColor(PreviousColor(c)) == c
    ensures NextColor(NextColor(NextColor(NextColor(c)))) == c
  {
  }

  /// The display width of a cell, truncated to `u16`; a character counts
  /// as one column.
  function Width(s: string): nat {
    |s| % U16Modulus
  }

  /// A cell's width plus one column of padding, in `u16` arithmetic.
  function Padded(s: string): nat {
    (Width(s) + 1) % U16Modulus
  }

  /// The widest of column `i` over the header and the first `k` rows.
  function ColumnMax(header: string, rows: seq<seq<string>>, i: nat, k: nat): nat
    requires k <= |rows|
    requires forall r :: 0 <= r < |rows| ==> i < |rows[r]|
  {
    if k == 0 then Width(header)
    else
      var m := ColumnMax(header, rows, i, k - 1);
      var v := Padded(rows[k - 1][i]);
      if m >= v then m else v
  }

  /// The column width bounds the header and every padded cell, and is one
  /// of them.
  lemma {:induction false} ColumnMaxIsMax(header: string, rows: seq<seq<string>>, i: nat, k: nat)
    requires k <= |rows|
    requires forall r :: 0 <= r < |rows| ==> i < |rows[r]|
    ensures ColumnMax(header, rows, i, k) >= Width(header)
    ensures forall r :: 0 <= r < k ==> ColumnMax(header, rows, i, k) >= Padded(rows[r][i])
    ensures ColumnMax(header, rows, i, k) == Width(header) ||
            exists r :: 0 <= r < k && ColumnMax(header, rows, i, k) == Padded(rows[r][i])
  {
    if k > 0 {
      ColumnMaxIsMax(header, rows, i, k - 1);
    }
  }

  /// The widths `constraint_len_calculator` returns: each column's maximum,
  /// with one taken off the column before the last (wrapping in `u16`).
  function ColumnWidths(headers: seq<string>, rows: seq<seq<string>>): (r: seq<nat>)
    requires |headers| >= 2
    requires forall k :: 0 <= k < |rows| ==> |rows[k]| == |headers|
    ensures |r| == |headers|
  {
    seq(|headers|, i requires 0 <= i < |headers| =>
      var m := ColumnMax(headers[i], rows, i, |rows|);
      if i == |headers| - 2 then (m + U16Modulus - 1) % U16Modulus else m)
  }

  /// `constraint_len_calculator`, over a fixed-size array of widths.
  method ConstraintLenCalculator(headers: seq<string>, rows: seq<seq<string>>) returns (maxWidths: array<nat>)
    requires |headers| >= 2
    requires forall k :: 0 <= k < |rows| ==> |rows[k]| == |headers|
    ensures fresh(maxWidths)
    ensures maxWidths[..] == ColumnWidths(headers, rows)
  {
    var n := |headers|;
    maxWidths := new nat[n](_ => 0);
    for i := 0 to n
      invariant forall c :: 0 <= c < i ==> maxWidths[c] == Width(headers[c])
    {
      maxWidths[i] := Width(headers[i]);
    }
    for k := 0 to |rows|
      invariant forall c :: 0 <= c < n ==> maxWidths[c] == ColumnMax(headers[c], rows, c, k)
    {
      WidenByRow(maxWidths, headers, rows, k);
    }
    maxWidths[n - 2] := (maxWidths[n - 2] + U16Modulus - 1) % U16Modulus;
  }

  /// One pass of the row loop: each column widened to the padded width of
  /// row `k`'s cell.
  method WidenByRow(maxWidths: array<nat>, headers: seq<string>, rows: seq<seq<string>>, k: nat)
    requires maxWidths.Length == |headers| && k < |rows|
    requires forall r :: 0 <= r < |rows| ==> |rows[r]| == |headers|
    requires forall c :: 0 <= c < |headers| ==> maxWidths[c] == ColumnMax(headers[c], rows, c, k)
    modifies maxWidths
    ensures forall c :: 0 <= c < |headers| ==> maxWidths[c] == ColumnMax(headers[c], rows, c, k + 1)
  {
    for i := 0 to |headers|
      invariant forall c :: 0 <= c < i ==> maxWidths[c] == ColumnMax(headers[c], rows, c, k + 1)
      invariant forall c :: i <= c < |headers| ==> maxWidths[c] == ColumnMax(headers[c], rows, c, k)
    {
      var valueWidth := Padded(rows[k][i]);
      if maxWidths[i] < valueWidth {
        maxWidths[i] := valueWidth;
      }
    }
  }

  /// The table's selection, scrollbar position and palette, as one value.
  datatype TableView = TableView(selected: Option<nat>, selectedColumn: Option<nat>, scrollPosition: nat,
                                 colorIndex: nat, colors: nat)

  /// `handle_key_event` over a table of `nRows` rows and `nCols` columns.
  function HandleKey(v: TableView, ke: KeyEvent, nRows: nat, nCols: nat): TableView
    requires nRows >= 1 && nCols >= 1
  {
    var code := ke.code;
    if code == Char('j') || code == Down then
      var i := NextRow(v.selected, nRows);
      v.(selected := Some(i), scrollPosition := i * ItemHeight)
    else if code == Char('k') || code == Up then
      var i := PreviousRow(v.selected, nRows);
      v.(selected := Some(i), scrollPosition := i * ItemHeight)
    else if (code == Char('l') || code == Right) && ke.shift then v.(colorIndex := NextColor(v.colorIndex))
    else if (code == Char('h') || code == Left) && ke.shift then v.(colorIndex := PreviousColor(v.colorIndex))
    else if code == Char('l') || code == Right then v.(selectedColumn := NextColumn(v.selectedColumn, nCols))
    else if code == Char('h') || code == Left then v.(selectedColumn := Some(SelectPreviousColumn(v.selectedColumn)))
    else v
  }

  /// Each key group changes only its own fields: a row key moves the
  /// selected row within the table with the scrollbar on it, a shifted
  /// column key cycles the palette, a plain column key moves the column, and
  /// any other key changes nothing. The drawn colours never change here.
  lemma HandleKeyEffect(v: TableView, ke: KeyEvent, nRows: nat, nCols: nat)
    requires nRows >= 1 && nCols >= 1
    requires v.selected.Some? ==> v.selected.value < nRows
    requires v.colorIndex < PaletteCount
    ensures var r := HandleKey(v, ke, nRows, nCols);
            && r.colors == v.colors
            && (r.selected.Some? ==> r.selected.value < nRows)
            && r.colorIndex < PaletteCount
            && (ke.code in {Char('j'), Down, Char('k'), Up} ==>
                  && r.selected.Some?
                  && r.scrollPosition == r.selected.value * ItemHeight
                  && r.selectedColumn == v.selectedColumn && r.colorIndex == v.colorIndex)
            && (ke.code in {Char('j'), Down} ==> r.selected == Some(NextRow(v.selected, nRows)))
            && (ke.code in {Char('k'), Up} ==> r.selected == Some(PreviousRow(v.selected, nRows)))
            && (ke.code in {Char('l'), Right, Char('h'), Left} ==>
                  r.selected == v.selected && r.scrollPosition == v.scrollPosition)
            && (ke.code in {Char('l'), Right} && ke.shift ==>
                  r.colorIndex == NextColor(v.colorIndex) && r.selectedColumn == v.selectedColumn)
            && (ke.code in {Char('h'), Left} && ke.shift ==>
                  r.colorIndex == PreviousColor(v.colorIndex) && r.selectedColumn == v.selectedColumn)
            && (ke.code in {Char('l'), Right} && !ke.shift ==>
                  r.selectedColumn == NextColumn(v.selectedColumn, nCols) && r.colorIndex == v.colorIndex)
            && (ke.code in {Char('h'), Left} && !ke.shift ==>
                  r.selectedColumn == Some(SelectPreviousColumn(v.selectedColumn)) && r.colorIndex == v.colorIndex)
            && (ke.code !in {Char('j'), Down, Char('k'), Up, Char('l'), Right, Char('h'), Left} ==> r == v)
  {
  }

  /// The table widget's state.
  class DataTable {
    const rows: seq<seq<string>>
    const headers: seq<string>
    var selected: Option<nat>
    var selectedColumn: Option<nat>
    /// The scrollbar's content length and position.
    const scrollContentLength: nat
    var scrollPosition: nat
    var colorIndex: nat
    /// The palette the drawn colours come from.
    var colors: nat

    /// A selected row is a row of the table, and the palette index is one
    /// of the palettes.
    predicate Valid()
      reads this
    {
      && |rows| >= 1
      && (selected.Some? ==> selected.value < |rows|)
      && colorIndex < PaletteCount
      && colors < PaletteCount
    }

    /// `new`: the first row selected, the first palette.
    constructor (rows: seq<seq<string>>, headers: seq<string>)
      requires |rows| >= 1
      ensures Valid()
      ensures this.rows == rows && this.headers == headers
      ensures selected == Some(0) && selectedColumn == None
      ensures scrollContentLength == (|rows| - 1) * ItemHeight && scrollPosition == 0
      ensures colorIndex == 0 && colors == 0
    {
      this.rows := rows;
      this.headers := headers;
      selected := Some(0);
      selectedColumn := None;
      scrollContentLength := (|rows| - 1) * ItemHeight;
      scrollPosition := 0;
      colorIndex := 0;
      colors := 0;
    }

    /// `next_row`: the scrollbar follows the selection.
    method NextRowMove()
      requires Valid()
      modifies this
      ensures Valid()
      ensures selected == Some(NextRow(old(selected), |rows|))
      ensures scrollPosition == selected.value * ItemHeight
      ensures selectedColumn == old(selectedColumn) && colorIndex == old(colorIndex) && colors == old(colors)
    {
      var i;
      match selected {
        case Some(j) => i := if j >= |rows| - 1 then 0 else j + 1;
        case None => i := 0;
      }
      selected := Some(i);
      scrollPosition := i * ItemHeight;
    }

    /// `previous_row`.
    method PreviousRowMove()
      requires Valid()
      modifies this
      ensures Valid()
      ensures selected == Some(PreviousRow(old(selected), |rows|))
      ensures scrollPosition == selected.value * ItemHeight
      ensures selectedColumn == old(selectedColumn) && colorIndex == old(colorIndex) && colors == old(colors)
    {
      var i;
      match selected {
        case Some(j) => i := if j == 0 then |rows| - 1 else j - 1;
        case None => i := 0;
      }
      selected := Some(i);
      scrollPosition := i * ItemHeight;
    }

    /// `next_column`.
    method NextColumnMove()
      requires |headers| >= 1
      modifies this
      ensures selectedColumn == NextColumn(old(selectedColumn), |headers|)
      ensures selected == old(selected) && scrollPosition == old(scrollPosition)
      ensures colorIndex == old(colorIndex) && colors == old(colors)
    {
      var current := match selectedColumn case Some(i) => i case None => 0;
      if current < |headers| - 1 {
        selectedColumn := Some(SelectNextColumn(selectedColumn));
      }
    }

    /// `previous_column`.
    method PreviousColumnMove()
      modifies this
      ensures selectedColumn == Some(SelectPreviousColumn(old(selectedColumn)))
      ensures selected == old(selected) && scrollPosition == old(scrollPosition)
      ensures colorIndex == old(colorIndex) && colors == old(colors)
    {
      selectedColumn := Some(SelectPreviousColumn(selectedColumn));
    }

    /// `next_color`.
    method NextColorMove()
      requires Valid()
      modifies this
      ensures Valid() && colorIndex == NextColor(old(colorIndex))
      ensures selected == old(selected) && selectedColumn == old(selectedColumn)
      ensures scrollPosition == old(scrollPosition) && colors == old(colors)
    {
      colorIndex := (colorIndex + 1) % PaletteCount;
    }

    /// `previous_color`.
    method PreviousColorMove()
      requires Valid()
      modifies this
      ensures Valid() && colorIndex == PreviousColor(old(colorIndex))
      ensures selected == old(selected) && selectedColumn == old(selectedColumn)
      ensures scrollPosition == old(scrollPosition) && colors == old(colors)
    {
      colorIndex := (colorIndex + PaletteCount - 1) % PaletteCount;
    }

    /// `set_colors`: the drawn colours follow the palette index.
    method SetColors()
      requires Valid()
      modifies this
      ensures Valid() && colors == colorIndex && colorIndex == old(colorIndex)
      ensures selected == old(selected) && selectedColumn == old(selectedColumn)
      ensures scrollPosition == old(scrollPosition)
    {
      colors := colorIndex;
    }

    /// The fields a key can change.
    function View(): TableView
      reads this
    {
      TableView(selected, selectedColumn, scrollPosition, colorIndex, colors)
    }

    /// `handle_key_event`: j/Down and k/Up move the row; l/Right and
    /// h/Left move the column, or the palette with shift held.
    method HandleKeyEvent(ke: KeyEvent)
      requires Valid() && |headers| >= 1
      modifies this
      ensures Valid()
      ensures View() == HandleKey(old(View()), ke, |rows|, |headers|)
    {
      var code := ke.code;
      if code == Char('j') || code == Down {
        NextRowMove();
      } else if code == Char('k') || code == Up {
        PreviousRowMove();
      } else if (code == Char('l') || code == Right) && ke.shift {
        NextColorMove();
      } else if (code == Char('h') || code == Left) && ke.shift {
        PreviousColorMove();
      } else if code == Char('l') || code == Right {
        NextColumnMove();
      } else if code == Char('h') || code == Left {
        PreviousColumnMove();
      }
    }
  }
}
