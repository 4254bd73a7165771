/** The table block of the table plugin: its rows of nested editor states,
    its column count, which cell is being edited, and what it hands to
    `setEntityData`. */
module TablePlugin {
  import opened JsValues

  /** What a slot of a row array holds: a hole (reads as undefined), the
      `null` a row is padded with, or a nested editor's state. */
  datatype CellValue = Hole | NullCell | State(state: EditorState)

  /** One inner row array. Rows are mutated in place, so the table's state
      and every payload already given to `setEntityData` share them. */
  class Row {
    var cells: seq<CellValue>

    constructor (cells: seq<CellValue>)
      ensures this.cells == cells
    {
      this.cells := cells;
    }
  }

  /** `focusedEdit`: the cell whose nested editor was last focused. */
  datatype Position = Position(row: int, column: int)

  /** The argument of one `setEntityData` call. */
  datatype EntityPatch = RowsPatch(rows: seq<Row>) | ColumnsPatch(numberOfColumns: int)

  /** `n || 1` for a number `n`: zero is its only falsy value here. */
  function OrOne(n: int): (r: int)
    ensures r != 0
    ensures n == 0 ==> r == 1
    ensures n != 0 ==> r == n
  {
    if n == 0 then 1 else n
  }

  function Max(a: int, b: int): int {
    if a < b then b else a
  }

  function Nulls(k: nat): (r: seq<CellValue>)
    ensures |r| == k && forall i :: 0 <= i < k ==> r[i] == NullCell
  {
    seq(k, _ => NullCell)
  }

  /** A row after `null`s were pushed until it has `columns` cells. */
  function Padded(cells: seq<CellValue>, columns: int): (r: seq<CellValue>)
    ensures |r| == Max(|cells|, columns)
    ensures r[..|cells|] == cells
    ensures forall i :: |cells| <= i < |r| ==> r[i] == NullCell
  {
    if columns <= |cells| then cells else cells + Nulls(columns - |cells|)
  }

  /** A row after `row[column] = v`: past the end, the array grows and the
      slots skipped over are holes. */
  function Assigned(cells: seq<CellValue>, column: nat, v: CellValue): (r: seq<CellValue>)
    ensures |r| == Max(|cells|, column + 1)
    ensures r[column] == v
    ensures forall i :: 0 <= i < |cells| && i != column ==> r[i] == cells[i]
    ensures forall i :: |cells| <= i < column ==> r[i] == Hole
  {
    if column < |cells| then cells[column := v]
    else cells + seq(column - |cells|, _ => Hole) + [v]
  }

  /** What `updateEntityData(s, row, column)` makes of row `row` when the
      table has `columns` columns. */
  function UpdatedRow(cells: seq<CellValue>, columns: int, column: nat, s: EditorState): seq<CellValue> {
    Assigned(Padded(cells, columns), column, State(s))
  }

  /** The updated row has at least `columns` cells, holds `s` at `column`,
      keeps every other old cell, and the cells added below `columns` are
      `null`. */
  lemma UpdatedRowSpec(cells: seq<CellValue>, columns: int, column: nat, s: EditorState)
    ensures |UpdatedRow(cells, columns, column, s)| >= columns
    ensures UpdatedRow(cells, columns, column, s)[column] == State(s)
    ensures forall i :: 0 <= i < |cells| && i != column ==> UpdatedRow(cells, columns, column, s)[i] == cells[i]
    ensures forall i :: |cells| <= i < columns && i != column ==> UpdatedRow(cells, columns, column, s)[i] == NullCell
  {
    var p := Padded(cells, columns);
    assert forall i :: 0 <= i < |cells| ==> p[i] == p[..|cells|][i];
  }

  /** The focus flag a cell's nested editor gets: the block is focused and
      `focusedEdit` is that cell. */
  predicate CellFocused(isFocused: bool, focusedEdit: Option<Position>, rowI: int, columnI: int)
    ensures CellFocused(isFocused, focusedEdit, rowI, columnI) <==>
      isFocused && focusedEdit == Some(Position(rowI, columnI))
  {
    isFocused && focusedEdit.Some? && focusedEdit.value.row == rowI && focusedEdit.value.column == columnI
  }

  /** At most one cell is focused, and it is `focusedEdit`. */
  lemma AtMostOneCellFocused(isFocused: bool, focusedEdit: Option<Position>, r1: int, c1: int, r2: int, c2: int)
    requires CellFocused(isFocused, focusedEdit, r1, c1) && CellFocused(isFocused, focusedEdit, r2, c2)
    ensures r1 == r2 && c1 == c2
    ensures focusedEdit == Some(Position(r1, c1))
  {
  }

  class Table {
    var rows: seq<Row>
    var numberOfColumns: int
    var focusedEdit: Option<Position>
    /** Every `setEntityData` payload, in the order it was sent. */
    var entityPatches: seq<EntityPatch>
    /** How often the block's `props.setFocus` was called. */
    var focusRequests: nat

    /** No row array appears twice in `rows`. */
    predicate Valid()
      reads this
    {
      forall i, j :: 0 <= i < j < |rows| ==> rows[i] != rows[j]
    }

    /** The constructor: the block's own row arrays become the state's rows
        (so later in-place updates reach the block's entity data too), one
        fresh empty row when the block has none; `numberOfColumns` defaults
        to 1 when the block lacks it or gives 0; nothing is focused. */
    constructor (blockRows: Option<seq<Row>>, blockColumns: Option<int>)
      requires blockRows.Some? ==>
        forall i, j :: 0 <= i < j < |blockRows.value| ==> blockRows.value[i] != blockRows.value[j]
      ensures Valid()
      ensures blockRows.Some? ==> rows == blockRows.value
      ensures blockRows.None? ==> |rows| == 1 && fresh(rows[0]) && rows[0].cells == []
      ensures numberOfColumns == OrOne(blockColumns.GetOr(0))
      ensures focusedEdit == None && entityPatches == [] && focusRequests == 0
    {
      if blockRows.Some? {
        rows := blockRows.value;
      } else {
        var empty := new Row([]);
        rows := [empty];
      }
      numberOfColumns := OrOne(blockColumns.GetOr(0));
      focusedEdit := None;
      entityPatches := [];
      focusRequests := 0;
    }

    /** `setFocus(row, column)`: asks the editor for focus, then records the
        cell being edited. */
    method SetFocus(row: int, column: int)
      modifies this
      ensures focusedEdit == Some(Position(row, column))
      ensures focusRequests == old(focusRequests) + 1
      ensures rows == old(rows) && numberOfColumns == old(numberOfColumns) && entityPatches == old(entityPatches)
    {
      focusRequests := focusRequests + 1;
      focusedEdit := Some(Position(row, column));
    }

    /** `addRow`: the old rows, untouched, with one fresh empty row after
        them; the same list goes to `setEntityData` and to the state. */
    method AddRow()
      requires Valid()
      modifies this
      ensures Valid()
      ensures |rows| == |old(rows)| + 1 && rows[..|old(rows)|] == old(rows)
      ensures fresh(rows[|rows| - 1]) && rows[|rows| - 1].cells == []
      ensures entityPatches == old(entityPatches) + [RowsPatch(rows)]
      ensures numberOfColumns == old(numberOfColumns) && focusedEdit == old(focusedEdit)
      ensures focusRequests == old(focusRequests)
    {
      var empty := new Row([]);
      var newRows := rows + [empty];
      entityPatches := entityPatches + [RowsPatch(newRows)];
      rows := newRows;
    }

    /** `addColumn`: one more column than `numberOfColumns || 1`; the rows
        are left as they are. */
    method AddColumn()
      modifies this
      ensures numberOfColumns == OrOne(old(numberOfColumns)) + 1
      ensures entityPatches == old(entityPatches) + [ColumnsPatch(numberOfColumns)]
      ensures rows == old(rows) && focusedEdit == old(focusedEdit) && focusRequests == old(focusRequests)
    {
      var newNumberOfColumns := OrOne(numberOfColumns) + 1;
      entityPatches := entityPatches + [ColumnsPatch(newNumberOfColumns)];
      numberOfColumns := newNumberOfColumns;
    }

    /** `updateEntityData(editorState, row, column)`: pads row `row` in place
        with `null`s up to `numberOfColumns || 1` cells, stores the nested
        editor's state at `column`, and sends the (same) rows list to
        `setEntityData` and to the state. Row `row` must exist. */
    method UpdateEntityData(editorState: EditorState, row: nat, column: nat)
      requires Valid()
      requires row < |rows|
      modifies this, rows[row]
      ensures Valid()
      ensures rows == old(rows)
      ensures rows[row].cells == UpdatedRow(old(rows[row].cells), OrOne(numberOfColumns), column, editorState)
      ensures forall i :: 0 <= i < |rows| && i != row ==> rows[i].cells == old(rows[i].cells)
      ensures entityPatches == old(entityPatches) + [RowsPatch(rows)]
      ensures numberOfColumns == old(numberOfColumns) && focusedEdit == old(focusedEdit)
      ensures focusRequests == old(focusRequests)
    {
      var newRows := rows;
      var r := newRows[row];
      var columns := OrOne(numberOfColumns);
      while |r.cells| < columns
        invariant unchanged(this)
        invariant old(r.cells) <= r.cells && |r.cells| <= Max(|old(r.cells)|, columns)
        invariant forall i :: |old(r.cells)| <= i < |r.cells| ==> r.cells[i] == NullCell
        decreases columns - |r.cells|
      {
        r.cells := r.cells + [NullCell];
      }
      assert r.cells == Padded(old(r.cells), columns);
      r.cells := Assigned(r.cells, column, State(editorState));
      entityPatches := entityPatches + [RowsPatch(newRows)];
      rows := newRows;
    }
  }

  /** After `updateEntityData(s, r, c)`, row `r` has at least
      `numberOfColumns` cells, cell `c` holds `s`, and the cells added in
      between are `null`. */
  lemma UpdateEntityDataExample(s: EditorState)
    ensures UpdatedRow([], 3, 1, s) == [NullCell, State(s), NullCell]
    ensures UpdatedRow([NullCell], 1, 3, s) == [NullCell, Hole, Hole, State(s)]
  {
    assert Padded([], 3) == [NullCell, NullCell, NullCell];
  }
}
