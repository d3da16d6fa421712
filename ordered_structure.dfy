/** The ordered rule list: a one-column table whose rows hold rule widgets,
    with the add, remove-selected, move-up and move-down buttons, the
    validation of every row and the numbered parameter dict.

    The table follows Qt's `QTableWidget`: `insertRow(r)` does something
    only for 0 <= r <= rowCount, `removeRow(r)` and `setCellWidget(r, ...)`
    only for 0 <= r < rowCount, and `cellWidget` of a row outside the table
    is `None`. The rows hold widgets and no items, so `takeItem` changes
    nothing. Both moves remove the widget's old row right after placing the
    widget in its new cell, so placing it is modelled as a copy. */
module OrderedStructure {
  import opened Text
  import opened Sequences
  import opened Sorting
  import opened PyValues

  /** A rule widget, as the list sees it: whether it validates, the reason
      it gives when it does not, and its own parameter dict. */
  datatype Rule = Rule(valid: bool, reason: string, parameters: Dict)

  /** The table's column 0, row by row; `None` is a row without a widget. */
  type Cells = seq<Option<Rule>>

  // ---------------------------------------------------------------------
  // The table operations

  /** `insertRow(r)`: an empty row at `r`. */
  function InsertedRow(cells: Cells, r: int): (c: Cells)
    ensures 0 <= r <= |cells| ==> |c| == |cells| + 1 && c[r] == None && c[..r] == cells[..r] && c[r + 1..] == cells[r..]
    ensures !(0 <= r <= |cells|) ==> c == cells
  {
    if 0 <= r <= |cells| then cells[..r] + [None] + cells[r..] else cells
  }

  /** `removeRow(r)`. */
  function RemovedRow(cells: Cells, r: int): (c: Cells)
    ensures 0 <= r < |cells| ==> |c| == |cells| - 1 && c[..r] == cells[..r] && c[r..] == cells[r + 1..]
    ensures !(0 <= r < |cells|) ==> c == cells
  {
    if 0 <= r < |cells| then cells[..r] + cells[r + 1..] else cells
  }

  /** `setCellWidget(r, 0, w)`. */
  function WithCellWidget(cells: Cells, r: int, w: Option<Rule>): (c: Cells)
    ensures |c| == |cells|
    ensures forall k :: 0 <= k < |cells| ==> c[k] == if k == r then w else cells[k]
  {
    if 0 <= r < |cells| then cells[r := w] else cells
  }

  /** `cellWidget(r, 0)`. */
  function CellWidget(cells: Cells, r: int): (w: Option<Rule>)
    ensures 0 <= r < |cells| ==> w == cells[r]
    ensures !(0 <= r < |cells|) ==> w == None
  {
    if 0 <= r < |cells| then cells[r] else None
  }

  /** The Qt table widget: its cells. */
  class TableWidget {
    var cells: Cells

    constructor()
      ensures cells == []
    {
      cells := [];
    }

    function RowCount(): (n: nat)
      reads this
      ensures n == |cells|
    {
      |cells|
    }

    method InsertRow(r: int)
      modifies this
      ensures cells == InsertedRow(old(cells), r)
    {
      cells := InsertedRow(cells, r);
    }

    method RemoveRow(r: int)
      modifies this
      ensures cells == RemovedRow(old(cells), r)
    {
      cells := RemovedRow(cells, r);
    }

    method SetCellWidget(r: int, w: Option<Rule>)
      modifies this
      ensures cells == WithCellWidget(old(cells), r, w)
    {
      cells := WithCellWidget(cells, r, w);
    }

    method TakeItem(r: int)
      ensures cells == old(cells)
    {
    }
  }

  // ---------------------------------------------------------------------
  // Moving one row

  /** Rows `i` and `j` exchanged. */
  function Swapped(cells: Cells, i: nat, j: nat): (c: Cells)
    requires i < |cells| && j < |cells|
    ensures |c| == |cells|
  {
    cells[i := cells[j]][j := cells[i]]
  }

  /** Exchanging two rows keeps the same rows. */
  lemma SwappedPermutes(cells: Cells, i: nat, j: nat)
    requires i < |cells| && j < |cells|
    ensures multiset(Swapped(cells, i, j)) == multiset(cells)
  {
    var c1 := cells[i := cells[j]];
    assert multiset(c1) == multiset(cells) - multiset{cells[i]} + multiset{cells[j]};
  }

  /** `moveDown(r)`: insert a row two below, put row `r`'s widget there,
      remove row `r`. */
  function MoveDownEffect(cells: Cells, r: nat): Cells
  {
    var inserted := InsertedRow(cells, r + 2);
    RemovedRow(WithCellWidget(inserted, r + 2, CellWidget(inserted, r)), r)
  }

  /** `moveUp(r)`: insert a row above, put row `r`'s widget (now one lower)
      there, remove the row it came from. */
  function MoveUpEffect(cells: Cells, r: nat): Cells
  {
    var inserted := InsertedRow(cells, r - 1);
    RemovedRow(WithCellWidget(inserted, r - 1, CellWidget(inserted, r + 1)), r + 1)
  }

  /** Moving a row that has one below it down exchanges the two. */
  lemma MoveDownSwaps(cells: Cells, r: nat)
    requires r + 1 < |cells|
    ensures MoveDownEffect(cells, r) == Swapped(cells, r, r + 1)
  {
    var inserted := InsertedRow(cells, r + 2);
    var placed := WithCellWidget(inserted, r + 2, CellWidget(inserted, r));
    var result := RemovedRow(placed, r);
    forall k | 0 <= k < |cells|
      ensures result[k] == Swapped(cells, r, r + 1)[k]
    {
      if k < r {
        assert result[k] == placed[k] == inserted[k] == cells[k];
      } else {
        assert result[k] == placed[k + 1];
        if k > r + 1 {
          assert inserted[k + 1] == cells[k];
        }
      }
    }
  }

  /** Moving the last row down deletes it: the row two below it cannot be
      inserted, so the widget is not placed anywhere before its row goes. */
  lemma MoveDownLastRow(cells: Cells, r: nat)
    requires r + 1 == |cells|
    ensures MoveDownEffect(cells, r) == cells[..r]
  {
  }

  /** Moving a row that is not in the table does nothing. */
  lemma MoveDownOutside(cells: Cells, r: nat)
    requires r >= |cells|
    ensures MoveDownEffect(cells, r) == cells
  {
  }

  /** Moving a row that has one above it up exchanges the two. */
  lemma MoveUpSwaps(cells: Cells, r: nat)
    requires 1 <= r < |cells|
    ensures MoveUpEffect(cells, r) == Swapped(cells, r - 1, r)
  {
    var inserted := InsertedRow(cells, r - 1);
    var placed := WithCellWidget(inserted, r - 1, CellWidget(inserted, r + 1));
    var result := RemovedRow(placed, r + 1);
    forall k | 0 <= k < |cells|
      ensures result[k] == Swapped(cells, r - 1, r)[k]
    {
      if k <= r {
        assert result[k] == placed[k];
        if k < r - 1 {
          assert inserted[k] == cells[k];
        }
      } else {
        assert result[k] == placed[k + 1] == inserted[k + 1] == cells[k];
      }
    }
  }

  /** Moving the first row up removes the second: the row above cannot be
      inserted and row 1 is removed all the same. */
  lemma MoveUpFirstRow(cells: Cells)
    ensures MoveUpEffect(cells, 0) == RemovedRow(cells, 1)
  {
  }

  // ---------------------------------------------------------------------
  // The buttons

  /** The move-up loop: `moveUp` on each selected row, first to last, with
      the row numbers as they were when the button was clicked. */
  function UpPass(cells: Cells, rows: seq<nat>): Cells
    decreases |rows|
  {
    if |rows| == 0 then cells else UpPass(MoveUpEffect(cells, rows[0]), rows[1..])
  }

  /** The move-down loop: `moveDown` on each selected row, last to first. */
  function DownPass(cells: Cells, rows: seq<nat>): Cells
    decreases |rows|
  {
    if |rows| == 0 then cells else DownPass(MoveDownEffect(cells, rows[|rows| - 1]), rows[..|rows| - 1])
  }

  /** The pass over the selected rows from `k` on moves row `k` first. */
  lemma UpPassFirst(cells: Cells, selected: seq<nat>, k: nat)
    requires k < |selected|
    ensures UpPass(cells, selected[k..]) == UpPass(MoveUpEffect(cells, selected[k]), selected[k + 1..])
  {
    assert selected[k..][1..] == selected[k + 1..];
  }

  /** The pass over the first `k` selected rows moves row `k - 1` first. */
  lemma DownPassLast(cells: Cells, selected: seq<nat>, k: nat)
    requires 0 < k <= |selected|
    ensures DownPass(cells, selected[..k]) == DownPass(MoveDownEffect(cells, selected[k - 1]), selected[..k - 1])
  {
    assert selected[..k][..k - 1] == selected[..k - 1];
  }

  /** `on_moveRuleUpPushButton_clicked`: nothing when the selection is empty
      or starts at the first row. */
  function MoveUpClick(cells: Cells, selected: seq<nat>): Cells
  {
    if |selected| == 0 || selected[0] as int - 1 < 0 then cells else UpPass(cells, selected)
  }

  /** `on_moveRuleDownPushButton_clicked` as written: nothing when the
      selection is empty or one past its last row is beyond the row count. */
  function MoveDownClickAsWritten(cells: Cells, selected: seq<nat>): Cells
  {
    if |selected| == 0 || selected[|selected| - 1] + 1 > |cells| then cells else DownPass(cells, selected)
  }

  /** The move-down button with the guard its comment describes: nothing
      when the selection ends at the last row. */
  function MoveDownClick(cells: Cells, selected: seq<nat>): Cells
  {
    if |selected| == 0 || selected[|selected| - 1] + 1 >= |cells| then cells else DownPass(cells, selected)
  }

  /** Moving rows up that each have a row above them keeps the same rows. */
  lemma {:induction false} UpPassPermutes(cells: Cells, rows: seq<nat>)
    requires forall k :: 0 <= k < |rows| ==> 1 <= rows[k] < |cells|
    ensures |UpPass(cells, rows)| == |cells|
    ensures multiset(UpPass(cells, rows)) == multiset(cells)
    decreases |rows|
  {
    if |rows| > 0 {
      MoveUpSwaps(cells, rows[0]);
      SwappedPermutes(cells, rows[0] - 1, rows[0]);
      UpPassPermutes(MoveUpEffect(cells, rows[0]), rows[1..]);
    }
  }

  /** Moving rows down that each have a row below them keeps the same rows. */
  lemma {:induction false} DownPassPermutes(cells: Cells, rows: seq<nat>)
    requires forall k :: 0 <= k < |rows| ==> rows[k] + 1 < |cells|
    ensures |DownPass(cells, rows)| == |cells|
    ensures multiset(DownPass(cells, rows)) == multiset(cells)
    decreases |rows|
  {
    if |rows| > 0 {
      var last := rows[|rows| - 1];
      MoveDownSwaps(cells, last);
      SwappedPermutes(cells, last, last + 1);
      DownPassPermutes(MoveDownEffect(cells, last), rows[..|rows| - 1]);
    }
  }

  /** An ascending selection of rows of the table. */
  predicate AscendingSelection(selected: seq<nat>, count: nat)
  {
    SortedBy(selected, false) && forall k :: 0 <= k < |selected| ==> selected[k] < count
  }

  /** With an ascending selection, the move-up button only reorders the rows. */
  lemma MoveUpClickPermutes(cells: Cells, selected: seq<nat>)
    requires AscendingSelection(selected, |cells|)
    ensures |MoveUpClick(cells, selected)| == |cells|
    ensures multiset(MoveUpClick(cells, selected)) == multiset(cells)
  {
    if |selected| > 0 && selected[0] >= 1 {
      assert forall k :: 0 <= k < |selected| ==> InOrder(selected[0], selected[k], false);
      UpPassPermutes(cells, selected);
    }
  }

  /** With an ascending selection, the guarded move-down button only
      reorders the rows. */
  lemma MoveDownClickPermutes(cells: Cells, selected: seq<nat>)
    requires AscendingSelection(selected, |cells|)
    ensures |MoveDownClick(cells, selected)| == |cells|
    ensures multiset(MoveDownClick(cells, selected)) == multiset(cells)
  {
    var n := |selected|;
    if n > 0 && selected[n - 1] + 1 < |cells| {
      assert forall k :: 0 <= k < n ==> InOrder(selected[k], selected[n - 1], false);
      DownPassPermutes(cells, selected);
    }
  }

  /** One selected row with a row above it changes places with that row. */
  lemma MoveUpOneRow(cells: Cells, r: nat)
    requires 1 <= r < |cells|
    ensures MoveUpClick(cells, [r]) == Swapped(cells, r - 1, r)
  {
    MoveUpSwaps(cells, r);
    assert [r][1..] == [];
    assert UpPass(cells, [r]) == UpPass(MoveUpEffect(cells, r), []);
  }

  /** One selected row with a row below it changes places with that row;
      the last row stays where it is. */
  lemma MoveDownOneRow(cells: Cells, r: nat)
    requires r < |cells|
    ensures r + 1 < |cells| ==> MoveDownClick(cells, [r]) == Swapped(cells, r, r + 1)
    ensures r + 1 == |cells| ==> MoveDownClick(cells, [r]) == cells
  {
    if r + 1 < |cells| {
      MoveDownSwaps(cells, r);
      assert [r][..0] == [];
      assert DownPass(cells, [r]) == DownPass(MoveDownEffect(cells, r), []);
    }
  }

  /** As written, moving the last of three rows down deletes it. */
  lemma MoveDownClickAsWrittenLosesRow(a: Rule, b: Rule, c: Rule)
    ensures MoveDownClickAsWritten([Some(a), Some(b), Some(c)], [2]) == [Some(a), Some(b)]
  {
    assert [2][..0] == [];
    MoveDownLastRow([Some(a), Some(b), Some(c)], 2);
  }

  /** The remove loop: `removeRow` on each row of the list, in order. */
  function RemoveAll(cells: Cells, rows: seq<int>): Cells
    decreases |rows|
  {
    if |rows| == 0 then cells else RemoveAll(RemovedRow(cells, rows[0]), rows[1..])
  }

  /** The rows whose numbers are not in `drop`, in their order. */
  function KeepExcept(cells: Cells, drop: set<int>): (c: Cells)
    ensures |c| <= |cells|
  {
    if |cells| == 0 then []
    else KeepExcept(cells[..|cells| - 1], drop) + (if |cells| - 1 in drop then [] else [cells[|cells| - 1]])
  }

  /** Row numbers past the end drop nothing. */
  lemma {:induction false} KeepExceptBeyond(cells: Cells, drop: set<int>, x: int)
    requires x >= |cells|
    ensures KeepExcept(cells, drop + {x}) == KeepExcept(cells, drop)
  {
    if |cells| > 0 {
      KeepExceptBeyond(cells[..|cells| - 1], drop, x);
    }
  }

  /** When nothing at or after `k` is dropped, the rows from `k` on stay as they are. */
  lemma {:induction false} KeepExceptTail(cells: Cells, drop: set<int>, k: nat)
    requires k <= |cells|
    requires forall d :: d in drop ==> d < k
    ensures KeepExcept(cells, drop) == KeepExcept(cells[..k], drop) + cells[k..]
  {
    if |cells| > k {
      var p := cells[..|cells| - 1];
      KeepExceptTail(p, drop, k);
      assert p[..k] == cells[..k];
      assert p[k..] + [cells[|cells| - 1]] == cells[k..];
    } else {
      assert cells[..k] == cells;
    }
  }

  /** A list in strictly descending order. */
  predicate StrictlyDescending(rows: seq<int>)
  {
    forall i, j :: 0 <= i < j < |rows| ==> rows[i] > rows[j]
  }

  /** Removing rows from the highest down deletes exactly those rows and
      keeps the others in their order. */
  lemma {:induction false} RemoveDescending(cells: Cells, rows: seq<int>)
    requires StrictlyDescending(rows)
    requires forall k :: 0 <= k < |rows| ==> 0 <= rows[k] < |cells|
    ensures RemoveAll(cells, rows) == KeepExcept(cells, set r | r in rows)
    decreases |rows|
  {
    if |rows| == 0 {
      assert (set r | r in rows) == {};
      KeepNothing(cells);
    } else {
      var top := rows[0];
      var rest := rows[1..];
      assert forall k :: 0 <= k < |rest| ==> rest[k] < top;
      RemoveDescending(RemovedRow(cells, top), rest);
      var d := set r | r in rest;
      assert (set r | r in rows) == d + {top};
      RemoveTopRow(cells, top, d);
    }
  }

  /** The selection sorted from the highest row down: removing those rows
      one at a time deletes exactly the selected rows when they are distinct
      rows of the table. */
  lemma RemoveSortedSelection(cells: Cells, selected: seq<nat>, rowList: seq<int>)
    requires SortedBy(rowList, true) && multiset(rowList) == multiset(selected)
    requires NoDuplicates(selected) && forall k :: 0 <= k < |selected| ==> selected[k] < |cells|
    ensures RemoveAll(cells, rowList) == KeepExcept(cells, set r | r in selected)
  {
    PermutationKeepsDistinct(rowList, selected);
    forall k | 0 <= k < |rowList|
      ensures 0 <= rowList[k] < |cells|
    {
      assert rowList[k] in multiset(selected);
    }
    RemoveDescending(cells, rowList);
    assert (set r | r in rowList) == (set r | r in selected) by {
      forall r ensures r in rowList <==> r in selected {
        assert r in rowList <==> r in multiset(rowList);
      }
    }
  }

  /** Removing a row above every dropped one is dropping it as well. */
  lemma RemoveTopRow(cells: Cells, top: nat, d: set<int>)
    requires top < |cells|
    requires forall x :: x in d ==> x < top
    ensures KeepExcept(RemovedRow(cells, top), d) == KeepExcept(cells, d + {top})
  {
    var shorter := RemovedRow(cells, top);
    KeepExceptTail(shorter, d, top);
    assert shorter[..top] == cells[..top] && shorter[top..] == cells[top + 1..];
    KeepExceptTail(cells, d + {top}, top + 1);
    assert cells[..top + 1][..top] == cells[..top];
    KeepExceptBeyond(cells[..top], d, top);
  }

  /** Dropping no row keeps every row. */
  lemma {:induction false} KeepNothing(cells: Cells)
    ensures KeepExcept(cells, {}) == cells
  {
    if |cells| > 0 {
      KeepNothing(cells[..|cells| - 1]);
    }
  }

  // ---------------------------------------------------------------------
  // Validation and the parameter dict

  /** Every row holds a widget, and it validates. */
  ghost predicate AllValid(cells: Cells)
  {
    forall i :: 0 <= i < |cells| ==> cells[i].Some? && cells[i].value.valid
  }

  /** The rows before `i` hold widgets that validate. */
  ghost predicate ValidBefore(cells: Cells, i: nat)
    requires i <= |cells|
  {
    forall j :: 0 <= j < i ==> cells[j].Some? && cells[j].value.valid
  }

  /** The message `invalidatedReason` adds for rule number `i + 1`. */
  function RuleError(i: nat, reason: string): (s: string)
    ensures |s| > 0
  {
    "Error for rule #" + NatToString(i + 1) + ":\n" + reason
  }

  /** The messages of the rows that do not validate, numbered and in row
      order; `Err(i)` is the `AttributeError` of row `i`, the first without
      a widget. */
  function InvalidReasons(cells: Cells): Result<string, nat>
  {
    if |cells| == 0 then Ok("")
    else
      var n := |cells| - 1;
      match InvalidReasons(cells[..n])
      case Err(i) => Err(i)
      case Ok(msg) =>
        match cells[n]
        case None => Err(n)
        case Some(rule) => Ok(if rule.valid then msg else msg + RuleError(n, rule.reason))
  }

  /** The messages are there exactly when every row holds a widget, and
      then they are empty exactly when every row validates; otherwise the
      error names the first row without a widget. */
  lemma {:induction false} ReasonsAgreeWithValid(cells: Cells)
    ensures InvalidReasons(cells).Ok? <==> forall i :: 0 <= i < |cells| ==> cells[i].Some?
    ensures InvalidReasons(cells).Ok? ==> (InvalidReasons(cells).value == "" <==> AllValid(cells))
    ensures InvalidReasons(cells).Err? ==>
              InvalidReasons(cells).error < |cells| && cells[InvalidReasons(cells).error].None? &&
              forall j :: 0 <= j < InvalidReasons(cells).error ==> cells[j].Some?
  {
    if |cells| > 0 {
      var n := |cells| - 1;
      var p := cells[..n];
      ReasonsAgreeWithValid(p);
      assert forall j :: 0 <= j < n ==> p[j] == cells[j];
      if InvalidReasons(p).Ok? && cells[n].Some? {
        var msg := InvalidReasons(p).value;
        if cells[n].value.valid {
          assert AllValid(cells) <==> AllValid(p);
        } else {
          assert !AllValid(cells);
          assert |msg + RuleError(n, cells[n].value.reason)| > 0;
        }
      }
    }
  }

  /** `'rule_#{0}'.format(i+1)`. */
  function RuleKey(i: nat): string
  {
    "rule_#" + NatToString(i + 1)
  }

  /** Different rows get different keys. */
  lemma RuleKeyInjective(i: nat, j: nat)
    requires RuleKey(i) == RuleKey(j)
    ensures i == j
  {
    assert RuleKey(i)[6..] == NatToString(i + 1);
    assert RuleKey(j)[6..] == NatToString(j + 1);
    NatToStringInjective(i + 1, j + 1);
  }

  /** `NameError: global name 'OrderedDict' is not defined`. */
  const OrderedDictUnbound := "global name 'OrderedDict' is not defined"

  /** What `getParameterDict` can end with. */
  datatype ParameterDictOutcome =
    | Rules(entries: seq<(string, Dict)>)   // the ordered dict, as its entries in order
    | MissingWidget(row: nat)              // AttributeError: row without a widget
    | NameError(message: string)

  /** The rule list widget, over its table. */
  class OrderedStructureWidget {
    const tableWidget: TableWidget

    constructor(tableWidget: TableWidget)
      ensures this.tableWidget == tableWidget
    {
      this.tableWidget := tableWidget;
    }

    /** `addItem`: a new row at the end holding the widget the subclass
        makes; the rows before it are untouched. */
    method AddItem(widget: Rule)
      modifies tableWidget
      ensures tableWidget.cells == old(tableWidget.cells) + [Some(widget)]
    {
      var rowCount := tableWidget.RowCount();
      tableWidget.InsertRow(rowCount);
      tableWidget.SetCellWidget(rowCount, Some(widget));
    }

    /** `on_removeRulePushButton_clicked`: the selected rows, sorted from
        the highest down, removed one at a time. For distinct rows of the
        table that deletes exactly the selected rows and keeps the order of
        the others. */
    method OnRemoveRulePushButtonClicked(selected: seq<nat>) returns (rowList: seq<int>)
      modifies tableWidget
      ensures SortedBy(rowList, true) && multiset(rowList) == multiset(selected)
      ensures tableWidget.cells == RemoveAll(old(tableWidget.cells), rowList)
      ensures NoDuplicates(selected) && (forall k :: 0 <= k < |selected| ==> selected[k] < |old(tableWidget.cells)|) ==>
                tableWidget.cells == KeepExcept(old(tableWidget.cells), set r | r in selected)
    {
      rowList := Sorted(selected, true);
      ghost var start := tableWidget.cells;
      var k := 0;
      while k < |rowList|
        invariant 0 <= k <= |rowList|
        invariant RemoveAll(tableWidget.cells, rowList[k..]) == RemoveAll(start, rowList)
      {
        assert rowList[k..][1..] == rowList[k + 1..];
        tableWidget.RemoveRow(rowList[k]);
        k := k + 1;
      }
      assert rowList[|rowList|..] == [];
      if NoDuplicates(selected) && (forall k :: 0 <= k < |selected| ==> selected[k] < |start|) {
        RemoveSortedSelection(start, selected, rowList);
      }
    }

    /** `moveDown` of row `rowIdx`. */
    method MoveDown(rowIdx: nat)
      modifies tableWidget
      ensures tableWidget.cells == MoveDownEffect(old(tableWidget.cells), rowIdx)
    {
      tableWidget.InsertRow(rowIdx + 2);
      tableWidget.TakeItem(rowIdx);
      var widget := CellWidget(tableWidget.cells, rowIdx);
      tableWidget.SetCellWidget(rowIdx + 2, widget);
      tableWidget.RemoveRow(rowIdx);
    }

    /** `moveUp` of row `rowIdx`. */
    method MoveUp(rowIdx: nat)
      modifies tableWidget
      ensures tableWidget.cells == MoveUpEffect(old(tableWidget.cells), rowIdx)
    {
      tableWidget.InsertRow(rowIdx - 1);
      tableWidget.TakeItem(rowIdx + 1);
      var widget := CellWidget(tableWidget.cells, rowIdx + 1);
      tableWidget.SetCellWidget(rowIdx - 1, widget);
      tableWidget.RemoveRow(rowIdx + 1);
    }

    /** `on_moveRuleUpPushButton_clicked` with the rows Qt reports selected. */
    method OnMoveRuleUpPushButtonClicked(selected: seq<nat>)
      modifies tableWidget
      ensures tableWidget.cells == MoveUpClick(old(tableWidget.cells), selected)
    {
      if |selected| == 0 {
        return;
      }
      var firstItemIdx := selected[0] as int - 1;
      if firstItemIdx < 0 {
        return;
      }
      ghost var start := tableWidget.cells;
      var k := 0;
      while k < |selected|
        invariant 0 <= k <= |selected|
        invariant UpPass(tableWidget.cells, selected[k..]) == UpPass(start, selected)
      {
        UpPassFirst(tableWidget.cells, selected, k);
        MoveUp(selected[k]);
        k := k + 1;
      }
      assert selected[|selected|..] == [];
    }

    /** `on_moveRuleDownPushButton_clicked` as written. */
    method OnMoveRuleDownPushButtonClickedAsWritten(selected: seq<nat>)
      modifies tableWidget
      ensures tableWidget.cells == MoveDownClickAsWritten(old(tableWidget.cells), selected)
    {
      if |selected| == 0 {
        return;
      }
      var firstItemIdx := selected[|selected| - 1] + 1;
      if firstItemIdx > tableWidget.RowCount() {
        return;
      }
      MoveSelectedDown(selected);
    }

    /** The move-down button, doing nothing when the selection ends at the
        last row. */
    method OnMoveRuleDownPushButtonClicked(selected: seq<nat>)
      modifies tableWidget
      ensures tableWidget.cells == MoveDownClick(old(tableWidget.cells), selected)
      ensures AscendingSelection(selected, |old(tableWidget.cells)|) ==>
                multiset(tableWidget.cells) == multiset(old(tableWidget.cells)) &&
                |tableWidget.cells| == |old(tableWidget.cells)|
    {
      if AscendingSelection(selected, tableWidget.RowCount()) {
        MoveDownClickPermutes(tableWidget.cells, selected);
      }
      if |selected| == 0 {
        return;
      }
      var firstItemIdx := selected[|selected| - 1] + 1;
      if firstItemIdx >= tableWidget.RowCount() {
        return;
      }
      MoveSelectedDown(selected);
    }

    /** The loop of the move-down button: `moveDown` on each selected row,
        last to first. */
    method MoveSelectedDown(selected: seq<nat>)
      modifies tableWidget
      ensures tableWidget.cells == DownPass(old(tableWidget.cells), selected)
    {
      ghost var start := tableWidget.cells;
      var k := |selected|;
      assert selected[..k] == selected;
      while k > 0
        invariant 0 <= k <= |selected|
        invariant DownPass(tableWidget.cells, selected[..k]) == DownPass(start, selected)
      {
        DownPassLast(tableWidget.cells, selected, k);
        MoveDown(selected[k - 1]);
        k := k - 1;
      }
      assert selected[..0] == [];
    }

    /** `validate`: true when every row validates, false at the first that
        does not; `Err(i)` is the `AttributeError` of a row without a widget
        reached first. */
    method Validate() returns (r: Result<bool, nat>)
      ensures r == Ok(true) <==> AllValid(tableWidget.cells)
      ensures r == Ok(false) ==>
                exists i :: 0 <= i < |tableWidget.cells| && ValidBefore(tableWidget.cells, i) &&
                  tableWidget.cells[i].Some? && !tableWidget.cells[i].value.valid
      ensures r.Err? ==>
                r.error < |tableWidget.cells| && ValidBefore(tableWidget.cells, r.error) &&
                tableWidget.cells[r.error].None?
    {
      var cells := tableWidget.cells;
      var i := 0;
      while i < |cells|
        invariant 0 <= i <= |cells|
        invariant ValidBefore(cells, i)
      {
        var widget := CellWidget(cells, i);
        if widget.None? {
          return Err(i);
        }
        if !widget.value.valid {
          return Ok(false);
        }
        i := i + 1;
      }
      return Ok(true);
    }

    /** `invalidatedReason`: the numbered messages of the rows that do not validate. */
    method InvalidatedReason() returns (r: Result<string, nat>)
      ensures r == InvalidReasons(tableWidget.cells)
    {
      var cells := tableWidget.cells;
      var msg := "";
      var i := 0;
      while i < |cells|
        invariant 0 <= i <= |cells|
        invariant InvalidReasons(cells[..i]) == Ok(msg)
      {
        assert cells[..i + 1][..i] == cells[..i];
        var widget := CellWidget(cells, i);
        if widget.None? {
          ReasonsStop(cells, i + 1);
          return Err(i);
        }
        if !widget.value.valid {
          msg := msg + RuleError(i, widget.value.reason);
        }
        i := i + 1;
      }
      assert cells[..|cells|] == cells;
      r := Ok(msg);
    }

    /** `getParameterDict` as written: the first statement names
        `OrderedDict`, which the module never imports. */
    method GetParameterDictAsWritten() returns (r: ParameterDictOutcome)
      ensures r == NameError(OrderedDictUnbound)
    {
      r := NameError(OrderedDictUnbound);
    }

    /** `getParameterDict` with `OrderedDict` imported: one entry per row,
        keyed `rule_#1`, `rule_#2`, ... in row order, each holding that
        row's parameters. */
    method GetParameterDict() returns (r: ParameterDictOutcome)
      ensures r.Rules? <==> forall i :: 0 <= i < |tableWidget.cells| ==> tableWidget.cells[i].Some?
      ensures r.Rules? ==> |r.entries| == |tableWidget.cells|
      ensures r.Rules? ==> forall i :: 0 <= i < |r.entries| ==> r.entries[i] == (RuleKey(i), tableWidget.cells[i].value.parameters)
      ensures r.MissingWidget? ==> r.row < |tableWidget.cells| && tableWidget.cells[r.row].None?
      ensures r.MissingWidget? ==> forall j :: 0 <= j < r.row ==> tableWidget.cells[j].Some?
      ensures !r.NameError?
    {
      var cells := tableWidget.cells;
      var entries: seq<(string, Dict)> := [];
      var i := 0;
      while i < |cells|
        invariant 0 <= i <= |cells|
        invariant |entries| == i
        invariant forall j :: 0 <= j < i ==> cells[j].Some? && entries[j] == (RuleKey(j), cells[j].value.parameters)
      {
        var widget := CellWidget(cells, i);
        if widget.None? {
          return MissingWidget(i);
        }
        entries := entries + [(RuleKey(i), widget.value.parameters)];
        i := i + 1;
      }
      r := Rules(entries);
    }
  }

  /** Once a row without a widget is reached, the messages stop there. */
  lemma {:induction false} ReasonsStop(cells: Cells, k: nat)
    requires 0 < k <= |cells| && InvalidReasons(cells[..k - 1]).Ok? && cells[k - 1].None?
    ensures InvalidReasons(cells) == Err(k - 1)
  {
    if k < |cells| {
      assert cells[..|cells| - 1][..k - 1] == cells[..k - 1];
      ReasonsStop(cells[..|cells| - 1], k);
    } else {
      assert cells[..|cells| - 1] == cells[..k - 1];
    }
  }

  /** The keys of the dict are distinct, so none is overwritten. */
  lemma RuleKeysDistinct(entries: seq<(string, Dict)>, cells: Cells)
    requires |entries| == |cells|
    requires forall i :: 0 <= i < |entries| ==> entries[i].0 == RuleKey(i)
    ensures forall i, j :: 0 <= i < j < |entries| ==> entries[i].0 != entries[j].0
  {
    forall i, j | 0 <= i < j < |entries|
      ensures entries[i].0 != entries[j].0
    {
      if entries[i].0 == entries[j].0 {
        RuleKeyInjective(i, j);
      }
    }
  }
}
