/**
 * `moveKanbanItem`: moving a card from one column of a board to another,
 * applied to every board of the document.
 */
module Kanban {
  import opened Wrappers
  import opened Types
  import opened Lists

  /** The number of cards on a board, over all its columns. */
  function TotalItems(cols: seq<KanbanColumn>): nat {
    if cols == [] then 0 else |cols[0].items| + TotalItems(cols[1..])
  }

  /** Replacing one column changes the card count by the difference of the two columns' sizes. */
  lemma {:induction false} TotalItemsUpdate(cols: seq<KanbanColumn>, k: nat, c: KanbanColumn)
    requires k < |cols|
    ensures TotalItems(cols[k := c]) == TotalItems(cols) - |cols[k].items| + |c.items|
  {
    if k == 0 {
      assert cols[k := c][1..] == cols[1..];
    } else {
      assert cols[k := c][1..] == cols[1..][k - 1 := c];
      TotalItemsUpdate(cols[1..], k - 1, c);
    }
  }

  /** One column after the move (the `map` over a board's columns):
      every column with the source id loses the card, every other column
      with the target id receives it at the clamped index. */
  function MoveColumn(col: KanbanColumn, itemId: string, sourceId: string, targetId: string,
                      newIndex: int, item: KanbanItem): KanbanColumn
  {
    if col.id == sourceId then col.(items := RemoveId(col.items, ItemKey, itemId))
    else if col.id == targetId then col.(items := InsertAt(col.items, ClampIndex(|col.items|, newIndex), item))
    else col
  }

  /** One board after `moveKanbanItem(itemId, sourceId, targetId, newIndex)`. */
  function MoveInBoard(b: KanbanBoard, itemId: string, sourceId: string, targetId: string,
                       newIndex: int): (r: KanbanBoard)
    ensures r.id == b.id && r.title == b.title && r.category == b.category
    ensures Ids(r.columns, ColumnKey) == Ids(b.columns, ColumnKey)
    ensures !HasId(b.columns, ColumnKey, sourceId) || !HasId(b.columns, ColumnKey, targetId) ==> r == b
    ensures (forall k :: 0 <= k < |b.columns| && b.columns[k].id == sourceId ==>
               !HasId(b.columns[k].items, ItemKey, itemId)) ==> r == b
  {
    var sc := Find(b.columns, ColumnKey, sourceId);
    var tc := Find(b.columns, ColumnKey, targetId);
    if sc.None? || tc.None? then b
    else
      var it := Find(sc.value.items, ItemKey, itemId);
      if it.None? then b
      else
        b.(columns := seq(|b.columns|, k requires 0 <= k < |b.columns| =>
                            MoveColumn(b.columns[k], itemId, sourceId, targetId, newIndex, it.value)))
  }

  /** When both columns and the card are found, every column is moved on its own. */
  lemma MoveInBoardFound(b: KanbanBoard, itemId: string, sourceId: string, targetId: string,
                         newIndex: int, item: KanbanItem)
    requires HasId(b.columns, ColumnKey, sourceId) && HasId(b.columns, ColumnKey, targetId)
    requires Find(Find(b.columns, ColumnKey, sourceId).value.items, ItemKey, itemId) == Some(item)
    ensures var r := MoveInBoard(b, itemId, sourceId, targetId, newIndex);
            && |r.columns| == |b.columns|
            && forall k :: 0 <= k < |b.columns| ==>
                 r.columns[k] == MoveColumn(b.columns[k], itemId, sourceId, targetId, newIndex, item)
  {
  }

  /** The columns after a move between distinct columns `i` and `j`. */
  lemma MovedColumns(b: KanbanBoard, itemId: string, i: nat, j: nat, newIndex: int)
    requires UniqueIds(b.columns, ColumnKey)
    requires i < |b.columns| && j < |b.columns| && b.columns[i].id != b.columns[j].id
    requires HasId(b.columns[i].items, ItemKey, itemId)
    ensures var cols := b.columns;
            var item := Find(cols[i].items, ItemKey, itemId).value;
            var at := ClampIndex(|cols[j].items|, newIndex);
            MoveInBoard(b, itemId, cols[i].id, cols[j].id, newIndex).columns
              == cols[i := cols[i].(items := RemoveId(cols[i].items, ItemKey, itemId))]
                     [j := cols[j].(items := InsertAt(cols[j].items, at, item))]
  {
    var cols := b.columns;
    var src, tgt := cols[i].id, cols[j].id;
    FindUnique(cols, ColumnKey, i);
    FindUnique(cols, ColumnKey, j);
    var item := Find(cols[i].items, ItemKey, itemId).value;
    var at := ClampIndex(|cols[j].items|, newIndex);
    var want := cols[i := cols[i].(items := RemoveId(cols[i].items, ItemKey, itemId))]
                    [j := cols[j].(items := InsertAt(cols[j].items, at, item))];
    var r := MoveInBoard(b, itemId, src, tgt, newIndex);
    MoveInBoardFound(b, itemId, src, tgt, newIndex, item);
    forall k | 0 <= k < |cols| ensures r.columns[k] == want[k] {
      if k != i && k != j {
        assert cols[k].id != src && cols[k].id != tgt;
      }
    }
    assert r.columns == want;
  }

  /** Distinct source and target: the card leaves the source column and
      arrives at the clamped index of the target column; no other column
      changes, and with unique card ids in the source the board keeps its
      card count. */
  lemma MoveAcrossColumns(b: KanbanBoard, itemId: string, i: nat, j: nat, newIndex: int)
    requires UniqueIds(b.columns, ColumnKey)
    requires i < |b.columns| && j < |b.columns| && b.columns[i].id != b.columns[j].id
    requires HasId(b.columns[i].items, ItemKey, itemId)
    ensures var cols := b.columns;
            var item := Find(cols[i].items, ItemKey, itemId).value;
            var at := ClampIndex(|cols[j].items|, newIndex);
            var r := MoveInBoard(b, itemId, cols[i].id, cols[j].id, newIndex);
            && item.id == itemId
            && r.columns == cols[i := cols[i].(items := RemoveId(cols[i].items, ItemKey, itemId))]
                                [j := cols[j].(items := InsertAt(cols[j].items, at, item))]
            && !HasId(r.columns[i].items, ItemKey, itemId)
            && r.columns[j].items[at] == item
            && TotalItems(r.columns) == TotalItems(cols) - CountId(cols[i].items, ItemKey, itemId) + 1
            && (UniqueIds(cols[i].items, ItemKey) ==> TotalItems(r.columns) == TotalItems(cols))
  {
    var cols := b.columns;
    var item := Find(cols[i].items, ItemKey, itemId).value;
    var at := ClampIndex(|cols[j].items|, newIndex);
    var ci := cols[i].(items := RemoveId(cols[i].items, ItemKey, itemId));
    var cj := cols[j].(items := InsertAt(cols[j].items, at, item));
    MovedColumns(b, itemId, i, j, newIndex);
    TotalItemsUpdate(cols, i, ci);
    TotalItemsUpdate(cols[i := ci], j, cj);
  }

  /** Same source and target: the `col.id === sourceColumnId` branch wins,
      so the card is filtered out of that column and never put back. */
  lemma MoveWithinColumn(b: KanbanBoard, itemId: string, i: nat, newIndex: int)
    requires UniqueIds(b.columns, ColumnKey)
    requires i < |b.columns|
    requires HasId(b.columns[i].items, ItemKey, itemId)
    ensures var cols := b.columns;
            var r := MoveInBoard(b, itemId, cols[i].id, cols[i].id, newIndex);
            && r.columns == cols[i := cols[i].(items := RemoveId(cols[i].items, ItemKey, itemId))]
            && !HasId(r.columns[i].items, ItemKey, itemId)
            && TotalItems(r.columns) == TotalItems(cols) - CountId(cols[i].items, ItemKey, itemId)
            && TotalItems(r.columns) < TotalItems(cols)
  {
    var cols := b.columns;
    var src := cols[i].id;
    FindUnique(cols, ColumnKey, i);
    var ci := cols[i].(items := RemoveId(cols[i].items, ItemKey, itemId));
    var want := cols[i := ci];
    var r := MoveInBoard(b, itemId, src, src, newIndex);
    forall k | 0 <= k < |cols| ensures r.columns[k] == want[k] {
      if k != i {
        assert cols[k].id != src;
      }
    }
    assert r.columns == want;
    TotalItemsUpdate(cols, i, ci);
  }

  /** `moveKanbanItem` over the document's boards: every board is moved
      on its own, whatever its id. */
  function MoveKanbanItem(boards: seq<KanbanBoard>, itemId: string, sourceId: string, targetId: string,
                          newIndex: int): (r: seq<KanbanBoard>)
    ensures Ids(r, BoardKey) == Ids(boards, BoardKey)
    ensures forall k :: 0 <= k < |boards| &&
              (!HasId(boards[k].columns, ColumnKey, sourceId) || !HasId(boards[k].columns, ColumnKey, targetId))
              ==> r[k] == boards[k]
  {
    seq(|boards|, k requires 0 <= k < |boards| => MoveInBoard(boards[k], itemId, sourceId, targetId, newIndex))
  }
}
