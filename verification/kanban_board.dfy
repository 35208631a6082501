/**
 * Frontend/src/components/project/KanbanBoard.jsx: the board state (a map from
 * column key to the tasks in that column, plus the modal and drag flags) and
 * the handlers that move and add tasks.
 */
module KanbanBoard {
  import opened Wrappers
  import opened JsValues
  import Seqs
  import MockData

  type Columns = map<string, seq<Object>>

  /** `t.id === id` for a string id. */
  predicate HasId(t: Object, id: string) {
    Get(t, "id") == Str(id)
  }

  /** No two tasks of a column share the id `id`. */
  predicate AtMostOneWithId(column: seq<Object>, id: string) {
    forall i, j :: 0 <= i < j < |column| && HasId(column[i], id) ==> !HasId(column[j], id)
  }

  /** `column.find(t => t.id === taskId)`: the first task with the id. */
  function Dragged(column: seq<Object>, taskId: string): (r: Option<Object>)
    ensures r.Some? <==> exists i :: 0 <= i < |column| && HasId(column[i], taskId)
    ensures r.Some? ==> HasId(r.value, taskId) && r.value in column
    ensures r.Some? ==>
      exists i :: 0 <= i < |column| && r.value == column[i] && forall j :: 0 <= j < i ==> !HasId(column[j], taskId)
  {
    var p := (t: Object) => HasId(t, taskId);
    var r := Seqs.Find(column, p);
    if r.Some? then
      var i := Seqs.FindIndex(column, p).value;
      assert forall j :: 0 <= j < i ==> !p(column[j]);
      r
    else r
  }

  /** `column.filter(t => t.id !== taskId)`. */
  function RemoveTask(column: seq<Object>, taskId: string): (r: seq<Object>)
    ensures forall i :: 0 <= i < |r| ==> !HasId(r[i], taskId) && r[i] in column
    ensures forall i :: 0 <= i < |column| && !HasId(column[i], taskId) ==> column[i] in r
    ensures Seqs.IsSubsequence(r, column)
    ensures forall t :: multiset(r)[t] == if HasId(t, taskId) then 0 else multiset(column)[t]
  {
    var keep := (t: Object) => !HasId(t, taskId);
    Seqs.FilterSpec(column, keep);
    var r := Seqs.Filter(column, keep);
    assert forall i :: 0 <= i < |r| ==> !HasId(r[i], taskId) && r[i] in column by {
      forall i | 0 <= i < |r| ensures !HasId(r[i], taskId) && r[i] in column {
        assert r[i] in column && keep(r[i]);
      }
    }
    r
  }

  /** `columns[key] || []`. */
  function ColumnOrEmpty(columns: Columns, key: string): seq<Object> {
    if key in columns then columns[key] else []
  }

  /** What the drag carries: the dragged task's id as text, and its column. */
  datatype DragData = DragData(taskId: string, fromColumn: string)

  /**
   * The columns after a drop of `drag` on `toColumn`: unchanged for a drop on
   * the same column or when the task is no longer in its column; otherwise
   * the task leaves its column and is appended to the target.
   */
  function Drop(columns: Columns, drag: DragData, toColumn: string): (r: Columns)
    requires drag.fromColumn == toColumn || drag.fromColumn in columns
    ensures drag.fromColumn == toColumn ==> r == columns
    ensures drag.fromColumn != toColumn && Dragged(columns[drag.fromColumn], drag.taskId).None? ==> r == columns
    ensures drag.fromColumn != toColumn && Dragged(columns[drag.fromColumn], drag.taskId).Some? ==>
      && r.Keys == columns.Keys + {toColumn}
      && r[drag.fromColumn] == RemoveTask(columns[drag.fromColumn], drag.taskId)
      && r[toColumn] == ColumnOrEmpty(columns, toColumn) + [Dragged(columns[drag.fromColumn], drag.taskId).value]
    ensures forall k :: k in columns && k != drag.fromColumn && k != toColumn ==> k in r && r[k] == columns[k]
  {
    if drag.fromColumn == toColumn then columns
    else match Dragged(columns[drag.fromColumn], drag.taskId)
      case None => columns
      case Some(task) =>
        columns[drag.fromColumn := RemoveTask(columns[drag.fromColumn], drag.taskId)]
               [toColumn := ColumnOrEmpty(columns, toColumn) + [task]]
  }

  /** A task with a string id is found again by the drop that its own drag starts. */
  lemma DraggedTaskIsFound(column: seq<Object>, i: nat, id: string)
    requires i < |column| && Get(column[i], "id") == Str(id) && AtMostOneWithId(column, id)
    ensures Dragged(column, ToText(Get(column[i], "id"))) == Some(column[i])
  {
    var k := Seqs.FindIndex(column, (t: Object) => HasId(t, id)).value;
    assert HasId(column[k], id) && HasId(column[i], id);
  }

  /** With ids unique in the source column, the moved task ends the target and no task of that id remains at the source. */
  lemma MoveRelocatesTask(columns: Columns, from: string, to: string, i: nat, id: string)
    requires from in columns && from != to
    requires i < |columns[from]| && Get(columns[from][i], "id") == Str(id) && AtMostOneWithId(columns[from], id)
    ensures var r := Drop(columns, DragData(id, from), to);
      && r[to] == ColumnOrEmpty(columns, to) + [columns[from][i]]
      && forall j :: 0 <= j < |r[from]| ==> !HasId(r[from][j], id)
  {
    DraggedTaskIsFound(columns[from], i, id);
  }

  /** The number of tasks in the column `key`, 0 when there is no such column. */
  function Size(columns: Columns, key: string): nat {
    |ColumnOrEmpty(columns, key)|
  }

  /** The number of tasks in the columns listed in `keys`. */
  function Total(columns: Columns, keys: seq<string>): nat {
    if keys == [] then 0 else Size(columns, keys[0]) + Total(columns, keys[1..])
  }

  predicate NoDuplicates(keys: seq<string>) {
    forall i, j :: 0 <= i < j < |keys| ==> keys[i] != keys[j]
  }

  /** Changing the size of one listed column changes the total by the same amount. */
  lemma {:induction false} TotalUpdate(a: Columns, b: Columns, keys: seq<string>, k: string)
    requires NoDuplicates(keys) && k in keys
    requires forall x :: x in keys && x != k ==> Size(a, x) == Size(b, x)
    ensures Total(b, keys) + Size(a, k) == Total(a, keys) + Size(b, k)
  {
    if keys[0] == k {
      assert k !in keys[1..] by {
        forall j | 0 <= j < |keys[1..]| ensures keys[1..][j] != k {
          assert keys[1..][j] == keys[j + 1];
        }
      }
      TotalFrame(a, b, keys[1..]);
    } else {
      assert k in keys[1..];
      TotalUpdate(a, b, keys[1..], k);
    }
  }

  /** Columns of equal sizes have equal totals. */
  lemma {:induction false} TotalFrame(a: Columns, b: Columns, keys: seq<string>)
    requires forall x :: x in keys ==> Size(a, x) == Size(b, x)
    ensures Total(a, keys) == Total(b, keys)
  {
    if keys != [] {
      TotalFrame(a, b, keys[1..]);
    }
  }

  /** Removing the only task with an id shortens the column by one. */
  lemma {:induction false} RemoveOnlyOne(column: seq<Object>, id: string)
    requires AtMostOneWithId(column, id) && exists i :: 0 <= i < |column| && HasId(column[i], id)
    ensures |RemoveTask(column, id)| == |column| - 1
  {
    var keep := (t: Object) => !HasId(t, id);
    var rest := column[1..];
    assert Seqs.Filter(column, keep) == if keep(column[0]) then [column[0]] + Seqs.Filter(rest, keep) else Seqs.Filter(rest, keep);
    if HasId(column[0], id) {
      forall j | 0 <= j < |rest| ensures keep(rest[j]) {
        assert rest[j] == column[j + 1];
      }
      Seqs.FilterKeepsAll(rest, keep);
    } else {
      var i :| 0 <= i < |column| && HasId(column[i], id);
      assert rest[i - 1] == column[i];
      RemoveOnlyOne(rest, id);
    }
  }

  /** One task fewer in one listed column and one more in another leaves the total as it was. */
  lemma MoveOneKeepsTotal(a: Columns, b: Columns, keys: seq<string>, from: string, to: string)
    requires NoDuplicates(keys) && from in keys && to in keys && from != to
    requires Size(b, from) + 1 == Size(a, from) && Size(b, to) == Size(a, to) + 1
    requires forall k :: k != from && k != to ==> Size(b, k) == Size(a, k)
    ensures Total(b, keys) == Total(a, keys)
  {
    var mid := a[from := ColumnOrEmpty(b, from)];
    assert Size(mid, from) == Size(b, from);
    TotalUpdate(a, mid, keys, from);
    TotalUpdate(mid, b, keys, to);
  }

  /** A drop that moves a task shortens its column by one and lengthens the target by one. */
  lemma DropSizes(columns: Columns, drag: DragData, toColumn: string)
    requires drag.fromColumn in columns && AtMostOneWithId(columns[drag.fromColumn], drag.taskId)
    requires drag.fromColumn != toColumn && Dragged(columns[drag.fromColumn], drag.taskId).Some?
    ensures Size(Drop(columns, drag, toColumn), drag.fromColumn) + 1 == Size(columns, drag.fromColumn)
    ensures Size(Drop(columns, drag, toColumn), toColumn) == Size(columns, toColumn) + 1
    ensures forall k :: k != drag.fromColumn && k != toColumn ==> Size(Drop(columns, drag, toColumn), k) == Size(columns, k)
  {
    RemoveOnlyOne(columns[drag.fromColumn], drag.taskId);
  }

  /**
   * When ids are unique in the source column, a drop keeps the number of
   * tasks across any list of distinct columns that names both columns.
   */
  lemma DropKeepsTotal(columns: Columns, drag: DragData, toColumn: string, keys: seq<string>)
    requires drag.fromColumn in columns && AtMostOneWithId(columns[drag.fromColumn], drag.taskId)
    requires NoDuplicates(keys) && drag.fromColumn in keys && toColumn in keys
    ensures Total(Drop(columns, drag, toColumn), keys) == Total(columns, keys)
  {
    var from := drag.fromColumn;
    var r := Drop(columns, drag, toColumn);
    if from != toColumn && Dragged(columns[from], drag.taskId).Some? {
      DropSizes(columns, drag, toColumn);
      MoveOneKeepsTotal(columns, r, keys, from, toColumn);
    }
  }

  class Board {
    var columns: Columns
    var isAddTaskModalOpen: bool
    var currentColumn: string
    var isDragging: bool

    constructor()
      ensures columns == MockData.Tasks && !isAddTaskModalOpen && currentColumn == "" && !isDragging
    {
      columns := MockData.Tasks;
      isAddTaskModalOpen := false;
      currentColumn := "";
      isDragging := false;
    }

    method HandleAddTask(column: string)
      modifies this
      ensures currentColumn == column && isAddTaskModalOpen
      ensures columns == old(columns) && isDragging == old(isDragging)
    {
      currentColumn := column;
      isAddTaskModalOpen := true;
    }

    /** The add-task modal's close callback. */
    method CloseAddTaskModal()
      modifies this
      ensures !isAddTaskModalOpen
      ensures columns == old(columns) && currentColumn == old(currentColumn) && isDragging == old(isDragging)
    {
      isAddTaskModalOpen := false;
    }

    /** Appends the new task to the column the modal was opened for; spreading a missing column would throw. */
    method HandleTaskCreated(task: Object)
      requires currentColumn in columns
      modifies this
      ensures columns == old(columns)[old(currentColumn) := old(columns)[old(currentColumn)] + [task]]
      ensures isAddTaskModalOpen == old(isAddTaskModalOpen) && currentColumn == old(currentColumn) && isDragging == old(isDragging)
    {
      columns := columns[currentColumn := columns[currentColumn] + [task]];
    }

    method HandleDragStart(task: Object, fromColumn: string) returns (drag: DragData)
      modifies this
      ensures drag == DragData(ToText(Get(task, "id")), fromColumn) && isDragging
      ensures columns == old(columns) && isAddTaskModalOpen == old(isAddTaskModalOpen) && currentColumn == old(currentColumn)
    {
      drag := DragData(ToText(Get(task, "id")), fromColumn);
      isDragging := true;
    }

    method HandleDrop(drag: DragData, toColumn: string)
      requires drag.fromColumn == toColumn || drag.fromColumn in columns
      modifies this
      ensures columns == Drop(old(columns), drag, toColumn) && !isDragging
      ensures isAddTaskModalOpen == old(isAddTaskModalOpen) && currentColumn == old(currentColumn)
    {
      if drag.fromColumn == toColumn {
        isDragging := false;
        return;
      }
      var task := Dragged(columns[drag.fromColumn], drag.taskId);
      if task.None? {
        isDragging := false;
        return;
      }
      var sourceColumn := RemoveTask(columns[drag.fromColumn], drag.taskId);
      columns := columns[drag.fromColumn := sourceColumn][toColumn := ColumnOrEmpty(columns, toColumn) + [task.value]];
      isDragging := false;
    }
  }
}
