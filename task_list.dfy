/** The transformations the board applies to its ordered list of tasks:
    the optimistic update, move and delete, the column query and the lookup
    that guards a move. */
module TaskList {
  import opened Outcomes
  import opened TaskRecord
  import opened Seqs

  /** `tasks.map(task => task.id === id ? { ...task, ...patch } : task)`:
      the list keeps its length and order, every task with the id gets the
      patch overlaid, and every other task is left as it was. */
  function UpdateById(ts: seq<Task>, id: Id, p: Patch): (r: seq<Task>)
    ensures |r| == |ts|
    ensures forall i :: 0 <= i < |ts| && ts[i].id == id ==> r[i] == Merge(ts[i], p)
    ensures forall i :: 0 <= i < |ts| && ts[i].id != id ==> r[i] == ts[i]
  {
    if ts == [] then []
    else [if ts[0].id == id then Merge(ts[0], p) else ts[0]] + UpdateById(ts[1..], id, p)
  }

  /** The move of a drag-and-drop: the matching tasks change their status and
      nothing else; every other task is left as it was. */
  function MoveToColumn(ts: seq<Task>, id: Id, column: ColumnId): (r: seq<Task>)
    ensures |r| == |ts|
    ensures forall i :: 0 <= i < |ts| && ts[i].id == id ==> r[i] == ts[i].(status := column)
    ensures forall i :: 0 <= i < |ts| && ts[i].id != id ==> r[i] == ts[i]
  {
    UpdateById(ts, id, StatusPatch(column))
  }

  /** The update an inline edit saves: the matching tasks change their title
      and description and nothing else; every other task is left as it was. */
  function SaveEdit(ts: seq<Task>, id: Id, title: string, description: string): (r: seq<Task>)
    ensures |r| == |ts|
    ensures forall i :: 0 <= i < |ts| && ts[i].id == id ==>
      r[i] == ts[i].(title := title, description := description)
    ensures forall i :: 0 <= i < |ts| && ts[i].id != id ==> r[i] == ts[i]
  {
    UpdateById(ts, id, EditPatch(title, description))
  }

  /** `tasks.filter(task => task.id !== id)`: exactly the tasks whose id
      differs, each as often as before, in their original order. */
  function RemoveById(ts: seq<Task>, id: Id): (r: seq<Task>)
    ensures forall t :: t in r ==> t in ts && t.id != id
    ensures forall t: Task :: t.id != id ==> multiset(r)[t] == multiset(ts)[t]
    ensures IsSubsequence(r, ts)
  {
    Filter(ts, (t: Task) => t.id != id)
  }

  /** `tasks.filter(task => task.status === status)`: exactly the tasks with
      that status, each as often as before, in their original order. */
  function TasksWithStatus(ts: seq<Task>, status: string): (r: seq<Task>)
    ensures forall t :: t in r ==> t in ts && t.status == status
    ensures forall t: Task :: t.status == status ==> multiset(r)[t] == multiset(ts)[t]
    ensures IsSubsequence(r, ts)
  {
    Filter(ts, (t: Task) => t.status == status)
  }

  /** `tasks.find(task => task.id === id)`: the first task with the id, or
      nothing when no task has it. */
  function FindById(ts: seq<Task>, id: Id): (r: Option<Task>)
    ensures r.None? <==> forall i :: 0 <= i < |ts| ==> ts[i].id != id
    ensures r.Some? ==> exists i :: 0 <= i < |ts| && ts[i] == r.value && r.value.id == id
                                  && forall j :: 0 <= j < i ==> ts[j].id != id
  {
    if ts == [] then None
    else if ts[0].id == id then Some(ts[0])
    else
      FindById(ts[1..], id)
  }

  /** Deleting an id that no task has leaves the list as it was. */
  lemma RemoveAbsentIsIdentity(ts: seq<Task>, id: Id)
    requires forall t :: t in ts ==> t.id != id
    ensures RemoveById(ts, id) == ts
  {
    FilterKeepsAll(ts, (t: Task) => t.id != id);
  }

  /** The delete result is the only subsequence of the list that keeps every
      task with another id and drops every task with this one. */
  lemma RemoveByIdIsUnique(ts: seq<Task>, id: Id, r: seq<Task>)
    requires IsSubsequence(r, ts)
    requires forall t :: t in r ==> t.id != id
    requires forall t: Task :: t.id != id ==> multiset(r)[t] == multiset(ts)[t]
    ensures r == RemoveById(ts, id)
  {
    FilterUnique(ts, (t: Task) => t.id != id, r);
  }

  /** An update that does not rewrite ids does not change what a later delete
      of the same id leaves behind. */
  lemma {:induction false} RemoveAfterUpdate(ts: seq<Task>, id: Id, p: Patch)
    requires p.id.None? || p.id == Some(id)
    ensures RemoveById(UpdateById(ts, id, p), id) == RemoveById(ts, id)
  {
    if ts != [] {
      var h := ts[0];
      var h' := if h.id == id then Merge(h, p) else h;
      assert UpdateById(ts, id, p) == [h'] + UpdateById(ts[1..], id, p);
      assert ts == [h] + ts[1..];
      FilterCons(h', UpdateById(ts[1..], id, p), (t: Task) => t.id != id);
      FilterCons(h, ts[1..], (t: Task) => t.id != id);
      RemoveAfterUpdate(ts[1..], id, p);
    }
  }

  /** When every task has one of the three column statuses, the three columns
      together hold every task exactly once. */
  lemma ColumnsPartition(ts: seq<Task>)
    requires AllInColumns(ts)
    ensures multiset(TasksWithStatus(ts, ToDo)) + multiset(TasksWithStatus(ts, InProgress))
            + multiset(TasksWithStatus(ts, Done)) == multiset(ts)
    ensures |TasksWithStatus(ts, ToDo)| + |TasksWithStatus(ts, InProgress)|
            + |TasksWithStatus(ts, Done)| == |ts|
  {
    var a, b, c := TasksWithStatus(ts, ToDo), TasksWithStatus(ts, InProgress), TasksWithStatus(ts, Done);
    forall t
      ensures (multiset(a) + multiset(b) + multiset(c))[t] == multiset(ts)[t]
    {
      if t !in ts {
        assert t !in a && t !in b && t !in c;
      }
    }
    assert multiset(a) + multiset(b) + multiset(c) == multiset(ts);
  }

  /** After a move, the moved task shows up in the destination column. */
  lemma MovedTaskInColumn(ts: seq<Task>, id: Id, column: ColumnId)
    requires FindById(ts, id).Some?
    ensures exists t :: t in TasksWithStatus(MoveToColumn(ts, id, column), column) && t.id == id
  {
    var i :| 0 <= i < |ts| && ts[i].id == id;
    var moved := MoveToColumn(ts, id, column);
    assert moved[i] in moved;
    assert multiset(TasksWithStatus(moved, column))[moved[i]] > 0;
  }

  /** The update keeps every task in a column when its patch does. */
  lemma UpdateKeepsColumns(ts: seq<Task>, id: Id, p: Patch)
    requires AllInColumns(ts) && KeepsColumns(p)
    ensures AllInColumns(UpdateById(ts, id, p))
  {
    var r := UpdateById(ts, id, p);
    forall t | t in r
      ensures IsColumn(t.status)
    {
      var i :| 0 <= i < |r| && r[i] == t;
      assert ts[i] in ts;
    }
  }
}
