/** The task list the Todo panel shows and edits, together with its
    selection cursor (src/main.rs, `Task`, `add_new_test_task_to_list` and
    `remove_selected_task_from_list`). The JSON file that stores the list is
    abstracted as the sequence of records it holds. */
module Tasks {
  import opened Wrappers

  /** One stored record. The creation time is an opaque local timestamp. */
  datatype Task = Task(
    id: nat,
    name: string,
    description: string,
    complete: bool,
    priority: nat,
    created: int)

  /** The stored records and the highlighted position (`ListState::selected`). */
  datatype TodoList = TodoList(tasks: seq<Task>, cursor: Option<nat>)

  /** The cursor points at a record, or sits at 0 while the list is empty.
      Every state reachable from start-up satisfies this. */
  predicate CursorValid(l: TodoList) {
    l.cursor.Some? && (l.cursor.value < |l.tasks| || l.cursor.value == 0)
  }

  /** Deletes the highlighted record and re-points the cursor at the record
      before it (or at 0 when the first one was deleted). A missing cursor or
      an empty list leaves everything as it was; an index past the end makes
      `Vec::remove` panic. */
  function RemoveSelected(l: TodoList): (r: Result<TodoList>)
    ensures l.cursor.None? || |l.tasks| == 0 ==> r == Ok(l)
    ensures r.Err? <==> l.cursor.Some? && 0 < |l.tasks| <= l.cursor.value
    ensures r.Err? ==> r.fault == RemovalIndexOutOfBounds
    ensures r.Ok? && l.cursor.Some? && |l.tasks| > 0 ==>
      var i, rest := l.cursor.value, r.value.tasks;
      && |rest| == |l.tasks| - 1
      && (forall j :: 0 <= j < i ==> rest[j] == l.tasks[j])
      && (forall j :: i <= j < |rest| ==> rest[j] == l.tasks[j + 1])
      && multiset(l.tasks) == multiset(rest) + multiset{l.tasks[i]}
      && r.value.cursor == Some(if i == 0 then 0 else i - 1)
  {
    match l.cursor
    case None => Ok(l)
    case Some(selected) =>
      if |l.tasks| == 0 then Ok(l)
      else if selected >= |l.tasks| then Err(RemovalIndexOutOfBounds)
      else
        var rest := l.tasks[..selected] + l.tasks[selected + 1..];
        assert l.tasks == l.tasks[..selected] + [l.tasks[selected]] + l.tasks[selected + 1..];
        Ok(TodoList(rest, Some(if selected == 0 then 0 else selected - 1)))
  }

  /** Appends one record at the end of the stored list; the cursor stays. */
  function Append(l: TodoList, t: Task): (r: TodoList)
    ensures |r.tasks| == |l.tasks| + 1
    ensures r.tasks[..|l.tasks|] == l.tasks && r.tasks[|l.tasks|] == t
    ensures r.cursor == l.cursor
  {
    TodoList(l.tasks + [t], l.cursor)
  }

  /** After a deletion the cursor points into the shrunk list whenever that
      list is not empty, and a valid cursor stays valid. */
  lemma RemoveKeepsCursorValid(l: TodoList)
    requires CursorValid(l)
    ensures RemoveSelected(l).Ok?
    ensures CursorValid(RemoveSelected(l).value)
    ensures var r := RemoveSelected(l).value;
      |r.tasks| > 0 ==> r.cursor.value < |r.tasks|
  {
  }

  /** Deleting the first of several records keeps the cursor on the first. */
  lemma RemoveFirst(l: TodoList)
    requires l.cursor == Some(0) && |l.tasks| > 1
    ensures RemoveSelected(l) == Ok(TodoList(l.tasks[1..], Some(0)))
  {
    assert l.tasks[..0] + l.tasks[1..] == l.tasks[1..];
  }

  /** Deleting the last of several records moves the cursor onto the new last. */
  lemma RemoveLast(l: TodoList)
    requires |l.tasks| > 1 && l.cursor == Some(|l.tasks| - 1)
    ensures RemoveSelected(l) == Ok(TodoList(l.tasks[..|l.tasks| - 1], Some(|l.tasks| - 2)))
  {
    var n := |l.tasks|;
    assert l.tasks[..n - 1] + l.tasks[n..] == l.tasks[..n - 1];
  }

  /** Deleting the only record leaves an empty list and the cursor at 0. */
  lemma RemoveOnly(t: Task)
    ensures RemoveSelected(TodoList([t], Some(0))) == Ok(TodoList([], Some(0)))
  {
  }

  /** Appending keeps a valid cursor valid. */
  lemma AppendKeepsCursorValid(l: TodoList, t: Task)
    requires CursorValid(l)
    ensures CursorValid(Append(l, t))
  {
  }
}
