/** The running dashboard as one mutable object. The active panel, the
    `SHOW_POPUP` and `TERMINATION_LOCK` flags, the Todo list's selection and
    the contents of the task store are its fields; only the render thread
    touches them, so plain fields replace the mutex-guarded globals. Each
    method updates the fields in place the way src/main.rs and
    src/user_input.rs do, and its postcondition ties the new state to the
    transition functions of modules Menu, Tasks and Input. */
module Dashboard {
  import opened Wrappers
  import opened Menu
  import opened Tasks
  import opened Input

  class App {
    var panel: MenuItem
    var showPopup: bool
    var terminate: bool
    var cursor: Option<nat>
    var tasks: seq<Task>

    function List(): TodoList
      reads this
    {
      TodoList(tasks, cursor)
    }

    function Snapshot(): State
      reads this
    {
      State(panel, showPopup, terminate, List())
    }

    /** Every state reachable from start-up satisfies the dispatcher's invariant. */
    ghost predicate Valid()
      reads this
    {
      Invariant(Snapshot())
    }

    /** Start-up: the Home panel, both flags clear, the cursor on record 0 of
        whatever the store holds. */
    constructor (stored: seq<Task>)
      ensures Snapshot() == Initial(stored)
      ensures Valid()
    {
      panel := Home;
      showPopup := false;
      terminate := false;
      cursor := Some(0);
      tasks := stored;
    }

    /** `MenuItem::next` on the active panel. */
    method NextPanel()
      requires Navigable(panel)
      modifies this`panel
      ensures panel == Next(old(panel))
    {
      match panel
      case Home => panel := Todo;
      case Todo => panel := Done;
      case Done => panel := All;
      case All => panel := Notes;
      case Notes => panel := Home;
    }

    /** `MenuItem::previous` on the active panel. */
    method PreviousPanel()
      requires Navigable(panel)
      modifies this`panel
      ensures panel == Previous(old(panel))
    {
      match panel
      case Home => panel := Notes;
      case Todo => panel := Home;
      case Done => panel := Todo;
      case All => panel := Done;
      case Notes => panel := All;
    }

    /** Deletes the highlighted record from the store and re-points the
        cursor; a panic leaves everything as it was. */
    method RemoveSelectedTask() returns (fault: Option<Fault>)
      modifies this`tasks, this`cursor
      ensures RemoveSelected(old(List())).Ok? ==> fault == None && List() == RemoveSelected(old(List())).value
      ensures RemoveSelected(old(List())).Err? ==>
        fault == Some(RemoveSelected(old(List())).fault) && List() == old(List())
    {
      fault := None;
      if cursor.Some? {
        var selected := cursor.value;
        var list := tasks;
        if |list| == 0 {
          return;
        }
        if selected >= |list| {
          fault := Some(RemovalIndexOutOfBounds);
          return;
        }
        list := list[..selected] + list[selected + 1..];
        tasks := list;
        if selected == 0 {
          cursor := Some(0);
        } else {
          cursor := Some(selected - 1);
        }
      }
    }

    /** The Down/`j` arm of the Todo panel: highlights the next record,
        wrapping from the last to the first. The length minus one underflows
        on an empty store; nothing changes then. */
    method SelectNextTask() returns (fault: Option<Fault>)
      modifies this`cursor
      ensures MoveCursorDown(old(List())).Ok? ==> fault == None && List() == MoveCursorDown(old(List())).value
      ensures MoveCursorDown(old(List())).Err? ==>
        fault == Some(MoveCursorDown(old(List())).fault) && List() == old(List())
    {
      fault := None;
      if cursor.Some? {
        var selected := cursor.value;
        var amount := |tasks|;
        if amount == 0 {
          fault := Some(SubtractOverflow);
        } else if selected >= amount - 1 {
          cursor := Some(0);
        } else {
          cursor := Some(selected + 1);
        }
      }
    }

    /** The Up/`k` arm of the Todo panel: highlights the previous record,
        wrapping from the first to the last. Only the wrap computes the length
        minus one, so only it underflows; nothing changes then. */
    method SelectPreviousTask() returns (fault: Option<Fault>)
      modifies this`cursor
      ensures MoveCursorUp(old(List())).Ok? ==> fault == None && List() == MoveCursorUp(old(List())).value
      ensures MoveCursorUp(old(List())).Err? ==>
        fault == Some(MoveCursorUp(old(List())).fault) && List() == old(List())
    {
      fault := None;
      if cursor.Some? {
        var selected := cursor.value;
        var amount := |tasks|;
        if selected > 0 {
          cursor := Some(selected - 1);
        } else if amount == 0 {
          fault := Some(SubtractOverflow);
        } else {
          cursor := Some(amount - 1);
        }
      }
    }

    /** Appends a new record to the store. The record is passed in: its
        random id and priority and its creation time come from outside. */
    method AddNewTestTask(t: Task)
      modifies this`tasks
      ensures List() == Append(old(List()), t)
      ensures old(Valid()) ==> Valid()
    {
      var data := tasks;
      data := data + [t];
      tasks := data;
      if old(Valid()) {
        AppendKeepsCursorValid(old(List()), t);
      }
    }

    /** One call of `handle_keys`: `received` is `None` when no event arrived
        before the receive timed out. On a panic nothing has been changed. */
    method HandleKeys(received: Option<Event>) returns (fault: Option<Fault>)
      modifies this
      ensures Step(old(Snapshot()), received).Ok? ==>
        fault == None && Snapshot() == Step(old(Snapshot()), received).value
      ensures Step(old(Snapshot()), received).Err? ==>
        fault == Some(Step(old(Snapshot()), received).fault) && Snapshot() == old(Snapshot())
      ensures old(Valid()) ==> Valid()
    {
      ghost var before := Snapshot();
      if Valid() {
        StepKeepsInvariant(before, received);
      }
      fault := None;
      if received.None? {
        return;
      }
      var event := received.value;
      if showPopup {
        match panel {
          case Todo =>
            match event {
              case Input(code) =>
                if code == Char('q') {
                  showPopup := false;
                }
              case Tick =>
            }
          case _ =>
            fault := Some(NotImplemented);
        }
      } else {
        if panel == Quit {
          fault := Some(Unreachable);
          return;
        }
        match event
        case Tick =>
        case Input(code) =>
          match NormalTable(panel, code)
          case GoPrevious => PreviousPanel();
          case GoNext => NextPanel();
          case RequestQuit => terminate := true;
          case OpenPopup => showPopup := true;
          case DeleteSelected => fault := RemoveSelectedTask();
          case SelectBelow => fault := SelectNextTask();
          case SelectAbove => fault := SelectPreviousTask();
          case Ignore =>
      }
    }
  }
}
