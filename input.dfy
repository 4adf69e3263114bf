/** The key dispatcher of src/user_input.rs as a transition function over the
    application state: one received event (or none, when the receive timed
    out) takes a state to a new state, or to the panic that aborts the
    program. */
module Input {
  import opened Wrappers
  import opened Menu
  import opened Tasks

  /** The key codes the dispatcher distinguishes; `Other` stands for every
      code it ignores (Enter, Esc, function keys, ...). Key modifiers are
      never inspected. */
  datatype KeyCode = Left | Right | Up | Down | Char(c: char) | Other

  /** What the input thread sends: a key press or a periodic tick. */
  datatype Event = Input(code: KeyCode) | Tick

  /** The whole state `handle_keys` reads and writes: the active panel, the
      two process-wide flags, and the task list with its cursor. */
  datatype State = State(panel: MenuItem, showPopup: bool, terminate: bool, list: TodoList)

  /** The state at start-up: Home panel, no popup, not terminating, cursor on
      the first record of whatever the store holds. */
  function Initial(stored: seq<Task>): (s: State)
    ensures Invariant(s) && !s.terminate
  {
    State(Home, false, false, TodoList(stored, Some(0)))
  }

  /** What every reachable state satisfies: the active panel is never the
      `Quit` sentinel, a popup is only ever open over the Todo panel, and the
      cursor is valid for the list. */
  predicate Invariant(s: State) {
    && Navigable(s.panel)
    && (s.showPopup ==> s.panel == Todo)
    && CursorValid(s.list)
  }

  /** The action a key selects in normal mode. */
  datatype Command =
    | GoPrevious | GoNext | RequestQuit | OpenPopup
    | DeleteSelected | SelectBelow | SelectAbove | Ignore

  /** The Home panel's keys: only panel moves and quitting. */
  function HomeTable(k: KeyCode): (r: Command)
    ensures r in {GoPrevious, GoNext, RequestQuit, Ignore}
    ensures r == GoPrevious <==> IsPreviousKey(Home, k)
    ensures r == GoNext <==> IsNextKey(Home, k)
    ensures r == RequestQuit <==> IsQuitKey(k)
  {
    match k
    case Left | Char('h') => GoPrevious
    case Right | Char('l') => GoNext
    case Char('q') | Char('Q') => RequestQuit
    case _ => Ignore
  }

  /** The Todo panel's keys: Home's keys plus opening the popup, deleting
      and moving the cursor. */
  function TodoTable(k: KeyCode): (r: Command)
    ensures HomeTable(k) != Ignore ==> r == HomeTable(k)
    ensures r == GoPrevious <==> IsPreviousKey(Todo, k)
    ensures r == GoNext <==> IsNextKey(Todo, k)
    ensures r == RequestQuit <==> IsQuitKey(k)
    ensures r == OpenPopup <==> k == Char('a') || k == Char('A')
    ensures r == DeleteSelected <==> k == Char('d') || k == Char('D')
    ensures r == SelectBelow <==> IsDownKey(k)
    ensures r == SelectAbove <==> IsUpKey(k)
  {
    match k
    case Left | Char('h') => GoPrevious
    case Right | Char('l') => GoNext
    case Char('q') | Char('Q') => RequestQuit
    case Char('a') | Char('A') => OpenPopup
    case Char('d') | Char('D') => DeleteSelected
    case Down | Char('j') => SelectBelow
    case Up | Char('k') => SelectAbove
    case _ => Ignore
  }

  /** The keys of the Done, All and Notes panels, which share one table:
      Home's keys plus upper-case `H` and `L`. */
  function ListTable(k: KeyCode): (r: Command)
    ensures r in {GoPrevious, GoNext, RequestQuit, Ignore}
    ensures HomeTable(k) != Ignore ==> r == HomeTable(k)
    ensures r == GoPrevious <==> IsPreviousKey(Done, k)
    ensures r == GoNext <==> IsNextKey(Done, k)
    ensures r == RequestQuit <==> IsQuitKey(k)
  {
    match k
    case Left | Char('h') | Char('H') => GoPrevious
    case Right | Char('l') | Char('L') => GoNext
    case Char('q') | Char('Q') => RequestQuit
    case _ => Ignore
  }

  function NormalTable(p: MenuItem, k: KeyCode): Command
    requires Navigable(p)
  {
    match p
    case Home => HomeTable(k)
    case Todo => TodoTable(k)
    case Done | All | Notes => ListTable(k)
  }

  /** Moves the cursor one record down, wrapping from the last record to the
      first. The list length minus one is computed first, so an empty list
      underflows. */
  function MoveCursorDown(l: TodoList): (r: Result<TodoList>)
    ensures l.cursor.None? ==> r == Ok(l)
    ensures l.cursor.Some? && |l.tasks| == 0 ==> r == Err(SubtractOverflow)
    ensures l.cursor.Some? && l.cursor.value < |l.tasks| ==>
      r == Ok(l.(cursor := Some((l.cursor.value + 1) % |l.tasks|)))
    ensures l.cursor.Some? && 0 < |l.tasks| <= l.cursor.value ==> r == Ok(l.(cursor := Some(0)))
  {
    match l.cursor
    case None => Ok(l)
    case Some(selected) =>
      var amount := |l.tasks|;
      if amount == 0 then Err(SubtractOverflow)
      else if selected >= amount - 1 then Ok(l.(cursor := Some(0)))
      else Ok(l.(cursor := Some(selected + 1)))
  }

  /** Moves the cursor one record up, wrapping from the first record to the
      last. Only the wrap-around computes the length minus one, so only it
      underflows on an empty list. */
  function MoveCursorUp(l: TodoList): (r: Result<TodoList>)
    ensures l.cursor.None? ==> r == Ok(l)
    ensures l.cursor == Some(0) && |l.tasks| == 0 ==> r == Err(SubtractOverflow)
    ensures l.cursor.Some? && l.cursor.value < |l.tasks| ==>
      r == Ok(l.(cursor := Some((l.cursor.value + |l.tasks| - 1) % |l.tasks|)))
    ensures l.cursor.Some? && l.cursor.value > 0 ==> r == Ok(l.(cursor := Some(l.cursor.value - 1)))
  {
    match l.cursor
    case None => Ok(l)
    case Some(selected) =>
      var amount := |l.tasks|;
      if selected > 0 then Ok(l.(cursor := Some(selected - 1)))
      else if amount == 0 then Err(SubtractOverflow)
      else Ok(l.(cursor := Some(amount - 1)))
  }

  /** Carries out a normal-mode command. */
  function Apply(s: State, c: Command): Result<State>
    requires Navigable(s.panel)
  {
    match c
    case GoPrevious => Ok(s.(panel := Previous(s.panel)))
    case GoNext => Ok(s.(panel := Next(s.panel)))
    case RequestQuit => Ok(s.(terminate := true))
    case OpenPopup => Ok(s.(showPopup := true))
    case DeleteSelected => WithList(s, RemoveSelected(s.list))
    case SelectBelow => WithList(s, MoveCursorDown(s.list))
    case SelectAbove => WithList(s, MoveCursorUp(s.list))
    case Ignore => Ok(s)
  }

  function WithList(s: State, r: Result<TodoList>): Result<State> {
    match r
    case Ok(l) => Ok(s.(list := l))
    case Err(f) => Err(f)
  }

  /** Popup mode: only the Todo panel has a handler, in which a lowercase `q`
      closes the popup and every other event (`n` included) does nothing; on
      any other panel the handler is `todo!()`, whatever the event. */
  function PopupStep(s: State, e: Event): (r: Result<State>)
    ensures r.Err? <==> s.panel != Todo
    ensures r.Err? ==> r.fault == NotImplemented
    ensures r.Ok? ==> r.value.(showPopup := s.showPopup) == s
    ensures r.Ok? && r.value != s ==> e == Input(Char('q'))
    ensures s.panel == Todo && e == Input(Char('q')) ==> r.Ok? && !r.value.showPopup
  {
    if s.panel == Todo then
      if e == Input(Char('q')) then Ok(s.(showPopup := false)) else Ok(s)
    else
      Err(NotImplemented)
  }

  /** Normal mode: the active panel's table decides; a tick does nothing; the
      `Quit` sentinel is unreachable. */
  function NormalStep(s: State, e: Event): (r: Result<State>)
    ensures r == Err(Unreachable) <==> s.panel == Quit
    ensures r.Err? && s.panel != Quit ==>
      s.panel == Todo && r.fault in {SubtractOverflow, RemovalIndexOutOfBounds}
    ensures e == Tick && s.panel != Quit ==> r == Ok(s)
    ensures r.Ok? && s.terminate ==> r.value.terminate
    ensures r.Ok? && r.value.list != s.list ==> s.panel == Todo
    ensures r.Ok? && r.value.showPopup != s.showPopup ==> s.panel == Todo && r.value.showPopup
  {
    if s.panel == Quit then Err(Unreachable)
    else
      match e
      case Tick => Ok(s)
      case Input(k) => Apply(s, NormalTable(s.panel, k))
  }

  /** One call of `handle_keys`: `None` is a receive that timed out. */
  function Step(s: State, received: Option<Event>): (r: Result<State>)
    ensures received.None? ==> r == Ok(s)
    ensures r.Ok? && s.terminate ==> r.value.terminate
    ensures r.Ok? && r.value.list != s.list ==> s.panel == Todo && !s.showPopup
    ensures r.Ok? && r.value.panel != s.panel ==> !s.showPopup
  {
    match received
    case None => Ok(s)
    case Some(e) => if s.showPopup then PopupStep(s, e) else NormalStep(s, e)
  }

  /** Successive calls of `handle_keys`, one per received event, stopping at
      the first panic. */
  function StepAll(s: State, received: seq<Option<Event>>): Result<State>
    decreases |received|
  {
    if received == [] then Ok(s)
    else
      match Step(s, received[0])
      case Ok(t) => StepAll(t, received[1..])
      case Err(f) => Err(f)
  }

  /** `k` copies of one event. */
  function Repeat(e: Option<Event>, k: nat): (r: seq<Option<Event>>)
    ensures |r| == k && forall i :: 0 <= i < k ==> r[i] == e
  {
    if k == 0 then [] else [e] + Repeat(e, k - 1)
  }

  // ---------------------------------------------------------------------
  // Key predicates used by the lemmas below, written per panel.

  predicate IsQuitKey(k: KeyCode) { k == Char('q') || k == Char('Q') }

  predicate IsPreviousKey(p: MenuItem, k: KeyCode) {
    k == Left || k == Char('h') || (k == Char('H') && p in {Done, All, Notes})
  }

  predicate IsNextKey(p: MenuItem, k: KeyCode) {
    k == Right || k == Char('l') || (k == Char('L') && p in {Done, All, Notes})
  }

  predicate IsDownKey(k: KeyCode) { k == Down || k == Char('j') }

  predicate IsUpKey(k: KeyCode) { k == Up || k == Char('k') }

  predicate InTodoNormalMode(s: State) { s.panel == Todo && !s.showPopup }

  // ---------------------------------------------------------------------
  // Properties of one dispatch.

  /** A receive that timed out changes nothing. */
  lemma {:induction false} NoEventNoChange(s: State)
    ensures Step(s, None) == Ok(s)
  {
  }

  /** A tick changes nothing wherever it is handled. */
  lemma {:induction false} TickNoChange(s: State)
    requires Navigable(s.panel) && (s.showPopup ==> s.panel == Todo)
    ensures Step(s, Some(Tick)) == Ok(s)
  {
  }

  /** In normal mode `q` or `Q` sets the termination flag and nothing else;
      pressing it again changes nothing more. */
  lemma {:induction false} QuitKeyTerminates(s: State, k: KeyCode)
    requires Navigable(s.panel) && !s.showPopup && IsQuitKey(k)
    ensures Step(s, Some(Input(k))) == Ok(s.(terminate := true))
    ensures Step(s.(terminate := true), Some(Input(k))) == Ok(s.(terminate := true))
  {
  }

  /** In normal mode a key moves to the previous panel exactly when it is a
      previous-panel key of the active panel; nothing else changes. */
  lemma {:induction false} PreviousKeys(s: State, k: KeyCode)
    requires Navigable(s.panel) && !s.showPopup
    ensures Step(s, Some(Input(k))) == Ok(s.(panel := Previous(s.panel))) <==> IsPreviousKey(s.panel, k)
  {
    var r := Step(s, Some(Input(k)));
    if r.Ok? && r.value.panel == Previous(s.panel) {
      PreviousUndoesNext(Previous(s.panel));
      NextUndoesPrevious(s.panel);
    }
  }

  /** In normal mode a key moves to the next panel exactly when it is a
      next-panel key of the active panel; nothing else changes. */
  lemma {:induction false} NextKeys(s: State, k: KeyCode)
    requires Navigable(s.panel) && !s.showPopup
    ensures Step(s, Some(Input(k))) == Ok(s.(panel := Next(s.panel))) <==> IsNextKey(s.panel, k)
  {
    var r := Step(s, Some(Input(k)));
    if r.Ok? && r.value.panel == Next(s.panel) {
      PreviousUndoesNext(s.panel);
      NextUndoesPrevious(Next(s.panel));
    }
  }

  /** `a` or `A` opens the popup on the Todo panel and is ignored elsewhere. */
  lemma {:induction false} AddKeyOpensPopupOnlyOnTodo(s: State, k: KeyCode)
    requires Navigable(s.panel) && !s.showPopup && (k == Char('a') || k == Char('A'))
    ensures Step(s, Some(Input(k))) == Ok(s.(showPopup := s.panel == Todo))
  {
  }

  /** On the Todo panel `d` or `D` deletes exactly as `RemoveSelected` does;
      panel and flags are unchanged. */
  lemma {:induction false} DeleteKeyRemovesSelected(s: State, k: KeyCode)
    requires InTodoNormalMode(s) && (k == Char('d') || k == Char('D'))
    ensures Step(s, Some(Input(k))) == WithList(s, RemoveSelected(s.list))
    ensures Step(s, Some(Input(k))).Ok? ==>
      var t := Step(s, Some(Input(k))).value;
      t.panel == s.panel && t.showPopup == s.showPopup && t.terminate == s.terminate
  {
    assert NormalTable(s.panel, k) == DeleteSelected;
    assert Step(s, Some(Input(k))) == Apply(s, DeleteSelected);
  }

  /** On the Todo panel Down or `j` moves the cursor down with wrap-around,
      and underflows on an empty list. */
  lemma {:induction false} DownKeyMovesCursor(s: State, k: KeyCode)
    requires InTodoNormalMode(s) && IsDownKey(k) && s.list.cursor.Some?
    ensures |s.list.tasks| == 0 ==> Step(s, Some(Input(k))) == Err(SubtractOverflow)
    ensures |s.list.tasks| > 0 ==>
      var i, n := s.list.cursor.value, |s.list.tasks|;
      Step(s, Some(Input(k))) == Ok(s.(list := s.list.(cursor := Some(if i >= n - 1 then 0 else i + 1))))
  {
    assert NormalTable(s.panel, k) == SelectBelow;
    assert Step(s, Some(Input(k))) == WithList(s, MoveCursorDown(s.list));
  }

  /** On the Todo panel Up or `k` moves the cursor up with wrap-around. */
  lemma {:induction false} UpKeyMovesCursor(s: State, k: KeyCode)
    requires InTodoNormalMode(s) && IsUpKey(k) && s.list.cursor.Some?
    ensures s.list.cursor.value == 0 && |s.list.tasks| == 0 ==> Step(s, Some(Input(k))) == Err(SubtractOverflow)
    ensures s.list.cursor.value > 0 || |s.list.tasks| > 0 ==>
      var i, n := s.list.cursor.value, |s.list.tasks|;
      Step(s, Some(Input(k))) == Ok(s.(list := s.list.(cursor := Some(if i > 0 then i - 1 else n - 1))))
  {
    assert NormalTable(s.panel, k) == SelectAbove;
    assert Step(s, Some(Input(k))) == WithList(s, MoveCursorUp(s.list));
  }

  /** Down then Up, or Up then Down, from a cursor inside the list restores
      the state. */
  lemma {:induction false} DownUpRoundTrip(s: State, down: KeyCode, up: KeyCode)
    requires InTodoNormalMode(s) && IsDownKey(down) && IsUpKey(up)
    requires s.list.cursor.Some? && s.list.cursor.value < |s.list.tasks|
    ensures StepAll(s, [Some(Input(down)), Some(Input(up))]) == Ok(s)
    ensures StepAll(s, [Some(Input(up)), Some(Input(down))]) == Ok(s)
  {
    var e1, e2 := Some(Input(down)), Some(Input(up));
    var i, n := s.list.cursor.value, |s.list.tasks|;
    var t1 := s.(list := s.list.(cursor := Some(if i >= n - 1 then 0 else i + 1)));
    var t2 := s.(list := s.list.(cursor := Some(if i > 0 then i - 1 else n - 1)));
    DownKeyMovesCursor(s, down);
    UpKeyMovesCursor(t1, up);
    UpKeyMovesCursor(s, up);
    DownKeyMovesCursor(t2, down);
    assert Step(t1, e2) == Ok(s);
    assert Step(t2, e1) == Ok(s);
    assert StepAll(t1, [e2]) == Step(t1, e2) by { assert [e2][1..] == []; }
    assert StepAll(t2, [e1]) == Step(t2, e1) by { assert [e1][1..] == []; }
    assert [e1, e2][1..] == [e2] && [e2, e1][1..] == [e1];
  }

  /** In popup mode on the Todo panel, lowercase `q` closes the popup and
      does not terminate; every other event leaves the state as it is. */
  lemma {:induction false} PopupOnTodo(s: State, e: Event)
    requires s.showPopup && s.panel == Todo
    ensures e == Input(Char('q')) ==> Step(s, Some(e)) == Ok(s.(showPopup := false))
    ensures Step(s, Some(e)) == Ok(s) <==> e != Input(Char('q'))
  {
  }

  /** In popup mode on any other panel, every event reaches `todo!()`: a
      panic, not a no-op. */
  lemma {:induction false} PopupElsewhereUnsupported(s: State, e: Event)
    requires s.showPopup && s.panel != Todo
    ensures Step(s, Some(e)) == Err(NotImplemented)
  {
  }

  /** One dispatch keeps the invariant and never clears the termination
      flag; from an invariant state the only possible panic is the
      underflow of a cursor move on an empty list. */
  lemma {:induction false} StepKeepsInvariant(s: State, e: Option<Event>)
    requires Invariant(s)
    ensures Step(s, e).Ok? ==> Invariant(Step(s, e).value)
    ensures Step(s, e).Ok? && s.terminate ==> Step(s, e).value.terminate
    ensures Step(s, e).Err? ==> Step(s, e).fault == SubtractOverflow && |s.list.tasks| == 0
  {
    if e.Some? && !s.showPopup && e.value.Input? {
      match NormalTable(s.panel, e.value.code)
      case DeleteSelected => RemoveKeepsCursorValid(s.list);
      case _ =>
    }
  }

  // ---------------------------------------------------------------------
  // Properties of several dispatches.

  /** Dispatching `a ++ b` is dispatching `a` and then `b`. */
  lemma {:induction false} StepAllAppend(s: State, a: seq<Option<Event>>, b: seq<Option<Event>>)
    ensures StepAll(s, a + b) == match StepAll(s, a) case Ok(t) => StepAll(t, b) case Err(f) => Err(f)
    decreases |a|
  {
    if a == [] {
      assert a + b == b;
    } else {
      assert (a + b)[0] == a[0];
      assert (a + b)[1..] == a[1..] + b;
      match Step(s, a[0])
      case Ok(t) => StepAllAppend(t, a[1..], b);
      case Err(f) =>
    }
  }

  lemma {:induction false} RepeatAppend(e: Option<Event>, j: nat, k: nat)
    ensures Repeat(e, j + k) == Repeat(e, j) + Repeat(e, k)
  {
  }

  /** Every sequence of dispatches from an invariant state keeps the
      invariant, and once termination is requested it stays requested. */
  lemma {:induction false} StepAllKeepsInvariant(s: State, received: seq<Option<Event>>)
    requires Invariant(s)
    ensures StepAll(s, received).Ok? ==> Invariant(StepAll(s, received).value)
    ensures StepAll(s, received).Ok? && s.terminate ==> StepAll(s, received).value.terminate
    decreases |received|
  {
    if received != [] {
      StepKeepsInvariant(s, received[0]);
      if Step(s, received[0]).Ok? {
        StepAllKeepsInvariant(Step(s, received[0]).value, received[1..]);
      }
    }
  }

  /** `k` presses of `j` from cursor `i` land on `i + k` while that stays
      inside the list. */
  lemma {:induction false} DownPressesAdvance(s: State, k: nat)
    requires InTodoNormalMode(s) && s.list.cursor.Some?
    requires s.list.cursor.value + k < |s.list.tasks|
    ensures StepAll(s, Repeat(Some(Input(Char('j'))), k))
         == Ok(s.(list := s.list.(cursor := Some(s.list.cursor.value + k))))
    decreases k
  {
    var j := Some(Input(Char('j')));
    if k == 0 {
      assert s.list.(cursor := Some(s.list.cursor.value)) == s.list;
    } else {
      var t := s.(list := s.list.(cursor := Some(s.list.cursor.value + 1)));
      assert Step(s, j) == Ok(t);
      assert Repeat(j, k)[1..] == Repeat(j, k - 1);
      DownPressesAdvance(t, k - 1);
    }
  }

  /** Pressing `j` as many times as there are records comes back to the
      starting record, with nothing else changed. */
  lemma {:induction false} DownPressesCycle(s: State)
    requires InTodoNormalMode(s) && s.list.cursor.Some?
    requires s.list.cursor.value < |s.list.tasks|
    ensures StepAll(s, Repeat(Some(Input(Char('j'))), |s.list.tasks|)) == Ok(s)
  {
    var j := Some(Input(Char('j')));
    var n, i := |s.list.tasks|, s.list.cursor.value;
    var atLast := s.(list := s.list.(cursor := Some(n - 1)));
    var atFirst := s.(list := s.list.(cursor := Some(0)));
    var toLast, wrap, back := Repeat(j, n - 1 - i), Repeat(j, 1), Repeat(j, i);
    DownPressesAdvance(s, n - 1 - i);
    assert StepAll(s, toLast) == Ok(atLast) by {
      assert atLast == s.(list := s.list.(cursor := Some(i + (n - 1 - i))));
    }
    assert StepAll(atLast, wrap) == Ok(atFirst) by {
      assert wrap == [j];
      assert Step(atLast, j) == Ok(atFirst);
    }
    DownPressesAdvance(atFirst, i);
    assert StepAll(atFirst, back) == Ok(s) by {
      assert atFirst.(list := atFirst.list.(cursor := Some(i))) == s;
    }
    StepAllAppend(s, toLast, wrap);
    assert StepAll(s, toLast + wrap) == Ok(atFirst);
    StepAllAppend(s, toLast + wrap, back);
    assert StepAll(s, toLast + wrap + back) == Ok(s);
    RepeatAppend(j, n - 1 - i, 1);
    RepeatAppend(j, n - i, i);
    assert Repeat(j, n) == toLast + wrap + back;
  }

  // ---------------------------------------------------------------------
  // End-to-end sessions.

  /** From start-up: Right, `a`, `q`, `q` ends on the Todo panel with the
      popup closed and termination requested. */
  lemma {:induction false} PopupSession(stored: seq<Task>)
    ensures StepAll(Initial(stored), [Some(Input(Right)), Some(Input(Char('a'))),
                                      Some(Input(Char('q'))), Some(Input(Char('q')))])
         == Ok(State(Todo, false, true, TodoList(stored, Some(0))))
  {
    var events := [Some(Input(Right)), Some(Input(Char('a'))), Some(Input(Char('q'))), Some(Input(Char('q')))];
    var s0 := Initial(stored);
    var s1 := s0.(panel := Todo);
    var s2 := s1.(showPopup := true);
    var s3 := s2.(showPopup := false);
    var s4 := s3.(terminate := true);
    assert Step(s0, events[0]) == Ok(s1);
    assert Step(s1, events[1]) == Ok(s2);
    assert Step(s2, events[2]) == Ok(s3);
    assert Step(s3, events[3]) == Ok(s4);
    assert events[1..][1..][1..][1..] == [];
  }

  /** On the Todo panel with two records and the cursor on the first, `j`
      moves to the second and a second `j` wraps back to the first. */
  lemma {:induction false} BrowseTwoRecords(s: State)
    requires InTodoNormalMode(s) && s.list.cursor == Some(0) && |s.list.tasks| == 2
    ensures StepAll(s, [Some(Input(Char('j')))]) == Ok(s.(list := s.list.(cursor := Some(1))))
    ensures StepAll(s, [Some(Input(Char('j'))), Some(Input(Char('j')))]) == Ok(s)
  {
    var j := Some(Input(Char('j')));
    var t := s.(list := s.list.(cursor := Some(1)));
    assert Step(s, j) == Ok(t) by { DownKeyMovesCursor(s, Char('j')); }
    assert Step(t, j) == Ok(s) by { DownKeyMovesCursor(t, Char('j')); }
    assert StepAll(t, [j]) == Ok(s) by { assert [j][1..] == []; }
    assert StepAll(s, [j]) == Ok(t) by { assert [j][1..] == []; }
    assert [j, j][1..] == [j];
  }

  /** On the Todo panel with three records and the cursor on the first: `d`
      leaves the last two records and the cursor at 0, `j` moves it to 1 and
      a second `j` wraps it back to 0. */
  lemma {:induction false} DeleteThenBrowseSession(stored: seq<Task>)
    requires |stored| == 3
    ensures StepAll(State(Todo, false, false, TodoList(stored, Some(0))),
                    [Some(Input(Char('d')))])
         == Ok(State(Todo, false, false, TodoList(stored[1..], Some(0))))
    ensures StepAll(State(Todo, false, false, TodoList(stored, Some(0))),
                    [Some(Input(Char('d'))), Some(Input(Char('j')))])
         == Ok(State(Todo, false, false, TodoList(stored[1..], Some(1))))
    ensures StepAll(State(Todo, false, false, TodoList(stored, Some(0))),
                    [Some(Input(Char('d'))), Some(Input(Char('j'))), Some(Input(Char('j')))])
         == Ok(State(Todo, false, false, TodoList(stored[1..], Some(0))))
  {
    var d, j := Some(Input(Char('d'))), Some(Input(Char('j')));
    var s0 := State(Todo, false, false, TodoList(stored, Some(0)));
    var s1 := State(Todo, false, false, TodoList(stored[1..], Some(0)));
    assert Step(s0, d) == Ok(s1) by {
      DeleteKeyRemovesSelected(s0, Char('d'));
      RemoveFirst(s0.list);
    }
    BrowseTwoRecords(s1);
    assert [d][1..] == [] && [d, j][1..] == [j] && [d, j, j][1..] == [j, j];
  }
}
