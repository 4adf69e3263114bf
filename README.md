# toodles dashboard: a Dafny model of the input-driven state machine

toodles is a terminal dashboard. It shows a small task list stored in a JSON
file, and the user moves between five panels (Home, Todo, Done, All, Notes)
with the keyboard. This project models the part of the program that reacts to
input:

- the panel enumeration with its cyclic `next`/`previous` order and the
  ordinal used to highlight the active tab (module `Menu`);
- deleting the highlighted task and re-pointing the list cursor, and appending
  a task (module `Tasks`; the JSON store is a `seq<Task>`);
- the key dispatcher `handle_keys` as a transition function `Step` over the
  whole state: active panel, popup flag, termination flag, cursor and task list
  (module `Input`);
- the running dashboard as a class whose methods update those fields in place
  and are proved against the transition functions (module `Dashboard`).

Within `handle_keys`, every `todo!()`, the `unreachable!()` of the `Quit`
arm, every `usize` underflow and every out-of-range `Vec::remove` is a `Fault`
value (`Wrappers.Fault`). Each of these panics happens before anything is
written, so on a fault the modelled state is unchanged. The `unreachable!()`
arms of `MenuItem::next` and `MenuItem::previous` (src/main.rs:354 and 365)
are not faults: `Menu.Next`, `Menu.Previous`, `Dashboard.App.NextPanel` and
`Dashboard.App.PreviousPanel` require a panel other than `Quit`, and
`Input.NormalStep` reaches them only from such a panel.

In these places the code behaves in ways a reader may not expect, and the
model follows it:

- Deleting the only record leaves the cursor at `Some(0)` on an empty list.
  The cursor is never set to "none" (`Tasks.RemoveOnly`).
- Moving down (`j`/Down) on an empty list computes `0 - 1` in `usize`. This
  panics and is not a no-op. Moving up (`k`/Up) panics only when the cursor is
  at 0. With the cursor above 0 it still moves up, even on an empty list.
- Upper-case `H`/`L` navigate only on Done, All and Notes. On Home and Todo
  only `h`/`l` and the arrow keys do.
- In popup mode on a panel other than Todo, every event, including `Tick`,
  reaches `todo!()`.
- Only lower-case `q` closes the popup. `Q` and `n` are no-ops there.

The model also proves that three panics cannot happen in a state reachable
from start-up: the popup's `todo!()`, the out-of-range `Vec::remove`, and the
`unreachable!()` of the `Quit` arm (`Input.StepKeepsInvariant`). From such a
state, the only possible panic is a cursor move on an empty list. This
assumes the task file changes only through this program (see "## Left out").

## Model

| member | source | states |
|---|---|---|
| `Menu.Index` | src/main.rs:370-381 | every ordinal is at most 5, and it is 5 exactly for the `Quit` sentinel |
| `Menu.IndexInjective` | src/main.rs:370-381 | two panels have the same ordinal only if they are the same panel |
| `Menu.Next` | src/main.rs:347-356 | from a navigable panel, `next` reaches a navigable panel whose ordinal is one more, modulo 5 |
| `Menu.Previous` | src/main.rs:358-367 | from a navigable panel, `previous` reaches a navigable panel whose ordinal is one less, modulo 5 |
| `Menu.PreviousUndoesNext` | src/main.rs:347-367 | `previous(next(p)) == p` for every navigable panel |
| `Menu.NextUndoesPrevious` | src/main.rs:347-367 | `next(previous(p)) == p` for every navigable panel |
| `Menu.NextTimesIndex` | src/main.rs:348-353 | `k` moves right add `k` to the ordinal, modulo 5 |
| `Menu.PreviousTimesIndex` | src/main.rs:359-364 | `k` moves left subtract `k` from the ordinal, modulo 5 |
| `Menu.NextCycle` | src/main.rs:348-353 | five moves right return to the start, and no fewer do |
| `Menu.PreviousCycle` | src/main.rs:359-364 | five moves left return to the start, and no fewer do |
| `Tasks.RemoveSelected` | src/main.rs:255-275 | no cursor or an empty list: nothing changes. Index past the end: `Vec::remove` panics. Otherwise the selected record is removed, the others keep their order, the multiset loses exactly that record, and the cursor becomes 0 when index 0 was deleted and the preceding index otherwise |
| `Tasks.RemoveKeepsCursorValid` | src/main.rs:263-271 | with a valid cursor, deletion never panics, and the new cursor points inside the shrunk list whenever that list is not empty |
| `Tasks.RemoveFirst` | src/main.rs:267-268 | deleting record 0 of several keeps the cursor at 0 |
| `Tasks.RemoveLast` | src/main.rs:269-271 | deleting the last of `L > 1` records leaves the cursor at `L - 2` |
| `Tasks.RemoveOnly` | src/main.rs:263-268 | deleting the sole record leaves an empty list with the cursor still `Some(0)` |
| `Tasks.Append` | src/main.rs:243-246 | appending yields the old list plus the new record at the end; the length grows by one and the cursor is untouched |
| `Tasks.AppendKeepsCursorValid` | src/main.rs:243-246 | appending keeps a valid cursor valid |
| `Input.Initial` | src/main.rs:42-99 | the start-up state (both flags clear as declared at lines 42-43, Home panel and cursor `Some(0)` as set at lines 82-99) satisfies the dispatcher invariant and is not terminating |
| `Input.HomeTable` | src/user_input.rs:43-55 | definition; Home only moves between panels (Left/`h`, Right/`l`) and quits (`q`/`Q`), and ignores every other key |
| `Input.TodoTable` | src/user_input.rs:56-105 | definition; Todo handles every key Home does, the same way, plus `a`/`A` (popup), `d`/`D` (delete), Down/`j` and Up/`k` (cursor); each command is selected by exactly those keys |
| `Input.ListTable` | src/user_input.rs:106-153 | definition; Done, All and Notes handle every key Home does, the same way, plus upper-case `H`/`L`, and nothing else |
| `Input.MoveCursorDown` | src/user_input.rs:78-89 | no cursor: no change. Empty list: underflow panic. Cursor `i` inside a list of `n`: it becomes `(i + 1) mod n`. Cursor past the end: it becomes 0 |
| `Input.MoveCursorUp` | src/user_input.rs:90-101 | no cursor: no change. Cursor 0 on an empty list: underflow panic. Cursor `i` inside a list of `n`: it becomes `(i + n - 1) mod n`. Any cursor above 0: it becomes `i - 1` |
| `Input.PopupStep` | src/user_input.rs:20-39 | definition; popup mode panics with `todo!()` exactly off the Todo panel; on Todo only the popup flag can change, and only on `q`, which clears it |
| `Input.NormalStep` | src/user_input.rs:40-157 | definition; normal mode hits `unreachable!()` exactly on `Quit`; any other panic is an underflow or `Vec::remove` on Todo; a tick changes nothing; only Todo changes the list or opens the popup; termination once set stays set |
| `Input.Step` | src/user_input.rs:13-159 | definition of one call; a timed-out receive changes nothing, termination stays set, the list changes only on Todo in normal mode, and the panel never changes while the popup is open; the other properties are the Input lemmas |
| `Input.NoEventNoChange` | src/user_input.rs:19 | a receive that times out changes nothing |
| `Input.TickNoChange` | src/user_input.rs:25-153 | a `Tick` changes nothing in every mode and panel that handles it |
| `Input.QuitKeyTerminates` | src/user_input.rs:42-154 | in normal mode, `q`/`Q` on any navigable panel sets only the termination flag; repeating it changes nothing more |
| `Input.PreviousKeys` | src/user_input.rs:42-154 | in normal mode a key moves to `previous` (and changes nothing else) exactly when it is Left or `h`, or `H` on Done/All/Notes |
| `Input.NextKeys` | src/user_input.rs:42-154 | in normal mode a key moves to `next` (and changes nothing else) exactly when it is Right or `l`, or `L` on Done/All/Notes |
| `Input.AddKeyOpensPopupOnlyOnTodo` | src/user_input.rs:68-72 | `a`/`A` opens the popup on Todo and has no effect on every other panel |
| `Input.DeleteKeyRemovesSelected` | src/user_input.rs:73-76 | `d`/`D` on Todo acts exactly as `RemoveSelected`; panel and flags are unchanged |
| `Input.DownKeyMovesCursor` | src/user_input.rs:78-89 | Down/`j` on Todo: cursor `i` in a list of `n > 0` becomes 0 if `i >= n - 1`, else `i + 1`; `n == 0` panics |
| `Input.UpKeyMovesCursor` | src/user_input.rs:90-101 | Up/`k` on Todo: cursor `i` becomes `i - 1` if `i > 0`, else `n - 1`; cursor 0 on an empty list panics |
| `Input.DownUpRoundTrip` | src/user_input.rs:78-101 | a down key then an up key, or the reverse, from a cursor inside the list restores the whole state |
| `Input.DownPressesAdvance` | src/user_input.rs:78-89 | `k` presses of `j` from cursor `i` give cursor `i + k` while that stays inside the list |
| `Input.DownPressesCycle` | src/user_input.rs:78-89 | pressing `j` `n` times on a list of `n` records returns to the starting state |
| `Input.PopupOnTodo` | src/user_input.rs:25-34 | popup on Todo: `q` clears the popup flag and does not terminate; every other event leaves the state unchanged, and only `q` changes anything |
| `Input.PopupElsewhereUnsupported` | src/user_input.rs:20-39 | popup on any other panel: every event is the `todo!()` panic, not a no-op |
| `Input.StepKeepsInvariant` | src/user_input.rs:19-159 | one dispatch keeps the invariant (never `Quit`, popup only over Todo, valid cursor) and never clears termination; from an invariant state the only panic is the underflow on an empty list |
| `Input.StepAllKeepsInvariant` | src/user_input.rs:19-159 | any sequence of dispatches keeps the invariant, and termination once set stays set |
| `Input.PopupSession` | src/user_input.rs:45-72 | from start-up, Right, `a`, `q`, `q` end on Todo with the popup closed and termination set |
| `Input.DeleteThenBrowseSession` | src/user_input.rs:73-89 | Todo with three records and cursor 0: `d` leaves two records with cursor 0, `j` gives 1, and a second `j` wraps to 0 |
| `Dashboard.App.constructor` | src/main.rs:82-99 | the initial fields are the start-up state, and it is valid |
| `Dashboard.App.NextPanel` | src/main.rs:347-356 | overwrites the active panel with `Next` of it and touches nothing else |
| `Dashboard.App.PreviousPanel` | src/main.rs:358-367 | overwrites the active panel with `Previous` of it and touches nothing else |
| `Dashboard.App.RemoveSelectedTask` | src/main.rs:255-275 | updates the store and cursor in place exactly as `RemoveSelected`; on a panic nothing changes |
| `Dashboard.App.SelectNextTask` | src/user_input.rs:78-89 | updates the cursor in place exactly as `MoveCursorDown`; on the underflow nothing changes |
| `Dashboard.App.SelectPreviousTask` | src/user_input.rs:90-101 | updates the cursor in place exactly as `MoveCursorUp`; on the underflow nothing changes |
| `Dashboard.App.AddNewTestTask` | src/main.rs:231-253 | the store becomes `Append` of the old store; the cursor is unchanged and validity is kept |
| `Dashboard.App.HandleKeys` | src/user_input.rs:13-159 | the fields after one call are `Step` of the fields before, or unchanged with the fault reported; validity is kept |

## Left out

- The input thread, the channel and the 200 ms tick timing (src/main.rs:52-77),
  and the 500 ms `recv_timeout` (src/user_input.rs:19). These are concurrency
  and timing. The dispatcher receives one optional event instead, and `None`
  stands for a timed-out receive.
- Terminal setup and teardown, raw mode, the alternate screen, the `draw`
  closure and the render loop itself (src/main.rs:84-228). These are I/O and
  UI. `handle_keys` runs inside the draw closure (src/main.rs:157), and the loop
  exits once the termination flag is set, after the draw in which it was set
  (src/main.rs:210-213).
  `Input.StepAll` only chains dispatches for the end-to-end lemmas.
- `read_database` and `write_database` (src/main.rs:277-287). These are file
  I/O with JSON encoding. The store is the `tasks` sequence. A read, parse or
  write failure panics in the source, and the model has no such failure.
- `Dashboard.App.AddNewTestTask`: the `CannotReadFromFile` error return is
  not modelled. `read_database` never returns an error; it panics instead.
  Nothing in `handle_keys` calls this operation. The popup's `n` key is a
  no-op.
- The random `id` and `priority` of a new task, its fixed name and
  description, and its `chrono` timestamp (src/main.rs:234-240). These are
  foreign calls and randomness. The caller passes in the whole task, and
  `created` is an opaque integer.
- `create_menu_vector` (src/main.rs:289-302). It relies on enum iteration,
  `Display` and printing.
- All of src/renders.rs (layout, styling and widget construction).
- Key modifiers. `handle_keys` only looks at the key code. Every key code the
  dispatcher ignores is `Input.KeyCode.Other`.
- `Input.MoveCursorDown`: models the debug-build panic on the `usize`
  subtraction `amount - 1`. A release build would wrap it instead.
- `Input.MoveCursorUp`: models the same debug-build panic. A release build
  would wrap it instead.
- The scroll offset that `ListState::select` keeps for rendering.
- Changes to the task file from outside the program. The source re-reads the
  file on every `d`, `j` and `k` (src/main.rs:257, src/user_input.rs:81 and
  93), while the model keeps the records as a field. If another program
  shrinks the file, the cursor can end up past the end, and `Vec::remove`
  then panics. `Input.StepKeepsInvariant` and `Input.StepAllKeepsInvariant`
  hold only when the file changes through this program alone.
