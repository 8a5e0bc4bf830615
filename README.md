# Angry to-do list: a verified model of its state engine

The repository is a set of variants of one React to-do component that scolds
its user. Behind the markup, each variant is a small sequential state
machine. Its state is the component's `useState` cells: the task list, the
text-input buffer, an "anger" gauge clamped to [0, 100], the message on
screen and, in one variant, a list of named snapshots. Its transitions are the
event handlers. This project models that engine in Dafny, variant by
variant, and proves what the handlers guarantee.

- `jsstring.dfy` (`JsString`): `String.prototype.trim`, with ECMAScript's
  whitespace and line-terminator set written out. Also what a template
  literal prints for a missing array element.
- `mood.dfy` (`Mood`): the gauge. `Math.min(level + step, 100)` and
  `Math.max(level - step, 0)`, the per-handler steps, and the effect of runs of
  adds and deletes.
- `task_list.dfy` (`TaskList`): the `{ text, done }` task and the fresh arrays
  the handlers build. These are removal by `filter` on the position, removal
  by `splice(index, 1)`, the `done` flip, and the completed count.
- `feedback.dfy` (`Feedback`): the fixed scolding lines, the random message
  pool, and `getRandomItem`. The value `Math.random()` returned is a
  parameter `u` in [0, 1).
- One module per variant. Each has a class whose fields are the component's
  `useState` cells and whose methods are its handlers. A handler's updates
  form one transition:
  - `saved_lists_app.dfy` (`SavedListsApp`) models `app1.2.tsx`: text tasks,
    complete-and-remove (+15), and saving and loading named snapshots.
  - `random_message_app.dfy` (`RandomMessageApp`) models `App/app.tsx`:
    `{ text, done }` tasks, an in-place `done` flip (+5), delete by `splice`,
    and a random pool message after every change.
  - `remove_on_complete_app.dfy` (`RemoveOnCompleteApp`) models
    `App/app1.1.tsx`: the handlers of app1.2 without the snapshots.
  - `progress_app.dfy` (`ProgressApp`) models `App/app2.1.tsx`: three sample
    tasks, a flip, delete by `filter`, the completed count and the progress
    percentage.

Tasks are immutable values. `App/app.tsx` and `App/app2.1.tsx` copy the array
shallowly and then assign `done` on an element object that the previous array
shares. The model replaces the element instead. Nothing keeps the previous
array: React drops it, and neither variant saves snapshots. So the visible
behaviour is the same, with one exception listed under "Left out".

Three behaviours of the code are worth knowing before reading the contracts:
- On an empty list, `progress` in `App/app2.1.tsx:24` is `0 / 0` (NaN), so
  `Progress` requires a non-empty list.
- The `filter`-based deletes (deleteTodo and toggleComplete in `app1.1` and
  `app1.2`, handleDelete in `app2.1`) leave the list alone for a number that
  is not an index. In `app1.1` and `app1.2` they still move the gauge and
  show their message; `app2.1` has neither. The
  `splice`-based delete of `App/app.tsx` differs for negative numbers: from
  -length to -1 it removes the task counted from the end, and below -length
  it removes the first task.
- At mount, `app1.2.tsx:20` passes the stored value to `JSON.parse`, which
  throws on a corrupt value.

Constants and definitions without a contract of their own, and where they
come from:
- `Feedback.AngryMessages` is the pool at `App/app.tsx:4-11`.
- `Feedback.AddScold` and `Feedback.DeleteScold` are the fixed lines at
  `App/app1.1.tsx:34` and `App/app1.1.tsx:41`, which `app1.2.tsx:47` and
  `app1.2.tsx:55` repeat.
- `ProgressApp.MockTodos` is `mockTodos` at `App/app2.1.tsx:3-7`.
- `Mood`'s step constants are the deltas at `app1.2.tsx:46`, `54` and `63`,
  and at `App/app.tsx:60`.
- `JsString.IsTrimmable` is the whitespace and line-terminator set that
  `trim()` removes. Its meaning shows in the contracts of `TrimStart`,
  `TrimEnd`, `Trim` and `TrimEmptyIffBlank`.
- `SavedListsApp.IsTruthy` is the `if (name)` test at `app1.2.tsx:71`. It
  appears in the contract of `SaveCurrentList`.
- `JsString.ElementText` is what `${todos[index]}` prints at
  `app1.2.tsx:61-64`: the element for an index and "undefined" otherwise. It
  appears in the contracts of both `ToggleComplete` methods that remove.
- `RandomMessageApp.AddCompleteDelete` is a worked example, not a handler.
  It adds "Buy milk", completes it and deletes it, and asserts the gauge
  reads 10, 15 and then 10.

## Model

| member | source | states |
|---|---|---|
| JsString.TrimStart | app1.2.tsx:43 | the leading part `trim` removes is all whitespace, and what remains is a suffix that starts with a kept character |
| JsString.TrimEnd | app1.2.tsx:43 | the trailing part `trim` removes is all whitespace, and what remains is a prefix that ends with a kept character |
| JsString.Trim | app1.2.tsx:43 | `trim()` returns the slice of its input that starts and ends with a kept character, with only whitespace dropped before it and after it |
| JsString.TrimEmptyIffBlank | app1.2.tsx:43 | `s.trim() === ''` holds exactly when every character of `s` is whitespace, the empty string included |
| Mood.Raise | app1.2.tsx:46 | `Math.min(level + step, 100)` is at most 100 and at most level + step, is either level + step or 100, never falls below a level at most 100, and keeps [0, 100] |
| Mood.Lower | app1.2.tsx:54 | `Math.max(level - step, 0)` is at least 0 and at least level - step, is either level - step or 0, never exceeds a level of at least 0, and keeps [0, 100] |
| Mood.RaisedTimesClamps | App/app1.1.tsx:33 | n adds in a row raise the gauge by 10 each (any step in general) until it is pinned at 100 |
| Mood.LoweredTimesClamps | App/app1.1.tsx:40 | n deletes in a row lower the gauge by 5 each (any step in general) until it is pinned at 0 |
| TaskList.WithoutDropsIndex | app1.2.tsx:53 | `filter((_, i) => i !== index)` drops exactly the element at a valid index and keeps the rest in order; for any other number the list is unchanged |
| TaskList.WithoutShifts | App/app2.1.tsx:19 | after removing a valid index the length is one less, earlier elements stay put and later ones move down by one |
| TaskList.Without | app1.2.tsx:53 | `filter((_, i) => i !== index)` is one shorter than the list for a valid index and as long as the list otherwise |
| TaskList.SpliceOne | App/app.tsx:49-50 | `splice(index, 1)` on a copy keeps the length exactly when the list is empty or the index is at or past the end, and removes one element otherwise |
| TaskList.SpliceAgreesWithFilter | App/app.tsx:49-50 | for every non-negative index, deleting by `splice(index, 1)` gives the same list as deleting by `filter` |
| TaskList.SpliceCountsFromEnd | App/app.tsx:50 | for an index in [-length, 0), `splice` removes the element counted from the end, while `filter` removes nothing |
| TaskList.SpliceFloorsAtFirst | App/app.tsx:50 | for an index below -length on a non-empty list, `splice` removes the first element, while `filter` removes nothing |
| TaskList.Flip | App/app.tsx:57-58 | flipping `done` at an index keeps the length, keeps that task's text, inverts its flag and leaves every other task unchanged |
| TaskList.FlipTwice | App/app2.1.tsx:12-16 | flipping the same task twice restores the list |
| TaskList.CountDone | App/app2.1.tsx:23 | `completedCount`, the number of done tasks, never exceeds the length |
| TaskList.CountDoneExtremes | App/app2.1.tsx:23 | the count is 0 exactly when no task is done, and equals the length exactly when every task is done |
| TaskList.FlipCount | App/app2.1.tsx:12-23 | flipping one task moves the completed count by exactly one, down if it was done and up if it was not |
| Feedback.CompletePraise | app1.2.tsx:64 | the completion message quotes the task's text between corner brackets |
| SavedListsApp.SavedNotice | app1.2.tsx:73 | the save confirmation quotes the snapshot name between corner brackets after "リスト" and ends "を保存したわよ！" |
| SavedListsApp.LoadedNotice | app1.2.tsx:81 | the load confirmation quotes the snapshot name between corner brackets after "リスト" and ends "を読み込んだわ！" |
| Feedback.RandomIndex | App/app.tsx:20 | `Math.floor(Math.random() * n)` is a valid index of an n-element array |
| Feedback.RandomIndexCovers | App/app.tsx:20 | every index of the array is drawn for some value of `Math.random()` |
| Feedback.GetRandomItem | App/app.tsx:19-21 | `getRandomItem` always returns a member of the array |
| SavedListsApp.App.constructor | app1.2.tsx:11-21 | the state after mounting: empty list and input, gauge 0, no message, and the snapshots read from storage |
| SavedListsApp.App.SetNewTodo | app1.2.tsx:121 | typing replaces the input buffer and changes nothing else |
| SavedListsApp.App.AddTodo | app1.2.tsx:42-49 | blank input changes no field; otherwise the untrimmed input is appended, the input is cleared, the gauge is `min(+10, 100)`, the add message is shown, snapshots are untouched, and the gauge stays in [0, 100] |
| SavedListsApp.App.DeleteTodo | app1.2.tsx:52-57 | drops exactly the task at a valid index, keeping order, and leaves the list as it is otherwise; the gauge is `max(-5, 0)`; the delete message is shown; input and snapshots are untouched |
| SavedListsApp.App.ToggleComplete | app1.2.tsx:60-66 | removes the task as delete does, the gauge is `min(+15, 100)`, and the message embeds the removed task's text ("undefined" off the list); snapshots are untouched |
| SavedListsApp.App.SaveCurrentList | app1.2.tsx:69-75 | a cancelled prompt or an empty name changes nothing; otherwise `{name, todos}` is appended after the earlier snapshots, duplicate names allowed, and the save is confirmed |
| SavedListsApp.App.LoadList | app1.2.tsx:78-82 | the live list becomes the snapshot's tasks, the gauge drops to 0, the load is confirmed, and the snapshots are untouched |
| SavedListsApp.SaveEditLoad | app1.2.tsx:44-81 | saving, then adding, deleting and completing, then loading that snapshot restores the list exactly as saved, with the gauge at 0 and earlier snapshots intact |
| RandomMessageApp.App.constructor | App/app.tsx:24-27 | the initial state: empty list and input, no message, gauge 0 |
| RandomMessageApp.App.SetNewTodo | App/app.tsx:73 | typing replaces the input buffer and changes nothing else |
| RandomMessageApp.App.ShowAngryMessage | App/app.tsx:34-37 | the message becomes the pool entry chosen by the random value, always a member of the pool |
| RandomMessageApp.App.AddTodo | App/app.tsx:39-46 | blank input changes no field; otherwise `{text: input, done: false}` is appended, the input is cleared, the gauge is `min(+10, 100)` and the message is from the pool |
| RandomMessageApp.App.DeleteTodo | App/app.tsx:48-54 | the list is the `splice(index, 1)` result: the element at a valid index is removed and later ones shift down, and an index past the end removes nothing; the gauge is `max(-5, 0)` and the message is from the pool |
| RandomMessageApp.App.ToggleComplete | App/app.tsx:56-62 | flips `done` at the index only, keeping its text, the length and every other task; the gauge is `min(+5, 100)` and the message is from the pool |
| RemoveOnCompleteApp.App.constructor | App/app1.1.tsx:10-13 | the initial state: empty list and input, gauge 0, no message |
| RemoveOnCompleteApp.App.SetNewTodo | App/app1.1.tsx:68 | typing replaces the input buffer and changes nothing else |
| RemoveOnCompleteApp.App.AddTodo | App/app1.1.tsx:29-36 | blank input changes no field; otherwise the untrimmed input is appended, the input is cleared, the gauge is `min(+10, 100)` and the fixed add message is shown |
| RemoveOnCompleteApp.App.DeleteTodo | App/app1.1.tsx:38-43 | drops exactly the task at a valid index, keeping order, and leaves the list as it is otherwise; the gauge is `max(-5, 0)` and the fixed delete message is shown |
| RemoveOnCompleteApp.App.ToggleComplete | App/app1.1.tsx:45-52 | removes the task as delete does, the gauge is `min(+15, 100)`, and the message embeds the task's text |
| ProgressApp.Progress | App/app2.1.tsx:24 | for a non-empty list, `progress` lies in [0, 100], is 0 exactly when nothing is done, and is 100 exactly when everything is done |
| ProgressApp.InitialProgress | App/app2.1.tsx:3-24 | the sample list has one completed task, so the bar starts at 100/3 percent |
| ProgressApp.App.constructor | App/app2.1.tsx:3-10 | the initial state is exactly the three sample tasks, in order |
| ProgressApp.App.HandleComplete | App/app2.1.tsx:12-16 | flips `done` at the index only, keeping its text, the length and every other task |
| ProgressApp.App.HandleDelete | App/app2.1.tsx:18-21 | drops exactly the task at a valid index, so the length falls by one and the rest keep their order; any other number changes nothing |

The class methods change state, so their contracts use `old` and `modifies`.
Each one states the handler's complete new state. `Valid()` says the gauge
stays in [0, 100]. Every handler that moves the gauge ensures it, and every one
that moves it relative to its old value also requires it. `LoadList` sets the
gauge to 0, so it ensures `Valid()` without requiring it.

## Left out

- Sound playback (`playSound`, `playRandomSound`, `sound.ts`) is not part of
  this model. It is browser `Audio`, fire-and-forget, and has no effect on
  the state.
- The `localStorage` read and write of the snapshots, and the JSON encoding,
  are I/O. The constructor of `SavedListsApp.App` takes the already-decoded
  snapshots. `JSON.parse` throwing on a corrupt value is not modelled.
- The `setTimeout` that clears the message after 3 seconds is a timer. The
  message is modelled as what the handler last set.
- `prompt()` is a dialog. Its result is the parameter `name: Option<string>`,
  with `None` for a cancelled dialog.
- The JSX rendering, the styling, the sidebar's list of names and the
  unwired input and button of `App/app2.1.tsx` are presentation.
- React's batching of updates and its stale closures (`todos` versus `prev`)
  are not modelled. Each handler is one atomic transition.
- Feedback.RandomIndex and ProgressApp.Progress use exact real arithmetic.
  IEEE-754 double rounding in `Math.random() * n` and in the percentage is not
  modelled.
- Indices are integers. A fractional `number` passed as an index is not
  modelled.
- RandomMessageApp.App.ToggleComplete, ProgressApp.App.HandleComplete and
  SavedListsApp.App.LoadList require an index of the list. For any other
  number the source throws a TypeError (`updated[index].done`,
  `savedLists[listIndex].todos`) before setting any state.
- ProgressApp.Progress requires a non-empty list. On an empty list the source
  computes `0 / 0` (NaN), and there is no value to model.
- Aliasing of `mockTodos` in `App/app2.1.tsx` is not modelled. The initial
  state is the module-level array itself, and `handleComplete` assigns `done`
  on its element objects. A remounted component would therefore start from
  the flipped flags. The model's `MockTodos` is a constant value.
