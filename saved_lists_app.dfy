/** app1.2.tsx: the variant with plain-text tasks, complete-and-remove, and a
    sidebar of named snapshots of the list. Each `useState` cell is a field of
    `App` and each event handler a method; a handler's state updates are
    applied together, as one transition. */
module SavedListsApp {
  import opened JsString
  import opened Mood
  import opened TaskList
  import opened Feedback

  /** The result of `prompt(…)`: `None` when the dialog was cancelled. */
  datatype Option<T> = None | Some(value: T)

  /** `{ name, todos }`: one saved snapshot of the task list. */
  datatype SavedList = SavedList(name: string, todos: seq<string>)

  /** `if (name)`: a prompt result is truthy when it is a string and not empty. */
  predicate IsTruthy(name: Option<string>) {
    name.Some? && name.value != ""
  }

  /** Confirmation shown after a save, naming the snapshot. */
  function SavedNotice(name: string): (m: string)
    ensures |m| > |name| + 5
    ensures m[..4] == "リスト「" && m[4..4 + |name|] == name && m[4 + |name|] == '」'
    ensures m[5 + |name|..] == "を保存したわよ！"
  {
    "リスト「" + name + "」を保存したわよ！"
  }

  /** Confirmation shown after a load, naming the snapshot. */
  function LoadedNotice(name: string): (m: string)
    ensures |m| > |name| + 5
    ensures m[..4] == "リスト「" && m[4..4 + |name|] == name && m[4 + |name|] == '」'
    ensures m[5 + |name|..] == "を読み込んだわ！"
  {
    "リスト「" + name + "」を読み込んだわ！"
  }

  class App {
    var todos: seq<string>
    var newTodo: string
    var angerLevel: int
    var angryMessage: string
    var savedLists: seq<SavedList>

    /** The gauge never leaves [0, 100]. */
    ghost predicate Valid()
      reads this
    {
      InRange(angerLevel)
    }

    /** The state after mounting: empty list, empty input, calm gauge, no
        message, and the snapshots read back from storage (`stored`, empty
        when nothing was stored). */
    constructor (stored: seq<SavedList>)
      ensures Valid()
      ensures todos == [] && newTodo == "" && angerLevel == 0 && angryMessage == ""
      ensures savedLists == stored
    {
      todos, newTodo, angerLevel, angryMessage := [], "", 0, "";
      savedLists := stored;
    }

    /** The input's onChange: the buffer takes the typed value. */
    method SetNewTodo(value: string)
      modifies this
      ensures newTodo == value
      ensures todos == old(todos) && angerLevel == old(angerLevel)
      ensures angryMessage == old(angryMessage) && savedLists == old(savedLists)
    {
      newTodo := value;
    }

    /** addTodo: blank input changes nothing at all; otherwise the input, as
        typed and untrimmed, becomes the last task, the input is cleared, the
        gauge rises by 10 and the add scolding is shown. */
    method AddTodo()
      requires Valid()
      modifies this
      ensures Valid()
      ensures IsBlank(old(newTodo)) ==> unchanged(this)
      ensures !IsBlank(old(newTodo)) ==>
                todos == old(todos) + [old(newTodo)] && newTodo == "" &&
                angerLevel == Raise(old(angerLevel), AddStep) &&
                angryMessage == AddScold
      ensures savedLists == old(savedLists)
    {
      TrimEmptyIffBlank(newTodo);
      if Trim(newTodo) == "" {
        return;
      }
      todos := todos + [newTodo];
      newTodo := "";
      angerLevel := Raise(angerLevel, AddStep);
      angryMessage := AddScold;
    }

    /** deleteTodo: the task at `index` goes and the rest keep their order; a
        number that is not an index leaves the list as it is, but the gauge
        still falls by 5 and the delete scolding is still shown. */
    method DeleteTodo(index: int)
      requires Valid()
      modifies this
      ensures Valid()
      ensures todos == if 0 <= index < |old(todos)|
                       then old(todos)[..index] + old(todos)[index + 1..]
                       else old(todos)
      ensures angerLevel == Lower(old(angerLevel), DeleteStep)
      ensures angryMessage == DeleteScold
      ensures newTodo == old(newTodo) && savedLists == old(savedLists)
    {
      WithoutDropsIndex(todos, index);
      todos := Without(todos, index);
      angerLevel := Lower(angerLevel, DeleteStep);
      angryMessage := DeleteScold;
    }

    /** toggleComplete: completing removes the task exactly as deleteTodo
        does, the gauge rises by 15, and the message quotes the removed task's
        text ("undefined" for a number that is not an index). */
    method ToggleComplete(index: int)
      requires Valid()
      modifies this
      ensures Valid()
      ensures todos == if 0 <= index < |old(todos)|
                       then old(todos)[..index] + old(todos)[index + 1..]
                       else old(todos)
      ensures angerLevel == Raise(old(angerLevel), CompleteRemoveStep)
      ensures angryMessage == CompletePraise(ElementText(old(todos), index))
      ensures newTodo == old(newTodo) && savedLists == old(savedLists)
    {
      var todo := ElementText(todos, index);
      WithoutDropsIndex(todos, index);
      todos := Without(todos, index);
      angerLevel := Raise(angerLevel, CompleteRemoveStep);
      angryMessage := CompletePraise(todo);
    }

    /** saveCurrentList: a cancelled prompt or an empty name changes nothing;
        otherwise the current list is appended under that name (names may
        repeat), earlier snapshots are kept as they were, and the save is
        confirmed. The gauge and the list are untouched. */
    method SaveCurrentList(name: Option<string>)
      modifies this
      ensures !IsTruthy(name) ==> unchanged(this)
      ensures IsTruthy(name) ==>
                savedLists == old(savedLists) + [SavedList(name.value, old(todos))] &&
                angryMessage == SavedNotice(name.value)
      ensures todos == old(todos) && newTodo == old(newTodo) && angerLevel == old(angerLevel)
    {
      if IsTruthy(name) {
        savedLists := savedLists + [SavedList(name.value, todos)];
        angryMessage := SavedNotice(name.value);
      }
    }

    /** loadList: the snapshot's tasks replace the live list, the gauge drops
        to 0, and the load is confirmed; the snapshots themselves stay as they
        were. (A number that is not an index throws a TypeError in the
        source, so callers pass only indices of `savedLists`.) */
    method LoadList(listIndex: int)
      requires 0 <= listIndex < |savedLists|
      modifies this
      ensures Valid()
      ensures todos == old(savedLists)[listIndex].todos && angerLevel == 0
      ensures angryMessage == LoadedNotice(old(savedLists)[listIndex].name)
      ensures savedLists == old(savedLists) && newTodo == old(newTodo)
    {
      todos := savedLists[listIndex].todos;
      angerLevel := 0;
      angryMessage := LoadedNotice(savedLists[listIndex].name);
    }
  }

  /** A snapshot is a copy: after saving the current list, typing, adding,
      deleting and completing, loading that snapshot gives back the list
      exactly as it was saved, with the gauge at 0. */
  method SaveEditLoad(app: App, name: string, typed: string, deleted: int, completed: int)
    requires app.Valid() && name != ""
    modifies app
    ensures app.todos == old(app.todos) && app.angerLevel == 0
    ensures |app.savedLists| == |old(app.savedLists)| + 1
    ensures app.savedLists[..|old(app.savedLists)|] == old(app.savedLists)
  {
    app.SaveCurrentList(Some(name));
    var k := |app.savedLists| - 1;
    app.SetNewTodo(typed);
    app.AddTodo();
    app.DeleteTodo(deleted);
    app.ToggleComplete(completed);
    app.LoadList(k);
  }
}
