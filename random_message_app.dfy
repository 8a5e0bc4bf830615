/** App/app.tsx: the variant whose tasks carry a `done` flag that completing
    flips in place, whose deletion uses `splice`, and whose every mutation shows
    a message drawn at random from a fixed pool. The value `Math.random()`
    returned for the draw is the parameter `u` of each handler. */
module RandomMessageApp {
  import opened JsString
  import opened Mood
  import opened TaskList
  import opened Feedback

  class App {
    var todos: seq<Task>
    var newTodo: string
    var message: string
    var angerLevel: int

    /** The gauge never leaves [0, 100]. */
    ghost predicate Valid()
      reads this
    {
      InRange(angerLevel)
    }

    constructor ()
      ensures Valid()
      ensures todos == [] && newTodo == "" && message == "" && angerLevel == 0
    {
      todos, newTodo, message, angerLevel := [], "", "", 0;
    }

    /** The input's onChange: the buffer takes the typed value. */
    method SetNewTodo(value: string)
      modifies this
      ensures newTodo == value
      ensures todos == old(todos) && message == old(message) && angerLevel == old(angerLevel)
    {
      newTodo := value;
    }

    /** showAngryMessage: one message of the pool, the one `u` selects. */
    method ShowAngryMessage(u: real)
      requires 0.0 <= u < 1.0
      modifies this
      ensures message in AngryMessages && message == GetRandomItem(AngryMessages, u)
      ensures todos == old(todos) && newTodo == old(newTodo) && angerLevel == old(angerLevel)
    {
      message := GetRandomItem(AngryMessages, u);
    }

    /** addTodo: blank input changes nothing at all; otherwise the input, as
        typed, becomes the last task, not done; the input is cleared, the
        gauge rises by 10 and a pool message is shown. */
    method AddTodo(u: real)
      requires Valid() && 0.0 <= u < 1.0
      modifies this
      ensures Valid()
      ensures IsBlank(old(newTodo)) ==> unchanged(this)
      ensures !IsBlank(old(newTodo)) ==>
                todos == old(todos) + [Task(old(newTodo), false)] && newTodo == "" &&
                angerLevel == Raise(old(angerLevel), AddStep) &&
                message == GetRandomItem(AngryMessages, u) && message in AngryMessages
    {
      TrimEmptyIffBlank(newTodo);
      if Trim(newTodo) == "" {
        return;
      }
      todos := todos + [Task(newTodo, false)];
      newTodo := "";
      angerLevel := Raise(angerLevel, AddStep);
      ShowAngryMessage(u);
    }

    /** deleteTodo: `splice(index, 1)` on a copy. For an index of the list the
        task there goes and every later task moves down one place, text and
        flag intact; a larger number removes nothing, and a negative one
        counts from the end. The gauge falls by 5 and a pool message is shown. */
    method DeleteTodo(index: int, u: real)
      requires Valid() && 0.0 <= u < 1.0
      modifies this
      ensures Valid()
      ensures todos == SpliceOne(old(todos), index)
      ensures 0 <= index < |old(todos)| ==>
                todos == old(todos)[..index] + old(todos)[index + 1..]
      ensures |old(todos)| <= index ==> todos == old(todos)
      ensures angerLevel == Lower(old(angerLevel), DeleteStep)
      ensures message == GetRandomItem(AngryMessages, u) && message in AngryMessages
      ensures newTodo == old(newTodo)
    {
      todos := SpliceOne(todos, index);
      angerLevel := Lower(angerLevel, DeleteStep);
      ShowAngryMessage(u);
    }

    /** toggleComplete: the task at `index` has its `done` flag inverted and
        keeps its text; the length and every other task are unchanged. The
        gauge rises by 5 and a pool message is shown. (For a number that is not
        an index, `updated[index].done` throws a TypeError in the source, so
        callers pass only indices of `todos`.) */
    method ToggleComplete(index: int, u: real)
      requires Valid() && 0.0 <= u < 1.0
      requires 0 <= index < |todos|
      modifies this
      ensures Valid()
      ensures |todos| == |old(todos)|
      ensures todos[index] == Task(old(todos)[index].text, !old(todos)[index].done)
      ensures forall j :: 0 <= j < |todos| && j != index ==> todos[j] == old(todos)[j]
      ensures angerLevel == Raise(old(angerLevel), CompleteFlipStep)
      ensures message == GetRandomItem(AngryMessages, u) && message in AngryMessages
      ensures newTodo == old(newTodo)
    {
      todos := Flip(todos, index);
      angerLevel := Raise(angerLevel, CompleteFlipStep);
      ShowAngryMessage(u);
    }
  }

  /** Add "Buy milk", complete it, delete it: the gauge reads 10, then 15,
      then 10, and the list ends empty. */
  method AddCompleteDelete(u: real)
    requires 0.0 <= u < 1.0
  {
    var app := new App();
    app.SetNewTodo("Buy milk");
    assert !IsTrimmable(app.newTodo[0]);
    app.AddTodo(u);
    assert app.todos == [Task("Buy milk", false)] && app.angerLevel == 10;
    app.ToggleComplete(0, u);
    assert app.todos == [Task("Buy milk", true)] && app.angerLevel == 15;
    app.DeleteTodo(0, u);
    assert app.todos == [] && app.angerLevel == 10;
  }
}
