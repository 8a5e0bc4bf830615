/** App/app1.1.tsx: plain-text tasks, complete-and-remove, fixed messages; the
    same handlers as app1.2 without the saved lists. Each `useState` cell is a
    field of `App` and each event handler a method. */
module RemoveOnCompleteApp {
  import opened JsString
  import opened Mood
  import opened TaskList
  import opened Feedback

  class App {
    var todos: seq<string>
    var newTodo: string
    var angerLevel: int
    var angryMessage: string

    /** The gauge never leaves [0, 100]. */
    ghost predicate Valid()
      reads this
    {
      InRange(angerLevel)
    }

    constructor ()
      ensures Valid()
      ensures todos == [] && newTodo == "" && angerLevel == 0 && angryMessage == ""
    {
      todos, newTodo, angerLevel, angryMessage := [], "", 0, "";
    }

    /** The input's onChange: the buffer takes the typed value. */
    method SetNewTodo(value: string)
      modifies this
      ensures newTodo == value
      ensures todos == old(todos) && angerLevel == old(angerLevel)
      ensures angryMessage == old(angryMessage)
    {
      newTodo := value;
    }

    /** addTodo: blank input changes nothing at all; otherwise the untrimmed
        input becomes the last task, the input is cleared, the gauge rises by
        10 and the add scolding is shown. */
    method AddTodo()
      requires Valid()
      modifies this
      ensures Valid()
      ensures IsBlank(old(newTodo)) ==> unchanged(this)
      ensures !IsBlank(old(newTodo)) ==>
                todos == old(todos) + [old(newTodo)] && newTodo == "" &&
                angerLevel == Raise(old(angerLevel), AddStep) &&
                angryMessage == AddScold
    {
      TrimEmptyIffBlank(newTodo);
      if Trim(newTodo) == "" {
        return;
      }
      todos := todos + [newTodo];
      newTodo := "";
      angerLevel := Raise(angerLevel, AddStep);
      angryMessage := AddScold;
    }

    /** deleteTodo: the task at `index` goes and the rest keep their order; a
        number that is not an index leaves the list as it is. The gauge falls
        by 5 and the delete scolding is shown either way. */
    method DeleteTodo(index: int)
      requires Valid()
      modifies this
      ensures Valid()
      ensures todos == if 0 <= index < |old(todos)|
                       then old(todos)[..index] + old(todos)[index + 1..]
                       else old(todos)
      ensures angerLevel == Lower(old(angerLevel), DeleteStep)
      ensures angryMessage == DeleteScold
      ensures newTodo == old(newTodo)
    {
      WithoutDropsIndex(todos, index);
      todos := Without(todos, index);
      angerLevel := Lower(angerLevel, DeleteStep);
      angryMessage := DeleteScold;
    }

    /** toggleComplete: the task is removed as by deleteTodo, the gauge rises
        by 15, and the message quotes the removed task's text ("undefined" for
        a number that is not an index). */
    method ToggleComplete(index: int)
      requires Valid()
      modifies this
      ensures Valid()
      ensures todos == if 0 <= index < |old(todos)|
                       then old(todos)[..index] + old(todos)[index + 1..]
                       else old(todos)
      ensures angerLevel == Raise(old(angerLevel), CompleteRemoveStep)
      ensures angryMessage == CompletePraise(ElementText(old(todos), index))
      ensures newTodo == old(newTodo)
    {
      var todo := ElementText(todos, index);
      WithoutDropsIndex(todos, index);
      todos := Without(todos, index);
      angerLevel := Raise(angerLevel, CompleteRemoveStep);
      angryMessage := CompletePraise(todo);
    }
  }
}
