/** App/app2.1.tsx: a list seeded with three sample tasks, completion by
    flipping `done`, deletion by `filter`, and a progress bar whose width is
    the share of completed tasks. The component's one `useState` cell is the
    field `todos` of `App`. */
module ProgressApp {
  import opened TaskList

  /** `mockTodos`, the initial state. */
  const MockTodos: seq<Task> := [
    Task("なんでやねん", false),
    Task("宿題をする", true),
    Task("買い物に行く", false)
  ]

  /** `progress`: `completedCount` (`CountDone`) as a percentage of the
      length, between 0 (nothing done) and 100 (everything done). On an empty list the source divides 0
      by 0, so the list must not be empty. */
  function Progress(todos: seq<Task>): (p: real)
    requires |todos| > 0
    ensures 0.0 <= p <= 100.0
    ensures p == 0.0 <==> forall j :: 0 <= j < |todos| ==> !todos[j].done
    ensures p == 100.0 <==> forall j :: 0 <= j < |todos| ==> todos[j].done
  {
    var c, n := CountDone(todos), |todos|;
    CountDoneExtremes(todos);
    ShareBounds(c, n);
    (c as real / n as real) * 100.0
  }

  /** The share `c / n` of a part in a non-empty whole lies in [0, 1], and is
      0 or 1 only for the empty part or the whole. */
  lemma ShareBounds(c: nat, n: nat)
    requires c <= n && 0 < n
    ensures 0.0 <= c as real / n as real <= 1.0
    ensures c as real / n as real == 0.0 <==> c == 0
    ensures c as real / n as real == 1.0 <==> c == n
  {
    var q := c as real / n as real;
    assert q * n as real == c as real;
  }

  /** The sample list starts one third done. */
  lemma InitialProgress()
    ensures CountDone(MockTodos) == 1
    ensures Progress(MockTodos) == 100.0 / 3.0
  {
    assert MockTodos[..2][..1][..0] == [];
    assert CountDone(MockTodos[..2][..1]) == 0;
    assert CountDone(MockTodos[..2]) == 1;
  }

  class App {
    var todos: seq<Task>

    constructor ()
      ensures todos == MockTodos
    {
      todos := MockTodos;
    }

    /** handleComplete: the task at `index` has its `done` flag inverted and
        keeps its text; the length and every other task are unchanged. (For a
        number that is not an index, `newTodos[index].done` throws a TypeError
        in the source, so callers pass only indices of `todos`.) */
    method HandleComplete(index: int)
      requires 0 <= index < |todos|
      modifies this
      ensures |todos| == |old(todos)|
      ensures todos[index] == Task(old(todos)[index].text, !old(todos)[index].done)
      ensures forall j :: 0 <= j < |todos| && j != index ==> todos[j] == old(todos)[j]
    {
      todos := Flip(todos, index);
    }

    /** handleDelete: the task at `index` goes, the length falls by one and
        the rest keep their order; a number that is not an index changes
        nothing. */
    method HandleDelete(index: int)
      modifies this
      ensures todos == if 0 <= index < |old(todos)|
                       then old(todos)[..index] + old(todos)[index + 1..]
                       else old(todos)
      ensures 0 <= index < |old(todos)| ==> |todos| == |old(todos)| - 1
    {
      WithoutDropsIndex(todos, index);
      todos := Without(todos, index);
    }
  }
}
