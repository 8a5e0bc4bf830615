/** The list operations the handlers build their new arrays with: removal by
    `filter` on the position, removal by `splice`, flipping one task's `done`
    flag, and counting completed tasks. Each operation returns a fresh
    sequence; the array it was given is left as it was. */
module TaskList {

  /** `{ text, done }`: a task of the variants that track completion. */
  datatype Task = Task(text: string, done: bool)

  /** `s.filter((_, i) => i !== index)`: the elements whose position is not
      `index`, in their original order. Written from the back so that the last
      element keeps its position `|s| - 1` in every recursive call. */
  function Without<T>(s: seq<T>, index: int): (r: seq<T>)
    ensures |r| == if 0 <= index < |s| then |s| - 1 else |s|
  {
    if s == [] then []
    else if |s| - 1 == index then Without(s[..|s| - 1], index)
    else Without(s[..|s| - 1], index) + [s[|s| - 1]]
  }

  /** Filtering out a valid position drops exactly that element and keeps the
      rest in order; filtering out any other number changes nothing. */
  lemma {:induction false} WithoutDropsIndex<T>(s: seq<T>, index: int)
    ensures Without(s, index) == if 0 <= index < |s| then s[..index] + s[index + 1..] else s
  {
    if s != [] {
      var init, last := s[..|s| - 1], s[|s| - 1];
      assert s == init + [last];
      WithoutDropsIndex(init, index);
      if |s| - 1 == index {
        assert Without(s, index) == init;
        assert s[..index] == init && s[index + 1..] == [];
      } else if 0 <= index < |s| - 1 {
        assert Without(s, index) == init[..index] + init[index + 1..] + [last];
        assert s[..index] == init[..index];
        assert s[index + 1..] == init[index + 1..] + [last];
      } else {
        assert Without(s, index) == init + [last];
      }
    }
  }

  /** Positions seen from the result of removing a valid position: every
      element before `index` stays put and every later one moves down by one. */
  lemma WithoutShifts<T>(s: seq<T>, index: int)
    requires 0 <= index < |s|
    ensures |Without(s, index)| == |s| - 1
    ensures forall j :: 0 <= j < index ==> Without(s, index)[j] == s[j]
    ensures forall j :: index <= j < |s| - 1 ==> Without(s, index)[j] == s[j + 1]
  {
    WithoutDropsIndex(s, index);
  }

  /** Where `splice(start, 1)` starts: a negative start counts from the end and
      is floored at 0, a start past the end is capped at the length. */
  function SpliceStart(len: nat, start: int): (k: nat)
    ensures k <= len
  {
    if start < 0 then (if len + start < 0 then 0 else len + start)
    else if start < len then start
    else len
  }

  /** A copy of `s` after `copy.splice(start, 1)`: at most one element, the one
      at `SpliceStart`, is removed. */
  function SpliceOne<T>(s: seq<T>, start: int): (r: seq<T>)
    ensures |r| == |s| <==> s == [] || |s| <= start
    ensures |r| == |s| || |r| == |s| - 1
  {
    var k := SpliceStart(|s|, start);
    if k < |s| then s[..k] + s[k + 1..] else s
  }

  /** For the indices the list itself hands out, and for every other
      non-negative number, deleting by `splice` and deleting by `filter` agree. */
  lemma SpliceAgreesWithFilter<T>(s: seq<T>, index: int)
    requires 0 <= index
    ensures SpliceOne(s, index) == Without(s, index)
  {
    WithoutDropsIndex(s, index);
  }

  /** Where they differ: a negative start makes `splice` remove an element
      counted from the end, which `filter` never does. */
  lemma SpliceCountsFromEnd<T>(s: seq<T>, index: int)
    requires -|s| <= index < 0
    ensures SpliceOne(s, index) == Without(s, |s| + index)
    ensures Without(s, index) == s
  {
    WithoutDropsIndex(s, |s| + index);
    WithoutDropsIndex(s, index);
  }

  /** A negative start beyond the length is floored at 0, so `splice` removes
      the first element, while `filter` still removes nothing. */
  lemma SpliceFloorsAtFirst<T>(s: seq<T>, index: int)
    requires index < -|s| && s != []
    ensures SpliceOne(s, index) == s[1..]
    ensures Without(s, index) == s
  {
    WithoutDropsIndex(s, index);
  }

  /** `copy[index].done = !copy[index].done` on a copy of `s`: the task at
      `index` has its flag inverted and its text kept; no other task changes. */
  function Flip(s: seq<Task>, index: int): (r: seq<Task>)
    requires 0 <= index < |s|
    ensures |r| == |s|
    ensures r[index].text == s[index].text && r[index].done == !s[index].done
    ensures forall j :: 0 <= j < |s| && j != index ==> r[j] == s[j]
  {
    s[index := s[index].(done := !s[index].done)]
  }

  /** Flipping the same task twice gives back the list. */
  lemma FlipTwice(s: seq<Task>, index: int)
    requires 0 <= index < |s|
    ensures Flip(Flip(s, index), index) == s
  {
  }

  /** `s.filter(t => t.done).length`, counted from the back. */
  function CountDone(s: seq<Task>): (n: nat)
    ensures n <= |s|
  {
    if s == [] then 0
    else CountDone(s[..|s| - 1]) + (if s[|s| - 1].done then 1 else 0)
  }

  /** No task is done exactly when the count is 0, and every task is done
      exactly when the count is the length. */
  lemma {:induction false} CountDoneExtremes(s: seq<Task>)
    ensures CountDone(s) == 0 <==> forall j :: 0 <= j < |s| ==> !s[j].done
    ensures CountDone(s) == |s| <==> forall j :: 0 <= j < |s| ==> s[j].done
  {
    if s != [] {
      var init := s[..|s| - 1];
      CountDoneExtremes(init);
      assert forall j :: 0 <= j < |init| ==> init[j] == s[j];
    }
  }

  /** Flipping one task moves the completed count by exactly one, in the
      direction of the new flag. */
  lemma {:induction false} FlipCount(s: seq<Task>, index: int)
    requires 0 <= index < |s|
    ensures CountDone(Flip(s, index)) == CountDone(s) + (if s[index].done then -1 else 1)
  {
    var r, init := Flip(s, index), s[..|s| - 1];
    if index == |s| - 1 {
      assert r[..|r| - 1] == init;
    } else {
      FlipCount(init, index);
      assert r[..|r| - 1] == Flip(init, index);
    }
  }
}
