/** The anger gauge shared by the variants: an integer that every handler moves
    by a fixed step and clamps with `Math.min(…, 100)` or `Math.max(…, 0)`. */
module Mood {

  const MaxAnger: int := 100

  /** Step of addTodo in every variant that has a gauge. */
  const AddStep: nat := 10
  /** Step of deleteTodo in every variant that has a gauge. */
  const DeleteStep: nat := 5
  /** Step of toggleComplete where completing removes the task (app1.1, app1.2). */
  const CompleteRemoveStep: nat := 15
  /** Step of toggleComplete where completing flips `done` (App/app.tsx). */
  const CompleteFlipStep: nat := 5

  predicate InRange(level: int) {
    0 <= level <= MaxAnger
  }

  /** `Math.min(level + step, 100)`: the level goes up by `step` unless that
      passes 100, where it stops. */
  function Raise(level: int, step: nat): (r: int)
    ensures r <= MaxAnger && r <= level + step
    ensures r == level + step || r == MaxAnger
    ensures level <= MaxAnger ==> level <= r
    ensures InRange(level) ==> InRange(r)
  {
    if level + step < MaxAnger then level + step else MaxAnger
  }

  /** `Math.max(level - step, 0)`: the level goes down by `step` unless that
      passes 0, where it stops. */
  function Lower(level: int, step: nat): (r: int)
    ensures 0 <= r && level - step <= r
    ensures r == level - step || r == 0
    ensures 0 <= level ==> r <= level
    ensures InRange(level) ==> InRange(r)
  {
    if level - step > 0 then level - step else 0
  }

  /** The level after `n` consecutive raises by `step`. */
  function RaisedTimes(level: int, step: nat, n: nat): int {
    if n == 0 then level else Raise(RaisedTimes(level, step, n - 1), step)
  }

  /** The level after `n` consecutive lowerings by `step`. */
  function LoweredTimes(level: int, step: nat, n: nat): int {
    if n == 0 then level else Lower(LoweredTimes(level, step, n - 1), step)
  }

  /** A run of `n` adds raises the gauge by `n * step` until it is pinned at 100. */
  lemma {:induction false} RaisedTimesClamps(level: int, step: nat, n: nat)
    requires level <= MaxAnger
    ensures RaisedTimes(level, step, n) ==
            if level + n * step < MaxAnger then level + n * step else MaxAnger
  {
    if n > 0 {
      RaisedTimesClamps(level, step, n - 1);
      assert (n - 1) * step + step == n * step;
    }
  }

  /** A run of `n` deletes lowers the gauge by `n * step` until it is pinned at 0. */
  lemma {:induction false} LoweredTimesClamps(level: int, step: nat, n: nat)
    requires 0 <= level
    ensures LoweredTimes(level, step, n) ==
            if level - n * step > 0 then level - n * step else 0
  {
    if n > 0 {
      LoweredTimesClamps(level, step, n - 1);
      assert (n - 1) * step + step == n * step;
    }
  }
}
