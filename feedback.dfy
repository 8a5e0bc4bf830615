/** The feedback the handlers show: the fixed scolding lines of app1.1 and
    app1.2, the pool of App/app.tsx, and the random pick `getRandomItem`.
    The random source is injected: `u` stands for the value `Math.random()`
    returned, a number in [0, 1). */
module Feedback {

  /** Shown by addTodo in app1.1 and app1.2. */
  const AddScold: string := "何やってるの！もっと頑張りなさい！"

  /** Shown by deleteTodo in app1.1 and app1.2. */
  const DeleteScold: string := "まだ終わってないのに消さないでよ！"

  /** Shown by toggleComplete in app1.1 and app1.2: the completed task's text
      between corner brackets, then a grudging compliment. */
  function CompletePraise(todo: string): (m: string)
    ensures |m| > |todo| + 2
    ensures m[0] == '「' && m[1..|todo| + 1] == todo && m[|todo| + 1] == '」'
  {
    "「" + todo + "」は完了？まあ、頑張ったわね！"
  }

  /** The message pool of App/app.tsx, one of which every mutation shows. */
  const AngryMessages: seq<string> := [
    "ちゃんとやれ！",
    "まだ終わってないぞ！",
    "何回言わせるんだ！",
    "サボるな！",
    "はやく終わらせろ！",
    "また追加かよ！"
  ]

  /** `Math.floor(u * n)` for `u` in [0, 1): a valid index of an n-element array. */
  function RandomIndex(u: real, n: nat): (k: nat)
    requires 0.0 <= u < 1.0 && 0 < n
    ensures k < n
  {
    var x := u * n as real;
    assert 0.0 <= x < n as real by {
      assert u * n as real < 1.0 * n as real;
    }
    x.Floor
  }

  /** Every index of an array is drawn by some value of `u`: index `k` comes
      from `u = k / n`. */
  lemma RandomIndexCovers(k: nat, n: nat)
    requires k < n
    ensures 0.0 <= k as real / n as real < 1.0
    ensures RandomIndex(k as real / n as real, n) == k
  {
    var u := k as real / n as real;
    assert u * n as real == k as real;
  }

  /** `getRandomItem(arr)`: the element at the random index, so always a
      member of the array. */
  function GetRandomItem<T>(arr: seq<T>, u: real): (r: T)
    requires 0.0 <= u < 1.0 && 0 < |arr|
    ensures r in arr
  {
    arr[RandomIndex(u, |arr|)]
  }
}
