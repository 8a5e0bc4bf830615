/** The two pieces of JavaScript string behaviour the handlers rely on:
    `String.prototype.trim` (the blank-input guard of every addTodo) and what a
    template literal prints for an array element that does not exist. */
module JsString {

  /** The characters `trim` strips: ECMAScript's WhiteSpace (tab, vertical tab,
      form feed, space, no-break space, zero-width no-break space and every
      other Unicode space separator) and LineTerminator (LF, CR, U+2028, U+2029). */
  predicate IsTrimmable(c: char) {
    c == '\t' || c == '\n' || c == '\U{000B}' || c == '\U{000C}' || c == '\r'
    || c == ' ' || c == '\U{00A0}' || c == '\U{1680}'
    || ('\U{2000}' <= c <= '\U{200A}')
    || c == '\U{2028}' || c == '\U{2029}' || c == '\U{202F}' || c == '\U{205F}'
    || c == '\U{3000}' || c == '\U{FEFF}'
  }

  /** Every character of `s` is one that `trim` strips. */
  predicate IsBlank(s: string) {
    forall i :: 0 <= i < |s| ==> IsTrimmable(s[i])
  }

  /** `s` with its leading trimmable characters removed: a suffix of `s` whose
      dropped prefix is blank and which starts with a kept character. */
  function TrimStart(s: string): (r: string)
    ensures |r| <= |s| && r == s[|s| - |r|..]
    ensures IsBlank(s[..|s| - |r|])
    ensures r != [] ==> !IsTrimmable(r[0])
  {
    if s != [] && IsTrimmable(s[0]) then TrimStart(s[1..]) else s
  }

  /** `s` with its trailing trimmable characters removed: a prefix of `s` whose
      dropped suffix is blank and which ends with a kept character. */
  function TrimEnd(s: string): (r: string)
    ensures |r| <= |s| && r == s[..|r|]
    ensures IsBlank(s[|r|..])
    ensures r != [] ==> !IsTrimmable(r[|r| - 1])
  {
    if s != [] && IsTrimmable(s[|s| - 1]) then TrimEnd(s[..|s| - 1]) else s
  }

  /** `s.trim()`: the slice of `s` that starts and ends with a kept character
      and leaves only whitespace before and after it. */
  function Trim(s: string): (r: string)
    ensures |r| <= |TrimStart(s)| <= |s|
    ensures r == s[|s| - |TrimStart(s)|..][..|r|]
    ensures IsBlank(s[..|s| - |TrimStart(s)|])
    ensures IsBlank(s[|s| - |TrimStart(s)| + |r|..])
    ensures r != [] ==> !IsTrimmable(r[0]) && !IsTrimmable(r[|r| - 1])
  {
    var t := TrimStart(s);
    assert s[|s| - |t|..] == t;
    assert s[|s| - |t| + |TrimEnd(t)|..] == t[|TrimEnd(t)|..];
    TrimEnd(t)
  }

  /** The guard `s.trim() === ''` holds exactly for blank strings, the empty
      string included. */
  lemma TrimEmptyIffBlank(s: string)
    ensures Trim(s) == "" <==> IsBlank(s)
  {
    var t := TrimStart(s);
    var k := |s| - |t|;
    if !IsBlank(s) {
      var i :| 0 <= i < |s| && !IsTrimmable(s[i]);
      assert !IsBlank(t) by {
        assert t[i - k] == s[i];
      }
    }
  }

  /** What `${arr[i]}` prints: the element when `i` is an index of `arr`, and
      the word "undefined" otherwise. */
  function ElementText(arr: seq<string>, i: int): string {
    if 0 <= i < |arr| then arr[i] else "undefined"
  }
}
