/** The string searches of Go's strings package that the controllers use. */
module Text {

  /** strings.Index of one character: the first position, or -1. */
  function Index(s: string, c: char): (i: int)
    ensures -1 <= i < |s|
    ensures i >= 0 ==> s[i] == c
    ensures forall j | 0 <= j < (if i < 0 then |s| else i) :: s[j] != c
  {
    if s == [] then -1
    else if s[0] == c then 0
    else
      var i := Index(s[1..], c);
      assert forall j | 0 < j < |s| :: s[j] == s[1..][j - 1];
      if i < 0 then -1 else i + 1
  }

  /** strings.LastIndex of one character: the last position, or -1. */
  function LastIndex(s: string, c: char): (i: int)
    ensures -1 <= i < |s|
    ensures i >= 0 ==> s[i] == c
    ensures forall j | i < j < |s| :: s[j] != c
  {
    if s == [] then -1
    else if s[|s| - 1] == c then |s| - 1
    else LastIndex(s[..|s| - 1], c)
  }

  predicate Lacks(s: string, c: char) {
    forall i | 0 <= i < |s| :: s[i] != c
  }

  predicate IsAt(s: string, sub: string, i: int) {
    0 <= i <= |s| - |sub| && s[i..i + |sub|] == sub
  }

  /** strings.Index of a string: the first position, or -1. */
  function IndexOf(s: string, sub: string): (i: int)
    ensures i == -1 || IsAt(s, sub, i)
    ensures forall j | 0 <= j < (if i < 0 then |s| + 1 else i) :: !IsAt(s, sub, j)
  {
    IndexFrom(s, sub, 0)
  }

  function IndexFrom(s: string, sub: string, from: nat): (i: int)
    requires from <= |s| + 1
    ensures i == -1 || (from <= i && IsAt(s, sub, i))
    ensures forall j | from <= j < (if i < 0 then |s| + 1 else i) :: !IsAt(s, sub, j)
    decreases |s| + 1 - from
  {
    if from > |s| then -1
    else if IsAt(s, sub, from) then from
    else IndexFrom(s, sub, from + 1)
  }
}
