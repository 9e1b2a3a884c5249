/** Python's `str.title`, used to build model names, over ASCII text.
    A word is a maximal run of letters: its first letter is upper-cased and
    the rest are lower-cased; every other character is left as it is. */
module PyStr {

  predicate IsCased(c: char) {
    'a' <= c <= 'z' || 'A' <= c <= 'Z'
  }

  function Upper(c: char): (u: char)
    ensures IsCased(u) == IsCased(c)
    ensures 'a' <= c <= 'z' ==> 'A' <= u <= 'Z'
  {
    if 'a' <= c <= 'z' then (c as int - 32) as char else c
  }

  function Lower(c: char): (l: char)
    ensures IsCased(l) == IsCased(c)
    ensures 'A' <= c <= 'Z' ==> 'a' <= l <= 'z'
  {
    if 'A' <= c <= 'Z' then (c as int + 32) as char else c
  }

  /** The title-cased form of one character, given whether the character
      before it (in the original string) was a letter. */
  function TitleChar(c: char, afterCased: bool): char {
    if !IsCased(c) then c else if afterCased then Lower(c) else Upper(c)
  }

  /** `str.title` applied to `s`, where `afterCased` tells whether `s`
      continues a word. Each position is decided by the original character
      and its original predecessor alone. */
  function TitleFrom(s: string, afterCased: bool): (r: string)
    ensures |r| == |s|
    ensures forall i :: 0 <= i < |s| ==> IsCased(r[i]) == IsCased(s[i])
    ensures forall i :: 0 <= i < |s| ==>
      r[i] == TitleChar(s[i], if i == 0 then afterCased else IsCased(s[i - 1]))
  {
    if s == [] then []
    else [TitleChar(s[0], afterCased)] + TitleFrom(s[1..], IsCased(s[0]))
  }

  function Title(s: string): (r: string)
    ensures |r| == |s|
  {
    TitleFrom(s, false)
  }

  /** Within a word only the first letter is upper-case. */
  lemma TitleWordShape(s: string, i: nat)
    requires i < |s| && IsCased(s[i])
    ensures i == 0 || !IsCased(s[i - 1]) ==> !('a' <= Title(s)[i] <= 'z')
    ensures i > 0 && IsCased(s[i - 1]) ==> !('A' <= Title(s)[i] <= 'Z')
  {
  }
}
