/** ASCII case folding. */
module Text {
  function Lower(c: char): char {
    if 'A' <= c <= 'Z' then c - 'A' + 'a' else c
  }

  function Normalize(s: string): (r: string)
    ensures |r| == |s| && forall i :: 0 <= i < |s| ==> r[i] == Lower(s[i])
  {
    if s == [] then [] else Normalize(s[..|s| - 1]) + [Lower(s[|s| - 1])]
  }
}
