/** The JavaScript string operations the core relies on, over `seq<char>`:
    `includes`, `toLowerCase` (ASCII letters only) and `split(' ')[0]`. */
module Text {

  /** `s.includes(sub)`: `sub` occurs in `s` at some position (the empty
      string occurs everywhere). */
  predicate Contains(s: string, sub: string)
    ensures Contains(s, sub) ==> |sub| <= |s|
    ensures sub <= s ==> Contains(s, sub)
  {
    assert sub <= s ==> OccursAt(s, sub, 0);
    exists i | 0 <= i <= |s| - |sub| :: OccursAt(s, sub, i)
  }

  /** `sub` occurs in `s` starting at index `i`. */
  predicate OccursAt(s: string, sub: string, i: int) {
    0 <= i && i + |sub| <= |s| && s[i..i + |sub|] == sub
  }

  /** Lower-cases one character; only 'A'..'Z' are mapped. */
  function LowerChar(c: char): (d: char)
    ensures 'A' <= c <= 'Z' ==> 'a' <= d <= 'z' && d as int - c as int == 'a' as int - 'A' as int
    ensures !('A' <= c <= 'Z') ==> d == c
  {
    if 'A' <= c <= 'Z' then (c as int - 'A' as int + 'a' as int) as char else c
  }

  /** `s.toLowerCase()` restricted to ASCII letters: each character
      lower-cased on its own, so no upper-case ASCII letter is left. */
  function ToLowerAscii(s: string): (r: string)
    ensures |r| == |s|
    ensures forall i :: 0 <= i < |r| ==> !('A' <= r[i] <= 'Z')
  {
    seq(|s|, i requires 0 <= i < |s| => LowerChar(s[i]))
  }

  /** `s.split(' ')[0]`: the longest prefix of `s` holding no space. It is a
      prefix, has no space, and is followed by a space unless it is all of `s`. */
  function FirstToken(s: string): (r: string)
    ensures r <= s
    ensures ' ' !in r
    ensures |r| < |s| ==> s[|r|] == ' '
  {
    if s == [] || s[0] == ' ' then [] else [s[0]] + FirstToken(s[1..])
  }

  /** The three properties of FirstToken determine it: any string that has
      them is the first token. */
  lemma FirstTokenUnique(s: string, t: string)
    requires t <= s && ' ' !in t && (|t| < |s| ==> s[|t|] == ' ')
    ensures t == FirstToken(s)
  {
  }
}
