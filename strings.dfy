/**
 * String helpers used by both the backend and the frontend model: trimming
 * with a caller-given set of characters (Python's `strip`/`rstrip(chars)`,
 * JavaScript's `trim`) and ASCII lower-casing.
 */
module Strings {

  /** Removes every leading character that `drop` accepts. */
  function TrimLeft(s: string, drop: char -> bool): (r: string)
    ensures |r| <= |s| && r == s[|s| - |r|..]
    ensures r == [] || !drop(r[0])
    ensures forall i :: 0 <= i < |s| - |r| ==> drop(s[i])
  {
    if s != [] && drop(s[0]) then TrimLeft(s[1..], drop) else s
  }

  /** Removes every trailing character that `drop` accepts. */
  function TrimRight(s: string, drop: char -> bool): (r: string)
    ensures r <= s
    ensures r == [] || !drop(r[|r| - 1])
    ensures forall i :: |r| <= i < |s| ==> drop(s[i])
  {
    if s != [] && drop(s[|s| - 1]) then TrimRight(s[..|s| - 1], drop) else s
  }

  /** Removes the characters `drop` accepts from both ends. */
  function Trim(s: string, drop: char -> bool): string
  {
    TrimRight(TrimLeft(s, drop), drop)
  }

  /** A trimmed string is empty exactly when every character of the input is dropped. */
  lemma TrimEmptyIffAllDropped(s: string, drop: char -> bool)
    ensures Trim(s, drop) == [] <==> forall i :: 0 <= i < |s| ==> drop(s[i])
  {
    var l := TrimLeft(s, drop);
    if !forall i :: 0 <= i < |s| ==> drop(s[i]) {
      var i :| 0 <= i < |s| && !drop(s[i]);
      assert |s| - |l| <= i;
      assert l[i - (|s| - |l|)] == s[i];
    }
  }

  /** Lower-cases one character when it is an ASCII capital letter. */
  function AsciiLowerChar(c: char): char
  {
    if 'A' <= c <= 'Z' then (c as int + 32) as char else c
  }

  /** Lower-cases every ASCII capital letter of `s` and keeps every other character. */
  function AsciiLower(s: string): (r: string)
    ensures |r| == |s|
    ensures forall i :: 0 <= i < |s| ==> r[i] == AsciiLowerChar(s[i])
  {
    if s == [] then [] else [AsciiLowerChar(s[0])] + AsciiLower(s[1..])
  }
}
