/** ASCII model of Go's `strings.ToLower`. */
module Strings {

  predicate IsUpperAscii(c: char) {
    'A' <= c <= 'Z'
  }

  /** Maps 'A'..'Z' to 'a'..'z' and leaves every other character alone. */
  function LowerChar(c: char): (r: char)
    ensures !IsUpperAscii(r)
    ensures IsUpperAscii(c) ==> r as int == c as int + 32
    ensures !IsUpperAscii(c) ==> r == c
  {
    if IsUpperAscii(c) then (c as int + 32) as char else c
  }

  /** No character of `s` is an upper-case ASCII letter. */
  predicate IsLower(s: string) {
    forall i :: 0 <= i < |s| ==> !IsUpperAscii(s[i])
  }

  function ToLower(s: string): (r: string)
    ensures |r| == |s|
    ensures IsLower(r)
  {
    if s == [] then [] else [LowerChar(s[0])] + ToLower(s[1..])
  }

  /** Each character of the result is the lowered character at the same position. */
  lemma {:induction false} ToLowerAt(s: string, i: nat)
    requires i < |s|
    ensures ToLower(s)[i] == LowerChar(s[i])
  {
    if i > 0 {
      ToLowerAt(s[1..], i - 1);
    }
  }

  /** A string with no upper-case ASCII letter is its own lower-case form. */
  lemma {:induction false} ToLowerFixesLower(s: string)
    requires IsLower(s)
    ensures ToLower(s) == s
  {
    if s != [] {
      assert IsLower(s[1..]) by {
        forall i | 0 <= i < |s[1..]| ensures !IsUpperAscii(s[1..][i]) {
          assert s[1..][i] == s[i + 1];
        }
      }
      ToLowerFixesLower(s[1..]);
      assert s == [s[0]] + s[1..];
    }
  }

  lemma ToLowerIdempotent(s: string)
    ensures ToLower(ToLower(s)) == ToLower(s)
  {
    ToLowerFixesLower(ToLower(s));
  }
}
