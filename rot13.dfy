/**
 * The example `rot13` command: lower-case the input, then move every letter
 * thirteen places along the alphabet and keep every other character.
 * Only ASCII input is modelled: there `str.isalpha` means a letter A-Z or a-z
 * and `str.lower` maps A-Z to a-z one character at a time.
 */
module Rot13 {

  predicate IsAscii(s: string)
  {
    forall i :: 0 <= i < |s| ==> s[i] as int < 128
  }

  predicate IsUpper(c: char) { 'A' <= c <= 'Z' }

  predicate IsLower(c: char) { 'a' <= c <= 'z' }

  /** `c.isalpha()` for an ASCII character. */
  predicate IsAlpha(c: char) { IsUpper(c) || IsLower(c) }

  /** `c.lower()` for an ASCII character. */
  function ToLower(c: char): char
  {
    if IsUpper(c) then (c as int + 32) as char else c
  }

  /** `s.lower()` for an ASCII string. */
  function Lower(s: string): (r: string)
    ensures |r| == |s|
    ensures forall i :: 0 <= i < |s| ==> r[i] == ToLower(s[i])
  {
    if s == [] then [] else [ToLower(s[0])] + Lower(s[1..])
  }

  /** `chr((ord(c) - 97 + 13) % 26 + 97)`; Python's `%` and Dafny's agree for the divisor 26. */
  function Shift13(c: char): (r: char)
    ensures IsLower(r)
  {
    ((c as int - 97 + 13) % 26 + 97) as char
  }

  /** The generator over the lowered input: letters are shifted, the rest kept. */
  function Encode(s: string): (r: string)
    ensures |r| == |s|
    ensures forall i :: 0 <= i < |s| ==> r[i] == if IsAlpha(s[i]) then Shift13(s[i]) else s[i]
  {
    if s == [] then [] else [if IsAlpha(s[0]) then Shift13(s[0]) else s[0]] + Encode(s[1..])
  }

  /**
   * The command body: same length as the input, every non-letter in place,
   * every letter replaced by the lower-case letter thirteen places on, so no
   * upper-case letter is left.
   */
  function Rot13(input: string): (output: string)
    requires IsAscii(input)
    ensures |output| == |input|
    ensures forall i :: 0 <= i < |input| && !IsAlpha(input[i]) ==> output[i] == input[i]
    ensures forall i :: 0 <= i < |input| && IsAlpha(input[i]) ==>
              output[i] as int == (ToLower(input[i]) as int - 'a' as int + 13) % 26 + 'a' as int
    ensures forall i :: 0 <= i < |output| ==> !IsUpper(output[i])
    ensures IsAscii(output)
  {
    Encode(Lower(input))
  }

  /**
   * Applying rot13 twice gives the lower-cased input: every letter is shifted
   * by 26 in all and every other character is kept.
   */
  lemma {:induction false} Rot13Twice(input: string)
    requires IsAscii(input)
    ensures Rot13(Rot13(input)) == Lower(input)
  {
    var once := Rot13(input);
    var twice := Rot13(once);
    forall i | 0 <= i < |input|
      ensures twice[i] == Lower(input)[i]
    {
      if IsAlpha(input[i]) {
        var k := ToLower(input[i]) as int - 97;
        assert 0 <= k < 26;
        assert once[i] as int - 97 == (k + 13) % 26;
        assert twice[i] as int - 97 == ((k + 13) % 26 + 13) % 26 == k;
      }
    }
  }
}
