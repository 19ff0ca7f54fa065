/**
 * Bytes, characters and ASCII case folding, as used when the inbound
 * payload is turned into text and compared against the command words
 * (Arduino `String::equals` and `String::equalsIgnoreCase`).
 */
module Ascii {

  /** One payload byte. */
  type byte = x: int | 0 <= x < 256

  /** The `(char)` cast of a payload byte: the character with that code. */
  function ByteToChar(b: byte): (c: char)
    ensures c as int == b
  {
    b as char
  }

  /** The text made of the given bytes, one character per byte. */
  function AsText(bytes: seq<byte>): (s: string)
    ensures |s| == |bytes|
    ensures forall i :: 0 <= i < |bytes| ==> s[i] as int == bytes[i]
  {
    seq(|bytes|, i requires 0 <= i < |bytes| => ByteToChar(bytes[i]))
  }

  predicate IsUpper(c: char)
  {
    'A' <= c <= 'Z'
  }

  /** `tolower` in the C locale: only the 26 upper-case ASCII letters change. */
  function ToLowerAscii(c: char): (r: char)
    ensures !IsUpper(r)
    ensures !IsUpper(c) ==> r == c
    ensures IsUpper(c) ==> r as int == c as int + 32
  {
    if IsUpper(c) then (c as int - 'A' as int + 'a' as int) as char else c
  }

  /** The text with every upper-case ASCII letter folded to lower case. */
  function Lower(s: string): (r: string)
    ensures |r| == |s|
    ensures forall i :: 0 <= i < |s| ==> r[i] == ToLowerAscii(s[i])
  {
    seq(|s|, i requires 0 <= i < |s| => ToLowerAscii(s[i]))
  }

  /**
   * `equalsIgnoreCase`: the lengths agree and the characters agree
   * pairwise once both are folded to lower case.
   */
  predicate EqualsIgnoreCase(a: string, b: string)
  {
    |a| == |b| &&
    (a == [] || (ToLowerAscii(a[0]) == ToLowerAscii(b[0]) && EqualsIgnoreCase(a[1..], b[1..])))
  }

  /** Comparing ignoring case is comparing the lower-case foldings. */
  lemma {:induction false} EqualsIgnoreCaseIffLower(a: string, b: string)
    ensures EqualsIgnoreCase(a, b) <==> Lower(a) == Lower(b)
  {
    if |a| == |b| && a != [] {
      EqualsIgnoreCaseIffLower(a[1..], b[1..]);
      assert Lower(a) == [ToLowerAscii(a[0])] + Lower(a[1..]);
      assert Lower(b) == [ToLowerAscii(b[0])] + Lower(b[1..]);
    }
  }

  /** Ignoring case is an equivalence that includes plain equality. */
  lemma EqualsIgnoreCaseEquivalence(a: string, b: string, c: string)
    ensures a == b ==> EqualsIgnoreCase(a, b)
    ensures EqualsIgnoreCase(a, b) ==> EqualsIgnoreCase(b, a)
    ensures EqualsIgnoreCase(a, b) && EqualsIgnoreCase(b, c) ==> EqualsIgnoreCase(a, c)
  {
    EqualsIgnoreCaseIffLower(a, b);
    EqualsIgnoreCaseIffLower(b, a);
    EqualsIgnoreCaseIffLower(b, c);
    EqualsIgnoreCaseIffLower(a, c);
  }
}
