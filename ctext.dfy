/**
 * NUL-terminated character buffers: what `MQTT.publish(topic, char*)`
 * reads from a buffer that `sprintf` has filled.
 */
module CText {

  const NUL: char := 0 as char

  /** The characters of the buffer before its first NUL (`strlen` of it). */
  function CString(a: seq<char>): (s: string)
    ensures |s| <= |a| && NUL !in s
    ensures |s| < |a| ==> a[|s|] == NUL
    ensures s == a[..|s|]
  {
    if a == [] then []
    else if a[0] == NUL then []
    else [a[0]] + CString(a[1..])
  }

  /** A text without NUL written at the start of a buffer and terminated reads back unchanged. */
  lemma {:induction false} CStringOfTerminated(a: seq<char>, s: string)
    requires NUL !in s && |s| < |a|
    requires a[..|s|] == s && a[|s|] == NUL
    ensures CString(a) == s
  {
    if s != [] {
      assert a[1..][..|s| - 1] == s[1..];
      CStringOfTerminated(a[1..], s[1..]);
    }
  }
}
