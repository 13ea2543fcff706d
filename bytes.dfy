/**
 * Go's `string` is an immutable sequence of bytes, and `len` on a string
 * counts bytes, not characters. Keys, values and response bodies are all
 * modelled as byte sequences.
 */
module GoBytes {

  newtype byte = b: int | 0 <= b < 256

  /** The bytes of a Go string, in order. */
  type GoString = seq<byte>

  predicate IsAscii(s: string) {
    forall i :: 0 <= i < |s| ==> s[i] as int < 128
  }

  /**
   * The bytes of an ASCII string literal, which is what Go's `[]byte("...")`
   * yields for a literal made only of ASCII characters: one byte per
   * character, holding its code.
   */
  function AsciiBytes(s: string): (b: GoString)
    requires IsAscii(s)
    ensures |b| == |s|
    ensures forall i :: 0 <= i < |s| ==> b[i] as int == s[i] as int
  {
    if s == [] then [] else [s[0] as int as byte] + AsciiBytes(s[1..])
  }
}
