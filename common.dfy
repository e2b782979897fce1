/** Definitions shared by the whole firmware: the C integer types, ASCII text and the application flags of main.h. */
module Common {

  /** An unsigned 8-bit value (`u8`). */
  newtype byte = x: int | 0 <= x < 256

  /** An unsigned 32-bit value (`u32`), kept as a bit-vector so that wrap-around is the hardware's. */
  type u32 = bv32

  /** An unsigned 16-bit value (`u16`). */
  type u16 = x: int | 0 <= x < 0x1_0000

  /** A signed 8-bit value (`s8`). */
  type s8 = x: int | -128 <= x < 128

  const NUL: byte := 0

  /** Bits of G_u32ApplicationFlags that tasks set once their initialisation succeeded
      (main.h is not part of this model: the bit positions are placeholders, only their distinctness matters). */
  const APPLICATION_FLAGS_LCD: u32 := 0x0000_0010
  const APPLICATION_FLAGS_ANT: u32 := 0x0000_0040

  /** True when every character of `s` has a single-byte ASCII code. */
  predicate IsAscii(s: string) {
    forall i :: 0 <= i < |s| ==> s[i] as int < 256
  }

  /** The bytes of an ASCII string literal, as the C compiler lays them out (without the NUL). */
  function Ascii(s: string): (r: seq<byte>)
    requires IsAscii(s)
    ensures |r| == |s|
    ensures forall i :: 0 <= i < |s| ==> r[i] as int == s[i] as int
  {
    seq(|s|, i requires 0 <= i < |s| => s[i] as int as byte)
  }

  /** The code of one ASCII character. */
  function Char(c: char): (b: byte)
    requires c as int < 256
    ensures b as int == c as int
  {
    c as int as byte
  }

  /** Bit-wise exclusive or of two bytes. */
  function Xor(a: byte, b: byte): byte {
    ((a as bv8) ^ (b as bv8)) as byte
  }

  /** Bit-wise or of two bytes. */
  function Or(a: byte, b: byte): byte {
    ((a as bv8) | (b as bv8)) as byte
  }

  /** Terminating a text that holds no NUL and reading it back as a C string gives the text. */
  lemma {:induction false} CStringOfTerminated(text: seq<byte>, rest: seq<byte>)
    requires NUL !in text
    ensures CString(text + [NUL] + rest) == text
  {
    if text != [] {
      assert (text + [NUL] + rest)[1..] == text[1..] + [NUL] + rest;
      CStringOfTerminated(text[1..], rest);
    }
  }

  /** The characters of a NUL-terminated C string, that is everything before its first NUL. */
  function CString(s: seq<byte>): (r: seq<byte>)
    ensures |r| <= |s| && r == s[..|r|]
    ensures NUL !in r
    ensures |r| < |s| ==> s[|r|] == NUL
  {
    if s == [] || s[0] == NUL then [] else [s[0]] + CString(s[1..])
  }
}
