/** Octets and the small helpers every codec here needs. */
module Bytes {

  type Byte = b: int | 0 <= b < 0x100

  type U16 = w: int | 0 <= w < 0x1_0000

  datatype Option<+T> = None | Some(value: T)

  /** The big-endian 16-bit number at `at`. */
  function U16At(s: seq<Byte>, at: nat): (w: U16)
    requires at + 2 <= |s|
  {
    s[at] as int * 0x100 + s[at + 1] as int
  }

  /** `w` as two octets, most significant first. */
  function Be16(w: U16): (s: seq<Byte>)
    ensures |s| == 2 && U16At(s, 0) == w
  {
    [w / 0x100, w % 0x100]
  }

  lemma Be16Inverts(s: seq<Byte>, at: nat)
    requires at + 2 <= |s|
    ensures Be16(U16At(s, at)) == s[at..at + 2]
  {
    assert (s[at] as int * 0x100 + s[at + 1] as int) / 0x100 == s[at];
    assert (s[at] as int * 0x100 + s[at + 1] as int) % 0x100 == s[at + 1];
    assert s[at..at + 2] == [s[at], s[at + 1]];
  }
}
