/** What several modules share: optional values, machine integers and C strings as byte sequences. */
module Basics {
  datatype Option<T> = None | Some(value: T)

  type Byte = x: nat | x < 0x100
  type Word16 = x: nat | x < 0x1_0000
  type Word32 = x: nat | x < 0x1_0000_0000

  /** The text up to the first zero. */
  function Text(s: seq<Byte>): (t: seq<Byte>)
    ensures |t| <= |s| && 0 !in t
  {
    if s == [] || s[0] == 0 then [] else [s[0]] + Text(s[1..])
  }
}
