/**
 * Little-endian reading and writing of the unsigned 16- and 32-bit integers
 * that make up the RIFF headers and the WAVE format record.  The C++ source
 * reads whole packed structs from the stream on a little-endian host; here
 * every field is decoded from its bytes explicitly.  The unsigned C++ types
 * are integer ranges; wherever the source relies on unsigned wrap-around the
 * model reduces modulo the type's range explicitly.
 */
module LittleEndian {

  /** `uint8_t` */
  type Byte = x: int | 0 <= x < 0x100
  /** `uint16_t` */
  type U16 = x: int | 0 <= x < 0x1_0000
  /** `uint32_t` */
  type U32 = x: int | 0 <= x < 0x1_0000_0000

  /** The number whose lowest base-256 digit is `low` and whose other digits give `high`. */
  function Join(low: Byte, high: nat): nat {
    low as int + 0x100 * high
  }

  /** Splitting a joined number gives back its lowest digit and the rest. */
  lemma SplitJoin(low: Byte, high: nat)
    ensures Join(low, high) % 0x100 == low && Join(low, high) / 0x100 == high
  {
  }

  /** The unsigned 16-bit value stored at s[i], s[i+1], least significant byte first. */
  function U16At(s: seq<Byte>, i: nat): U16
    requires i + 2 <= |s|
  {
    Join(s[i], s[i + 1])
  }

  /** The unsigned 32-bit value stored at s[i..i+4], least significant byte first. */
  function U32At(s: seq<Byte>, i: nat): U32
    requires i + 4 <= |s|
  {
    Join(s[i], Join(s[i + 1], Join(s[i + 2], s[i + 3])))
  }

  /** The two bytes of x, least significant first; reading them back gives x. */
  function U16Bytes(x: U16): (r: seq<Byte>)
    ensures |r| == 2 && U16At(r, 0) == x
  {
    [x % 0x100, x / 0x100]
  }

  /** The four bytes of x, least significant first; reading them back gives x. */
  function U32Bytes(x: U32): (r: seq<Byte>)
    ensures |r| == 4 && U32At(r, 0) == x
  {
    var x1 := x / 0x100;
    var x2 := x1 / 0x100;
    [x % 0x100, x1 % 0x100, x2 % 0x100, x2 / 0x100]
  }

  /** Writing back the value read from two bytes reproduces those bytes. */
  lemma U16BytesOfRead(s: seq<Byte>, i: nat)
    requires i + 2 <= |s|
    ensures U16Bytes(U16At(s, i)) == s[i..i + 2]
  {
    SplitJoin(s[i], s[i + 1]);
  }

  /** Writing back the value read from four bytes reproduces those bytes. */
  lemma U32BytesOfRead(s: seq<Byte>, i: nat)
    requires i + 4 <= |s|
    ensures U32Bytes(U32At(s, i)) == s[i..i + 4]
  {
    var x2 := Join(s[i + 2], s[i + 3]);
    var x1 := Join(s[i + 1], x2);
    var x := Join(s[i], x1);
    SplitJoin(s[i], x1);
    SplitJoin(s[i + 1], x2);
    SplitJoin(s[i + 2], s[i + 3]);
    assert x / 0x1_0000 == x1 / 0x100;
    assert x / 0x100_0000 == x2 / 0x100;
  }
}
