/** Machine integers as bounded mathematical ones, and big-endian byte strings. */
module Bytes {
  type byte = x: int | 0 <= x < 256
  type u16 = x: int | 0 <= x < 0x1_0000
  type u32 = x: int | 0 <= x < 0x1_0000_0000
  type u64 = x: int | 0 <= x < 0x1_0000_0000_0000_0000

  datatype Option<+T> = None | Some(value: T)

  /** `u16::to_be_bytes`. */
  function Be16(x: u16): (b: seq<byte>)
    ensures |b| == 2
  {
    [x / 0x100, x % 0x100]
  }

  /** `u32::to_be_bytes`. */
  function Be32(x: u32): (b: seq<byte>)
    ensures |b| == 4
  {
    Be16(x / 0x1_0000) + Be16(x % 0x1_0000)
  }

  /** `u16::from_be_bytes`. */
  function FromBe16(a: byte, b: byte): u16 {
    a * 0x100 + b
  }

  /** `u32::from_be_bytes`. */
  function FromBe32(a: byte, b: byte, c: byte, d: byte): u32 {
    FromBe16(a, b) * 0x1_0000 + FromBe16(c, d)
  }

  lemma Halves(high: int, low: int, base: int)
    requires 0 <= low < base && (base == 0x100 || base == 0x1_0000)
    ensures (high * base + low) / base == high && (high * base + low) % base == low
  {
    if base == 0x100 {
      assert (high * 0x100 + low) / 0x100 == high;
    } else {
      assert (high * 0x1_0000 + low) / 0x1_0000 == high;
    }
  }

  lemma Be32Inverse(x: u32)
    ensures var b := Be32(x); FromBe32(b[0], b[1], b[2], b[3]) == x
  {
    var b := Be32(x);
    assert FromBe16(b[0], b[1]) == x / 0x1_0000;
    assert FromBe16(b[2], b[3]) == x % 0x1_0000;
  }

  lemma FromBe16Inverse(a: byte, b: byte)
    ensures Be16(FromBe16(a, b)) == [a, b]
  {
    Halves(a, b, 0x100);
  }

  lemma FromBe32Inverse(a: byte, b: byte, c: byte, d: byte)
    ensures Be32(FromBe32(a, b, c, d)) == [a, b, c, d]
  {
    hide Be16, FromBe16;
    Halves(FromBe16(a, b), FromBe16(c, d), 0x1_0000);
    FromBe16Inverse(a, b);
    FromBe16Inverse(c, d);
  }
}
