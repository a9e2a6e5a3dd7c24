/** Byte and word helpers shared by both interpreters: `uint16_t` values,
    the 8-bit halves of a register pair, and the signed reading of a byte. */
module Word {

  /** A `uint16_t`: a register pair, SP, PC or an address. */
  type uint16 = x: int | 0 <= x < 0x10000

  /** Conversion to `uint16_t` of a value at most one period away from the
      range, which covers every sum and difference the interpreters form
      (a register plus or minus a small offset or a signed byte). */
  function Wrap(x: int): (w: uint16)
    requires -0x10000 <= x < 0x20000
  {
    if x < 0 then x + 0x10000 else if x < 0x10000 then x else x - 0x10000
  }

  /** Wrap is C's conversion: the value modulo 65536. */
  lemma WrapIsModulo(x: int)
    requires -0x10000 <= x < 0x20000
    ensures Wrap(x) == x % 0x10000
  {
    if x < 0 {
      assert x == -1 * 0x10000 + (x + 0x10000);
    } else if x >= 0x10000 {
      assert x == 1 * 0x10000 + (x - 0x10000);
    }
  }

  /** Wrapping an intermediate result does not change the final wrap. */
  lemma WrapAdd(x: int, n: int)
    requires -0x10000 <= x < 0x20000 && -0x10000 <= n <= 0x10000
    requires -0x10000 <= x + n < 0x20000
    ensures Wrap(Wrap(x) + n) == Wrap(x + n)
  {
  }

  /** The byte whose value is `x`: a conversion to `uint8_t` of a value
      that fits. It counts up from 0 rather than casting, so that its
      contract carries the value to every caller. */
  function ToByte(x: int): (b: bv8)
    requires 0 <= x < 0x100
    ensures b as int == x
    decreases x
  {
    if x == 0 then 0 else ToByte(x - 1) + 1
  }

  /** A byte is the conversion of its own value. */
  lemma ToByteOfByte(b: bv8)
    ensures ToByte(b as int) == b
  {
    var c := ToByte(b as int);
    assert (c as int) as bv8 == c && (b as int) as bv8 == b;
  }

  /** The high byte of a register pair (B of BC, A of AF): get_first_reg. */
  function High(w: uint16): (b: bv8)
    ensures b as int == w / 0x100
  {
    ToByte(w / 0x100)
  }

  /** The low byte of a register pair (C of BC, F of AF): get_last_reg. */
  function Low(w: uint16): (b: bv8)
    ensures b as int == w % 0x100
  {
    ToByte(w % 0x100)
  }

  /** `high << 8 | low`: the pair with the given halves. */
  function Join(high: bv8, low: bv8): (w: uint16)
    ensures High(w) == high && Low(w) == low
  {
    var w := high as int * 0x100 + low as int;
    assert w / 0x100 == high as int && w % 0x100 == low as int;
    ToByteOfByte(high);
    ToByteOfByte(low);
    w
  }

  /** `w & 0xFF00 | b`: the pair with its low byte replaced. */
  function WithLow(w: uint16, b: bv8): uint16 {
    Join(High(w), b)
  }

  /** `w << 8` stored back into a `uint16_t`: the low byte moves to the top
      and the bits shifted past bit 15 are lost. */
  function ShiftLeftByte(w: uint16): (r: uint16)
    ensures r == (w * 0x100) % 0x10000
  {
    var q, low := w / 0x100, w % 0x100;
    assert w * 0x100 == q * 0x10000 + low * 0x100;
    Join(Low(w), 0)
  }

  /** Bit 15 of a pair is bit 7 of its high byte. */
  lemma HighBit7(w: uint16)
    ensures High(w) & 0x80 != 0 <==> w / 0x8000 == 1
  {
    var h := High(w);
    assert h & 0x80 != 0 <==> h >= 0x80;
  }

  /** The bitwise OR of two pairs, which acts on each byte separately. */
  function Or(x: uint16, y: uint16): (r: uint16)
    ensures High(r) == High(x) | High(y) && Low(r) == Low(x) | Low(y)
  {
    Join(High(x) | High(y), Low(x) | Low(y))
  }

  /** A pair is determined by its two halves. */
  lemma JoinSplit(w: uint16)
    ensures Join(High(w), Low(w)) == w
  {
  }

  /** A byte read as a two's-complement `int8_t`. */
  function SignedByte(b: bv8): (v: int)
    ensures -128 <= v < 128
    ensures (v + 256) % 256 == b as int
    ensures v < 0 <==> b & 0x80 != 0
  {
    if b < 0x80 then b as int else b as int - 256
  }
}
