/** The instruction handlers of the current interpreter (src/cpu.c) as
    functions from one CPU state to the next. Each body follows the C code
    step by step; each contract says what the handler does to the registers,
    the flags and memory, including where that departs from SM83 hardware. */
module Handlers {
  import opened Word
  import opened Machine

  // The flag bits of F and their positions.
  const FlagZ: bv8 := 0x80
  const FlagN: bv8 := 0x40
  const FlagH: bv8 := 0x20
  const FlagC: bv8 := 0x10
  const FlagAll: bv8 := 0xF0
  const ZPos := 7
  const NPos := 6
  const HPos := 5
  const CPos := 4

  /** Whether the flag bit `flag` is set in the flag byte `f`. */
  predicate Flag(f: bv8, flag: bv8) { f & flag != 0 }

  /** A fetched value and the state after the fetch. */
  datatype Fetched<T> = Fetched(value: T, next: State)

  // ---------------------------------------------------------------------
  // Fetch primitives

  /** fetch_byte: the byte at PC, then PC advances by one (modulo 65536). */
  function FetchByte(s: State): Fetched<bv8> {
    Fetched(s.Read(s.PC), s.(PC := Wrap(s.PC + 1)))
  }

  /** fetch_word: two byte fetches, the first one the low byte. */
  function FetchWord(s: State): (r: Fetched<uint16>)
    ensures r.value == Join(s.Read(Wrap(s.PC + 1)), s.Read(s.PC))
    ensures r.next == s.(PC := Wrap(s.PC + 2))
  {
    var low := FetchByte(s);
    var high := FetchByte(low.next);
    Fetched(Join(high.value, low.value), high.next)
  }

  // ---------------------------------------------------------------------
  // The flag codec

  /* In C, `f_reg & 0x80 >> Z_POS` parses as `f_reg & (0x80 >> 7)`: each
     getter masks with 1 after shifting the mask, never the flag byte. */

  /** get_z_flag. */
  function GetZFlag(f: bv8): (r: bv8)
    ensures r == f & 0x01
  {
    f & (FlagZ >> ZPos)
  }

  /** get_n_flag. */
  function GetNFlag(f: bv8): (r: bv8)
    ensures r == f & 0x01
  {
    f & (FlagN >> NPos)
  }

  /** get_h_flag. */
  function GetHFlag(f: bv8): (r: bv8)
    ensures r == f & 0x01
  {
    f & (FlagH >> HPos)
  }

  /** get_c_flag. */
  function GetCFlag(f: bv8): (r: bv8)
    ensures r == f & 0x01
  {
    f & (FlagC >> CPos)
  }

  /** update_flags: the bits of F selected by `mask` are taken from `flags`,
      the others are kept; A and everything else is untouched. */
  function UpdateFlags(s: State, mask: bv8, flags: bv8): (t: State)
    ensures t.F() & mask == flags & mask
    ensures t.F() & !mask == s.F() & !mask
    ensures t == s.(AF := Join(s.A(), t.F()))
  {
    var f := Low(s.AF);
    var f' := (f & !mask) | (flags & mask);
    s.(AF := WithLow(s.AF, f'))
  }

  /** The flag byte `after` is what an 8-bit increment of `operand` leaves
      when the flag byte was `before`: Z iff the result wrapped to 0, H iff
      the low nibble carried out, N clear, C and bits 0-3 kept. */
  predicate IncrementFlags(before: bv8, after: bv8, operand: bv8) {
    && (Flag(after, FlagZ) <==> operand == 0xFF)
    && (Flag(after, FlagH) <==> operand & 0x0F == 0x0F)
    && !Flag(after, FlagN)
    && after & 0x1F == before & 0x1F
  }

  /** The flag update shared by the 8-bit increments: the half-carry is
      detected by adding 1 to the low nibble and testing bit 4. */
  function IncrementUpdate(s: State, operand: bv8): (t: State)
    ensures IncrementFlags(s.F(), t.F(), operand)
    ensures t == s.(AF := Join(s.A(), t.F()))
  {
    var hFlag: bv8 := (if ((operand & 0x0F) + 0x01) & 0x10 == 0x10 then 1 else 0) << HPos;
    var result := operand + 1;
    var zFlag := if result == 0 then FlagZ else 0x00;
    UpdateFlags(s, FlagH | FlagZ | FlagN, hFlag | zFlag)
  }

  // ---------------------------------------------------------------------
  // Stack primitives (inlined in every push, pop, call and ret handler)

  /** Decrement SP and store the high byte, decrement SP and store the low
      byte: two memory cells change, the word ends up little-endian at the
      new SP. */
  function PushWord(s: State, w: uint16): (t: State)
    ensures t.SP == Wrap(s.SP - 2)
    ensures t.Read(Wrap(s.SP - 1)) == High(w) && t.Read(Wrap(s.SP - 2)) == Low(w)
    ensures SameExcept(s, t, {Wrap(s.SP - 1), Wrap(s.SP - 2)})
    ensures t == s.(SP := t.SP, memory := t.memory)
  {
    var s1 := s.(SP := Wrap(s.SP - 1));
    var s2 := s1.Write(s1.SP, High(w));
    var s3 := s2.(SP := Wrap(s2.SP - 1));
    s3.Write(s3.SP, Low(w))
  }

  /** Read the low byte at SP, increment SP, read the high byte, increment
      SP again. */
  function PopWord(s: State): (r: Fetched<uint16>)
    ensures r.value == Join(s.Read(Wrap(s.SP + 1)), s.Read(s.SP))
    ensures r.next == s.(SP := Wrap(s.SP + 2))
  {
    var low := s.Read(s.SP);
    var s1 := s.(SP := Wrap(s.SP + 1));
    var high := s1.Read(s1.SP);
    Fetched(Join(high, low), s1.(SP := Wrap(s1.SP + 1)))
  }

  // ---------------------------------------------------------------------
  // Handlers

  /** nop. */
  function Nop(s: State): State { s }

  /** stop_n8: does nothing and does not consume its operand byte. */
  function StopN8(s: State): State { s }

  /** jr_nz_e8: the condition read through get_z_flag is bit 0 of F, and the
      branch is taken when that bit is 1. Only then is the signed offset
      fetched and added to the advanced PC; otherwise nothing changes, not
      even PC. */
  function JrNzE8(s: State): (t: State)
    ensures s.F() & 0x01 == 1 ==>
              t == s.(PC := Wrap(s.PC + 1 + SignedByte(s.Read(s.PC))))
    ensures s.F() & 0x01 == 0 ==> t == s
  {
    var zFlag := GetZFlag(Low(s.AF));
    if zFlag == 1 then
      var e := FetchByte(s);
      e.next.(PC := Wrap(e.next.PC + SignedByte(e.value)))
    else
      s
  }

  /** ld_sp_n16: SP is loaded with the little-endian immediate word. */
  function LdSpN16(s: State): (t: State)
    ensures t == s.(PC := Wrap(s.PC + 2), SP := Join(s.Read(Wrap(s.PC + 1)), s.Read(s.PC)))
  {
    var w := FetchWord(s);
    w.next.(SP := w.value)
  }

  /** ld_a_n8: A is loaded with the immediate byte, F is kept. */
  function LdAN8(s: State): (t: State)
    ensures t.A() == s.Read(s.PC) && t.F() == s.F()
    ensures t == s.(PC := Wrap(s.PC + 1), AF := t.AF)
  {
    var n := FetchByte(s);
    var f := Low(n.next.AF);
    n.next.(AF := Join(n.value, f))
  }

  /** ldh_a8_a: stores F (the low byte of AF), not A, at 0xFF00 + n. */
  function LdhA8A(s: State): (t: State)
    ensures t.Read(0xFF00 + s.Read(s.PC) as int) == s.F()
    ensures SameExcept(s, t, {0xFF00 + s.Read(s.PC) as int})
    ensures t == s.(PC := Wrap(s.PC + 1), memory := t.memory)
  {
    var n := FetchByte(s);
    n.next.Write(0xFF00 + n.value as int, Low(n.next.AF))
  }

  /** xor_a_a: only the flags change; A keeps its value. The high nibble of
      F becomes Z=1, N=0, H=0, C=0 and the low nibble is kept. */
  function XorAA(s: State): (t: State)
    ensures t.A() == s.A()
    ensures t.F() & 0xF0 == FlagZ && t.F() & 0x0F == s.F() & 0x0F
    ensures t == s.(AF := t.AF)
  {
    UpdateFlags(s, FlagAll, FlagZ)
  }

  /** ld_hl_n16: HL is loaded with the little-endian immediate word. */
  function LdHlN16(s: State): (t: State)
    ensures t == s.(PC := Wrap(s.PC + 2), HL := Join(s.Read(Wrap(s.PC + 1)), s.Read(s.PC)))
  {
    var w := FetchWord(s);
    w.next.(HL := w.value)
  }

  /** ld_hld_a: A is stored at HL, then HL is decremented. */
  function LdHldA(s: State): (t: State)
    ensures t.Read(s.HL) == s.A() && t.HL == Wrap(s.HL - 1)
    ensures SameExcept(s, t, {s.HL})
    ensures t == s.(HL := t.HL, memory := t.memory)
  {
    var a := High(s.AF);
    s.Write(s.HL, a).(HL := Wrap(s.HL - 1))
  }

  /** bit_7_h: Z is set exactly when bit 7 of H is 1 (the reverse of the
      hardware rule), and no other bit of AF changes. */
  function Bit7H(s: State): (t: State)
    ensures Flag(t.F(), FlagZ) <==> s.H() & 0x80 != 0
    ensures t.F() & 0x7F == s.F() & 0x7F
    ensures t == s.(AF := Join(s.A(), t.F()))
  {
    var h := High(s.HL);
    var zFlag := if (h >> 7) & 1 != 0 then FlagZ else 0x00;
    UpdateFlags(s, FlagZ, zFlag)
  }

  /** ei: writes 1 into the interrupt-enable latch at 0xFFFF. */
  function Ei(s: State): (t: State)
    ensures t.Read(0xFFFF) == 1
    ensures SameExcept(s, t, {0xFFFF})
    ensures t == s.(memory := t.memory)
  {
    s.Write(0xFFFF, 1)
  }

  /** ld_c_n8: BC becomes `B | n` without a shift, so the old B is OR-ed
      into C and the high byte, B, becomes 0. */
  function LdCN8(s: State): (t: State)
    ensures t.B() == 0 && t.C() == s.B() | s.Read(s.PC)
    ensures t == s.(PC := Wrap(s.PC + 1), BC := t.BC)
  {
    var n := FetchByte(s);
    var b := High(n.next.BC);
    n.next.(BC := Join(0x00, b | n.value))
  }

  /** ldh_c_a: A is stored at 0xFF00 + C. */
  function LdhCA(s: State): (t: State)
    ensures t.Read(0xFF00 + s.C() as int) == s.A()
    ensures SameExcept(s, t, {0xFF00 + s.C() as int})
    ensures t == s.(memory := t.memory)
  {
    var a := High(s.AF);
    var c := Low(s.BC);
    s.Write(0xFF00 + c as int, a)
  }

  /** inc_c: C is incremented modulo 256 with B kept; the flags follow the
      8-bit increment rule and C's carry flag is kept. */
  function IncC(s: State): (t: State)
    ensures t.B() == s.B() && t.C() == s.C() + 1
    ensures IncrementFlags(s.F(), t.F(), s.C())
    ensures t == s.(BC := t.BC, AF := Join(s.A(), t.F()))
  {
    var b := High(s.BC);
    var c := Low(s.BC);
    IncrementUpdate(s, c).(BC := Join(b, c + 1))
  }

  /** inc_h: the flags come from H, but H+1 and L are written into BC; HL
      is unchanged. */
  function IncH(s: State): (t: State)
    ensures t.BC == Join(s.H() + 1, s.L()) && t.HL == s.HL
    ensures IncrementFlags(s.F(), t.F(), s.H())
    ensures t == s.(BC := t.BC, AF := Join(s.A(), t.F()))
  {
    var h := High(s.HL);
    var l := Low(s.HL);
    IncrementUpdate(s, h).(BC := Join(h + 1, l))
  }

  /** inc_d: the flags come from D, but D+1 and E are written into BC; DE
      is unchanged. */
  function IncD(s: State): (t: State)
    ensures t.BC == Join(s.D() + 1, s.E()) && t.DE == s.DE
    ensures IncrementFlags(s.F(), t.F(), s.D())
    ensures t == s.(BC := t.BC, AF := Join(s.A(), t.F()))
  {
    var d := High(s.DE);
    var e := Low(s.DE);
    IncrementUpdate(s, d).(BC := Join(d + 1, e))
  }

  /** inc_e: the flags come from E, but D and E+1 are written into BC; DE
      is unchanged. */
  function IncE(s: State): (t: State)
    ensures t.BC == Join(s.D(), s.E() + 1) && t.DE == s.DE
    ensures IncrementFlags(s.F(), t.F(), s.E())
    ensures t == s.(BC := t.BC, AF := Join(s.A(), t.F()))
  {
    var d := High(s.DE);
    var e := Low(s.DE);
    IncrementUpdate(s, e).(BC := Join(d, e + 1))
  }

  /** inc_b: the flags come from B, but the incremented B is dropped and BC
      becomes two copies of C. */
  function IncB(s: State): (t: State)
    ensures t.B() == s.C() && t.C() == s.C()
    ensures IncrementFlags(s.F(), t.F(), s.B())
    ensures t == s.(BC := t.BC, AF := Join(s.A(), t.F()))
  {
    var b := High(s.BC);
    var c := Low(s.BC);
    IncrementUpdate(s, b).(BC := Join(c, c))
  }

  /** inc_l: the flags come from L, but H and L+1 are written into BC; HL
      is unchanged. */
  function IncL(s: State): (t: State)
    ensures t.BC == Join(s.H(), s.L() + 1) && t.HL == s.HL
    ensures IncrementFlags(s.F(), t.F(), s.L())
    ensures t == s.(BC := t.BC, AF := Join(s.A(), t.F()))
  {
    var h := High(s.HL);
    var l := Low(s.HL);
    IncrementUpdate(s, l).(BC := Join(h, l + 1))
  }

  /** ld_hl_a: A is stored at HL. */
  function LdHlA(s: State): (t: State)
    ensures t.Read(s.HL) == s.A()
    ensures SameExcept(s, t, {s.HL})
    ensures t == s.(memory := t.memory)
  {
    s.Write(s.HL, High(s.AF))
  }

  /** ld_de_a (the slot of LD DE,n16): DE is loaded with the little-endian
      immediate word. */
  function LdDeA(s: State): (t: State)
    ensures t == s.(PC := Wrap(s.PC + 2), DE := Join(s.Read(Wrap(s.PC + 1)), s.Read(s.PC)))
  {
    var w := FetchWord(s);
    w.next.(DE := w.value)
  }

  /** ld_a_de: A is loaded from the byte at DE, F is kept. */
  function LdADe(s: State): (t: State)
    ensures t.A() == s.Read(s.DE) && t.F() == s.F()
    ensures t == s.(AF := t.AF)
  {
    var a := s.Read(s.DE);
    s.(AF := Join(a, Low(s.AF)))
  }

  /** call_a16: fetch the target, push the address of the next instruction
      (high byte first), jump to the target. */
  function CallA16(s: State): (t: State)
    ensures t.PC == Join(s.Read(Wrap(s.PC + 1)), s.Read(s.PC))
    ensures t.SP == Wrap(s.SP - 2)
    ensures t.Read(Wrap(s.SP - 1)) == High(Wrap(s.PC + 2))
    ensures t.Read(Wrap(s.SP - 2)) == Low(Wrap(s.PC + 2))
    ensures SameExcept(s, t, {Wrap(s.SP - 1), Wrap(s.SP - 2)})
    ensures t == s.(PC := t.PC, SP := t.SP, memory := t.memory)
  {
    var target := FetchWord(s);
    var returnAddr := target.next.PC;
    PushWord(target.next, returnAddr).(PC := target.value)
  }

  /** ld_c_a: C is loaded from A, B is kept. */
  function LdCA(s: State): (t: State)
    ensures t.B() == s.B() && t.C() == s.A()
    ensures t == s.(BC := t.BC)
  {
    var a := High(s.AF);
    var b := High(s.BC);
    s.(BC := Join(b, a))
  }

  /** ld_b_n8: B is loaded with the immediate byte, C is kept. */
  function LdBN8(s: State): (t: State)
    ensures t.B() == s.Read(s.PC) && t.C() == s.C()
    ensures t == s.(PC := Wrap(s.PC + 1), BC := t.BC)
  {
    var n := FetchByte(s);
    var c := Low(n.next.BC);
    n.next.(BC := Join(n.value, c))
  }

  /** `x` shifted left by one with `bit0` as its new bit 0, as rl_c and rla
      compute it. */
  function RotateLeft(x: bv8, bit0: bv8): (r: bv8)
    requires bit0 <= 1
    ensures r == (x << 1) | bit0
  {
    ((x << 1) & 0xFE) | bit0
  }

  /** The flag update of rl_c for operand `c` and the rotated value `r`:
      the carry becomes the old bit 7, Z reflects `r`, N and H are cleared,
      and the low nibble of F is kept. */
  function RotateUpdate(s: State, c: bv8, r: bv8): (t: State)
    ensures Flag(t.F(), FlagC) <==> c & 0x80 != 0
    ensures Flag(t.F(), FlagZ) <==> r == 0
    ensures !Flag(t.F(), FlagN) && !Flag(t.F(), FlagH)
    ensures t.F() & 0x0F == s.F() & 0x0F
    ensures t == s.(AF := Join(s.A(), t.F()))
  {
    var bit7 := c >> 7;
    var carry := bit7 << CPos;
    var zFlag := if r == 0 then FlagZ else 0x00;
    UpdateFlags(s, FlagZ | FlagH | FlagN | FlagC, zFlag | carry)
  }

  /** rl_c: C is rotated left through what get_c_flag returns, which is
      bit 0 of F rather than the carry flag. The old bit 7 becomes the carry,
      Z reflects the new C, N and H are cleared, F's low nibble is kept. */
  function RlC(s: State): (t: State)
    ensures t.C() == (s.C() << 1) | (s.F() & 0x01)
    ensures Flag(t.F(), FlagC) <==> s.C() & 0x80 != 0
    ensures Flag(t.F(), FlagZ) <==> t.C() == 0
    ensures !Flag(t.F(), FlagN) && !Flag(t.F(), FlagH)
    ensures t.F() & 0x0F == s.F() & 0x0F
    ensures t == s.(BC := Join(s.B(), t.C()), AF := Join(s.A(), t.F()))
  {
    var f := Low(s.AF);
    var cFlag := GetCFlag(f);
    var c := Low(s.BC);
    var rotated := RotateLeft(c, cFlag);
    var u := RotateUpdate(s, c, rotated);
    u.(BC := WithLow(u.BC, rotated))
  }

  /** rla: the flags computed by update_flags are overwritten, because AF
      is then rebuilt from the F read beforehand and the rotated A: the new
      A is the old F, and the new F is the old A rotated left through bit 0
      of F. */
  function Rla(s: State): (t: State)
    ensures t.A() == s.F()
    ensures t.F() == (s.A() << 1) | (s.F() & 0x01)
    ensures t == s.(AF := t.AF)
  {
    var f := Low(s.AF);
    var cFlag := GetCFlag(f);
    var a := High(s.AF);
    var bit7 := a >> 7;
    var rotated := RotateLeft(a, cFlag);
    var carry := bit7 << CPos;
    var u := UpdateFlags(s, FlagZ | FlagH | FlagN | FlagC, carry);
    u.(AF := Join(f, rotated))
  }

  /** pop_bc: BC is loaded from the two bytes at SP, which rises by two. */
  function PopBc(s: State): (t: State)
    ensures t == s.(SP := Wrap(s.SP + 2), BC := Join(s.Read(Wrap(s.SP + 1)), s.Read(s.SP)))
  {
    var w := PopWord(s);
    w.next.(BC := w.value)
  }

  /** dec_b: the flags of an 8-bit decrement of B (Z iff B was 1, H iff the
      low nibble borrowed, N set, C and bits 0-3 kept), but the decremented
      value is never written back, so BC is unchanged. */
  function DecB(s: State): (t: State)
    ensures Flag(t.F(), FlagZ) <==> s.B() == 1
    ensures Flag(t.F(), FlagH) <==> s.B() & 0x0F == 0
    ensures Flag(t.F(), FlagN)
    ensures t.F() & 0x1F == s.F() & 0x1F
    ensures t == s.(AF := Join(s.A(), t.F()))
  {
    var b := High(s.BC);
    var bit4 := b & 0x10;
    var result := b - 1;
    var hFlag := if result & 0x10 == bit4 then 0x00 else FlagH;
    var zFlag := if result == 0 then FlagZ else 0x00;
    UpdateFlags(s, FlagZ | FlagH | FlagN, zFlag | hFlag | FlagN)
  }

  /** push_bc. */
  function PushBc(s: State): State {
    PushWord(s, s.BC)
  }

  /** push_af. */
  function PushAf(s: State): State {
    PushWord(s, s.AF)
  }

  /** push_de. */
  function PushDe(s: State): State {
    PushWord(s, s.DE)
  }

  /** push_hl. */
  function PushHl(s: State): State {
    PushWord(s, s.HL)
  }

  /** ld_hli_a: A is stored at HL, then HL is incremented. */
  function LdHliA(s: State): (t: State)
    ensures t.Read(s.HL) == s.A() && t.HL == Wrap(s.HL + 1)
    ensures SameExcept(s, t, {s.HL})
    ensures t == s.(HL := t.HL, memory := t.memory)
  {
    var a := High(s.AF);
    s.Write(s.HL, a).(HL := Wrap(s.HL + 1))
  }

  // The 16-bit increments and decrements: one register pair changes by one,
  // modulo 65536, and no flag changes.

  /** inc_hl. */
  function IncHl(s: State): State { s.(HL := Wrap(s.HL + 1)) }
  /** inc_bc. */
  function IncBc(s: State): State { s.(BC := Wrap(s.BC + 1)) }
  /** inc_de. */
  function IncDe(s: State): State { s.(DE := Wrap(s.DE + 1)) }
  /** inc_sp. */
  function IncSp(s: State): State { s.(SP := Wrap(s.SP + 1)) }
  /** dec_hl. */
  function DecHl(s: State): State { s.(HL := Wrap(s.HL - 1)) }
  /** dec_bc. */
  function DecBc(s: State): State { s.(BC := Wrap(s.BC - 1)) }
  /** dec_de. */
  function DecDe(s: State): State { s.(DE := Wrap(s.DE - 1)) }
  /** dec_sp. */
  function DecSp(s: State): State { s.(SP := Wrap(s.SP - 1)) }

  /** ret: PC is loaded from the two bytes at SP, which rises by two. */
  function Ret(s: State): (t: State)
    ensures t == s.(SP := Wrap(s.SP + 2), PC := Join(s.Read(Wrap(s.SP + 1)), s.Read(s.SP)))
  {
    var w := PopWord(s);
    w.next.(PC := w.value)
  }
}
