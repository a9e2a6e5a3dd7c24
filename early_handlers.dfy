/** The handlers of the earlier interpreter (cpu.c at the repository root)
    that differ from the current ones, as functions from one CPU state to
    the next. fetch_byte, fetch_word, stop_n8, ld_sp_n16, ld_hl_n16 and
    ld_hld_a compute the same result in both versions and are the
    functions of Handlers. */
module EarlyHandlers {
  import opened Word
  import opened Machine
  import H = Handlers

  /** nop: advances PC by one, so it skips the byte after the opcode. */
  function Nop(s: State): State {
    s.(PC := Wrap(s.PC + 1))
  }

  /** jr_nz_e8: the condition is bit 15 of HL, that is bit 7 of H, which is
      the bit a preceding BIT 7,H tests. Only when it is 1 is the signed
      offset fetched and added to the advanced PC; otherwise nothing
      changes, not even PC. */
  function JrNzE8(s: State): (t: State)
    ensures s.H() & 0x80 != 0 ==>
              t == s.(PC := Wrap(s.PC + 1 + SignedByte(s.Read(s.PC))))
    ensures s.H() & 0x80 == 0 ==> t == s
  {
    HighBit7(s.HL);
    if s.HL / 0x8000 == 1 then
      var e := H.FetchByte(s);
      e.next.(PC := Wrap(e.next.PC + SignedByte(e.value)))
    else
      s
  }

  /** jr_nc_e8: an empty body. */
  function JrNcE8(s: State): State { s }

  /** ld_a_n8: AF becomes `n << 8 | AF << 8` in 16 bits, so A receives the
      immediate byte OR-ed with the old F and F becomes 0. */
  function LdAN8(s: State): (t: State)
    ensures t.A() == s.Read(s.PC) | s.F() && t.F() == 0
    ensures t == s.(PC := Wrap(s.PC + 1), AF := t.AF)
  {
    var n := H.FetchByte(s);
    var value := Join(n.value, 0);
    var f := ShiftLeftByte(n.next.AF);
    n.next.(AF := Or(value, f))
  }

  /** ldh_a8_a: stores A (the high byte of AF) at 0xFF00 + n. */
  function LdhA8A(s: State): (t: State)
    ensures t.Read(0xFF00 + s.Read(s.PC) as int) == s.A()
    ensures SameExcept(s, t, {0xFF00 + s.Read(s.PC) as int})
    ensures t == s.(PC := Wrap(s.PC + 1), memory := t.memory)
  {
    var n := H.FetchByte(s);
    n.next.Write(0xFF00 + n.value as int, High(n.next.AF))
  }

  /** xor_a_a: A is kept and the whole flag byte becomes 0x80 (Z set, the
      other flags and the low nibble cleared). */
  function XorAA(s: State): (t: State)
    ensures t.A() == s.A() && t.F() == H.FlagZ
    ensures t == s.(AF := t.AF)
  {
    var a := High(s.AF);
    s.(AF := Join(a, 0x80))
  }

  /** bit_7_h: Z is set exactly when bit 7 of H is 0, H is set, N is
      cleared, C is kept and the low nibble of F is cleared; A and
      everything else is untouched. */
  function Bit7H(s: State): (t: State)
    ensures H.Flag(t.F(), H.FlagZ) <==> s.H() & 0x80 == 0
    ensures H.Flag(t.F(), H.FlagH) && !H.Flag(t.F(), H.FlagN)
    ensures t.F() & H.FlagC == s.F() & H.FlagC
    ensures t.F() & 0x0F == 0
    ensures t == s.(AF := Join(s.A(), t.F()))
  {
    HighBit7(s.HL);
    var bit7 := s.HL / 0x8000;
    var zFlag: bv8 := if bit7 == 0 then 0x80 else 0x00;
    var f := Low(s.AF);
    var cFlag := f & 0x10;
    var f' := zFlag | 0x00 | 0x20 | cFlag;
    s.(AF := WithLow(s.AF, f'))
  }
}
