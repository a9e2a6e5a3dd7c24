/** Properties of the current interpreter (src/cpu.c) that relate several
    handlers or several steps. */
module Properties {
  import opened Word
  import opened Machine
  import opened Handlers
  import D = Dispatch

  /** fetch_word reads the word little-endian, `memory[PC] | memory[PC+1] << 8`,
      and advances PC by exactly 2 (modulo 65536), changing nothing else. */
  lemma FetchWordLittleEndian(s: State)
    ensures FetchWord(s).value == s.Read(s.PC) as int + 0x100 * s.Read(Wrap(s.PC + 1)) as int
    ensures FetchWord(s).next == s.(PC := Wrap(s.PC + 2))
  {
    var w := FetchWord(s).value;
    assert w == 0x100 * (w / 0x100) + w % 0x100;
  }

  /** Popping right after a push returns the pushed word and restores SP;
      registers are as before the push, only the two stack cells differ. */
  lemma PushPopRoundTrip(s: State, w: uint16)
    ensures PopWord(PushWord(s, w)) == Fetched(w, s.(memory := PushWord(s, w).memory))
  {
    var t := PushWord(s, w);
    WrapAdd(s.SP - 2, 1);
    WrapAdd(s.SP - 2, 2);
    JoinSplit(w);
  }

  /** push_bc followed by pop_bc restores BC and SP and leaves every other
      register as it was. */
  lemma PushBcPopBc(s: State)
    ensures var t := PopBc(PushBc(s));
            t.BC == s.BC && t.SP == s.SP && t == s.(memory := t.memory)
  {
    PushPopRoundTrip(s, s.BC);
  }

  /** call_a16 followed by ret: PC is the address after the two operand
      bytes of the CALL, SP is back at its pre-call value, and only the two
      stack cells of the return address have changed. */
  lemma CallThenRet(s: State)
    ensures var t := Ret(CallA16(s));
            t.PC == Wrap(s.PC + 2) && t.SP == s.SP && t == s.(PC := t.PC, memory := t.memory)
  {
    var u := CallA16(s);
    var t := Ret(u);
    WrapAdd(s.SP - 2, 1);
    WrapAdd(s.SP - 2, 2);
    assert t.SP == Wrap(s.SP) == s.SP;
    JoinSplit(Wrap(s.PC + 2));
    assert t.PC == Join(High(Wrap(s.PC + 2)), Low(Wrap(s.PC + 2)));
  }

  /** The same round trip through step: a CALL opcode whose target holds a
      RET (not overwritten by the pushed return address) comes back to the
      byte after the 3-byte CALL, with SP restored. */
  lemma StepCallThenRet(s: State)
    requires s.Read(s.PC) == 0xCD
    requires var target := Join(s.Read(Wrap(s.PC + 2)), s.Read(Wrap(s.PC + 1)));
             s.Read(target) == 0xC9 && target != Wrap(s.SP - 1) && target != Wrap(s.SP - 2)
    ensures D.Step(s).Ok?
    ensures D.Step(s).next.PC == Join(s.Read(Wrap(s.PC + 2)), s.Read(Wrap(s.PC + 1)))
    ensures D.Step(D.Step(s).next).Ok?
    ensures var t := D.Step(D.Step(s).next).next;
            t.PC == Wrap(s.PC + 3) && t.SP == s.SP && t == s.(PC := t.PC, memory := t.memory)
  {
    var u := CallA16(s.(PC := Wrap(s.PC + 1)));
    CallLandsOnRet(s);
    StepCall(s);
    StepRet(u);
  }

  /** call_a16 run past a CALL opcode whose target holds a RET reaches that
      RET, and that ret returns behind the 3-byte CALL. */
  lemma CallLandsOnRet(s: State)
    requires var target := Join(s.Read(Wrap(s.PC + 2)), s.Read(Wrap(s.PC + 1)));
             s.Read(target) == 0xC9 && target != Wrap(s.SP - 1) && target != Wrap(s.SP - 2)
    ensures var u := CallA16(s.(PC := Wrap(s.PC + 1)));
            && u.PC == Join(s.Read(Wrap(s.PC + 2)), s.Read(Wrap(s.PC + 1)))
            && u.Read(u.PC) == 0xC9
            && var t := Ret(u);
               t.PC == Wrap(s.PC + 3) && t.SP == s.SP && t == s.(PC := t.PC, memory := t.memory)
  {
    var s1 := s.(PC := Wrap(s.PC + 1));
    WrapAdd(s.PC + 1, 1);
    WrapAdd(s.PC + 1, 2);
    CallThenRet(s1);
  }

  /** One step on a CALL opcode runs call_a16 past the opcode. */
  lemma StepCall(s: State)
    requires s.Read(s.PC) == 0xCD
    ensures D.Step(s) == D.Ok(CallA16(s.(PC := Wrap(s.PC + 1))))
  {
    var s1 := s.(PC := Wrap(s.PC + 1));
    D.StepUnprefixed(s);
    assert D.OpcodeTable(s.Read(s.PC)) == D.Run(CallA16);
    assert D.Execute(D.Run(CallA16), s1) == D.Ok(CallA16(s1));
  }

  /** One step on a RET opcode runs ret; ret ignores the advanced PC. */
  lemma StepRet(s: State)
    requires s.Read(s.PC) == 0xC9
    ensures D.Step(s) == D.Ok(Ret(s))
  {
    D.StepUnprefixed(s);
  }

  /** bit_7_h touches only Z, while jr_nz_e8 tests bit 0 of F: the BIT 7,H
      in front of a JR NZ never changes where the jump goes. */
  lemma Bit7HDoesNotSteerJrNz(s: State)
    ensures JrNzE8(Bit7H(s)).PC == JrNzE8(s).PC
  {
    var t := Bit7H(s);
    assert t.F() & 0x01 == s.F() & 0x01 by {
      assert t.F() & 0x7F == s.F() & 0x7F;
      assert t.F() & 0x01 == (t.F() & 0x7F) & 0x01;
      assert s.F() & 0x01 == (s.F() & 0x7F) & 0x01;
    }
    assert t.PC == s.PC && t.memory == s.memory;
  }

  /** A scenario: the opening bytes of the DMG boot ROM, LD SP,$FFFE;
      XOR A; LD HL,$9FFF; LD (HL-),A; BIT 7,H; JR NZ,-5. */
  const BootPrefix: seq<bv8> :=
    [0x31, 0xFE, 0xFF, 0xAF, 0x21, 0xFF, 0x9F, 0x32, 0xCB, 0x7C, 0x20, 0xFB]

  /** `n` applications of `step`, stopping at the first fatal outcome. */
  function Iterate(step: State -> D.Outcome, s: State, n: nat): (r: D.Outcome)
    ensures n == 0 ==> r == D.Ok(s)
    decreases n
  {
    if n == 0 then D.Ok(s)
    else match step(s)
      case Ok(t) => Iterate(step, t, n - 1)
      case Fatal(op) => D.Fatal(op)
  }

  /** `n` calls of step, as the main loop makes them. */
  function Run(s: State, n: nat): D.Outcome {
    Iterate(D.Step, s, n)
  }

  /** Running m steps and then n more is running m + n steps. */
  lemma {:induction false} IterateSplit(step: State -> D.Outcome, s: State, m: nat, n: nat)
    ensures Iterate(step, s, m).Ok? ==>
              Iterate(step, s, m + n) == Iterate(step, Iterate(step, s, m).next, n)
    ensures Iterate(step, s, m).Fatal? ==> Iterate(step, s, m + n) == Iterate(step, s, m)
    decreases m
  {
    if m > 0 {
      var r := step(s);
      if r.Ok? {
        IterateSplit(step, r.next, m - 1, n);
        assert m + n - 1 == (m - 1) + n;
      }
    }
  }

  // One lemma per instruction of the boot prefix, each at its address.

  lemma BootLdSp(s: State)
    requires s.PC == 0 && s.Read(0) == 0x31 && s.Read(1) == 0xFE && s.Read(2) == 0xFF
    ensures D.Step(s) == D.Ok(s.(PC := 3, SP := 0xFFFE))
  {
    D.StepUnprefixed(s);
  }

  lemma BootXor(s: State)
    requires s.PC == 3 && s.Read(3) == 0xAF
    ensures D.Step(s).Ok?
    ensures var t := D.Step(s).next;
            t == s.(PC := 4, AF := t.AF) && t.A() == s.A() && t.F() & 0x01 == s.F() & 0x01
  {
    D.StepUnprefixed(s);
    var t := D.Step(s).next;
    assert t.F() & 0x0F == s.F() & 0x0F;
    assert t.F() & 0x01 == (t.F() & 0x0F) & 0x01;
    assert s.F() & 0x01 == (s.F() & 0x0F) & 0x01;
  }

  lemma BootLdHl(s: State)
    requires s.PC == 4 && s.Read(4) == 0x21 && s.Read(5) == 0xFF && s.Read(6) == 0x9F
    ensures D.Step(s) == D.Ok(s.(PC := 7, HL := 0x9FFF))
  {
    D.StepUnprefixed(s);
  }

  lemma BootLdHld(s: State)
    requires s.PC == 7 && s.HL == 0x9FFF && s.Read(7) == 0x32
    ensures D.Step(s) == D.Ok(s.Write(0x9FFF, s.A()).(PC := 8, HL := 0x9FFE))
  {
    D.StepUnprefixed(s);
  }

  lemma BootBit(s: State)
    requires s.PC == 8 && s.Read(8) == 0xCB && s.Read(9) == 0x7C
    ensures D.Step(s).Ok?
    ensures var t := D.Step(s).next;
            t == s.(PC := 10, AF := t.AF) && t.A() == s.A() && t.F() & 0x01 == s.F() & 0x01
  {
    D.StepPrefixed(s);
    var t := D.Step(s).next;
    assert t.F() & 0x7F == s.F() & 0x7F;
    assert t.F() & 0x01 == (t.F() & 0x7F) & 0x01;
    assert s.F() & 0x01 == (s.F() & 0x7F) & 0x01;
  }

  lemma BootJrNz(s: State)
    requires s.PC == 10 && s.Read(10) == 0x20 && s.F() & 0x01 == 0
    ensures D.Step(s) == D.Ok(s.(PC := 11))
  {
    D.StepUnprefixed(s);
  }

  /** With bit 0 of F set, the same JR NZ is taken: it consumes the offset
      0xFB (-5) and lands back on the LD (HL-),A at address 7. */
  lemma BootJrNzTaken(s: State)
    requires s.PC == 10 && s.Read(10) == 0x20 && s.Read(11) == 0xFB && s.F() & 0x01 == 1
    ensures D.Step(s) == D.Ok(s.(PC := 7))
  {
    D.StepUnprefixed(s);
  }

  lemma BootEi(s: State)
    requires s.PC == 11 && s.Read(11) == 0xFB
    ensures D.Step(s) == D.Ok(s.Write(0xFFFF, 1).(PC := 12))
  {
    D.StepUnprefixed(s);
  }

  /** LD SP,$FFFE; XOR A; LD HL,$9FFF. */
  lemma BootSetup(s: State)
    requires s.PC == 0
    requires forall i :: 0 <= i < |BootPrefix| ==> s.memory[i] == BootPrefix[i]
    ensures Run(s, 3).Ok?
    ensures var t := Run(s, 3).next;
            && t.PC == 7 && t.SP == 0xFFFE && t.HL == 0x9FFF && t.A() == s.A()
            && t.F() & 0x01 == s.F() & 0x01 && t.memory == s.memory
  {
    assert s.Read(0) == 0x31 && s.Read(1) == 0xFE && s.Read(2) == 0xFF;
    BootLdSp(s);
    var s1 := D.Step(s).next;
    BootXor(s1);
    var s2 := D.Step(s1).next;
    assert s2.Read(4) == 0x21 && s2.Read(5) == 0xFF && s2.Read(6) == 0x9F;
    BootLdHl(s2);
    var s3 := D.Step(s2).next;
    assert Run(s2, 1) == D.Ok(s3);
    assert Run(s1, 2) == D.Ok(s3);
  }

  /** LD (HL-),A; BIT 7,H; JR NZ,-5 falling through; then EI. */
  lemma BootLoopBody(s: State)
    requires s.PC == 7 && s.HL == 0x9FFF && s.F() & 0x01 == 0
    requires forall i :: 0 <= i < |BootPrefix| ==> s.memory[i] == BootPrefix[i]
    ensures Run(s, 4).Ok?
    ensures var t := Run(s, 4).next;
            && t.PC == 12 && t.SP == s.SP && t.HL == 0x9FFE && t.A() == s.A()
            && t.Read(0x9FFF) == s.A() && t.Read(0xFFFF) == 1
  {
    assert s.Read(7) == 0x32;
    BootLdHld(s);
    var s4 := D.Step(s).next;
    assert s4.Read(8) == 0xCB && s4.Read(9) == 0x7C && s4.Read(10) == 0x20 && s4.Read(11) == 0xFB;
    BootBit(s4);
    var s5 := D.Step(s4).next;
    BootJrNz(s5);
    var s6 := D.Step(s5).next;
    BootEi(s6);
    var s7 := D.Step(s6).next;
    assert Run(s6, 1) == D.Ok(s7);
    assert Run(s5, 2) == D.Ok(s7);
    assert Run(s4, 3) == D.Ok(s7);
  }

  /** Started on the boot ROM's first bytes with bit 0 of F clear, the
      VRAM-clearing loop runs its body once: A (never zeroed by XOR A) is
      stored at 0x9FFF, the JR NZ falls through without consuming its
      offset, and that offset byte 0xFB then runs as EI, which writes 1 to
      0xFFFF. */
  lemma BootPrefixCurrent(s: State)
    requires s.PC == 0 && s.F() & 0x01 == 0
    requires forall i :: 0 <= i < |BootPrefix| ==> s.memory[i] == BootPrefix[i]
    ensures Run(s, 7).Ok?
    ensures var t := Run(s, 7).next;
            && t.PC == 12 && t.SP == 0xFFFE && t.HL == 0x9FFE && t.A() == s.A()
            && t.Read(0x9FFF) == s.A() && t.Read(0xFFFF) == 1
  {
    BootSetup(s);
    BootLoopBody(Run(s, 3).next);
    IterateSplit(D.Step, s, 3, 4);
  }
}
