/** Properties of the earlier interpreter (cpu.c at the repository root),
    and how it compares with the current one. */
module EarlyProperties {
  import opened Word
  import opened Machine
  import H = Handlers
  import EH = EarlyHandlers
  import ED = EarlyDispatch
  import D = Dispatch
  import P = Properties

  /** BIT 7,H followed by JR NZ branches exactly when the Z flag that
      BIT 7,H left is clear, as the SM83 does: the jump reads bit 7 of H,
      the bit the Z flag is the complement of. */
  lemma JrNzAfterBit7H(s: State)
    ensures var u := EH.Bit7H(s);
            EH.JrNzE8(u) ==
              if !H.Flag(u.F(), H.FlagZ) then u.(PC := Wrap(u.PC + 1 + SignedByte(u.Read(u.PC))))
              else u
  {
    var u := EH.Bit7H(s);
    assert u.HL == s.HL;
  }

  /** The slots the two versions fill with the same handler behave the same
      way: stop_n8, ld_hl_n16, ld_sp_n16 and ld_hld_a. */
  lemma SharedOpcodesAgree(s: State)
    requires s.Read(s.PC) in {0x10, 0x21, 0x31, 0x32}
    ensures D.Step(s) == D.Ok(ED.Step(s))
  {
    var op, next := s.Read(s.PC), s.(PC := Wrap(s.PC + 1));
    D.StepUnprefixed(s);
    ED.StepUnprefixed(s);
    var handler :=
      if op == 0x10 then H.StopN8 else if op == 0x21 then H.LdHlN16
      else if op == 0x31 then H.LdSpN16 else H.LdHldA;
    assert D.OpcodeTable(op) == D.Run(handler) && ED.OpcodeTable(op) == ED.Run(handler);
    assert D.Execute(D.Run(handler), next) == D.Ok(handler(next));
  }

  /** An opcode that neither version assigns ends the current interpreter
      with a fatal error, while the earlier one skips it and its next byte. */
  lemma UnassignedOpcodeVersions(s: State)
    requires s.Read(s.PC) !in D.AssignedOpcodes && s.Read(s.PC) != 0x30
    ensures D.Step(s) == D.Fatal(s.Read(s.PC))
    ensures ED.Step(s) == s.(PC := Wrap(s.PC + 2))
  {
    D.StepFatal(s);
    ED.UnknownOpcodeSkipsByte(s);
  }

  // The boot ROM's first instructions in the earlier interpreter, one lemma
  // per instruction at its address.

  lemma BootLdSp(s: State)
    requires s.PC == 0 && s.Read(0) == 0x31 && s.Read(1) == 0xFE && s.Read(2) == 0xFF
    ensures ED.Step(s) == s.(PC := 3, SP := 0xFFFE)
  {
    ED.StepUnprefixed(s);
  }

  lemma BootXor(s: State)
    requires s.PC == 3 && s.Read(3) == 0xAF
    ensures ED.Step(s) == s.(PC := 4, AF := Join(s.A(), 0x80))
  {
    ED.StepUnprefixed(s);
    JoinSplit(ED.Step(s).AF);
  }

  lemma BootLdHl(s: State)
    requires s.PC == 4 && s.Read(4) == 0x21 && s.Read(5) == 0xFF && s.Read(6) == 0x9F
    ensures ED.Step(s) == s.(PC := 7, HL := 0x9FFF)
  {
    ED.StepUnprefixed(s);
  }

  lemma BootLdHld(s: State)
    requires s.PC == 7 && s.HL == 0x9FFF && s.Read(7) == 0x32
    ensures ED.Step(s) == s.Write(0x9FFF, s.A()).(PC := 8, HL := 0x9FFE)
  {
    ED.StepUnprefixed(s);
  }

  lemma BootBit(s: State)
    requires s.PC == 8 && s.Read(8) == 0xCB && s.Read(9) == 0x7C
    ensures ED.Step(s) == s.(PC := 10, AF := ED.Step(s).AF) && ED.Step(s).A() == s.A()
  {
    ED.StepPrefixed(s);
  }

  lemma BootJrNz(s: State)
    requires s.PC == 10 && s.HL == 0x9FFE && s.Read(10) == 0x20 && s.Read(11) == 0xFB
    ensures ED.Step(s) == s.(PC := 7)
  {
    ED.StepUnprefixed(s);
    HighBit7(s.HL);
  }

  /** LD SP,$FFFE; XOR A; LD HL,$9FFF; memory is untouched. */
  lemma BootSetup(s: State)
    requires s.PC == 0
    requires forall i :: 0 <= i < |P.BootPrefix| ==> s.memory[i] == P.BootPrefix[i]
    ensures var t := ED.Step(ED.Step(ED.Step(s)));
            t.PC == 7 && t.SP == 0xFFFE && t.HL == 0x9FFF && t.A() == s.A() && t.memory == s.memory
  {
    assert s.Read(0) == 0x31 && s.Read(1) == 0xFE && s.Read(2) == 0xFF;
    BootLdSp(s);
    var s1 := ED.Step(s);
    BootXor(s1);
    var s2 := ED.Step(s1);
    assert s2.Read(4) == 0x21 && s2.Read(5) == 0xFF && s2.Read(6) == 0x9F;
    BootLdHl(s2);
  }

  /** LD (HL-),A; BIT 7,H; JR NZ,-5 taken, back at the LD (HL-),A. */
  lemma BootLoopBody(s: State)
    requires s.PC == 7 && s.HL == 0x9FFF
    requires s.Read(7) == 0x32 && s.Read(8) == 0xCB && s.Read(9) == 0x7C
    requires s.Read(10) == 0x20 && s.Read(11) == 0xFB
    ensures var t := ED.Step(ED.Step(ED.Step(s)));
            t.PC == 7 && t.SP == s.SP && t.HL == 0x9FFE && t.A() == s.A() && t.Read(0x9FFF) == s.A()
  {
    BootLdHld(s);
    var s4 := ED.Step(s);
    assert s4.Read(8) == 0xCB && s4.Read(9) == 0x7C && s4.Read(10) == 0x20 && s4.Read(11) == 0xFB;
    BootBit(s4);
    var s5 := ED.Step(s4);
    BootJrNz(s5);
  }

  /** Started on the boot ROM's first bytes, the earlier interpreter enters
      the VRAM-clearing loop as the SM83 does: after LD SP,$FFFE; XOR A;
      LD HL,$9FFF; LD (HL-),A; BIT 7,H the JR NZ,-5 is taken, because bit 15
      of HL is set, and the sixth step lands on LD (HL-),A again with A
      stored at 0x9FFF and HL one lower. The current interpreter falls
      through at the same point (Properties.BootPrefixCurrent). */
  lemma BootLoopsBack(s: State)
    requires s.PC == 0
    requires forall i :: 0 <= i < |P.BootPrefix| ==> s.memory[i] == P.BootPrefix[i]
    ensures var t := ED.Step(ED.Step(ED.Step(ED.Step(ED.Step(ED.Step(s))))));
            && t.PC == 7 && t.SP == 0xFFFE && t.HL == 0x9FFE && t.A() == s.A()
            && t.Read(0x9FFF) == s.A()
  {
    BootSetup(s);
    var s3 := ED.Step(ED.Step(ED.Step(s)));
    assert s3.Read(7) == 0x32 && s3.Read(8) == 0xCB && s3.Read(9) == 0x7C;
    assert s3.Read(10) == 0x20 && s3.Read(11) == 0xFB;
    BootLoopBody(s3);
  }
}
