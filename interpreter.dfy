/** The current interpreter (src/cpu.c) as it runs: methods that update the
    registers and the memory buffer of a `Cpu` in place, statement by
    statement as the C handlers do. Each method is proved to leave exactly
    the state that its specification function in Handlers or Dispatch
    computes from the state before the call. */
module Interpreter {
  import opened Word
  import opened Machine
  import H = Handlers
  import D = Dispatch

  /** What control returns to the caller of `step`: the handler returned,
      or not_implemented ended the process reporting `opcode`. */
  datatype Status = Running | Exited(opcode: bv8)

  /** `status` and the state `s` left behind are what the outcome `o` of
      the specification describes. */
  ghost predicate Reports(o: D.Outcome, status: Status, s: State) {
    match o
    case Ok(t) => status == Running && s == t
    case Fatal(op) => status == Exited(op)
  }

  // ---------------------------------------------------------------------
  // Fetch primitives and the flag update

  /** fetch_byte. */
  method FetchByte(cpu: Cpu) returns (b: bv8)
    requires cpu.Valid()
    modifies cpu
    ensures H.FetchByte(old(cpu.Snapshot())) == H.Fetched(b, cpu.Snapshot())
  {
    b := cpu.memory[cpu.PC];
    cpu.PC := Wrap(cpu.PC + 1);
  }

  /** fetch_word. */
  method FetchWord(cpu: Cpu) returns (w: uint16)
    requires cpu.Valid()
    modifies cpu
    ensures H.FetchWord(old(cpu.Snapshot())) == H.Fetched(w, cpu.Snapshot())
  {
    var low := FetchByte(cpu);
    var high := FetchByte(cpu);
    w := Join(high, low);
  }

  /** update_flags. */
  method UpdateFlags(cpu: Cpu, mask: bv8, flags: bv8)
    requires cpu.Valid()
    modifies cpu
    ensures cpu.Snapshot() == H.UpdateFlags(old(cpu.Snapshot()), mask, flags)
  {
    var f := Low(cpu.AF);
    f := (f & !mask) | (flags & mask);
    cpu.AF := WithLow(cpu.AF, f);
  }

  // ---------------------------------------------------------------------
  // Handlers

  /** nop. */
  method Nop(cpu: Cpu)
    requires cpu.Valid()
    ensures cpu.Snapshot() == H.Nop(old(cpu.Snapshot()))
  {
  }

  /** stop_n8. */
  method StopN8(cpu: Cpu)
    requires cpu.Valid()
    ensures cpu.Snapshot() == H.StopN8(old(cpu.Snapshot()))
  {
  }

  /** jr_nz_e8. */
  method JrNzE8(cpu: Cpu)
    requires cpu.Valid()
    modifies cpu
    ensures cpu.Snapshot() == H.JrNzE8(old(cpu.Snapshot()))
  {
    var f := Low(cpu.AF);
    var zFlag := H.GetZFlag(f);
    if zFlag == 1 {
      var value := FetchByte(cpu);
      cpu.PC := Wrap(cpu.PC + SignedByte(value));
    }
  }

  /** ld_sp_n16. */
  method LdSpN16(cpu: Cpu)
    requires cpu.Valid()
    modifies cpu
    ensures cpu.Snapshot() == H.LdSpN16(old(cpu.Snapshot()))
  {
    var value := FetchWord(cpu);
    cpu.SP := value;
  }

  /** ld_a_n8. */
  method LdAN8(cpu: Cpu)
    requires cpu.Valid()
    modifies cpu
    ensures cpu.Snapshot() == H.LdAN8(old(cpu.Snapshot()))
  {
    var value := FetchByte(cpu);
    var f := Low(cpu.AF);
    cpu.AF := Join(value, f);
  }

  /** ldh_a8_a. */
  method LdhA8A(cpu: Cpu)
    requires cpu.Valid()
    modifies cpu, cpu.memory
    ensures cpu.Snapshot() == H.LdhA8A(old(cpu.Snapshot()))
  {
    var value := FetchByte(cpu);
    cpu.memory[0xFF00 + value as int] := Low(cpu.AF);
  }

  /** xor_a_a. */
  method XorAA(cpu: Cpu)
    requires cpu.Valid()
    modifies cpu
    ensures cpu.Snapshot() == H.XorAA(old(cpu.Snapshot()))
  {
    UpdateFlags(cpu, H.FlagAll, H.FlagZ);
  }

  /** ld_hl_n16. */
  method LdHlN16(cpu: Cpu)
    requires cpu.Valid()
    modifies cpu
    ensures cpu.Snapshot() == H.LdHlN16(old(cpu.Snapshot()))
  {
    var value := FetchWord(cpu);
    cpu.HL := value;
  }

  /** ld_hld_a. */
  method LdHldA(cpu: Cpu)
    requires cpu.Valid()
    modifies cpu, cpu.memory
    ensures cpu.Snapshot() == H.LdHldA(old(cpu.Snapshot()))
  {
    var a := High(cpu.AF);
    cpu.memory[cpu.HL] := a;
    cpu.HL := Wrap(cpu.HL - 1);
  }

  /** bit_7_h. */
  method Bit7H(cpu: Cpu)
    requires cpu.Valid()
    modifies cpu
    ensures cpu.Snapshot() == H.Bit7H(old(cpu.Snapshot()))
  {
    var h := High(cpu.HL);
    var zFlag := if (h >> 7) & 1 != 0 then H.FlagZ else 0x00;
    UpdateFlags(cpu, H.FlagZ, zFlag);
  }

  /** ei. */
  method Ei(cpu: Cpu)
    requires cpu.Valid()
    modifies cpu.memory
    ensures cpu.Snapshot() == H.Ei(old(cpu.Snapshot()))
  {
    cpu.memory[0xFFFF] := 1;
  }

  /** ld_c_n8. */
  method LdCN8(cpu: Cpu)
    requires cpu.Valid()
    modifies cpu
    ensures cpu.Snapshot() == H.LdCN8(old(cpu.Snapshot()))
  {
    var value := FetchByte(cpu);
    var b := High(cpu.BC);
    cpu.BC := Join(0x00, b | value);
  }

  /** ldh_c_a. */
  method LdhCA(cpu: Cpu)
    requires cpu.Valid()
    modifies cpu.memory
    ensures cpu.Snapshot() == H.LdhCA(old(cpu.Snapshot()))
  {
    ghost var s := cpu.Snapshot();
    var a := High(cpu.AF);
    var c := Low(cpu.BC);
    cpu.memory[0xFF00 + c as int] := a;
    assert cpu.Snapshot() == s.Write(0xFF00 + c as int, a);
  }

  /** inc_c. */
  method IncC(cpu: Cpu)
    requires cpu.Valid()
    modifies cpu
    ensures cpu.Snapshot() == H.IncC(old(cpu.Snapshot()))
  {
    var b := High(cpu.BC);
    var c := Low(cpu.BC);
    var hFlag: bv8 := (if ((c & 0x0F) + 0x01) & 0x10 == 0x10 then 1 else 0) << H.HPos;
    c := c + 1;
    var zFlag := if c == 0 then H.FlagZ else 0x00;
    UpdateFlags(cpu, H.FlagH | H.FlagZ | H.FlagN, hFlag | zFlag);
    cpu.BC := Join(b, c);
  }

  /** inc_h. */
  method IncH(cpu: Cpu)
    requires cpu.Valid()
    modifies cpu
    ensures cpu.Snapshot() == H.IncH(old(cpu.Snapshot()))
  {
    var h := High(cpu.HL);
    var l := Low(cpu.HL);
    var hFlag: bv8 := (if ((h & 0x0F) + 0x01) & 0x10 == 0x10 then 1 else 0) << H.HPos;
    h := h + 1;
    var zFlag := if h == 0 then H.FlagZ else 0x00;
    UpdateFlags(cpu, H.FlagH | H.FlagZ | H.FlagN, hFlag | zFlag);
    cpu.BC := Join(h, l);
  }

  /** inc_d. */
  method IncD(cpu: Cpu)
    requires cpu.Valid()
    modifies cpu
    ensures cpu.Snapshot() == H.IncD(old(cpu.Snapshot()))
  {
    var d := High(cpu.DE);
    var e := Low(cpu.DE);
    var hFlag: bv8 := (if ((d & 0x0F) + 0x01) & 0x10 == 0x10 then 1 else 0) << H.HPos;
    d := d + 1;
    var zFlag := if d == 0 then H.FlagZ else 0x00;
    UpdateFlags(cpu, H.FlagH | H.FlagZ | H.FlagN, hFlag | zFlag);
    cpu.BC := Join(d, e);
  }

  /** inc_e. */
  method IncE(cpu: Cpu)
    requires cpu.Valid()
    modifies cpu
    ensures cpu.Snapshot() == H.IncE(old(cpu.Snapshot()))
  {
    var d := High(cpu.DE);
    var e := Low(cpu.DE);
    var hFlag: bv8 := (if ((e & 0x0F) + 0x01) & 0x10 == 0x10 then 1 else 0) << H.HPos;
    e := e + 1;
    var zFlag := if e == 0 then H.FlagZ else 0x00;
    UpdateFlags(cpu, H.FlagH | H.FlagZ | H.FlagN, hFlag | zFlag);
    cpu.BC := Join(d, e);
  }

  /** inc_b. */
  method IncB(cpu: Cpu)
    requires cpu.Valid()
    modifies cpu
    ensures cpu.Snapshot() == H.IncB(old(cpu.Snapshot()))
  {
    var b := High(cpu.BC);
    var c := Low(cpu.BC);
    var hFlag: bv8 := (if ((b & 0x0F) + 0x01) & 0x10 == 0x10 then 1 else 0) << H.HPos;
    b := b + 1;
    var zFlag := if b == 0 then H.FlagZ else 0x00;
    UpdateFlags(cpu, H.FlagH | H.FlagZ | H.FlagN, hFlag | zFlag);
    cpu.BC := Join(c, c);
  }

  /** inc_l. */
  method IncL(cpu: Cpu)
    requires cpu.Valid()
    modifies cpu
    ensures cpu.Snapshot() == H.IncL(old(cpu.Snapshot()))
  {
    var h := High(cpu.HL);
    var l := Low(cpu.HL);
    var hFlag: bv8 := (if ((l & 0x0F) + 0x01) & 0x10 == 0x10 then 1 else 0) << H.HPos;
    l := l + 1;
    var zFlag := if l == 0 then H.FlagZ else 0x00;
    UpdateFlags(cpu, H.FlagH | H.FlagZ | H.FlagN, hFlag | zFlag);
    cpu.BC := Join(h, l);
  }

  /** ld_hl_a. */
  method LdHlA(cpu: Cpu)
    requires cpu.Valid()
    modifies cpu.memory
    ensures cpu.Snapshot() == H.LdHlA(old(cpu.Snapshot()))
  {
    var a := High(cpu.AF);
    cpu.memory[cpu.HL] := a;
  }

  /** ld_de_a. */
  method LdDeA(cpu: Cpu)
    requires cpu.Valid()
    modifies cpu
    ensures cpu.Snapshot() == H.LdDeA(old(cpu.Snapshot()))
  {
    var value := FetchWord(cpu);
    cpu.DE := value;
  }

  /** ld_a_de. */
  method LdADe(cpu: Cpu)
    requires cpu.Valid()
    modifies cpu
    ensures cpu.Snapshot() == H.LdADe(old(cpu.Snapshot()))
  {
    var a := cpu.memory[cpu.DE];
    cpu.AF := Join(a, Low(cpu.AF));
  }

  /** call_a16. */
  method CallA16(cpu: Cpu)
    requires cpu.Valid()
    modifies cpu, cpu.memory
    ensures cpu.Snapshot() == H.CallA16(old(cpu.Snapshot()))
  {
    var value := FetchWord(cpu);
    var returnAddr := cpu.PC;
    cpu.SP := Wrap(cpu.SP - 1);
    cpu.memory[cpu.SP] := High(returnAddr);
    cpu.SP := Wrap(cpu.SP - 1);
    cpu.memory[cpu.SP] := Low(returnAddr);
    cpu.PC := value;
  }

  /** ld_c_a. */
  method LdCA(cpu: Cpu)
    requires cpu.Valid()
    modifies cpu
    ensures cpu.Snapshot() == H.LdCA(old(cpu.Snapshot()))
  {
    var a := High(cpu.AF);
    var b := High(cpu.BC);
    cpu.BC := Join(b, a);
  }

  /** ld_b_n8. */
  method LdBN8(cpu: Cpu)
    requires cpu.Valid()
    modifies cpu
    ensures cpu.Snapshot() == H.LdBN8(old(cpu.Snapshot()))
  {
    var value := FetchByte(cpu);
    var c := Low(cpu.BC);
    cpu.BC := Join(value, c);
  }

  /** rl_c. */
  method RlC(cpu: Cpu)
    requires cpu.Valid()
    modifies cpu
    ensures cpu.Snapshot() == H.RlC(old(cpu.Snapshot()))
  {
    var f := Low(cpu.AF);
    var cFlag := H.GetCFlag(f);
    var c := Low(cpu.BC);
    ghost var s, c0 := cpu.Snapshot(), c;
    var bit7 := c >> 7;
    c := H.RotateLeft(c, cFlag);
    cFlag := bit7 << H.CPos;
    var zFlag := if c == 0 then H.FlagZ else 0x00;
    UpdateFlags(cpu, H.FlagZ | H.FlagH | H.FlagN | H.FlagC, zFlag | cFlag);
    assert cpu.Snapshot() == H.RotateUpdate(s, c0, c);
    cpu.BC := WithLow(cpu.BC, c);
  }

  /** rla. */
  method Rla(cpu: Cpu)
    requires cpu.Valid()
    modifies cpu
    ensures cpu.Snapshot() == H.Rla(old(cpu.Snapshot()))
  {
    var f := Low(cpu.AF);
    var cFlag := H.GetCFlag(f);
    var a := High(cpu.AF);
    var bit7 := a >> 7;
    a := H.RotateLeft(a, cFlag);
    cFlag := bit7 << H.CPos;
    UpdateFlags(cpu, H.FlagZ | H.FlagH | H.FlagN | H.FlagC, cFlag);
    cpu.AF := Join(f, a);
  }

  /** pop_bc. */
  method PopBc(cpu: Cpu)
    requires cpu.Valid()
    modifies cpu
    ensures cpu.Snapshot() == H.PopBc(old(cpu.Snapshot()))
  {
    var low := cpu.memory[cpu.SP];
    cpu.SP := Wrap(cpu.SP + 1);
    var high := cpu.memory[cpu.SP];
    cpu.SP := Wrap(cpu.SP + 1);
    cpu.BC := Join(high, low);
  }

  /** dec_b. */
  method DecB(cpu: Cpu)
    requires cpu.Valid()
    modifies cpu
    ensures cpu.Snapshot() == H.DecB(old(cpu.Snapshot()))
  {
    var b := High(cpu.BC);
    var bit4 := b & 0x10;
    b := b - 1;
    var hFlag := if b & 0x10 == bit4 then 0x00 else H.FlagH;
    var zFlag := if b == 0 then H.FlagZ else 0x00;
    UpdateFlags(cpu, H.FlagZ | H.FlagH | H.FlagN, zFlag | hFlag | H.FlagN);
  }

  /** push_bc. */
  method PushBc(cpu: Cpu)
    requires cpu.Valid()
    modifies cpu, cpu.memory
    ensures cpu.Snapshot() == H.PushBc(old(cpu.Snapshot()))
  {
    cpu.SP := Wrap(cpu.SP - 1);
    cpu.memory[cpu.SP] := High(cpu.BC);
    cpu.SP := Wrap(cpu.SP - 1);
    cpu.memory[cpu.SP] := Low(cpu.BC);
  }

  /** push_af. */
  method PushAf(cpu: Cpu)
    requires cpu.Valid()
    modifies cpu, cpu.memory
    ensures cpu.Snapshot() == H.PushAf(old(cpu.Snapshot()))
  {
    cpu.SP := Wrap(cpu.SP - 1);
    cpu.memory[cpu.SP] := High(cpu.AF);
    cpu.SP := Wrap(cpu.SP - 1);
    cpu.memory[cpu.SP] := Low(cpu.AF);
  }

  /** push_de. */
  method PushDe(cpu: Cpu)
    requires cpu.Valid()
    modifies cpu, cpu.memory
    ensures cpu.Snapshot() == H.PushDe(old(cpu.Snapshot()))
  {
    cpu.SP := Wrap(cpu.SP - 1);
    cpu.memory[cpu.SP] := High(cpu.DE);
    cpu.SP := Wrap(cpu.SP - 1);
    cpu.memory[cpu.SP] := Low(cpu.DE);
  }

  /** push_hl. */
  method PushHl(cpu: Cpu)
    requires cpu.Valid()
    modifies cpu, cpu.memory
    ensures cpu.Snapshot() == H.PushHl(old(cpu.Snapshot()))
  {
    cpu.SP := Wrap(cpu.SP - 1);
    cpu.memory[cpu.SP] := High(cpu.HL);
    cpu.SP := Wrap(cpu.SP - 1);
    cpu.memory[cpu.SP] := Low(cpu.HL);
  }

  /** ld_hli_a. */
  method LdHliA(cpu: Cpu)
    requires cpu.Valid()
    modifies cpu, cpu.memory
    ensures cpu.Snapshot() == H.LdHliA(old(cpu.Snapshot()))
  {
    var a := High(cpu.AF);
    cpu.memory[cpu.HL] := a;
    cpu.HL := Wrap(cpu.HL + 1);
  }

  /** inc_hl. */
  method IncHl(cpu: Cpu)
    requires cpu.Valid()
    modifies cpu
    ensures cpu.Snapshot() == H.IncHl(old(cpu.Snapshot()))
  {
    cpu.HL := Wrap(cpu.HL + 1);
  }

  /** inc_bc. */
  method IncBc(cpu: Cpu)
    requires cpu.Valid()
    modifies cpu
    ensures cpu.Snapshot() == H.IncBc(old(cpu.Snapshot()))
  {
    cpu.BC := Wrap(cpu.BC + 1);
  }

  /** inc_de. */
  method IncDe(cpu: Cpu)
    requires cpu.Valid()
    modifies cpu
    ensures cpu.Snapshot() == H.IncDe(old(cpu.Snapshot()))
  {
    cpu.DE := Wrap(cpu.DE + 1);
  }

  /** inc_sp. */
  method IncSp(cpu: Cpu)
    requires cpu.Valid()
    modifies cpu
    ensures cpu.Snapshot() == H.IncSp(old(cpu.Snapshot()))
  {
    cpu.SP := Wrap(cpu.SP + 1);
  }

  /** dec_hl. */
  method DecHl(cpu: Cpu)
    requires cpu.Valid()
    modifies cpu
    ensures cpu.Snapshot() == H.DecHl(old(cpu.Snapshot()))
  {
    cpu.HL := Wrap(cpu.HL - 1);
  }

  /** dec_bc. */
  method DecBc(cpu: Cpu)
    requires cpu.Valid()
    modifies cpu
    ensures cpu.Snapshot() == H.DecBc(old(cpu.Snapshot()))
  {
    cpu.BC := Wrap(cpu.BC - 1);
  }

  /** dec_de. */
  method DecDe(cpu: Cpu)
    requires cpu.Valid()
    modifies cpu
    ensures cpu.Snapshot() == H.DecDe(old(cpu.Snapshot()))
  {
    cpu.DE := Wrap(cpu.DE - 1);
  }

  /** dec_sp. */
  method DecSp(cpu: Cpu)
    requires cpu.Valid()
    modifies cpu
    ensures cpu.Snapshot() == H.DecSp(old(cpu.Snapshot()))
  {
    cpu.SP := Wrap(cpu.SP - 1);
  }

  /** ret. */
  method Ret(cpu: Cpu)
    requires cpu.Valid()
    modifies cpu
    ensures cpu.Snapshot() == H.Ret(old(cpu.Snapshot()))
  {
    var low := cpu.memory[cpu.SP];
    cpu.SP := Wrap(cpu.SP + 1);
    var high := cpu.memory[cpu.SP];
    cpu.SP := Wrap(cpu.SP + 1);
    cpu.PC := Join(high, low);
  }

  // ---------------------------------------------------------------------
  // Dispatch

  /** not_implemented: reports the byte just before PC and ends the
      process (the report is the returned status). */
  method NotImplemented(cpu: Cpu) returns (status: Status)
    requires cpu.Valid()
    ensures Reports(D.Execute(D.NotImplemented, old(cpu.Snapshot())), status, cpu.Snapshot())
  {
    status := Exited(cpu.memory[Wrap(cpu.PC - 1)]);
  }

  /** `opcode_table[op](cpu)`. */
  method RunOpcode(cpu: Cpu, op: bv8) returns (status: Status)
    requires cpu.Valid()
    modifies cpu, cpu.memory
    ensures Reports(D.Execute(D.OpcodeTable(op), old(cpu.Snapshot())), status, cpu.Snapshot())
  {
    status := Running;
    match op
    case 0x00 => Nop(cpu);
    case 0x05 => DecB(cpu);
    case 0x06 => LdBN8(cpu);
    case 0x0C => IncC(cpu);
    case 0x0E => LdCN8(cpu);
    case 0x10 => StopN8(cpu);
    case 0x11 => LdDeA(cpu);
    case 0x17 => Rla(cpu);
    case 0x1A => LdADe(cpu);
    case 0x20 => JrNzE8(cpu);
    case 0x21 => LdHlN16(cpu);
    case 0x22 => LdHliA(cpu);
    case 0x23 => IncHl(cpu);
    case 0x31 => LdSpN16(cpu);
    case 0x32 => LdHldA(cpu);
    case 0x3E => LdAN8(cpu);
    case 0x4F => LdCA(cpu);
    case 0x77 => LdHlA(cpu);
    case 0xAF => XorAA(cpu);
    case 0xC1 => PopBc(cpu);
    case 0xC5 => PushBc(cpu);
    case 0xC9 => Ret(cpu);
    case 0xCB => status := Prefix(cpu);
    case 0xCD => CallA16(cpu);
    case 0xD5 => PushDe(cpu);
    case 0xE0 => LdhA8A(cpu);
    case 0xE2 => LdhCA(cpu);
    case 0xE5 => PushHl(cpu);
    case 0xF5 => PushAf(cpu);
    case 0xFB => Ei(cpu);
    case _ => status := NotImplemented(cpu);
  }

  /** `special_opcode_table[op](cpu)`. */
  method RunSpecialOpcode(cpu: Cpu, op: bv8) returns (status: Status)
    requires cpu.Valid()
    modifies cpu, cpu.memory
    ensures Reports(D.Execute(D.SpecialOpcodeTable(op), old(cpu.Snapshot())), status, cpu.Snapshot())
  {
    status := Running;
    match op
    case 0x11 => RlC(cpu);
    case 0x7C => Bit7H(cpu);
    case 0xAF => PushAf(cpu);
    case _ => status := NotImplemented(cpu);
  }

  /** prefix. */
  method Prefix(cpu: Cpu) returns (status: Status)
    requires cpu.Valid()
    modifies cpu, cpu.memory
    ensures Reports(D.Prefix(old(cpu.Snapshot())), status, cpu.Snapshot())
  {
    var instruction := FetchByte(cpu);
    status := RunSpecialOpcode(cpu, instruction);
  }

  /** step. */
  method Step(cpu: Cpu) returns (status: Status)
    requires cpu.Valid()
    modifies cpu, cpu.memory
    ensures Reports(D.Step(old(cpu.Snapshot())), status, cpu.Snapshot())
  {
    var instruction := FetchByte(cpu);
    status := RunOpcode(cpu, instruction);
  }
}
