/** The earlier interpreter (cpu.c at the repository root) as it runs:
    methods that update a `Cpu` in place, each proved to leave the state its
    specification function in EarlyHandlers or EarlyDispatch computes. The
    handlers both versions write the same way are the methods of
    Interpreter. */
module EarlyInterpreter {
  import opened Word
  import opened Machine
  import H = Handlers
  import EH = EarlyHandlers
  import ED = EarlyDispatch
  import I = Interpreter

  /** nop. */
  method Nop(cpu: Cpu)
    requires cpu.Valid()
    modifies cpu
    ensures cpu.Snapshot() == EH.Nop(old(cpu.Snapshot()))
  {
    cpu.PC := Wrap(cpu.PC + 1);
  }

  /** jr_nz_e8. */
  method JrNzE8(cpu: Cpu)
    requires cpu.Valid()
    modifies cpu
    ensures cpu.Snapshot() == EH.JrNzE8(old(cpu.Snapshot()))
  {
    HighBit7(cpu.HL);
    if cpu.HL / 0x8000 == 1 {
      var value := I.FetchByte(cpu);
      cpu.PC := Wrap(cpu.PC + SignedByte(value));
    }
  }

  /** jr_nc_e8. */
  method JrNcE8(cpu: Cpu)
    requires cpu.Valid()
    ensures cpu.Snapshot() == EH.JrNcE8(old(cpu.Snapshot()))
  {
  }

  /** ld_a_n8. */
  method LdAN8(cpu: Cpu)
    requires cpu.Valid()
    modifies cpu
    ensures cpu.Snapshot() == EH.LdAN8(old(cpu.Snapshot()))
  {
    var n := I.FetchByte(cpu);
    var value := Join(n, 0);
    var f := ShiftLeftByte(cpu.AF);
    cpu.AF := Or(value, f);
  }

  /** ldh_a8_a. */
  method LdhA8A(cpu: Cpu)
    requires cpu.Valid()
    modifies cpu, cpu.memory
    ensures cpu.Snapshot() == EH.LdhA8A(old(cpu.Snapshot()))
  {
    var value := I.FetchByte(cpu);
    cpu.memory[0xFF00 + value as int] := High(cpu.AF);
  }

  /** xor_a_a. */
  method XorAA(cpu: Cpu)
    requires cpu.Valid()
    modifies cpu
    ensures cpu.Snapshot() == EH.XorAA(old(cpu.Snapshot()))
  {
    var a := High(cpu.AF);
    cpu.AF := Join(a, 0x80);
  }

  /** bit_7_h. */
  method Bit7H(cpu: Cpu)
    requires cpu.Valid()
    modifies cpu
    ensures cpu.Snapshot() == EH.Bit7H(old(cpu.Snapshot()))
  {
    var bit7 := cpu.HL / 0x8000;
    var zFlag: bv8 := if bit7 == 0 then 0x80 else 0x00;
    var f := Low(cpu.AF);
    var cFlag := f & 0x10;
    f := zFlag | 0x00 | 0x20 | cFlag;
    cpu.AF := WithLow(cpu.AF, f);
  }

  /** `opcode_table[op](cpu)`. */
  method RunOpcode(cpu: Cpu, op: bv8)
    requires cpu.Valid()
    modifies cpu, cpu.memory
    ensures cpu.Snapshot() == ED.Execute(ED.OpcodeTable(op), old(cpu.Snapshot()))
  {
    match op
    case 0x10 => I.StopN8(cpu);
    case 0x20 => JrNzE8(cpu);
    case 0x21 => I.LdHlN16(cpu);
    case 0x30 => JrNcE8(cpu);
    case 0x31 => I.LdSpN16(cpu);
    case 0x32 => I.LdHldA(cpu);
    case 0x3E => LdAN8(cpu);
    case 0xAF => XorAA(cpu);
    case 0xCB => Prefix(cpu);
    case 0xE0 => LdhA8A(cpu);
    case _ => Nop(cpu);
  }

  /** `special_opcode_table[op](cpu)`. */
  method RunSpecialOpcode(cpu: Cpu, op: bv8)
    requires cpu.Valid()
    modifies cpu
    ensures cpu.Snapshot() == ED.Execute(ED.SpecialOpcodeTable(op), old(cpu.Snapshot()))
  {
    if op == 0x7C {
      Bit7H(cpu);
    } else {
      Nop(cpu);
    }
  }

  /** prefix. */
  method Prefix(cpu: Cpu)
    requires cpu.Valid()
    modifies cpu
    ensures cpu.Snapshot() == ED.Prefix(old(cpu.Snapshot()))
  {
    var instruction := I.FetchByte(cpu);
    RunSpecialOpcode(cpu, instruction);
  }

  /** step. */
  method Step(cpu: Cpu)
    requires cpu.Valid()
    modifies cpu, cpu.memory
    ensures cpu.Snapshot() == ED.Step(old(cpu.Snapshot()))
  {
    var instruction := I.FetchByte(cpu);
    RunOpcode(cpu, instruction);
  }
}
