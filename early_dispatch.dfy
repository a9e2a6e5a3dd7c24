/** Decoding in the earlier interpreter (cpu.c at the repository root): the
    two 256-entry tables, in which every unassigned slot is nop, `step` and
    `prefix`. No slot is fatal, so a step always yields a state. */
module EarlyDispatch {
  import opened Word
  import opened Machine
  import H = Handlers
  import EH = EarlyHandlers

  /** A table slot: a pointer to an ordinary handler or to `prefix`. */
  datatype Entry = Run(handler: State -> State) | CbPrefix

  /** The primary slots that name a handler other than nop. */
  const AssignedOpcodes: set<bv8> :=
    {0x10, 0x20, 0x21, 0x30, 0x31, 0x32, 0x3E, 0xAF, 0xCB, 0xE0}

  /** opcode_table. */
  function OpcodeTable(op: bv8): Entry {
    match op
    case 0x10 => Run(H.StopN8)
    case 0x20 => Run(EH.JrNzE8)
    case 0x21 => Run(H.LdHlN16)
    case 0x30 => Run(EH.JrNcE8)
    case 0x31 => Run(H.LdSpN16)
    case 0x32 => Run(H.LdHldA)
    case 0x3E => Run(EH.LdAN8)
    case 0xAF => Run(EH.XorAA)
    case 0xCB => CbPrefix
    case 0xE0 => Run(EH.LdhA8A)
    case _ => Run(EH.Nop)
  }

  /** special_opcode_table: bit_7_h at 0x7C, nop everywhere else. */
  function SpecialOpcodeTable(op: bv8): Entry {
    if op == 0x7C then Run(EH.Bit7H) else Run(EH.Nop)
  }

  /** In opcode_table, exactly the unassigned slots are nop, and 0xCB is
      the only slot that leads to the secondary table. An assigned slot
      differs from nop on the state `w` below, whose F and first operand
      tell ld_a_n8 and ldh_a8_a apart from nop. */
  lemma OpcodeTableSlots(op: bv8)
    ensures OpcodeTable(op) == Run(EH.Nop) <==> op !in AssignedOpcodes
    ensures OpcodeTable(op) == CbPrefix <==> op == 0xCB
  {
    if op in AssignedOpcodes && op != 0xCB {
      var w := State(0, 0, 0, 0x0101, 0, 0, seq(0x10000, _ => 0));
      var h := OpcodeTable(op).handler;
      assert h(w) != EH.Nop(w) by {
        if op == 0x3E {
          assert h(w).AF == 0x0100;
        } else if op == 0xE0 {
          assert h(w).Read(0xFF00) == 1;
        } else if op == 0x21 || op == 0x31 {
          assert h(w).PC == 2;
        } else {
          assert h(w).PC == 0;
        }
      }
    }
  }

  /** Calling a table entry on a state whose PC is just past the opcode. */
  function Execute(h: Entry, s: State): State
    decreases if h == CbPrefix then 2 else 0
  {
    match h
    case Run(handler) => handler(s)
    case CbPrefix => Prefix(s)
  }

  /** prefix: fetch one more byte and run its secondary-table entry. */
  function Prefix(s: State): State
    decreases 1
  {
    var op := H.FetchByte(s);
    Execute(SpecialOpcodeTable(op.value), op.next)
  }

  /** step: fetch one opcode and run its primary-table entry. */
  function Step(s: State): State {
    var op := H.FetchByte(s);
    Execute(OpcodeTable(op.value), op.next)
  }

  /** Byte 0xCB consumes the next byte as well and runs exactly one
      secondary-table entry on it. */
  lemma StepPrefixed(s: State)
    requires s.Read(s.PC) == 0xCB
    ensures Step(s) == Execute(SpecialOpcodeTable(s.Read(Wrap(s.PC + 1))), s.(PC := Wrap(s.PC + 2)))
  {
    assert Wrap(Wrap(s.PC + 1) + 1) == Wrap(s.PC + 2);
  }

  /** Any other byte runs its primary-table entry with PC past the opcode. */
  lemma StepUnprefixed(s: State)
    requires s.Read(s.PC) != 0xCB
    ensures Step(s) == Execute(OpcodeTable(s.Read(s.PC)), s.(PC := Wrap(s.PC + 1)))
  {
  }

  /** An opcode whose slot is unassigned consumes two bytes and changes
      nothing else: fetching it advances PC and nop advances it again. */
  lemma UnknownOpcodeSkipsByte(s: State)
    requires s.Read(s.PC) !in AssignedOpcodes
    ensures Step(s) == s.(PC := Wrap(s.PC + 2))
  {
    OpcodeTableSlots(s.Read(s.PC));
    WrapAdd(s.PC + 1, 1);
  }

  /** After 0xCB, an opcode other than 0x7C reaches nop in the secondary
      table, so the whole instruction consumes three bytes. */
  lemma UnknownPrefixedOpcodeSkipsByte(s: State)
    requires s.Read(s.PC) == 0xCB && s.Read(Wrap(s.PC + 1)) != 0x7C
    ensures Step(s) == s.(PC := Wrap(s.PC + 3))
  {
    StepPrefixed(s);
    WrapAdd(s.PC + 2, 1);
  }
}
