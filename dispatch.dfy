/** Decoding in the current interpreter (src/cpu.c): the two 256-entry
    tables, `step`, `prefix` and the fatal `not_implemented` slot. */
module Dispatch {
  import opened Word
  import opened Machine
  import H = Handlers

  /** A table slot: a pointer to an ordinary handler, to `prefix`, or to
      `not_implemented`. */
  datatype Entry = Run(handler: State -> State) | CbPrefix | NotImplemented

  /** What one dispatched instruction leads to: the next state, or the
      process exit of `not_implemented` with the opcode it reports. */
  datatype Outcome = Ok(next: State) | Fatal(opcode: bv8)

  /** The primary slots that name a handler. */
  const AssignedOpcodes: set<bv8> :=
    {0x00, 0x05, 0x06, 0x0C, 0x0E, 0x10, 0x11, 0x17, 0x1A, 0x20, 0x21, 0x22,
     0x23, 0x31, 0x32, 0x3E, 0x4F, 0x77, 0xAF, 0xC1, 0xC5, 0xC9, 0xCB, 0xCD,
     0xD5, 0xE0, 0xE2, 0xE5, 0xF5, 0xFB}

  /** The secondary slots that name a handler. */
  const AssignedSecondary: set<bv8> := {0x11, 0x7C, 0xAF}

  /** opcode_table. */
  function OpcodeTable(op: bv8): Entry {
    match op
    case 0x00 => Run(H.Nop)
    case 0x05 => Run(H.DecB)
    case 0x06 => Run(H.LdBN8)
    case 0x0C => Run(H.IncC)
    case 0x0E => Run(H.LdCN8)
    case 0x10 => Run(H.StopN8)
    case 0x11 => Run(H.LdDeA)
    case 0x17 => Run(H.Rla)
    case 0x1A => Run(H.LdADe)
    case 0x20 => Run(H.JrNzE8)
    case 0x21 => Run(H.LdHlN16)
    case 0x22 => Run(H.LdHliA)
    case 0x23 => Run(H.IncHl)
    case 0x31 => Run(H.LdSpN16)
    case 0x32 => Run(H.LdHldA)
    case 0x3E => Run(H.LdAN8)
    case 0x4F => Run(H.LdCA)
    case 0x77 => Run(H.LdHlA)
    case 0xAF => Run(H.XorAA)
    case 0xC1 => Run(H.PopBc)
    case 0xC5 => Run(H.PushBc)
    case 0xC9 => Run(H.Ret)
    case 0xCB => CbPrefix
    case 0xCD => Run(H.CallA16)
    case 0xD5 => Run(H.PushDe)
    case 0xE0 => Run(H.LdhA8A)
    case 0xE2 => Run(H.LdhCA)
    case 0xE5 => Run(H.PushHl)
    case 0xF5 => Run(H.PushAf)
    case 0xFB => Run(H.Ei)
    case _ => NotImplemented
  }

  /** special_opcode_table. */
  function SpecialOpcodeTable(op: bv8): Entry {
    match op
    case 0x11 => Run(H.RlC)
    case 0x7C => Run(H.Bit7H)
    case 0xAF => Run(H.PushAf)
    case _ => NotImplemented
  }

  /** In opcode_table, the unassigned slots are not_implemented, and 0xCB is
      the only slot that leads to the secondary table. */
  lemma OpcodeTableSlots(op: bv8)
    ensures OpcodeTable(op) == NotImplemented <==> op !in AssignedOpcodes
    ensures OpcodeTable(op) == CbPrefix <==> op == 0xCB
  {
  }

  /** In special_opcode_table, the unassigned slots are not_implemented, no
      slot leads back to the secondary table, and slot 0xAF holds push_af. */
  lemma SpecialOpcodeTableSlots(op: bv8)
    ensures SpecialOpcodeTable(op) == NotImplemented <==> op !in AssignedSecondary
    ensures SpecialOpcodeTable(op) != CbPrefix
    ensures op == 0xAF ==> SpecialOpcodeTable(op) == Run(H.PushAf)
  {
  }

  /** Calling a table entry on a state whose PC is just past the opcode.
      not_implemented reports the byte just before PC, read at the wrapped
      address (see NotImplementedIndex for the index as the C computes it). */
  function Execute(h: Entry, s: State): Outcome
    decreases if h == CbPrefix then 2 else 0
  {
    match h
    case Run(handler) => Ok(handler(s))
    case CbPrefix => Prefix(s)
    case NotImplemented => Fatal(s.Read(Wrap(s.PC - 1)))
  }

  /** prefix: fetch one more byte and run its secondary-table entry. */
  function Prefix(s: State): Outcome
    decreases 1
  {
    var op := H.FetchByte(s);
    Execute(SpecialOpcodeTable(op.value), op.next)
  }

  /** prefix fails exactly when the slot of the byte it fetches is
      unassigned, and then reports that byte. */
  lemma PrefixFatal(s: State)
    ensures Prefix(s).Fatal? <==> s.Read(s.PC) !in AssignedSecondary
    ensures Prefix(s).Fatal? ==> Prefix(s).opcode == s.Read(s.PC)
  {
    var op := s.Read(s.PC);
    var next := s.(PC := Wrap(s.PC + 1));
    SpecialOpcodeTableSlots(op);
    assert Prefix(s) == Execute(SpecialOpcodeTable(op), next);
    if op !in AssignedSecondary {
      WrapAdd(s.PC + 1, -1);
    }
  }

  /** Running a table entry fails exactly on not_implemented, or on prefix
      when the next byte's secondary slot is unassigned. */
  lemma ExecuteFatal(h: Entry, s: State)
    ensures Execute(h, s).Fatal? <==>
              h == NotImplemented || (h == CbPrefix && s.Read(s.PC) !in AssignedSecondary)
  {
    if h == CbPrefix {
      PrefixFatal(s);
    }
  }

  /** step: fetch one opcode and run its primary-table entry. */
  function Step(s: State): Outcome {
    var op := H.FetchByte(s);
    Execute(OpcodeTable(op.value), op.next)
  }

  /** step fails exactly on an unassigned opcode, or on 0xCB followed by an
      unassigned secondary opcode, and then reports that opcode. */
  lemma StepFatal(s: State)
    ensures Step(s).Fatal? <==>
              || s.Read(s.PC) !in AssignedOpcodes
              || (s.Read(s.PC) == 0xCB && s.Read(Wrap(s.PC + 1)) !in AssignedSecondary)
    ensures Step(s).Fatal? ==>
              Step(s).opcode == if s.Read(s.PC) == 0xCB then s.Read(Wrap(s.PC + 1)) else s.Read(s.PC)
  {
    var op := s.Read(s.PC);
    OpcodeTableSlots(op);
    if op == 0xCB {
      StepPrefixed(s);
      PrefixFatal(s.(PC := Wrap(s.PC + 1)));
    } else {
      StepUnprefixed(s);
      ExecuteFatal(OpcodeTable(op), s.(PC := Wrap(s.PC + 1)));
    }
  }

  /** Byte 0xCB consumes the next byte as well and runs exactly one
      secondary-table entry on it. */
  lemma StepPrefixed(s: State)
    requires s.Read(s.PC) == 0xCB
    ensures Step(s) == Execute(SpecialOpcodeTable(s.Read(Wrap(s.PC + 1))), s.(PC := Wrap(s.PC + 2)))
  {
    assert Wrap(Wrap(s.PC + 1) + 1) == Wrap(s.PC + 2);
  }

  /** Any other byte runs its primary-table entry with PC past the opcode. */
  lemma StepUnprefixed(s: State)
    requires s.Read(s.PC) != 0xCB
    ensures Step(s) == Execute(OpcodeTable(s.Read(s.PC)), s.(PC := Wrap(s.PC + 1)))
  {
  }

  // ---------------------------------------------------------------------
  // The index not_implemented reads, as written

  /** `cpu->PC - 1` in not_implemented is computed in `int` (the `uint16_t`
      PC is promoted before the subtraction), so it is not wrapped. */
  function NotImplementedIndex(s: State): (i: int)
    ensures 0 <= i < 0x10000 <==> s.PC != 0
  {
    s.PC - 1
  }

  /** An unassigned opcode at the last address: fetching it wraps PC to 0,
      and the C then reads one byte before the start of the buffer while
      the wrapped read reports the opcode. */
  lemma NotImplementedAtTopOfMemory(s: State)
    requires s.PC == 0xFFFF && s.Read(0xFFFF) !in AssignedOpcodes
    ensures Step(s) == Fatal(s.Read(0xFFFF))
    ensures NotImplementedIndex(H.FetchByte(s).next) == -1
  {
    StepUnprefixed(s);
  }
}
