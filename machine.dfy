/** The CPU record shared by both interpreters: six 16-bit register pairs and
    a 64 KiB byte-addressed memory, first as the value that the specification
    functions transform and then as the mutable object the methods update. */
module Machine {
  import opened Word

  /** The whole address space: one byte per 16-bit address. */
  type Memory = m: seq<bv8> | |m| == 0x10000 witness seq(0x10000, _ => 0)

  /** A value snapshot of the CPU record. */
  datatype State = State(
    BC: uint16, DE: uint16, HL: uint16, AF: uint16, SP: uint16, PC: uint16,
    memory: Memory)
  {
    /** The byte at `addr`. */
    function Read(addr: uint16): bv8 { memory[addr] }

    /** The same state with the byte at `addr` replaced by `b`. */
    function Write(addr: uint16, b: bv8): State {
      this.(memory := memory[addr := b])
    }

    // The 8-bit halves of the pairs.
    function A(): bv8 { High(AF) }
    function F(): bv8 { Low(AF) }
    function B(): bv8 { High(BC) }
    function C(): bv8 { Low(BC) }
    function D(): bv8 { High(DE) }
    function E(): bv8 { Low(DE) }
    function H(): bv8 { High(HL) }
    function L(): bv8 { Low(HL) }
  }

  /** Every address outside `cells` holds the same byte in `s` and `t`. */
  ghost predicate SameExcept(s: State, t: State, cells: set<uint16>) {
    forall a: uint16 :: a !in cells ==> t.Read(a) == s.Read(a)
  }

  /** A write stores its byte there and changes no other address. */
  lemma WriteFrame(s: State, addr: uint16, b: bv8)
    ensures s.Write(addr, b).Read(addr) == b
    ensures SameExcept(s, s.Write(addr, b), {addr})
  {
  }

  /** The mutable CPU. The memory buffer is handed over once, at
      construction, and never replaced. */
  class Cpu {
    var BC: uint16
    var DE: uint16
    var HL: uint16
    var AF: uint16  // A is the high byte, the flag byte F the low byte
    var SP: uint16
    var PC: uint16
    const memory: array<bv8>

    /** The buffer spans the whole 16-bit address space. */
    predicate Valid() { memory.Length == 0x10000 }

    /** The current registers and memory contents as a value. */
    ghost function Snapshot(): State
      requires Valid()
      reads this, memory
    {
      State(BC, DE, HL, AF, SP, PC, memory[..])
    }

    /** initialize_cpu: take ownership of the caller's buffer and start at
        address 0. A missing buffer, which the source rejects with a fatal
        error, is excluded by the precondition. The other registers start
        at 0 here; the source leaves them as the caller's record had them. */
    constructor (memory: array<bv8>)
      requires memory.Length == 0x10000
      ensures Valid()
      ensures this.memory == memory && PC == 0
    {
      this.memory := memory;
      BC, DE, HL, AF, SP := 0, 0, 0, 0, 0;
      PC := 0;
    }
  }
}
