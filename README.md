# SM83 interpreter core of a C GameBoy emulator, in Dafny

This project models the CPU interpreter of a small GameBoy emulator written
in C, in two versions:

- the current interpreter, src/cpu.c;
- an earlier snapshot of the same engine, cpu.c at the repository root.

The model follows the C code as written, not the SM83 hardware, and its
contracts state where the two differ.

The CPU record holds six 16-bit register pairs (BC, DE, HL, AF, SP and PC)
and a 64 KiB memory buffer. The model has two layers for each version:

- **Specification functions** on the value `Machine.State`. There is one
  per handler, in `Handlers` and `EarlyHandlers`. The two dispatch tables
  with `step` and `prefix` are in `Dispatch` and `EarlyDispatch`. Their
  contracts say exactly which registers, flags and memory cells change and
  to what. The lemmas in `Properties` and `EarlyProperties` relate several
  handlers or steps: push/pop and call/ret round trips, the fatal slots,
  the bytes an unknown opcode consumes, and the boot ROM's first
  instructions in both versions.
- **Imperative methods** on the class `Machine.Cpu`, in `Interpreter` and
  `EarlyInterpreter`. The class has uint16 register fields and an
  `array<bv8>` memory. Each method updates the object in place,
  statement by statement as the C handler does. Each is proved to leave
  `Snapshot()` equal to its specification function applied to the old
  snapshot. Table dispatch through function pointers becomes a `match` on
  the opcode.

Files:

- `word.dfy`: `uint16_t` values, byte halves, the `int8_t` reading.
- `machine.dfy`: the state, the memory frame predicate and the `Cpu` class.
- `handlers.dfy`, `dispatch.dfy`, `properties.dfy`, `interpreter.dfy`: the
  current version.
- `early_handlers.dfy`, `early_dispatch.dfy`, `early_properties.dfy`,
  `early_interpreter.dfy`: the earlier version.

The earlier snapshot's fetch_byte, fetch_word, stop_n8, ld_sp_n16,
ld_hl_n16 and ld_hld_a compute the same results as the current ones. The
spelling differs in places: the earlier ld_hld_a reads A as
`(uint8_t)(cpu->AF >> 8)` (cpu.c:61), the current one by `get_first_reg`
(src/cpu.c:91). They are modelled once, by the members of `Handlers` and
`Interpreter`.

Behaviours of the current version that the contracts state as written:

- every `get_*_flag` returns bit 0 of F (`f & 0x80 >> 7` is `f & 1`);
- jr_nz_e8 therefore branches when bit 0 of F is 1, and does not consume
  its offset byte when it does not branch;
- xor_a_a changes only the flags;
- bit_7_h sets Z when bit 7 of H is 1;
- inc_h, inc_d, inc_e and inc_l write into BC, and inc_b writes C into both
  halves of BC;
- ld_c_n8 stores `B | n` unshifted;
- dec_b never writes B back;
- rla rebuilds AF from the stale F and the rotated A, swapped;
- ldh_a8_a stores F;
- secondary slot 0xAF is push_af.

The handlers inc_h, inc_d, inc_e, inc_b, inc_l, inc_bc, inc_de, inc_sp and
dec_hl … dec_sp appear in no table. They are modelled like the others but
no step reaches them.

`BootPrefix` holds the opening twelve bytes of the DMG boot ROM. It is a
scenario for the boot lemmas, not the file main.c loads: main.c reads
`./roms/sgb_boot.bin` at run time, and no ROM bytes appear in the source.

Two helpers in `Word` exist only to keep the solver cheap, and carry no
property of the emulator:

- `Word.Wrap` converts to `uint16_t` by cases rather than by `%`.
  `Word.WrapIsModulo` proves the two agree.
- `Word.ToByte` builds a byte by counting up from 0 rather than by a cast
  `x as bv8`. Its contract is only that the byte has value `x`.

## Model

| member | source | states |
|---|---|---|
| Word.WrapIsModulo | src/cpu.c:18 | the case-wise conversion used for every register update is the value modulo 65536, as storing into a `uint16_t` (PC++, SP--, HL--, PC += e) is |
| Word.High | src/cpu.c:35 | get_first_reg: the high byte of a pair is the pair divided by 256 |
| Word.Low | src/cpu.c:36 | get_last_reg: the low byte of a pair is the pair modulo 256 |
| Word.Join | src/cpu.c:23 | `high << 8 | low` is the pair whose high and low bytes are exactly `high` and `low` |
| Word.SignedByte | src/cpu.c:59 | the `int8_t` reading of a byte lies in -128..127, agrees with the byte modulo 256, and is negative exactly when bit 7 is set |
| Word.ShiftLeftByte | cpu.c:41 | `AF << 8` stored into a `uint16_t` is `AF * 256` modulo 65536 |
| Machine.Cpu.constructor | src/cpu.c:861-868 | initialize_cpu: the CPU takes the caller's 64 KiB buffer and starts with PC = 0 |
| Handlers.FetchByte | src/cpu.c:18 | fetch_byte: the byte at PC, with PC advanced by 1 modulo 65536; its fetch-word consequence is Properties.FetchWordLittleEndian |
| Handlers.FetchWord | cpu.c:9-13 | fetch_word (computing the same result in both versions): the word whose low byte is at PC and high byte at PC+1, with PC advanced by 2 modulo 65536 and nothing else changed |
| Handlers.GetZFlag | src/cpu.c:38 | get_z_flag returns `f & 1`: C precedence shifts the mask, so bit 0 of F is read, not Z |
| Handlers.GetNFlag | src/cpu.c:39 | get_n_flag returns `f & 1` |
| Handlers.GetHFlag | src/cpu.c:40 | get_h_flag returns `f & 1` |
| Handlers.GetCFlag | src/cpu.c:41 | get_c_flag returns `f & 1` |
| Handlers.UpdateFlags | src/cpu.c:43-48 | the bits of F under `mask` equal those of `flags`, the other bits of F are kept, and A and all other state are unchanged |
| Handlers.PushWord | src/cpu.c:291-296 | a push leaves SP two lower, the high byte at SP-1 and the low byte at SP-2 (modulo 65536), no other memory cell changed and no other register changed |
| Handlers.Nop | src/cpu.c:50 | nop has an empty body: the state is unchanged (unlike the earlier version, EarlyHandlers.Nop) |
| Handlers.StopN8 | src/cpu.c:52 | stop_n8 has an empty body: the state is unchanged, the operand is not consumed |
| Handlers.JrNzE8 | src/cpu.c:54-62 | taken iff bit 0 of F is 1: then PC = (PC+1) + signed offset modulo 65536; not taken: the state, PC included, is unchanged and the offset byte is not consumed |
| Handlers.LdSpN16 | src/cpu.c:64-67 | SP becomes the little-endian immediate word, PC advances by 2, nothing else changes |
| Handlers.LdAN8 | src/cpu.c:69-73 | A becomes the immediate byte, F is kept, PC advances by 1, nothing else changes |
| Handlers.LdhA8A | src/cpu.c:75-78 | F, not A, is stored at 0xFF00 + n; no other cell changes; PC advances by 1 |
| Handlers.XorAA | src/cpu.c:80-83 | A is unchanged, F's high nibble becomes Z=1 N=0 H=0 C=0, its low nibble is kept, nothing else changes |
| Handlers.LdHlN16 | src/cpu.c:85-88 | HL becomes the little-endian immediate word, PC advances by 2, nothing else changes |
| Handlers.LdHldA | src/cpu.c:90-94 | A is stored at the old HL, HL decreases by 1 modulo 65536, no other cell or register changes |
| Handlers.Bit7H | src/cpu.c:96-102 | Z is set iff bit 7 of H is 1 (inverted with respect to hardware); every other bit of AF is kept |
| Handlers.Ei | src/cpu.c:104-107 | memory[0xFFFF] becomes 1 and nothing else changes |
| Handlers.LdCN8 | src/cpu.c:109-113 | BC becomes `B | n` unshifted: B becomes 0 and C becomes old B OR n; PC advances by 1 |
| Handlers.LdhCA | src/cpu.c:115-119 | A is stored at 0xFF00 + C and no other cell or register changes |
| Handlers.IncC | src/cpu.c:121-132 | C becomes C+1 modulo 256 with B kept; Z iff old C was 0xFF, H iff the old low nibble was 0xF, N cleared, C flag and F's low nibble kept |
| Handlers.IncH | src/cpu.c:134-145 | the flags follow the increment of H, but BC (not HL) receives H+1 and L; HL is unchanged |
| Handlers.IncD | src/cpu.c:147-158 | the flags follow the increment of D, but BC (not DE) receives D+1 and E; DE is unchanged |
| Handlers.IncE | src/cpu.c:160-171 | the flags follow the increment of E, but BC (not DE) receives D and E+1; DE is unchanged |
| Handlers.IncB | src/cpu.c:173-184 | the flags follow the increment of B, but BC becomes C in both halves |
| Handlers.IncL | src/cpu.c:186-197 | the flags follow the increment of L, but BC (not HL) receives H and L+1; HL is unchanged |
| Handlers.LdHlA | src/cpu.c:199-202 | A is stored at HL and no other cell or register changes |
| Handlers.LdDeA | src/cpu.c:204-207 | DE becomes the little-endian immediate word, PC advances by 2, nothing else changes |
| Handlers.LdADe | src/cpu.c:209-213 | A becomes the byte at DE, F is kept, nothing else changes |
| Handlers.CallA16 | src/cpu.c:215-226 | PC becomes the little-endian target, SP decreases by 2, the return address PC+2 is stored high byte at SP-1 and low byte at SP-2, no other cell changes |
| Handlers.LdCA | src/cpu.c:228-232 | C becomes A, B is kept, nothing else changes |
| Handlers.LdBN8 | src/cpu.c:234-238 | B becomes the immediate byte, C is kept, PC advances by 1 |
| Handlers.RlC | src/cpu.c:240-256 | C is rotated left through bit 0 of F (what get_c_flag returns); carry iff old bit 7 of C, Z iff the new C is 0, N and H cleared, F's low nibble and B kept |
| Handlers.Rla | src/cpu.c:257-271 | AF is rebuilt from the stale F and the rotated A swapped: the new A is the old F and the new F is the old A rotated left through bit 0 of F |
| Handlers.PopBc | src/cpu.c:273-280 | BC becomes the little-endian word at SP and SP rises by 2; nothing else changes |
| Handlers.DecB | src/cpu.c:282-289 | the flags of a decrement of B (Z iff B was 1, H iff the low nibble borrowed, N set, C and the low nibble kept), while BC is never written back |
| Handlers.PushBc | src/cpu.c:291-296 | push_bc is Handlers.PushWord of BC; its round trip with pop_bc is Properties.PushBcPopBc |
| Handlers.PushAf | src/cpu.c:298-303 | push_af is Handlers.PushWord of AF |
| Handlers.PushDe | src/cpu.c:305-310 | push_de is Handlers.PushWord of DE |
| Handlers.PushHl | src/cpu.c:312-317 | push_hl is Handlers.PushWord of HL |
| Handlers.LdHliA | src/cpu.c:319-323 | A is stored at the old HL, HL increases by 1 modulo 65536, no other cell or register changes |
| Handlers.IncHl | src/cpu.c:325 | inc_hl: HL becomes HL+1 wrapped to 16 bits (Word.WrapIsModulo), nothing else changes |
| Handlers.IncBc | src/cpu.c:326 | inc_bc: BC becomes BC+1 wrapped to 16 bits, nothing else changes |
| Handlers.IncDe | src/cpu.c:327 | inc_de: DE becomes DE+1 wrapped to 16 bits, nothing else changes |
| Handlers.IncSp | src/cpu.c:328 | inc_sp: SP becomes SP+1 wrapped to 16 bits, nothing else changes |
| Handlers.DecHl | src/cpu.c:330 | dec_hl: HL becomes HL-1 wrapped to 16 bits, nothing else changes |
| Handlers.DecBc | src/cpu.c:331 | dec_bc: BC becomes BC-1 wrapped to 16 bits, nothing else changes |
| Handlers.DecDe | src/cpu.c:332 | dec_de: DE becomes DE-1 wrapped to 16 bits, nothing else changes |
| Handlers.DecSp | src/cpu.c:333 | dec_sp: SP becomes SP-1 wrapped to 16 bits, nothing else changes |
| Handlers.Ret | src/cpu.c:335-341 | PC becomes the little-endian word at SP and SP rises by 2; nothing else changes |
| Dispatch.OpcodeTable | src/cpu.c:602-859 | opcode_table, slot by slot as written: a handler, prefix, or not_implemented; its shape is stated by Dispatch.OpcodeTableSlots |
| Dispatch.SpecialOpcodeTable | src/cpu.c:343-600 | special_opcode_table, slot by slot as written; its shape is stated by Dispatch.SpecialOpcodeTableSlots |
| Dispatch.Execute | src/cpu.c:873 | calling a table entry: a handler's new state, prefix's outcome, or not_implemented's fatal report of the byte before PC; its fatal cases are Dispatch.ExecuteFatal |
| Dispatch.Prefix | src/cpu.c:876-880 | prefix: fetch one byte and run its secondary entry; its fatal cases are Dispatch.PrefixFatal |
| Dispatch.Step | src/cpu.c:870-874 | step: fetch one byte and run its primary entry; its fatal cases are Dispatch.StepFatal and its decoding Dispatch.StepPrefixed and Dispatch.StepUnprefixed |
| Dispatch.OpcodeTableSlots | src/cpu.c:602-859 | a primary slot is not_implemented iff it is not one of the 30 assigned opcodes, and only slot 0xCB leads to prefix |
| Dispatch.SpecialOpcodeTableSlots | src/cpu.c:343-600 | a secondary slot is not_implemented iff it is not 0x11, 0x7C or 0xAF, no slot leads to prefix, and slot 0xAF is push_af |
| Dispatch.PrefixFatal | src/cpu.c:876-880 | prefix fails exactly when the fetched byte's secondary slot is unassigned, reporting that byte |
| Dispatch.ExecuteFatal | src/cpu.c:30-33 | running a slot fails exactly on not_implemented, or on prefix followed by an unassigned secondary byte |
| Dispatch.StepFatal | src/cpu.c:870-874 | step fails exactly on an unassigned opcode or on 0xCB followed by an unassigned secondary byte, and reports the opcode that reached not_implemented |
| Dispatch.StepPrefixed | src/cpu.c:876-880 | 0xCB consumes the next byte too and runs exactly one secondary-table entry on it |
| Dispatch.StepUnprefixed | src/cpu.c:870-874 | any other byte runs its primary-table entry with PC just past the opcode |
| Dispatch.NotImplementedIndex | src/cpu.c:31 | the index `PC - 1` is computed without wrapping and lies inside the buffer iff PC is not 0 |
| Dispatch.NotImplementedAtTopOfMemory | src/cpu.c:31 | an unassigned opcode at 0xFFFF is reported correctly by the model while the C index is -1 |
| Properties.Iterate | main.c:36-40 | the main loop's repeated `step` calls, cut to `n` calls: zero calls leave the state as it is, and a fatal outcome ends the run |
| Properties.Run | main.c:36-40 | `n` calls of the current version's step from a state, as the main loop makes them |
| Properties.IterateSplit | main.c:36-40 | running `m + n` steps is running `m` then `n` steps when the first `m` succeed, and stops at the fatal outcome otherwise |
| Properties.FetchWordLittleEndian | src/cpu.c:18-24 | fetch_word's value is `memory[PC] + 256 * memory[PC+1]` and PC advances by exactly 2 modulo 65536 |
| Properties.PushPopRoundTrip | src/cpu.c:273-296 | popping right after pushing a word returns that word, restores SP and every register |
| Properties.PushBcPopBc | src/cpu.c:273-296 | push_bc then pop_bc restores BC and SP and leaves every other register unchanged |
| Properties.CallThenRet | src/cpu.c:215-226 | call_a16 then ret leaves PC just past the CALL's operand, SP at its pre-call value, and only the two stack cells changed |
| Properties.CallLandsOnRet | src/cpu.c:215-226 | after call_a16, PC is the fetched target, and a RET stored there returns behind the 3-byte CALL |
| Properties.StepCall | src/cpu.c:870-874 | one step on 0xCD runs call_a16 with PC past the opcode |
| Properties.StepRet | src/cpu.c:335-341 | one step on 0xC9 runs ret |
| Properties.StepCallThenRet | src/cpu.c:870-874 | two steps through CALL and a RET at its target end at PC+3 with SP restored and only the stack cells changed |
| Properties.Bit7HDoesNotSteerJrNz | src/cpu.c:54-102 | BIT 7,H never changes where a following JR NZ goes, because it touches only Z while jr_nz_e8 reads bit 0 of F |
| Properties.BootLdSp | src/cpu.c:64-67 | LD SP,$FFFE at address 0 sets SP to 0xFFFE and PC to 3 |
| Properties.BootXor | src/cpu.c:80-83 | XOR A at address 3 keeps A and bit 0 of F |
| Properties.BootLdHl | src/cpu.c:85-88 | LD HL,$9FFF at address 4 sets HL and PC to 7 |
| Properties.BootLdHld | src/cpu.c:90-94 | LD (HL-),A at address 7 stores A at 0x9FFF and sets HL to 0x9FFE |
| Properties.BootBit | src/cpu.c:96-102 | BIT 7,H at address 8 keeps A and bit 0 of F |
| Properties.BootJrNz | src/cpu.c:54-62 | JR NZ at address 10 with bit 0 of F clear only moves PC past the opcode |
| Properties.BootJrNzTaken | src/cpu.c:54-62 | JR NZ,-5 at address 10 with bit 0 of F set consumes its offset and returns to address 7. initialize_cpu does not set F, so this bit is whatever the caller's record held |
| Properties.BootEi | src/cpu.c:104-107 | the offset byte 0xFB at address 11 then runs as EI |
| Properties.BootSetup | src/cpu.c:870-874 | the first three boot instructions leave SP 0xFFFE, HL 0x9FFF, A unchanged and memory untouched |
| Properties.BootLoopBody | src/cpu.c:870-874 | LD (HL-),A; BIT 7,H; JR NZ falling through; EI: PC 12, A at 0x9FFF, 0xFFFF set to 1 |
| Properties.BootPrefixCurrent | src/cpu.c:870-874 | started at address 0 with bit 0 of F clear, seven steps over the boot ROM's first bytes run the VRAM-clearing loop body once, and the JR NZ offset byte executes as EI; with that bit set the loop is re-entered instead (Properties.BootJrNzTaken) |
| Interpreter.FetchByte | src/cpu.c:18 | returns the byte at PC and advances PC by 1 modulo 65536, as Handlers.FetchByte |
| Interpreter.FetchWord | src/cpu.c:20-24 | two byte fetches combined as Handlers.FetchWord |
| Interpreter.UpdateFlags | src/cpu.c:43-48 | updates AF in place to Handlers.UpdateFlags of the old state |
| Interpreter.Nop | src/cpu.c:50 | the registers and memory after the call are Handlers.Nop of the state before it |
| Interpreter.StopN8 | src/cpu.c:52 | the registers and memory after the call are Handlers.StopN8 of the state before it |
| Interpreter.JrNzE8 | src/cpu.c:54-62 | the registers and memory after the call are Handlers.JrNzE8 of the state before it |
| Interpreter.LdSpN16 | src/cpu.c:64-67 | the registers and memory after the call are Handlers.LdSpN16 of the state before it |
| Interpreter.LdAN8 | src/cpu.c:69-73 | the registers and memory after the call are Handlers.LdAN8 of the state before it |
| Interpreter.LdhA8A | src/cpu.c:75-78 | the registers and memory after the call are Handlers.LdhA8A of the state before it |
| Interpreter.XorAA | src/cpu.c:80-83 | the registers and memory after the call are Handlers.XorAA of the state before it |
| Interpreter.LdHlN16 | src/cpu.c:85-88 | the registers and memory after the call are Handlers.LdHlN16 of the state before it |
| Interpreter.LdHldA | src/cpu.c:90-94 | the registers and memory after the call are Handlers.LdHldA of the state before it |
| Interpreter.Bit7H | src/cpu.c:96-102 | the registers and memory after the call are Handlers.Bit7H of the state before it |
| Interpreter.Ei | src/cpu.c:104-107 | the registers and memory after the call are Handlers.Ei of the state before it |
| Interpreter.LdCN8 | src/cpu.c:109-113 | the registers and memory after the call are Handlers.LdCN8 of the state before it |
| Interpreter.LdhCA | src/cpu.c:115-119 | the registers and memory after the call are Handlers.LdhCA of the state before it |
| Interpreter.IncC | src/cpu.c:121-132 | the registers and memory after the call are Handlers.IncC of the state before it |
| Interpreter.IncH | src/cpu.c:134-145 | the registers and memory after the call are Handlers.IncH of the state before it |
| Interpreter.IncD | src/cpu.c:147-158 | the registers and memory after the call are Handlers.IncD of the state before it |
| Interpreter.IncE | src/cpu.c:160-171 | the registers and memory after the call are Handlers.IncE of the state before it |
| Interpreter.IncB | src/cpu.c:173-184 | the registers and memory after the call are Handlers.IncB of the state before it |
| Interpreter.IncL | src/cpu.c:186-197 | the registers and memory after the call are Handlers.IncL of the state before it |
| Interpreter.LdHlA | src/cpu.c:199-202 | the registers and memory after the call are Handlers.LdHlA of the state before it |
| Interpreter.LdDeA | src/cpu.c:204-207 | the registers and memory after the call are Handlers.LdDeA of the state before it |
| Interpreter.LdADe | src/cpu.c:209-213 | the registers and memory after the call are Handlers.LdADe of the state before it |
| Interpreter.CallA16 | src/cpu.c:215-226 | the registers and memory after the call are Handlers.CallA16 of the state before it |
| Interpreter.LdCA | src/cpu.c:228-232 | the registers and memory after the call are Handlers.LdCA of the state before it |
| Interpreter.LdBN8 | src/cpu.c:234-238 | the registers and memory after the call are Handlers.LdBN8 of the state before it |
| Interpreter.RlC | src/cpu.c:240-256 | the registers and memory after the call are Handlers.RlC of the state before it |
| Interpreter.Rla | src/cpu.c:257-271 | the registers and memory after the call are Handlers.Rla of the state before it |
| Interpreter.PopBc | src/cpu.c:273-280 | the registers and memory after the call are Handlers.PopBc of the state before it |
| Interpreter.DecB | src/cpu.c:282-289 | the registers and memory after the call are Handlers.DecB of the state before it |
| Interpreter.PushBc | src/cpu.c:291-296 | the registers and memory after the call are Handlers.PushBc of the state before it |
| Interpreter.PushAf | src/cpu.c:298-303 | the registers and memory after the call are Handlers.PushAf of the state before it |
| Interpreter.PushDe | src/cpu.c:305-310 | the registers and memory after the call are Handlers.PushDe of the state before it |
| Interpreter.PushHl | src/cpu.c:312-317 | the registers and memory after the call are Handlers.PushHl of the state before it |
| Interpreter.LdHliA | src/cpu.c:319-323 | the registers and memory after the call are Handlers.LdHliA of the state before it |
| Interpreter.IncHl | src/cpu.c:325 | the registers and memory after the call are Handlers.IncHl of the state before it |
| Interpreter.IncBc | src/cpu.c:326 | the registers and memory after the call are Handlers.IncBc of the state before it |
| Interpreter.IncDe | src/cpu.c:327 | the registers and memory after the call are Handlers.IncDe of the state before it |
| Interpreter.IncSp | src/cpu.c:328 | the registers and memory after the call are Handlers.IncSp of the state before it |
| Interpreter.DecHl | src/cpu.c:330 | the registers and memory after the call are Handlers.DecHl of the state before it |
| Interpreter.DecBc | src/cpu.c:331 | the registers and memory after the call are Handlers.DecBc of the state before it |
| Interpreter.DecDe | src/cpu.c:332 | the registers and memory after the call are Handlers.DecDe of the state before it |
| Interpreter.DecSp | src/cpu.c:333 | the registers and memory after the call are Handlers.DecSp of the state before it |
| Interpreter.Ret | src/cpu.c:335-341 | the registers and memory after the call are Handlers.Ret of the state before it |
| Interpreter.NotImplemented | src/cpu.c:30-33 | returns the exit report carrying the byte before PC, as Dispatch.Execute on a not_implemented slot |
| Interpreter.RunOpcode | src/cpu.c:602-859 | calling `opcode_table[op]` is Dispatch.Execute of OpcodeTable(op): the new state, or the fatal report |
| Interpreter.RunSpecialOpcode | src/cpu.c:343-600 | calling `special_opcode_table[op]` is Dispatch.Execute of SpecialOpcodeTable(op) |
| Interpreter.Prefix | src/cpu.c:876-880 | the status and new state are those of Dispatch.Prefix |
| Interpreter.Step | src/cpu.c:870-874 | the status and new state are those of Dispatch.Step |
| EarlyHandlers.JrNzE8 | cpu.c:23-28 | taken iff bit 7 of H (bit 15 of HL) is 1: then PC = (PC+1) + signed offset; otherwise nothing changes and no offset byte is consumed |
| EarlyHandlers.LdAN8 | cpu.c:39-43 | A becomes n OR the old F and F becomes 0 (the 16-bit truncation of `AF << 8`); PC advances by 1 |
| EarlyHandlers.LdhA8A | cpu.c:45-48 | A is stored at 0xFF00 + n; no other cell changes; PC advances by 1 |
| EarlyHandlers.XorAA | cpu.c:50-54 | A is kept and F becomes exactly 0x80 |
| EarlyHandlers.Bit7H | cpu.c:67-74 | Z iff bit 7 of H is 0, H set, N cleared, C kept, F's low nibble 0, A and the rest unchanged |
| EarlyHandlers.Nop | cpu.c:19 | the earlier nop advances PC by 1, so it skips the byte after its opcode (EarlyDispatch.UnknownOpcodeSkipsByte) |
| EarlyHandlers.JrNcE8 | cpu.c:30-32 | jr_nc_e8 has an empty body: the state is unchanged, the offset is not consumed |
| EarlyDispatch.OpcodeTable | cpu.c:336-593 | the earlier opcode_table as written, every unassigned slot nop; its shape is stated by EarlyDispatch.OpcodeTableSlots |
| EarlyDispatch.SpecialOpcodeTable | cpu.c:76-334 | the earlier special_opcode_table: bit_7_h at 0x7C, nop everywhere else |
| EarlyDispatch.Execute | cpu.c:607 | calling a table entry: a handler's new state or prefix's; no entry is fatal |
| EarlyDispatch.Prefix | cpu.c:610-614 | prefix: fetch one byte and run its secondary entry (EarlyDispatch.UnknownPrefixedOpcodeSkipsByte) |
| EarlyDispatch.Step | cpu.c:604-608 | step: fetch one byte and run its primary entry (EarlyDispatch.StepPrefixed, EarlyDispatch.StepUnprefixed) |
| EarlyDispatch.OpcodeTableSlots | cpu.c:336-593 | a slot is nop iff it is not one of the ten assigned opcodes (each assigned handler differs from nop on a witness state), and only slot 0xCB leads to prefix |
| EarlyDispatch.StepPrefixed | cpu.c:610-614 | 0xCB consumes the next byte and runs exactly one secondary-table entry on it |
| EarlyDispatch.StepUnprefixed | cpu.c:604-608 | any other byte runs its primary-table entry with PC just past the opcode |
| EarlyDispatch.UnknownOpcodeSkipsByte | cpu.c:19 | an unassigned opcode consumes two bytes (the fetch and nop's PC++) and changes nothing else |
| EarlyDispatch.UnknownPrefixedOpcodeSkipsByte | cpu.c:76-334 | 0xCB followed by anything but 0x7C consumes three bytes and changes nothing else |
| EarlyProperties.JrNzAfterBit7H | cpu.c:23-74 | after BIT 7,H, JR NZ branches exactly when the Z flag is clear, as on the SM83 |
| EarlyProperties.SharedOpcodesAgree | cpu.c:336-593 | opcodes 0x10, 0x21, 0x31 and 0x32 step identically in both versions |
| EarlyProperties.UnassignedOpcodeVersions | cpu.c:19 | an opcode neither version assigns is fatal in the current version and a 2-byte no-op in the earlier one |
| EarlyProperties.BootLdSp | cpu.c:34-37 | LD SP,$FFFE at address 0 sets SP to 0xFFFE and PC to 3 |
| EarlyProperties.BootXor | cpu.c:50-54 | XOR A at address 3 keeps A and sets F to 0x80 |
| EarlyProperties.BootLdHl | cpu.c:56-59 | LD HL,$9FFF at address 4 sets HL and PC to 7 |
| EarlyProperties.BootLdHld | cpu.c:61-65 | LD (HL-),A at address 7 stores A at 0x9FFF and sets HL to 0x9FFE |
| EarlyProperties.BootBit | cpu.c:67-74 | BIT 7,H at address 8 keeps A and moves PC to 10 |
| EarlyProperties.BootJrNz | cpu.c:23-28 | JR NZ,-5 at address 10 with HL = 0x9FFE is taken and lands on address 7 |
| EarlyProperties.BootSetup | cpu.c:604-608 | the first three boot instructions leave SP 0xFFFE, HL 0x9FFF, A unchanged and memory untouched |
| EarlyProperties.BootLoopBody | cpu.c:604-608 | LD (HL-),A; BIT 7,H; JR NZ,-5 returns to address 7 with A at 0x9FFF and HL one lower |
| EarlyProperties.BootLoopsBack | cpu.c:604-608 | six steps over the boot ROM's first bytes enter the VRAM-clearing loop: back at address 7 with HL 0x9FFE |
| EarlyInterpreter.Nop | cpu.c:19 | the state after the call is EarlyHandlers.Nop of the state before it |
| EarlyInterpreter.JrNzE8 | cpu.c:23-28 | the state after the call is EarlyHandlers.JrNzE8 of the state before it |
| EarlyInterpreter.JrNcE8 | cpu.c:30-32 | the state after the call is EarlyHandlers.JrNcE8 of the state before it |
| EarlyInterpreter.LdAN8 | cpu.c:39-43 | the state after the call is EarlyHandlers.LdAN8 of the state before it |
| EarlyInterpreter.LdhA8A | cpu.c:45-48 | the state after the call is EarlyHandlers.LdhA8A of the state before it |
| EarlyInterpreter.XorAA | cpu.c:50-54 | the state after the call is EarlyHandlers.XorAA of the state before it |
| EarlyInterpreter.Bit7H | cpu.c:67-74 | the state after the call is EarlyHandlers.Bit7H of the state before it |
| EarlyInterpreter.RunOpcode | cpu.c:336-593 | calling `opcode_table[op]` is EarlyDispatch.Execute of OpcodeTable(op) |
| EarlyInterpreter.RunSpecialOpcode | cpu.c:76-334 | calling `special_opcode_table[op]` is EarlyDispatch.Execute of SpecialOpcodeTable(op) |
| EarlyInterpreter.Prefix | cpu.c:610-614 | the new state is EarlyDispatch.Prefix of the old one |
| EarlyInterpreter.Step | cpu.c:604-608 | the new state is EarlyDispatch.Step of the old one |

## Left out

- The main loop's pacing by the monotonic clock and its `usleep` calls (main.c): real-time behaviour. The model gives single steps and finite runs of steps.
- Loading the boot ROM from a file and the listing `printf` in main, and `read_to_buffer` (utils.c): file I/O.
- The `printf` traces in `step` and `prefix`: output only.
- The process exit in `not_implemented`. It is the `Fatal` outcome of `Dispatch` and the `Exited` status of `Interpreter`; no state is defined after it.
- Machine.Cpu.constructor: the NULL-buffer check of initialize_cpu, with its `perror`/`exit`, is the precondition that the buffer spans 65536 bytes. The constructor also zeroes BC, DE, HL, AF and SP, where the C leaves the caller's values.
- `destroy_cpu`'s `free` and the unused `vram` pointer: no effect on the interpreter.
- Interrupt delivery: only `ei`'s write of 1 to 0xFFFF exists in the source, and it is modelled.
- `stop_n8` beyond being a no-op.
- Word.Wrap covers values at most 65536 away from the `uint16_t` range. Every sum and difference the handlers form is in that range.
- Aliasing of the memory buffer with anything else: the `Cpu` object owns its array, as `initialize_cpu`'s caller hands it over.

## Findings

| source | as written | input that shows it | evidently intended | confidence | as-written member | corrected member |
|---|---|---|---|---|---|---|
| src/cpu.c:31 | `cpu->memory[cpu->PC - 1]` is computed in `int`, after the `uint16_t` PC is promoted | an unassigned opcode fetched at 0xFFFF: PC has wrapped to 0, so the index is -1 and the read falls before the buffer | report the opcode just fetched, at address (PC - 1) mod 65536 | not executed; the index arithmetic is certain, but reaching 0xFFFF needs a program that runs off the end of memory | Dispatch.NotImplementedIndex | Dispatch.StepFatal |
