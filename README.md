# GB-oxide core, modelled in Dafny

This project models the core of GB-oxide, a Game Boy (DMG) emulator written in
Rust, and proves properties of the model. The core has four parts.

- **Game state** (`state.rs`):
  - the SM83 register file with its flag byte;
  - the memory bus (`read`/`write`, covering ROM, VRAM, work RAM and its echo, OAM, the joypad port, the timer, IF/IE, the LCD registers and OAM DMA);
  - the PPU-facing accessors.
- **Instruction routines** (`instructions.rs`): every routine the opcode tables call. Each returns its M-cycle cost.
- **CPU** (`cpu.rs`): the two opcode tables, the two- and three-byte opcode sets, and `step`, which runs one instruction and moves PC.
- **PPU** (`ppu.rs`):
  - the OAM scan;
  - the scanline renderer (background, window, 8x8 and 8x16 objects with flips and priority). The renderer uses the corrected window and 8x16 object lookups of the two Findings below: as written, the window repeats map rows from window line 64 on, and the lower half of an 8x16 object panics;
  - the dot-counting `step`, which draws visible lines into the frame buffer, advances LY and raises the VBlank interrupt.

Bytes and words are `bv8`/`bv16`. Every `+`/`-` on `u8`/`u16` is modelled with the wrap-around of a release build. The one exception is the window's tile-map row offset, which the renderer takes in 16 bits (see Findings).

Each part has two layers:

- **Value layer.** `StateModel.Machine` is a datatype snapshot of the whole state, with the memories as sequences. Every routine is a function on it (`Semantics`, `Cpu.StepSpec`, `PpuModel.RunLines`). The lemmas about these functions carry the properties.
- **Imperative layer.** Its shape follows the Rust:
  - `State.GameState` is a class whose memories are arrays;
  - the instruction routines and `Cpu.Step` are methods on it;
  - `Ppu.Ppu` is a class holding the dot counter, the ten-slot sprite buffer and the frame buffer.

Each method's `ensures` ties its new state, or its result, to the value layer (`s.View() == Semantics.X(old(s.View())).m`).

Files:

| File | Contents |
|---|---|
| `bits.dfy` | bytes, words, joining and sign extension |
| `state_model.dfy` | registers, flags, bus, reset state |
| `state.dfy` | the `GameState` class |
| `alu.dfy` | add8/sub8/add16/add16_special |
| `semantics.dfy` | the routines as functions |
| `instructions.dfy` | the routines as methods |
| `instruction_props.dfy` | lemmas about the routines |
| `cpu.dfy` | tables, step |
| `cpu_props.dfy` | table regularity, instruction lengths, PC and clock |
| `ppu_model.dfy` | the PPU as functions and its lemmas |
| `ppu.dfy` | the `PPU` class |

## Model

| member | source | states |
|---|---|---|
| Bits.JoinSplit | src/state.rs:4-6 | Splitting a word into its high and low byte and joining them with generate_16bit gives the word back. |
| Bits.SplitJoin | src/state.rs:4-6 | generate_16bit loses nothing: the high byte of the joined word is `msb`, the low byte `lsb`. |
| Bits.SignExtendValue | src/instructions.rs:878-884 | The `as i8 as u16` conversion of the JR and SP+e8 offsets keeps the two's-complement value: it is the signed byte modulo 2^16; `Bits.Signed` lies in -128..127. |
| StateModel.With8 | src/state.rs:284-296 | set_register8 never changes PC or SP. |
| StateModel.With16 | src/state.rs:298-325 | set_register16 leaves PC alone unless PC is written, and SP unless SP is written. |
| StateModel.Reset | src/state.rs:70-197 | The power-up state: PC 0x0100, SP 0xFFFE, IME off, no pc_moved mark, clock 0, work RAM zeroed, and the given cartridge image as ROM. |
| StateModel.SetFlagsInSteps | src/state.rs:327-351 | The four set-or-clear steps of set_flags, in their order, amount to packing the four flags into bits 7-4 of F over its old low nibble. |
| StateModel.FlagsRoundTrip | src/state.rs:327-360 | get_flags after set_flags returns exactly the flags written, and F keeps its low nibble. |
| StateModel.FlagsIdempotent | src/state.rs:327-360 | set_flags with the flags get_flags just returned leaves F unchanged, low nibble included. |
| StateModel.Register8RoundTrip | src/state.rs:246-296 | get_register8 after set_register8 returns the value written; every other register, PC and SP are unchanged. |
| StateModel.PairRoundTrip | src/state.rs:260-325 | get_register16 after set_register16 on AF, BC, DE or HL returns the word written; its high register holds the high byte and its low register the low byte; every 8-bit register outside the pair, PC and SP are unchanged. |
| StateModel.PairOfHalves | src/state.rs:260-282 | A pair reads as the join of its two halves, and writing the two halves sets the pair. |
| StateModel.WrongWidthRegisters | src/state.rs:246-325 | The fall-through arms: an 8-bit access with a pair name, or a 16-bit access with a single register, reads 0 and ignores the write. |
| StateModel.DmaOam | src/state.rs:362-368 | dma_oam records the page in DMA, copies the 160 bytes the bus reads from `page * 0x100` on into OAM, and changes nothing else. |
| StateModel.WriteKeepsRom | src/state.rs:483-549 | No write through the bus changes the ROM or the joypad keys. |
| StateModel.RamReadAfterWrite | src/state.rs:370-549 | A byte written to VRAM, work RAM, its echo, OAM or high RAM is what read then returns at that address. |
| StateModel.RamWriteFrame | src/state.rs:483-549 | A RAM write changes no other RAM address, except the same work-RAM cell seen through the echo. |
| StateModel.EchoAliasing | src/state.rs:386-388 | 0xE000-0xFDFF mirrors 0xC000-0xDDFF on reads and on writes, in both directions. |
| StateModel.OpenBusReads | src/state.rs:381-384 | External RAM and every address the read match does not decode read as 0xFF. |
| StateModel.IgnoredWrites | src/state.rs:485-498 | Writes to ROM, external RAM, undecoded addresses and LY (0xFF44) leave the whole bus as it was. |
| StateModel.DivWriteResets | src/state.rs:511 | Any write to DIV clears the divider, so DIV then reads 0; TIMA is kept. |
| StateModel.JoypWriteSelectsOnly | src/state.rs:506-509 | A write to JOYP changes only its two select bits 4 and 5; the other six keep their old value. |
| StateModel.JoypadButtonsSelected | src/state.rs:392-444 | With only the action buttons selected, bits 0-3 of JOYP read 0 exactly for the held keys among A, B, Select and Start. |
| StateModel.JoypadDPadSelected | src/state.rs:392-444 | With only the direction keys selected, bits 0-3 read 0 exactly for the held keys among Right, Left, Up and Down. |
| StateModel.JoypadBothSelected | src/state.rs:392-444 | With both groups selected, a bit reads 0 when either of the two keys sharing it is held. |
| StateModel.JoypadNoneSelected | src/state.rs:435-443 | With neither group selected, JOYP reads with its low nibble all ones. |
| StateModel.DmaCopiesPage | src/state.rs:362-368 | A write to 0xFF46 records the page. OAM then holds the 160 bytes of that page: from the ROM for pages 0x00-0x7F, from work RAM for 0xC0-0xDF. VRAM is untouched. |
| StateModel.UpdateTimaEffect | src/state.rs:601-609 | On overflow TIMA reloads from TMA and IF gains bit 2; otherwise TIMA grows by one and IF is kept. The I/O registers and TMA are unchanged. |
| StateModel.NextLy | src/state.rs:645-647 | inc_ly keeps LY below 154; from a line below 154, one step goes to the next line and from 153 back to 0. |
| StateModel.OamEntryBytes | src/state.rs:611-619 | get_oam_entry returns the four bytes the bus reads at 0xFE00 plus the offset `loc % 0xA0`. |
| StateModel.TileIndexInVram | src/state.rs:653-659 | get_tile_index reads the tile map LCDC bit 3 selects: VRAM offset 0x1800 (0x9800) or 0x1C00 (0x9C00) plus the position. |
| State.GameState.constructor | src/state.rs:239-244 | start_game with a given cartridge image builds a game state whose value is the power-up state `StateModel.Reset`. |
| State.GameState.SetRegister8 | src/state.rs:284-296 | The new state is set_register8 on the old one (see Register8RoundTrip). |
| State.GameState.SetRegister16 | src/state.rs:298-325 | The new state is set_register16 on the old one (see PairRoundTrip). |
| State.GameState.SetFlags | src/state.rs:327-351 | The new state has F repacked from the four flags over its low nibble (see FlagsRoundTrip); nothing else changes. |
| State.GameState.SetInterrupts | src/state.rs:551-553 | Only IME changes, to the given value. |
| State.GameState.SetPcMoved | src/state.rs:571-573 | Only the pc_moved mark changes, to the given value. |
| State.GameState.UpdateClock | src/state.rs:575-577 | Only the cycle counter changes; it grows by the given amount. |
| State.GameState.DmaOam | src/state.rs:362-368 | The copy loop leaves the bus as `StateModel.DmaOam` describes (see DmaCopiesPage); registers, IME and the clock are kept. |
| State.GameState.CopyToOam | src/state.rs:364-367 | OAM byte i takes the byte the bus read at `start + i` before the copy; nothing but OAM changes. |
| State.GameState.Write | src/state.rs:483-549 | The new state is the bus write of the model on the old one (see RamReadAfterWrite, IgnoredWrites, DivWriteResets, JoypWriteSelectsOnly, DmaCopiesPage). |
| State.GameState.WriteMemory | src/state.rs:485-504 | Writes below 0xFF00 update the arrays as the model bus write does. |
| State.GameState.WritePorts | src/state.rs:506-522 | Writes to JOYP, the timer registers and IF update the state as the model bus write does. |
| State.GameState.WriteLcd | src/state.rs:525-539 | Writes to the LCD registers and to DMA update the state as the model bus write does. |
| State.GameState.UpdateTima | src/state.rs:601-609 | The bus afterwards is `StateModel.UpdateTima` of the old bus (see UpdateTimaEffect); the rest of the state is kept. |
| State.GameState.IncLy | src/state.rs:645-647 | LY becomes `(ly + amount) % 154` with the u8 sum; it stays below 154; the rest of the state is kept. |
| State.GameState.SetLy | src/state.rs:649-651 | Only LY changes, to the given value. |
| State.GameState.UpdateJoypad | src/state.rs:671-690 | The eight keys take the host's pressed state; the rest of the state is kept. |
| State.GameState.GetTileFromAddr | src/state.rs:661-669 | Eight words, word i joining VRAM bytes 2i (low) and 2i+1 (high) of the tile at `addr`. |
| Alu.Add8 | src/instructions.rs:157-165 | For carry-in 0 or 1 the value and C together form the 9-bit sum a + b + carry-in, and H is the carry into bit 4. |
| Alu.Sub8 | src/instructions.rs:258-265 | The value plus b gives a back (the carry-in is not subtracted). For carry-in 0 or 1, C is the borrow out of a - b - carry-in and H the borrow into bit 4. |
| Alu.Add16 | src/instructions.rs:228-235 | The wrapped 16-bit sum; H is the carry into bit 12 and C bit 16 of the 17-bit sum. |
| Alu.Add16Special | src/instructions.rs:974-981 | The wrapped 16-bit sum; H is the carry into bit 4; C is set by any 17-bit sum of 0x100 or more. |
| Semantics.ArithA | src/instructions.rs:187-225 | ADD, ADC, SUB, SBC and CP never touch PC, SP, the bus, IME, the clock or pc_moved. |
| Semantics.GeneralShift | src/instructions.rs:589-823 | The flag half of the rotate and shift routines keeps PC, SP, the bus, IME, the clock and pc_moved. |
| Instructions.ReadImm8 | src/instructions.rs:12-16 | Returns the byte after the opcode, `read(PC + 1)`. |
| Instructions.ReadSecondOperand | src/instructions.rs:18-24 | Returns the second byte after the opcode, `read(PC + 2)`. |
| Instructions.ReadImm16 | src/instructions.rs:18-24 | Returns the two bytes after the opcode joined little-endian. |
| Instructions.LdR8R8 | src/instructions.rs:7-10 | The routine on the game state leaves exactly the state of `Semantics.LdR8R8`: r1 takes the value of r2; cost 1. |
| Instructions.LdR8N8 | src/instructions.rs:12-16 | The routine on the game state leaves exactly the state of `Semantics.LdR8N8`: r takes the immediate byte; cost 2. |
| Instructions.LdR16N16 | src/instructions.rs:18-24 | The routine on the game state leaves exactly the state of `Semantics.LdR16N16`: the pair takes the immediate word; cost 2. |
| Instructions.LdHlAddrR8 | src/instructions.rs:26-33 | The routine on the game state leaves exactly the state of `Semantics.LdHlAddrR8`: the register is written to the bus at HL; cost 2. |
| Instructions.LdHlAddrN8 | src/instructions.rs:35-40 | The routine on the game state leaves exactly the state of `Semantics.LdHlAddrN8`: the immediate byte is written at HL; cost 3. |
| Instructions.LdR8HlAddr | src/instructions.rs:42-46 | The routine on the game state leaves exactly the state of `Semantics.LdR8HlAddr`: the register takes the byte at HL; cost 2. |
| Instructions.LdR16AddrA | src/instructions.rs:48-55 | The routine on the game state leaves exactly the state of `Semantics.LdR16AddrA`: A is written at the address in the pair; cost 2. |
| Instructions.LdN16AddrA | src/instructions.rs:57-64 | The routine on the game state leaves exactly the state of `Semantics.LdN16AddrA`: A is written at the immediate address; cost 4. |
| Instructions.LdhN8AddrA | src/instructions.rs:66-72 | The routine on the game state leaves exactly the state of `Semantics.LdhN8AddrA`: A is written at 0xFF00 | n8; cost 3. |
| Instructions.LdhCAddrA | src/instructions.rs:74-81 | The routine on the game state leaves exactly the state of `Semantics.LdhCAddrA`: A is written at 0xFF00 + C; cost 2. |
| Instructions.LdAR16Addr | src/instructions.rs:83-87 | The routine on the game state leaves exactly the state of `Semantics.LdAR16Addr`: A takes the byte at the address in the pair; cost 2. |
| Instructions.LdAN16Addr | src/instructions.rs:89-95 | The routine on the game state leaves exactly the state of `Semantics.LdAN16Addr`: A takes the byte at the immediate address; cost 4. |
| Instructions.LdhAN8Addr | src/instructions.rs:97-102 | The routine on the game state leaves exactly the state of `Semantics.LdhAN8Addr`: A takes the byte at 0xFF00 | n8; cost 3. |
| Instructions.LdhACAddr | src/instructions.rs:104-111 | The routine on the game state leaves exactly the state of `Semantics.LdhACAddr`: A takes the byte at 0xFF00 + C; cost 2. |
| Instructions.LdHliAddrA | src/instructions.rs:113-121 | The routine on the game state leaves exactly the state of `Semantics.LdHliAddrA`: A is stored at HL, then HL (read again) grows by one; cost 2. |
| Instructions.LdHldAddrA | src/instructions.rs:123-131 | The routine on the game state leaves exactly the state of `Semantics.LdHldAddrA`: A is stored at HL, then HL drops by one; cost 2. |
| Instructions.LdAHld | src/instructions.rs:133-140 | The routine on the game state leaves exactly the state of `Semantics.LdAHld`: A takes the byte at HL, then HL drops by one; cost 2. |
| Instructions.LdAHli | src/instructions.rs:142-149 | The routine on the game state leaves exactly the state of `Semantics.LdAHli`: A takes the byte at HL, then HL grows by one; cost 2. |
| Instructions.GeneralAddA | src/instructions.rs:167-185 | The routine on the game state leaves exactly the state of `Semantics.GeneralAddA`: A takes the add8 sum with carry-in C only for ADC, and the flags follow it (see InstructionProps.AddToA). |
| Instructions.GeneralSubA | src/instructions.rs:267-287 | The routine on the game state leaves exactly the state of `Semantics.GeneralSubA`: A takes `A - val` unless CP discards it, and the flags follow sub8 (see InstructionProps.SubFromA). |
| Instructions.GeneralAndA | src/instructions.rs:436-447 | The flags and the returned value are those of `Semantics.LogicA` for AND: the result `A & val`, Z iff it is 0, H set, N and C clear; A itself is not stored. |
| Instructions.GeneralOrA | src/instructions.rs:485-497 | The same for OR and XOR: the result `A | val` or `A ^ val`, Z iff it is 0, N, H and C clear. |
| Instructions.ArithA | src/instructions.rs:187-225 | The routine on the game state leaves exactly the state of `Semantics.ArithA`: ADD, ADC, SUB, SBC and CP through their general routine. |
| Instructions.LogicA | src/instructions.rs:436-447 | AND, XOR and OR through general_and_a and general_or_a: the flags as `Semantics.LogicA`, and the result returned. |
| Instructions.AluR8 | src/instructions.rs:187-351 | The routine on the game state leaves exactly the state of `Semantics.AluR8`: the eight ALU operations on A and a register; the logic forms store the result in A (see InstructionProps.LogicFlags, AddToA, SubFromA). |
| Instructions.AluHlAddr | src/instructions.rs:187-351 | The routine on the game state leaves exactly the state of `Semantics.AluHlAddr`: the eight ALU operations with the byte at HL; the logic forms store the result at HL, not in A (see InstructionProps.LogicHlAddrWritesMemory). |
| Instructions.AluN8 | src/instructions.rs:187-351 | The routine on the game state leaves exactly the state of `Semantics.AluN8`: the eight ALU operations with the immediate byte. |
| Instructions.DecR8 | src/instructions.rs:354-374 | The routine on the game state leaves exactly the state of `Semantics.DecR8`: the register drops by one with the flags of sub8, C kept (see InstructionProps.DecR8Effect). |
| Instructions.DecHlAddr | src/instructions.rs:376-390 | The routine on the game state leaves exactly the state of `Semantics.DecHlAddr`: the byte at HL drops by one, flags as DEC r8 (see InstructionProps.DecHlAddrEffect). |
| Instructions.DecR16 | src/instructions.rs:392-395 | The routine on the game state leaves exactly the state of `Semantics.DecR16`: the pair drops by one, wrapping; flags kept. |
| Instructions.IncR8 | src/instructions.rs:398-412 | The routine on the game state leaves exactly the state of `Semantics.IncR8`: the register grows by one with the flags of add8, C kept (see InstructionProps.IncR8Effect). |
| Instructions.IncHlAddr | src/instructions.rs:414-428 | The routine on the game state leaves exactly the state of `Semantics.IncHlAddr`: the byte at HL grows by one, flags as INC r8 (see InstructionProps.IncHlAddrEffect). |
| Instructions.IncR16 | src/instructions.rs:430-433 | The routine on the game state leaves exactly the state of `Semantics.IncR16`: the pair grows by one, wrapping; flags kept. |
| Instructions.AddHlR16 | src/instructions.rs:237-253 | The routine on the game state leaves exactly the state of `Semantics.AddHlR16`: HL takes the add16 sum, Z kept, N clear, H and C from add16 (see InstructionProps.AddHlFlags). |
| Instructions.AddHlSp | src/instructions.rs:968-971 | The routine on the game state leaves exactly the state of `Semantics.AddHlSp`: ADD HL,SP as ADD HL,r16 with SP. |
| Instructions.AddSpE8 | src/instructions.rs:983-998 | The routine on the game state leaves exactly the state of `Semantics.AddSpE8`: SP takes add16_special of SP and the sign-extended offset, Z and N clear (see InstructionProps.AddSpEffect). |
| Instructions.LdHlSpE8 | src/instructions.rs:1010-1026 | The routine on the game state leaves exactly the state of `Semantics.LdHlSpE8`: the same sum goes to HL and to SP (see InstructionProps.LdHlSpEffect). |
| Instructions.Cpl | src/instructions.rs:469-483 | The routine on the game state leaves exactly the state of `Semantics.Cpl`: A is complemented, N and H set (see InstructionProps.FlagOperations). |
| Instructions.Ccf | src/instructions.rs:944-954 | The routine on the game state leaves exactly the state of `Semantics.Ccf`: C is flipped, N and H cleared. |
| Instructions.Scf | src/instructions.rs:956-966 | The routine on the game state leaves exactly the state of `Semantics.Scf`: C is set, N and H cleared. |
| Instructions.DaaAdjust | src/instructions.rs:1086-1123 | Returns the correction and the new C of `Semantics.DaaAdjustment`: 0x06 and/or 0x60 chosen from N, H, C and the digits of A. |
| Instructions.Daa | src/instructions.rs:1086-1123 | The routine on the game state leaves exactly the state of `Semantics.Daa`: A loses the correction in both branches; Z is kept or set when A becomes 0 (see InstructionProps.DaaFlags). |
| Instructions.BitR8 | src/instructions.rs:540-551 | The routine on the game state leaves exactly the state of `Semantics.BitR8`: Z is set iff bit u of the register is clear, N cleared, H set, C kept (see InstructionProps.BitTest). |
| Instructions.BitHlAddr | src/instructions.rs:553-564 | The routine on the game state leaves exactly the state of `Semantics.BitHlAddr`: the same test on the byte at HL. |
| Instructions.ResR8 | src/instructions.rs:566-569 | The routine on the game state leaves exactly the state of `Semantics.ResR8`: bit u of the register is cleared (see InstructionProps.ResEffect). |
| Instructions.ResHlAddr | src/instructions.rs:571-575 | The routine on the game state leaves exactly the state of `Semantics.ResHlAddr`: bit u of the byte at HL is cleared. |
| Instructions.SetR8 | src/instructions.rs:577-580 | The routine on the game state leaves exactly the state of `Semantics.SetR8`: bit u of the register is set (see InstructionProps.SetEffect). |
| Instructions.SetHlAddr | src/instructions.rs:582-586 | The routine on the game state leaves exactly the state of `Semantics.SetHlAddr`: bit u of the byte at HL is set. |
| Instructions.ShiftBits | src/instructions.rs:589-810 | Returns the value and the bit shifted out of each rotate and shift: `Semantics.ShiftResult` and `Semantics.ShiftCarry` (see InstructionProps.ShiftCarryOut, RotateInverse). |
| Instructions.GeneralShift | src/instructions.rs:589-810 | Sets the flags and returns the result as `Semantics.GeneralShift`: Z only when checkZero (or always for the shifts), N and H clear, C the bit shifted out. |
| Instructions.ShiftR8 | src/instructions.rs:603-823 | The routine on the game state leaves exactly the state of `Semantics.ShiftR8`: the register takes the rotated or shifted value. |
| Instructions.ShiftHlAddr | src/instructions.rs:603-823 | The routine on the game state leaves exactly the state of `Semantics.ShiftHlAddr`: the byte at HL takes the rotated or shifted value. |
| Instructions.RotateA | src/instructions.rs:616-717 | The routine on the game state leaves exactly the state of `Semantics.RotateA`: A takes the rotated value and Z is always cleared (see InstructionProps.RotateAClearsZ). |
| Instructions.DecSp | src/instructions.rs:1000-1003 | The routine on the game state leaves exactly the state of `Semantics.DecSp`: SP drops by one. |
| Instructions.IncSp | src/instructions.rs:1005-1008 | The routine on the game state leaves exactly the state of `Semantics.IncSp`: SP grows by one. |
| Instructions.Push | src/instructions.rs:1063-1072 | The push sequence leaves exactly `Semantics.PushWord`: SP down two, high byte at old SP - 1, low byte at old SP - 2 (see InstructionProps.PushLayout). |
| Instructions.PushR16 | src/instructions.rs:1063-1072 | The routine on the game state leaves exactly the state of `Semantics.PushR16`: the pair is pushed; cost 4. |
| Instructions.PopR16 | src/instructions.rs:1053-1061 | The routine on the game state leaves exactly the state of `Semantics.PopR16`: the pair takes the little-endian word at SP, SP up two (see InstructionProps.PopLayout, PopAfRawFlags). |
| Instructions.LdN16AddrSp | src/instructions.rs:1028-1038 | The routine on the game state leaves exactly the state of `Semantics.LdN16AddrSp`: SP is stored little-endian at the immediate address; cost 5. |
| Instructions.LdSpN16Addr | src/instructions.rs:1040-1046 | The routine on the game state leaves exactly the state of `Semantics.LdSpN16Addr`: SP takes the immediate word itself; cost 3. |
| Instructions.LdSpHl | src/instructions.rs:1048-1051 | The routine on the game state leaves exactly the state of `Semantics.LdSpHl`: SP takes HL. |
| Instructions.JpN16 | src/instructions.rs:856-863 | The routine on the game state leaves exactly the state of `Semantics.JpN16`: PC takes the immediate word and pc_moved is set. |
| Instructions.JpHl | src/instructions.rs:850-854 | The routine on the game state leaves exactly the state of `Semantics.JpHl`: PC takes HL and pc_moved is set. |
| Instructions.JpCc | src/instructions.rs:865-876 | The routine on the game state leaves exactly the state of `Semantics.JpCc`: JP when the condition holds, else nothing but a cost of 3 (see InstructionProps.ConditionalJumps). |
| Instructions.JrE8 | src/instructions.rs:878-884 | The routine on the game state leaves exactly the state of `Semantics.JrE8`: PC takes PC + 2 plus the sign-extended offset (see InstructionProps.JrTarget). |
| Instructions.JrCc | src/instructions.rs:886-899 | The routine on the game state leaves exactly the state of `Semantics.JrCc`: JR when the condition holds, else nothing but a cost of 2. |
| Instructions.CallN16 | src/instructions.rs:825-835 | The routine on the game state leaves exactly the state of `Semantics.CallN16`: PC + 3 is pushed, then PC takes the immediate word (see InstructionProps.CallPushesReturn, CallThenRet). |
| Instructions.CallCc | src/instructions.rs:837-848 | The routine on the game state leaves exactly the state of `Semantics.CallCc`: CALL when the condition holds, else nothing but a cost of 3 (see InstructionProps.ConditionalCalls). |
| Instructions.Ret | src/instructions.rs:901-905 | The routine on the game state leaves exactly the state of `Semantics.Ret`: PC is popped and pc_moved set. |
| Instructions.Reti | src/instructions.rs:907-912 | The routine on the game state leaves exactly the state of `Semantics.Reti`: IME is set, then PC is popped. |
| Instructions.RetCc | src/instructions.rs:914-925 | The routine on the game state leaves exactly the state of `Semantics.RetCc`: RET when the condition holds (cost 5), else nothing but a cost of 2. |
| Instructions.RstVec | src/instructions.rs:927-941 | The routine on the game state leaves exactly the state of `Semantics.RstVec`: PC + 1 is pushed and PC takes the vector (see InstructionProps.RstPushesNext, RstThenRet). |
| Instructions.Di | src/instructions.rs:1075-1078 | The routine on the game state leaves exactly the state of `Semantics.Di`: IME is cleared. |
| Instructions.Ei | src/instructions.rs:1080-1083 | The routine on the game state leaves exactly the state of `Semantics.Ei`: IME is set. |
| Instructions.Stop | src/instructions.rs:1125-1127 | The routine on the game state costs what `Semantics.Idle` says: nothing changes, at no cost. |
| Instructions.Halt | src/instructions.rs:1130-1132 | The routine on the game state costs what `Semantics.Idle` says: nothing changes, at no cost. |
| Instructions.ServedInterrupt | src/instructions.rs:1134-1167 | Returns the IF bit served and its vector, `Semantics.PendingInterrupt`: the lowest set bit among VBlank, LCD, Timer and Serial, else Joypad (see InstructionProps.PendingPriority). |
| Instructions.InterruptHandler | src/instructions.rs:1134-1167 | The routine leaves exactly `Semantics.InterruptHandler`: with an IF bit 0-4 set, IME cleared, the bit acknowledged, PC pushed, PC at the vector, 5 cycles added (see InstructionProps.InterruptRegisters). |
| InstructionProps.FlagsStored | src/state.rs:327-360 | get_flags after the set_flags of any routine returns the flags written; only F changes and its low nibble is kept. |
| InstructionProps.CarryInBit | src/instructions.rs:167-185 | The carry-in passed to add8/sub8 is 0 or 1, and 1 exactly when the carry is enabled (ADC, SBC) and C is set. |
| InstructionProps.AddStructure | src/instructions.rs:167-185 | general_add_a_n8 stores add8's value in A and its H and C in F with Z iff the value is 0 and N clear; nothing but A and F changes. |
| InstructionProps.AddToA | src/instructions.rs:157-185 | ADD and ADC: A takes A + val + carry-in (wrapped); C iff the full sum exceeds 0xFF; Z iff A is 0; N clear; H the carry into bit 4; only A and F change. |
| InstructionProps.AddFacts | src/instructions.rs:157-165 | What add8's outputs say about its operands: wrapped sum, carry iff the sum exceeds 0xFF, zero, half carry. |
| InstructionProps.SubStructure | src/instructions.rs:267-287 | general_sub_a_n8 stores sub8's value in A unless CP discards it, and its H and C in F with N set; nothing but A and F changes. |
| InstructionProps.SubFromA | src/instructions.rs:258-287 | SUB, SBC and CP: A takes A - val unless discarded (the carry is never subtracted from it); C is the borrow out of A - val - carry-in; Z iff A == val; N set. |
| InstructionProps.SubFacts | src/instructions.rs:258-265 | What sub8's flags say about its operands: borrow, half borrow, Z iff the operands are equal, and the stored value A - val. |
| InstructionProps.SbcStoresDifferenceOnly | src/instructions.rs:289-292 | SBC as written: A = 0x10, B = 0x01 with C set stores 0x0F and reports no borrow. |
| InstructionProps.CompareKeepsA | src/instructions.rs:332-335 | CP keeps A, sets Z exactly when A equals the operand, and sets N. |
| InstructionProps.LogicStructure | src/instructions.rs:436-447  | general_and_a and general_or_a return the bitwise result and set Z iff it is 0, H for AND only, N and C clear; only F changes. |
| InstructionProps.LogicFlags | src/instructions.rs:449-453 | AND, XOR and OR with a register: A takes the bitwise result; Z iff it is 0; H for AND only; N and C clear; only A and F change. |
| InstructionProps.LogicOnItself | src/instructions.rs:436-523 | XOR A clears A and leaves only Z set; AND A and OR A keep A, set Z exactly when A is 0 and clear C. |
| InstructionProps.LogicHlAddrWritesMemory | src/instructions.rs:455-460 | AND, XOR and OR with (HL) as written keep A and store the result at HL, where it reads back when HL is RAM; cost 2. |
| InstructionProps.StepByOne | src/instructions.rs:157-265 | add8 and sub8 by 1 add and subtract one with wrap-around and undo each other. |
| InstructionProps.IncR8Effect | src/instructions.rs:398-412 | INC r8: the register takes v + 1; Z iff it becomes 0; N clear; H from add8; C kept; nothing but the register and F changes. |
| InstructionProps.DecR8Effect | src/instructions.rs:354-374 | DEC r8: the register takes v - 1; Z iff it becomes 0; N set; H from sub8; C kept; nothing but the register and F changes. |
| InstructionProps.IncUndoesDec | src/instructions.rs:354-412 | DEC then INC of a register restores its value. |
| InstructionProps.IncHlAddrEffect | src/instructions.rs:414-428 | INC (HL) on a RAM address: the byte there reads back as v + 1 with INC's flags; the registers other than F are kept. |
| InstructionProps.DecHlAddrEffect | src/instructions.rs:376-390 | DEC (HL) on a RAM address: the byte there reads back as v - 1 with DEC's flags; the registers other than F are kept. |
| InstructionProps.AddHlFlags | src/instructions.rs:237-253 | ADD HL,r16: HL takes the wrapped sum; Z kept; N clear; H and C the carries into bit 12 and out of bit 15; SP, PC and the bus are kept. |
| InstructionProps.AddSpEffect | src/instructions.rs:983-998 | ADD SP,e8: SP takes add16_special of SP and the sign-extended offset; Z and N clear; H and C from add16_special; PC and the bus are kept. |
| InstructionProps.LdHlSpEffect | src/instructions.rs:1010-1026 | LD HL,SP+e8 as written: the sum goes to HL and to SP, with the flags of ADD SP,e8. |
| InstructionProps.FlagOperations | src/instructions.rs:944-966 | CPL (instructions.rs line 469) complements A and sets N and H; CCF flips C and SCF sets it, both clearing N and H; Z is kept by all three; CCF and SCF change only F, CPL only A and F. |
| InstructionProps.DaaCarryMonotone | src/instructions.rs:1086-1123 | DAA never clears C: after an addition C can only be set, after a subtraction it is kept. |
| InstructionProps.DaaFlags | src/instructions.rs:1086-1123 | An unfolding of DAA as written into its value and flags, for the lemmas below (the property of DAA is SubThenDaa): A loses the correction in both branches; Z kept or set when A becomes 0; N kept; H clear; C from the correction; only A and F change. |
| InstructionProps.AccumulatorStored | src/instructions.rs:167-185 | Storing A and then the flags changes only A and F, to the stored values. |
| InstructionProps.DaaAfterAddition | src/instructions.rs:1086-1123 | After an addition with N, H and C clear, DAA as written turns A = 0x0F into 0x09. |
| InstructionProps.SubThenDaa | src/instructions.rs:1086-1123 | SUB then DAA is packed-decimal subtraction: for packed-decimal A and operand y, A ends as the packed digits of (A - y) mod 100, C is set exactly when A < y as decimal numbers, Z exactly when the result is 0, and N stays set. |
| InstructionProps.DaaOfDifference | src/instructions.rs:1086-1123 | The same for any state whose A and flags are those a subtraction x - y leaves. |
| InstructionProps.SubResult | src/instructions.rs:258-330 | SUB A,y stores A - y with Z iff A = y, N set, H iff the low nibble of A is below that of y, C iff A < y. |
| InstructionProps.SubBorrows | src/instructions.rs:258-265 | sub8 with no carry in returns a - b, reports a half borrow iff the low nibble of a is below that of b and a borrow iff a < b. |
| InstructionProps.DaaSubtracting | src/instructions.rs:1086-1123 | With N set, DAA subtracts 0x06 iff H and 0x60 iff C, and keeps C. |
| InstructionProps.DaaAfterSubValue | src/instructions.rs:1086-1123 | After a subtraction x - y, DAA leaves A as x - y corrected by the half borrow and the borrow of that subtraction. |
| InstructionProps.DaaAfterSubFlags | src/instructions.rs:1086-1123 | After a subtraction x - y, DAA sets Z iff x = y or A becomes 0, keeps N, clears H and keeps C as the borrow x < y. |
| InstructionProps.BcdDifference | src/instructions.rs:1086-1123 | For packed-decimal x and y the corrected difference is packed decimal and encodes (x - y) mod 100; the borrow is x < y as decimal numbers. |
| InstructionProps.DaaAfterSubDecimal | src/instructions.rs:1086-1123 | The corrected difference of two packed-decimal bytes encodes the decimal difference mod 100. |
| InstructionProps.DaaAfterSubIsBcd | src/instructions.rs:1086-1123 | The corrected difference of two packed-decimal bytes has two decimal digits. |
| InstructionProps.MaskSelectsBit | src/instructions.rs:540-586 | `1 << u` tests bit u; clearing or setting it with the mask leaves every other bit. |
| InstructionProps.BitTest | src/instructions.rs:540-564 | BIT u: Z iff the tested bit is clear; N clear; H set; C kept; only F changes. |
| InstructionProps.ResEffect | src/instructions.rs:566-569 | RES u changes only the register, to its value with bit u cleared; F is kept. |
| InstructionProps.SetEffect | src/instructions.rs:577-580 | SET u changes only the register, to its value with bit u set; F is kept. |
| InstructionProps.ShiftCarryOut | src/instructions.rs:589-810 | Every rotate and shift puts the bit shifted out into C (bit 7 for RLC, RL, SLA; bit 0 for RRC, RR, SRA, SRL); SWAP clears C; SRA keeps bit 7. |
| InstructionProps.ShiftFlags | src/instructions.rs:589-810 | Rotates and shifts: C as ShiftCarryOut; N and H clear; Z iff the result is 0, except that the rotates of A never set it; only F changes. |
| InstructionProps.RotateAClearsZ | src/instructions.rs:616-717 | RLCA, RLA, RRCA and RRA always leave Z clear. |
| InstructionProps.RotateThroughCarryInverse | src/instructions.rs:589-685 | RL then RR through the carry (and RR then RL) restore the value and the carry. |
| InstructionProps.RotateInverse | src/instructions.rs:622-823 | RLC and RRC undo each other, and SWAP undoes itself. |
| InstructionProps.PushStores | src/instructions.rs:1063-1072 | With the stack in RAM the two stores of a push leave the high byte at SP - 1 and the low at SP - 2. |
| InstructionProps.DecSpStep | src/instructions.rs:1000-1003 | dec_sp changes SP alone, down by one. |
| InstructionProps.IncSpStep | src/instructions.rs:1005-1008 | inc_sp changes SP alone, up by one. |
| InstructionProps.PushSteps | src/instructions.rs:1063-1072 | Two rounds of dec_sp and a store at the new SP: SP drops by two and the stores land in order. |
| InstructionProps.PushStructure | src/instructions.rs:1063-1072 | The push sequence moves SP down twice, storing the high byte after the first step and the low byte after the second. |
| InstructionProps.PushLayout | src/instructions.rs:1063-1072 | A push with the stack in RAM: SP drops by two, the high byte reads back at old SP - 1 and the low byte at old SP - 2; IME, pc_moved and the clock are kept. |
| InstructionProps.PushHighByte | src/instructions.rs:1063-1072 | The high byte of a push reads back just below the old SP. |
| InstructionProps.PushLowByte | src/instructions.rs:1063-1072 | The low byte of a push reads back two below the old SP. |
| InstructionProps.PushFields | src/instructions.rs:1063-1072 | After a push: registers with SP - 2, the bus with the two stores, IME, pc_moved and clock kept. |
| InstructionProps.PushedWordOnTop | src/instructions.rs:1063-1072 | After a push, the little-endian word at the new SP is the pushed word. |
| InstructionProps.PopStructure | src/instructions.rs:1053-1061 | pop_r16 reads the low byte at SP and the high byte above it, and moves SP up by two. |
| InstructionProps.PopLayout | src/instructions.rs:1053-1061 | POP into AF, BC, DE, HL or PC: the register becomes the word at SP, SP rises by two, nothing else changes. |
| InstructionProps.PopAfRawFlags | src/instructions.rs:1053-1061 | POP AF as written copies the popped low byte into F whole, bits 0-3 included. |
| InstructionProps.PairRewrite | src/state.rs:260-325 | Writing a register pair with its own value changes nothing. |
| InstructionProps.SpDownUp | src/instructions.rs:1053-1073 | Moving SP down by two and back up restores the registers. |
| InstructionProps.PopAfterPush | src/instructions.rs:1053-1073 | A pop right after a push (stack in RAM) gives back the pushed word and SP its old value. |
| InstructionProps.PushPopRoundTrip | src/instructions.rs:1053-1073 | PUSH r16 then POP r16 restores every register, SP included; the bus keeps the pushed bytes. |
| InstructionProps.JumpStep | src/instructions.rs:856-863 | Setting PC and the pc_moved mark changes nothing else. |
| InstructionProps.CallStructure | src/instructions.rs:825-835 | CALL pushes the return address and then jumps to the immediate word read after the pushes. |
| InstructionProps.SameTop | src/instructions.rs:901-905 | Two states with the same bus and SP have the same word on top of the stack. |
| InstructionProps.CallPushesReturn | src/instructions.rs:825-835 | CALL pushes the address after its three bytes and moves SP down by two; other registers are kept. |
| InstructionProps.CallThenRet | src/instructions.rs:825-905 | RET after CALL resumes after the call, with SP where it was. |
| InstructionProps.RstStructure | src/instructions.rs:927-941 | RST pushes the next address and jumps to the vector. |
| InstructionProps.RstPushesNext | src/instructions.rs:927-941 | RST pushes the address after its one byte, moves SP down by two and sets PC to the vector. |
| InstructionProps.RstThenRet | src/instructions.rs:901-942 | RET after RST resumes at the instruction after the RST. |
| InstructionProps.ConditionPairs | src/instructions.rs:837-848 | NZ and NC are the negations of Z and C. |
| InstructionProps.ConditionalJumps | src/instructions.rs:865-899 | JP cc and JR cc: when the condition fails the state is unchanged (cost 3 and 2); when it holds they are JP and JR. |
| InstructionProps.ConditionalCalls | src/instructions.rs:837-925 | CALL cc and RET cc: when the condition fails the state is unchanged (cost 3 and 2); when it holds they are CALL and RET, and a taken RET cc costs one more than RET. |
| InstructionProps.RelativeTarget | src/instructions.rs:878-884 | The JR target lies e bytes ahead for e < 0x80 and 0x100 - e bytes back otherwise. |
| InstructionProps.JrTarget | src/instructions.rs:878-884 | JR e8 sets PC to PC + 2 plus the sign-extended offset. |
| InstructionProps.JrFrame | src/instructions.rs:878-884 | JR e8 changes only PC and the pc_moved mark. |
| InstructionProps.ShiftTestsLowBits | src/instructions.rs:1134-1167 | The test `i_flag << 3 != 0` on u8 holds exactly when one of IF bits 0-4 is set. |
| InstructionProps.PendingPriority | src/instructions.rs:1134-1167 | The interrupt served is the lowest set bit among IF bits 0-4 and its vector is 0x40 plus eight times that bit's number. |
| InstructionProps.NoInterruptNoChange | src/instructions.rs:1134-1167 | With none of IF bits 0-4 set, interrupt_handler changes nothing. |
| InstructionProps.InterruptStructure | src/instructions.rs:1134-1167 | Dispatch: IME cleared, IF updated, PC pushed, then the jump with pc_moved and 5 cycles. |
| InstructionProps.IfSurvivesRamStore | src/state.rs:483-549 | Writes to RAM leave IF alone. |
| InstructionProps.IfRegister | src/state.rs:454 | The bus reads and writes IF at 0xFF0F. |
| InstructionProps.InterruptRegisters | src/instructions.rs:1134-1167 | With an interrupt pending and the stack in RAM: IME cleared, pc_moved set, 5 cycles added, SP down two, PC at the vector, all other registers kept. |
| InstructionProps.InterruptSavesPc | src/instructions.rs:1134-1167 | With an interrupt pending, the interrupted PC is the word on top of the stack afterwards. |
| InstructionProps.PushKeepsIf | src/instructions.rs:1063-1072 | A push into RAM leaves IF alone. |
| InstructionProps.InterruptAcknowledges | src/instructions.rs:1134-1167 | With an interrupt pending, IF afterwards has the served bit cleared and the others kept. |
| InstructionProps.InterruptIgnoresIme | src/instructions.rs:1134-1167 | IME is not consulted: registers and bus end the same whether IME was set or not. |
| Cpu.Advance | src/cpu.rs:16-61 | The advance after an unprefixed opcode is 1, 2 or 3, and 1 exactly when the opcode is in neither the two-byte nor the three-byte set. |
| Cpu.Finish | src/cpu.rs:615-626 | After the routine: the clock grows by the routine's cycles; pc_moved ends clear; a routine that moved PC keeps its PC, any other has PC advanced; bus and IME are the routine's. |
| Cpu.StepSpec | src/cpu.rs:588-628 | After a step the pc_moved mark is always clear. |
| Cpu.ExecuteLoad | src/cpu.rs:65-320 | Running a load entry leaves the state and returns the cost of its Semantics function. |
| Cpu.ExecuteLoadA | src/cpu.rs:65-320 | The same for the loads into A and through HL+/HL-. |
| Cpu.ExecuteArith | src/cpu.rs:65-320 | The same for the 8-bit arithmetic, logic and flag operations. |
| Cpu.ExecuteWide | src/cpu.rs:65-320 | The same for the 16-bit loads and arithmetic. |
| Cpu.ExecuteStack | src/cpu.rs:65-320 | The same for the stack pointer operations. |
| Cpu.ExecuteBit | src/cpu.rs:324-579 | The same for the bit tests, resets, sets, rotates and shifts. |
| Cpu.ExecuteJump | src/cpu.rs:65-320 | The same for the jumps, calls, returns and restarts. |
| Cpu.Execute | src/cpu.rs:604-610 | Calling a table entry on the game state leaves the state and returns the cost its routine's Semantics function gives. |
| Cpu.OpcodeLength | src/cpu.rs:594-603 | The advance step computes from the two sets is `Advance(op)`. |
| Cpu.LookupEntry | src/cpu.rs:595-611 | The entry and advance step picks: the unprefixed table and the sets, or the CB table with advance 2 after 0xCB. |
| Cpu.FinishStep | src/cpu.rs:615-626 | The end of step leaves the state `Finish` describes. |
| Cpu.RunEntry | src/cpu.rs:604-626 | Running an entry and finishing the step leaves `Finish` of the entry's outcome and returns its cycles. |
| Cpu.ReadOpcode | src/cpu.rs:589-609 | Returns the byte at PC and the byte after it. |
| Cpu.Step | src/cpu.rs:588-628 | step leaves the state and returns the cycles of `StepSpec` (see CpuProps.StepClock, StepPastInstruction, StepTaken). |
| CpuProps.CbTableIsRegular | src/cpu.rs:324-579 | Each 0xCB-prefixed opcode runs the routine its bit fields name: rotate/shift op in bits 3-5 for 0x00-0x3F, BIT/RES/SET with u in bits 3-5 above, operand register or (HL) in bits 0-2. |
| CpuProps.LoadBlockIsRegular | src/cpu.rs:129-192 | Opcodes 0x40-0x7F other than 0x76 copy the register in bits 0-2 into the one in bits 3-5, slot 6 meaning (HL). |
| CpuProps.AluBlockIsRegular | src/cpu.rs:193-256 | Opcodes 0x80-0xBF apply the ALU operation in bits 3-5 to A and the operand in bits 0-2. |
| CpuProps.AluImmediateIsRegular | src/cpu.rs:257-320 | The opcodes 0xC6, 0xCE, ..., 0xFE apply the ALU operation in bits 3-5 to an immediate operand. |
| CpuProps.RestartsAreRegular | src/cpu.rs:257-320 | The opcodes 0xC7, 0xCF, ..., 0xFF restart at bits 3-5 times 8. |
| CpuProps.NopEntries | src/cpu.rs:65-320 | An unprefixed entry does nothing exactly for NOP, the unassigned opcodes and the 0xCB placeholder. |
| CpuProps.CbEntriesAct | src/cpu.rs:324-579 | No 0xCB-prefixed opcode is a do-nothing entry. |
| CpuProps.LengthsMatchOperands | src/cpu.rs:16-61 | Every unprefixed opcode advances by one more than the operand bytes its routine reads: the two sets agree with the table (rows proved in LengthsRow0 ... LengthsRowF). |
| CpuProps.TablesWellFormed | src/cpu.rs:65-579 | Both tables pass 8-bit registers only to 8-bit operands and register pairs only to 16-bit ones. |
| CpuProps.ExecKeepsPc | src/cpu.rs:615-626 | Every routine other than a jump, call, return or restart leaves PC and pc_moved alone, so step's advance is what moves PC (one lemma per entry group: LoadKeepsPc ... BitKeepsPc). |
| CpuProps.ExecKeepsClock | src/cpu.rs:620 | No routine touches the cycle counter; only step adds the cycles (one lemma per entry group: LoadKeepsClock ... JumpKeepsClock). |
| CpuProps.StepClock | src/cpu.rs:620 | The clock advances by exactly the cycles step returns. |
| CpuProps.StepPastInstruction | src/cpu.rs:594-626 | An instruction that does not transfer control moves PC by its advance: past its operand bytes, or past both bytes of a 0xCB pair. |
| CpuProps.FetchCases | src/cpu.rs:595-611 | The entry and advance of an unprefixed opcode come from the table and the sets; a 0xCB pair gives the CB entry of the next byte and advance 2. |
| CpuProps.CbEntriesStay | src/cpu.rs:324-579 | The CB table binds only 8-bit registers and holds no jump. |
| CpuProps.StepPrefixed | src/cpu.rs:608-626 | A 0xCB-prefixed instruction moves PC past both bytes. |
| CpuProps.UnassignedLookup | src/cpu.rs:65-320 | NOP and the unassigned opcodes have the do-nothing entry and advance 1. |
| CpuProps.StepUnassigned | src/cpu.rs:588-628 | NOP and the unassigned opcodes change only PC (by one) and the clock (by one cycle). |
| CpuProps.StepTaken | src/cpu.rs:615-626 | After a taken jump, call, return or restart PC is where the routine put it. |
| CpuProps.StepJumpAbsolute | src/cpu.rs:588-628 | JP n16 (0xC3) lands on its operand. |
| CpuProps.StepJumpRelative | src/cpu.rs:588-628 | JR e8 (0x18) lands on the end of the instruction plus the signed offset. |
| CpuProps.NotTakenKeepsState | src/instructions.rs:837-925 | A conditional routine whose condition fails changes nothing. |
| CpuProps.StepNotTaken | src/cpu.rs:594-626 | A conditional jump, call or return whose condition fails moves PC past the instruction like any other. |
| PpuModel.GbColor | src/ppu.rs:13-25 | Colour codes 0-3 map to the four palette colours and anything else to the magenta fallback. |
| PpuModel.ColorsDistinct | src/ppu.rs:13-25 | The four colour codes show four different host colours. |
| PpuModel.TileAddress | src/ppu.rs:37-47 | Both addressing branches give address 0x8000 + 16 * tile index: the LCDC bit 4 clear branch computes the same address as the other. |
| PpuModel.RowPixel | src/ppu.rs:49-54 | The code of column x in a packed tile row is 2 * (bit 7 - x of the high byte) + (bit 7 - x of the low byte), hence at most 3. |
| PpuModel.TileRowBytes | src/state.rs:661-669 | Row y of tile t is the join of VRAM bytes 16t + 2y and 16t + 2y + 1. |
| PpuModel.TilePixel | src/ppu.rs:27-55 | get_tile_pixel returns a colour code 0-3. |
| PpuModel.TilePixelBytes | src/ppu.rs:27-55 | The code at column x, row y of tile t is 2 * bit(7 - x) of VRAM byte 16t + 2y + 1 plus bit(7 - x) of byte 16t + 2y, both inside VRAM. |
| PpuModel.TileRowInVram | src/ppu.rs:37-49 | The two bytes of any row of any of the 256 tiles lie inside the 8 KiB of VRAM. |
| PpuModel.SpriteHeight | src/ppu.rs:80-84 | The height minus one is 7 for 8x8 objects and 15 for 8x16. |
| PpuModel.EntryAt | src/ppu.rs:91-92 | The offset `(i * 4) as u8` of entry i passes get_oam_entry's range, and the four bytes read are entry i's Y, X, tile and attributes. |
| PpuModel.KeptExactly | src/ppu.rs:93-101 | The scan keeps an entry exactly when its top row y - 16 is a screen row (16 <= y < 160) and LY lies between the top and bottom rows; entries partly above the screen are never kept. |
| PpuModel.KeptFlags | src/ppu.rs:86-110 | The scan's verdict on each of the 40 entries. |
| PpuModel.SelectedExactly | src/ppu.rs:86-110 | The selected positions are exactly the set ones, each once, in strictly increasing order. |
| PpuModel.SelectedGrows | src/ppu.rs:86-110 | Looking at further entries only appends to what was selected. |
| PpuModel.ScannedExactly | src/ppu.rs:86-110 | The scan keeps exactly the entries that pass its tests, each once, in OAM order. |
| PpuModel.FillAppend | src/ppu.rs:102-108 | Storing one more kept entry fills the next slot and changes no other. |
| PpuModel.FillFull | src/ppu.rs:87-89 | Once all ten slots are filled, later kept entries are not stored. |
| PpuModel.BackgroundMapIndex | src/ppu.rs:138-142 | The background tile under column x lies at (SCX + x, SCY + LY) of the 256x256 map, wrapping; its map position is below 0x400. |
| PpuModel.BackgroundPixel | src/ppu.rs:137-146 | The background pixel is a colour code 0-3. |
| PpuModel.WindowColumns | src/ppu.rs:125 | On screen columns the window covers x exactly when it is on, LY >= WY, WX >= 7 and x + 7 >= WX; with WX below 7 the u8 sum wraps and the window never shows. |
| PpuModel.WindowIndicesAgree | src/ppu.rs:129-133 | The u8 and 16-bit tile-map positions agree on the first eight tile rows of the window (window row < 64). |
| PpuModel.WindowRowEightWraps | src/ppu.rs:133 | On line 64 with WY 0, the position computed as written is tile-map row 0, where row 8 is meant. |
| PpuModel.WindowMapIndexTile | src/ppu.rs:127-133 | The corrected position is the tile under window pixel (winX, winY): row winY / 8, column winX / 8. |
| PpuModel.WindowPixel | src/ppu.rs:125-135 | The window pixel is a colour code 0-3, read through the corrected 16-bit map position (see Findings). |
| PpuModel.BasePixel | src/ppu.rs:125-147 | The window-or-background pixel before sprites is a colour code 0-3 (corrected window lookup). |
| PpuModel.SpriteTilePixel | src/ppu.rs:179-188 | The corrected object pixel is a colour code 0-3. |
| PpuModel.SpriteTilePixelBytes | src/ppu.rs:179-188 | Row v of an object is the VRAM byte pair at 16 * (first tile) + 2v: an 8x16 object's rows run on from its upper tile into the lower one, all inside VRAM. |
| PpuModel.TallSpriteTile | src/ppu.rs:180-185 | Row v of an object is row v % 8 of tile `(index & 0xFE) + (v >= 8)`: 16 bytes on from the first tile when v >= 8. |
| PpuModel.SpriteTilePixelAsWritten | src/ppu.rs:187-188 | As written, the lookup panics (None) exactly when the row handed to get_tile_pixel is 8 or more. |
| PpuModel.TallSpriteLowerHalf | src/ppu.rs:180-188 | Below row 8 the lookup as written agrees with the corrected one; on the lower half of every 8x16 object it panics. |
| PpuModel.OnLineOnScreen | src/ppu.rs:97-101 | On a screen line the u8 line test holds exactly when the object's top row y - 16 is on the screen and LY lies within its rows. |
| PpuModel.ColumnInOnScreen | src/ppu.rs:155-163 | On a screen column the u8 column test holds exactly when the object's left column x - 8 is on the screen and the column lies within its eight columns. |
| PpuModel.RowFlipMirrors | src/ppu.rs:167-172 | The Y-flip bit mirrors an object vertically: the flipped row is height minus the unflipped row; unflipped, the top line is row 0. |
| PpuModel.ColumnFlipMirrors | src/ppu.rs:173-178 | The X-flip bit mirrors an object horizontally: the flipped column is 7 minus the unflipped one; unflipped, the left column is column 0. |
| PpuModel.SpritePixel | src/ppu.rs:149-190 | An object pixel that counts is opaque: a colour code 1-3, read from row `v % 8` of the selected tile (corrected, see Findings). |
| PpuModel.CoveredOffsets | src/ppu.rs:162-178 | Where the object lies, its row and column at the pixel stay within its tile rows and columns, flipped or not. |
| PpuModel.SpriteDrawnWhereObjectIs | src/ppu.rs:153-190 | An object gives column x of line LY a pixel only where it lies: its top row and left column are on the screen, LY is one of its rows and x one of its columns. |
| PpuModel.Overlay | src/ppu.rs:190-197 | An opaque object pixel replaces the pixel below when the priority bit is clear; with it set, only over colour 0. |
| PpuModel.Composite | src/ppu.rs:149-201 | The sprite pass keeps colour codes within 0-3. |
| PpuModel.FirstSpriteDecides | src/ppu.rs:149-201 | The first buffered object from slot i on with an opaque pixel at x alone decides the column (the loop breaks there). |
| PpuModel.NoSpriteKeepsPixel | src/ppu.rs:149-201 | With no buffered object opaque at x the column keeps its window-or-background pixel. |
| PpuModel.ScanlinePixel | src/ppu.rs:122-203 | Each column's code is 0-3 (corrected window and object lookups). |
| PpuModel.LineCodes | src/ppu.rs:113-207 | A line has 160 codes, each 0-3 (corrected window and object lookups). |
| PpuModel.ColorsOf | src/ppu.rs:219-222 | Converting a row keeps its length, and a pixel avoids the magenta fallback exactly when its code is 0-3. |
| PpuModel.LineColors | src/ppu.rs:216-222 | Each of the 160 host colours of a visible line is a palette colour, never the fallback. |
| PpuModel.PutRowCells | src/ppu.rs:219-222 | Writing row LY rewrites the 160 pixels from ly * 160 on with the row and leaves every other pixel. |
| PpuModel.EndLine | src/ppu.rs:213-235 | The end of a line keeps the frame buffer size and reports a finished frame exactly when LY was 143. |
| PpuModel.RequestVBlank | src/ppu.rs:228 | Writing IF back with bit 0 added sets the VBlank request and changes nothing else on the bus. |
| PpuModel.RunLinesNext | src/ppu.rs:212-236 | One round of the loop: with a whole line of dots pending, the loop returns after a finished frame or goes on from what the end of the line leaves. |
| PpuModel.AtMostOneLine | src/ppu.rs:210-238 | From less than a line of dots, a step of at most 255 cycles ends at most one line and leaves less than a line of dots. |
| PpuModel.EndLineAdvancesLy | src/ppu.rs:224-235 | At the end of a line LY moves to the next of the 154 lines, from 153 back to 0. |
| PpuModel.LineAfter | src/ppu.rs:226-233 | The line arithmetic: LY + 1 reaches 144 only from 143, and passes 153 only from 153 on. |
| PpuModel.EndLineVBlank | src/ppu.rs:226-231 | The end of line 143, and only that line, sets IF bit 0; IF is otherwise untouched. |
| PpuModel.EndLineBusFrame | src/ppu.rs:223-235 | The end of a line changes nothing on the bus but LY and IF. |
| PpuModel.EndLineDrawsRow | src/ppu.rs:213-223 | A visible line rewrites exactly its own row of the frame buffer with the colours of its pixels; an invisible line leaves the buffer alone. |
| Ppu.Ppu.Initialize | src/ppu.rs:64-71 | A new PPU has no dots counted and an all-zero frame buffer. |
| Ppu.Ppu.ResetActiveEntries | src/ppu.rs:73-76 | Every slot of the sprite buffer becomes empty. |
| Ppu.Ppu.OamScan | src/ppu.rs:78-111 | The buffer ends as the kept entries (ScannedExactly) stored in OAM order from slot 0 and cut off at ten slots (FillAppend, FillFull); later slots keep what they held. |
| Ppu.Ppu.ReadEntry | src/ppu.rs:91-101 | Returns entry i read at byte offset 4i and whether the scan keeps it. |
| Ppu.Ppu.GenScanline | src/ppu.rs:113-207 | The 160 codes of line LY: window where it covers the column, background elsewhere, under the first opaque buffered object (see FirstSpriteDecides, Overlay). |
| Ppu.Ppu.ColumnPixel | src/ppu.rs:123-203 | The code of one column, as `ScanlinePixel` defines it. |
| Ppu.Ppu.FinishLine | src/ppu.rs:214-235 | Ends one line: the frame buffer and bus become those of `EndLine` and frameReady its verdict; the sprite buffer ends empty. |
| Ppu.Ppu.AdvanceLine | src/ppu.rs:224-235 | LY advances, the sprite buffer is emptied, line 143 sets IF bit 0 and reports a frame, and past 153 LY returns to 0 (`EndLineBus`). |
| Ppu.Ppu.DrawVisibleLine | src/ppu.rs:215-223 | oam_scan, gen_scanline and the copy leave the frame buffer with row LY replaced by the line's colours (`DrawLine`). |
| Ppu.Ppu.DrawRow | src/ppu.rs:219-222 | The frame buffer has row LY replaced by the host colours of the line. |
| Ppu.Ppu.EndOneLine | src/ppu.rs:212-235 | One loop round spends 456 dots and ends the line, preserving the `RunLines` outcome of the whole step. |
| Ppu.Ppu.Step | src/ppu.rs:210-238 | The dot counter, frame buffer, bus and return value are those of `RunLines`: whole lines ended until fewer than 456 dots remain or a frame completes. |
| PpuModel.WindowMapIndexAsWritten | src/ppu.rs:129-133 | The tile-map position as written, with the row offset `t_y * 32` computed in u8; it stays below 0x400 (see WindowRowEightWraps). |
| PpuModel.WindowMapIndex | src/ppu.rs:129-133 | The corrected position, with the row offset taken in 16 bits; it stays below 0x400 (see WindowMapIndexTile, WindowIndicesAgree). |

## Left out

- Host I/O:
  - `Cartridge::load_rom` reads a file, so the cartridge image is a parameter of `start_game`;
  - `MbcType` is left out: no bank switching is modelled, and 0x4000-0x7FFF reads the flat image.
  - `main.rs` (window, event loop, frame timing), `logger.rs` and `decode.rs` (disassembly for tracing) are left out.
  - The `print!`/`println!` tracing to standard output is left out, because it has no effect on the state. It sits in `Cpu::step` (src/cpu.rs:591-613), `dec_r8` (src/instructions.rs:356, 361, 372), `jr_cc` (src/instructions.rs:893-894) and the TAC arm of `write` (src/state.rs:518).
- Integer widths and casts:
  - Debug-build overflow panics on `u8`/`u16` arithmetic are modelled by the wrapping result, except for the window's tile-map row offset `t_y * 32` (src/ppu.rs:133), which the renderer takes in 16 bits (PpuModel.WindowPixel below).
  - `dot_counter` is a `u128` and is modelled as `nat`. It cannot reach 2^128 from steps of at most 255 cycles.
- `inc_div`, `get_tac` and the available-cycles counter: no timer advance is modelled, because these are not called from the modelled core (`cpu.rs`, `ppu.rs`, `instructions.rs`).
  - `update_tima` is modelled, but nothing in the core calls it.
- `stop` and `halt` are modelled as written (nothing happens, at no cost). The low-power behaviour of the real SM83 is not modelled, because the emulator does not have it.
- Interrupt flag bits: `constants.rs` does not define the `INT_*` masks that `interrupt_handler`, `update_tima` and `ppu.rs` use. The model uses the hardware layout of IF:
  - VBlank bit 0, LCD bit 1, Timer bit 2, Serial bit 3, Joypad bit 4.
  - Vectors 0x40-0x60.
- PpuModel.GbColor: the exact ARGB values of the palette are not stated. The contract states only that codes 0-3 map to palette colours, distinct from each other and from the magenta fallback.
- PpuModel.EndLineBus: states the IF update as `i_flag | 1` directly. `RequestVBlank` proves that the `write(read(0xFF0F) | INT_VBLANK, 0xFF0F)` pair of `step` is equivalent, and `AdvanceLine` performs that pair.
- PpuModel.WindowPixel: reads the tile-map position of the corrected `WindowMapIndex`, with the row offset taken in 16 bits. As written (src/ppu.rs:129-133) the offset `t_y * 32` wraps in `u8`, so from window line 64 on the window repeats map rows 0-7 instead of reading rows 8 and beyond (Findings; `WindowMapIndexAsWritten` and `WindowRowEightWraps` model and exhibit it, `WindowIndicesAgree` shows the two agree above window line 64).
- PpuModel.SpritePixel: looks up row `v % 8` of the selected tile (`SpriteTilePixel`). As written (src/ppu.rs:180-188 with :49) the lower half of an 8x16 object indexes row 8-15 of an 8-row tile and panics; the model has no panic outcome there (Findings; `SpriteTilePixelAsWritten` and `TallSpriteLowerHalf` model and exhibit it, and show the two agree on every row below 8).
- PpuModel.BasePixel: inherits the corrected window lookup of `WindowPixel`.
- PpuModel.ScanlinePixel: inherits both corrected lookups, through `BasePixel` and `SpritePixel`.
- PpuModel.LineCodes: inherits both corrected lookups, through `ScanlinePixel`.
- PpuModel.LineColors: inherits both corrected lookups, through `LineCodes`.
- PpuModel.EndLine: inherits both corrected lookups for the row it draws, through `LineColors`.
- Ppu.Ppu.ColumnPixel: computes `ScanlinePixel`, so it inherits both corrected lookups.
- Ppu.Ppu.GenScanline: returns a sequence of 160 codes instead of a `[u8; 160]` array, and inherits both corrected lookups through `ColumnPixel`.
- Ppu.Ppu.DrawVisibleLine: draws the row of `LineCodes`, so it inherits both corrected lookups.
- Ppu.Ppu.FinishLine: follows `EndLine`, so it inherits both corrected lookups.
- Ppu.Ppu.EndOneLine: follows `RunLines`, which draws with `EndLine`, so it inherits both corrected lookups.
- Ppu.Ppu.Step: follows `RunLines`, so it inherits both corrected lookups. In a window-covered frame it draws window lines 64 and below from the intended map rows, and with 8x16 objects on the screen it finishes a frame where the source panics.
- Ppu.Ppu.Step: the loop body of `step` is split into helper methods, each with a contract. The order of state changes is unchanged.
  - `EndOneLine`, `FinishLine`, `DrawVisibleLine`, `AdvanceLine` and `DrawRow` hold the loop body.
  - `ReadEntry` is a round of the `oam_scan` loop, and `ColumnPixel` a round of the `gen_scanline` loop.
- The opcode tables are `match` functions on the opcode (`Cpu.Decode`, `Cpu.DecodeCb`) instead of arrays of closures. The two- and three-byte sets are set literals.
- Apart from the two Findings, whose corrected lookups the renderer uses, hardware differences the source has are modelled as written, not corrected:
  - `sbc` does not subtract the carry from the stored value;
  - `daa` subtracts its correction after additions too;
  - `and`/`or`/`xor` with (HL) store their result at HL;
  - `ld_hl_spe8` also writes SP;
  - `ld_sp_n16addr` loads the immediate word itself into SP;
  - `pop_r16` into AF keeps the low nibble of F;
  - `interrupt_handler` ignores IME and IE;
  - objects partly above the top of the screen (Y below 16) are never kept by the scan.
  - Lemmas such as SbcStoresDifferenceOnly, DaaAfterAddition, PopAfRawFlags, InterruptIgnoresIme and KeptExactly state each of these.

## Findings

| source | as written | input that shows it | evidently intended | confidence | as-written member | corrected member |
|---|---|---|---|---|---|---|
| src/ppu.rs:180-188 | For an 8x16 object the row offset `v_offset` (0-15) is passed to `get_tile_pixel` as `y_tile`, which indexes the 8-row array of one tile (src/ppu.rs:49); the tile was already advanced by one for rows 8-15 | an 8x16 object with Y = 16 on line 8: `v_offset` is 8 and `tile[8]` is out of bounds, a panic | the row within the selected tile, `v_offset % 8` | not executed | PpuModel.SpriteTilePixelAsWritten, PpuModel.TallSpriteLowerHalf | PpuModel.SpriteTilePixel, PpuModel.SpriteTilePixelBytes, PpuModel.TallSpriteTile |
| src/ppu.rs:129-133 | The window's map row offset `(t_y * 32) as u16` multiplies in `u8` before the cast, so it wraps from window tile row 8 on | LY = 64, WY = 0, WX = 7: tile row 8 gives `8 * 32 = 256`, which wraps to 0, and map row 0 is read | the product taken in 16 bits, `t_y as u16 * 32` | not executed | PpuModel.WindowMapIndexAsWritten, PpuModel.WindowRowEightWraps | PpuModel.WindowMapIndex, PpuModel.WindowMapIndexTile, PpuModel.WindowIndicesAgree |
