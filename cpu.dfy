/**
 * The CPU of cpu.rs: the two 256-entry dispatch tables (the unprefixed opcodes
 * and those after 0xCB), the sets of two- and three-byte opcodes, and `step`,
 * which runs one instruction and moves PC past it unless the instruction moved
 * PC itself. The tables never change after `initialize`, so they are constant
 * functions here; `step` changes the game state and is a method proved against
 * the function StepSpec.
 */
module Cpu {
  import opened Bits
  import opened StateModel
  import opened State
  import Semantics
  import Instructions

  /** A bit number 0-7, as the bit_u3 routines take it. */
  type BitIndex = u: Byte | u < 8

  /** One of the four rotates rla, rlca, rra and rrca apply to A. */
  type RotateOp = op: Semantics.ShiftOp | Semantics.IsRotate(op) witness Semantics.Rlc

  /**
   * An entry of a dispatch table: the routine and the arguments the table
   * binds, grouped by kind. Nop stands for the entries that do nothing and cost
   * one M-cycle (0x00, the 0xCB slot and the unassigned opcodes).
   */
  datatype Instr =
    | Load(load: LoadEntry) | LoadA(loadA: LoadAEntry) | Arith(arith: ArithEntry) | Wide(wide: WideEntry)
    | Stack(stack: StackEntry) | Bit(bit: BitEntry) | Jump(jump: JumpEntry)
    | Nop | Di | Ei | Stop | Halt

  /** The loads between registers and memory that do not involve A alone. */
  datatype LoadEntry =
    | LdR8R8(r1: Register, r2: Register) | LdR8N8(r: Register) | LdHlAddrR8(r: Register) | LdHlAddrN8
    | LdR8HlAddr(r: Register) | LdR16AddrA(r: Register) | LdN16AddrA | LdhN8AddrA | LdhCAddrA

  /** The loads into A, and the loads through HL that step HL. */
  datatype LoadAEntry =
    | LdAR16Addr(r: Register) | LdAN16Addr | LdhAN8Addr | LdhACAddr | LdHliAddrA | LdHldAddrA | LdAHld
    | LdAHli

  /** The 8-bit arithmetic and logic, and the flag operations. */
  datatype ArithEntry =
    | AluR8(op: Semantics.AluOp, r: Register) | AluHlAddr(op: Semantics.AluOp)
    | AluN8(op: Semantics.AluOp) | DecR8(r: Register) | DecHlAddr | IncR8(r: Register) | IncHlAddr | Cpl
    | Ccf | Scf | Daa

  /** The 16-bit loads and arithmetic outside the stack. */
  datatype WideEntry =
    | LdR16N16(r: Register) | DecR16(r: Register) | IncR16(r: Register) | AddHlR16(r: Register)
    | AddHlSp | AddSpE8 | LdHlSpE8

  /** The stack pointer operations. */
  datatype StackEntry =
    | DecSp | IncSp | PushR16(r: Register) | PopR16(r: Register) | LdN16AddrSp | LdSpN16Addr | LdSpHl

  /** The bit tests, resets and sets, and the rotates and shifts. */
  datatype BitEntry =
    | BitR8(u: BitIndex, r: Register) | BitHlAddr(u: BitIndex) | ResR8(u: BitIndex, r: Register)
    | ResHlAddr(u: BitIndex) | SetR8(u: BitIndex, r: Register) | SetHlAddr(u: BitIndex)
    | ShiftR8(sop: Semantics.ShiftOp, r: Register) | ShiftHlAddr(sop: Semantics.ShiftOp)
    | RotateA(rop: RotateOp)

  /** The jumps, calls, returns and restarts. */
  datatype JumpEntry =
    | JpN16 | JpHl | JpCc(cc: CC) | JrE8 | JrCc(cc: CC) | CallN16 | CallCc(cc: CC) | Ret | Reti
    | RetCc(cc: CC) | RstVec(vec: Byte)

  // ---------------------------------------------------------------- the tables

  /** The rotates of A the table binds: rlca, rrca, rla and rra. */
  const Rlca: RotateOp := Semantics.Rlc
  const Rrca: RotateOp := Semantics.Rrc
  const Rla: RotateOp := Semantics.Rl
  const Rra: RotateOp := Semantics.Rr

  /**
   * non_prefix_opcodes: the routine each unprefixed opcode runs, laid out as an
   * opcode chart (row: high nibble, column: low nibble).
   */
  function Decode(op: Byte): Instr {
    match op >> 4
    case 0x0 =>
      (match op & 0xF
      case 0x0 => Nop
      case 0x1 => Wide(LdR16N16(BC))
      case 0x2 => Load(LdR16AddrA(BC))
      case 0x3 => Wide(IncR16(BC))
      case 0x4 => Arith(IncR8(B))
      case 0x5 => Arith(DecR8(B))
      case 0x6 => Load(LdR8N8(B))
      case 0x7 => Bit(RotateA(Rlca))
      case 0x8 => Stack(LdN16AddrSp)
      case 0x9 => Wide(AddHlR16(BC))
      case 0xA => LoadA(LdAR16Addr(BC))
      case 0xB => Wide(DecR16(BC))
      case 0xC => Arith(IncR8(Register.C))
      case 0xD => Arith(DecR8(Register.C))
      case 0xE => Load(LdR8N8(Register.C))
      case 0xF => Bit(RotateA(Rrca)))
    case 0x1 =>
      (match op & 0xF
      case 0x0 => Stop
      case 0x1 => Wide(LdR16N16(DE))
      case 0x2 => Load(LdR16AddrA(DE))
      case 0x3 => Wide(IncR16(DE))
      case 0x4 => Arith(IncR8(D))
      case 0x5 => Arith(DecR8(D))
      case 0x6 => Load(LdR8N8(D))
      case 0x7 => Bit(RotateA(Rla))
      case 0x8 => Jump(JrE8)
      case 0x9 => Wide(AddHlR16(DE))
      case 0xA => LoadA(LdAR16Addr(DE))
      case 0xB => Wide(DecR16(DE))
      case 0xC => Arith(IncR8(E))
      case 0xD => Arith(DecR8(E))
      case 0xE => Load(LdR8N8(E))
      case 0xF => Bit(RotateA(Rra)))
    case 0x2 =>
      (match op & 0xF
      case 0x0 => Jump(JrCc(CC.NZ))
      case 0x1 => Wide(LdR16N16(HL))
      case 0x2 => LoadA(LdHliAddrA)
      case 0x3 => Wide(IncR16(HL))
      case 0x4 => Arith(IncR8(H))
      case 0x5 => Arith(DecR8(H))
      case 0x6 => Load(LdR8N8(H))
      case 0x7 => Arith(Daa)
      case 0x8 => Jump(JrCc(CC.Z))
      case 0x9 => Wide(AddHlR16(HL))
      case 0xA => LoadA(LdAHli)
      case 0xB => Wide(DecR16(HL))
      case 0xC => Arith(IncR8(L))
      case 0xD => Arith(DecR8(L))
      case 0xE => Load(LdR8N8(L))
      case 0xF => Arith(Cpl))
    case 0x3 =>
      (match op & 0xF
      case 0x0 => Jump(JrCc(CC.NC))
      case 0x1 => Stack(LdSpN16Addr)
      case 0x2 => LoadA(LdHldAddrA)
      case 0x3 => Stack(IncSp)
      case 0x4 => Arith(IncHlAddr)
      case 0x5 => Arith(DecHlAddr)
      case 0x6 => Load(LdHlAddrN8)
      case 0x7 => Arith(Scf)
      case 0x8 => Jump(JrCc(CC.C))
      case 0x9 => Wide(AddHlSp)
      case 0xA => LoadA(LdAHld)
      case 0xB => Stack(DecSp)
      case 0xC => Arith(IncR8(A))
      case 0xD => Arith(DecR8(A))
      case 0xE => Load(LdR8N8(A))
      case 0xF => Arith(Ccf))
    case 0x4 =>
      (match op & 0xF
      case 0x0 => Load(LdR8R8(B, B))
      case 0x1 => Load(LdR8R8(B, Register.C))
      case 0x2 => Load(LdR8R8(B, D))
      case 0x3 => Load(LdR8R8(B, E))
      case 0x4 => Load(LdR8R8(B, H))
      case 0x5 => Load(LdR8R8(B, L))
      case 0x6 => Load(LdR8HlAddr(B))
      case 0x7 => Load(LdR8R8(B, A))
      case 0x8 => Load(LdR8R8(Register.C, B))
      case 0x9 => Load(LdR8R8(Register.C, Register.C))
      case 0xA => Load(LdR8R8(Register.C, D))
      case 0xB => Load(LdR8R8(Register.C, E))
      case 0xC => Load(LdR8R8(Register.C, H))
      case 0xD => Load(LdR8R8(Register.C, L))
      case 0xE => Load(LdR8HlAddr(Register.C))
      case 0xF => Load(LdR8R8(Register.C, A)))
    case 0x5 =>
      (match op & 0xF
      case 0x0 => Load(LdR8R8(D, B))
      case 0x1 => Load(LdR8R8(D, Register.C))
      case 0x2 => Load(LdR8R8(D, D))
      case 0x3 => Load(LdR8R8(D, E))
      case 0x4 => Load(LdR8R8(D, H))
      case 0x5 => Load(LdR8R8(D, L))
      case 0x6 => Load(LdR8HlAddr(D))
      case 0x7 => Load(LdR8R8(D, A))
      case 0x8 => Load(LdR8R8(E, B))
      case 0x9 => Load(LdR8R8(E, Register.C))
      case 0xA => Load(LdR8R8(E, D))
      case 0xB => Load(LdR8R8(E, E))
      case 0xC => Load(LdR8R8(E, H))
      case 0xD => Load(LdR8R8(E, L))
      case 0xE => Load(LdR8HlAddr(E))
      case 0xF => Load(LdR8R8(E, A)))
    case 0x6 =>
      (match op & 0xF
      case 0x0 => Load(LdR8R8(H, B))
      case 0x1 => Load(LdR8R8(H, Register.C))
      case 0x2 => Load(LdR8R8(H, D))
      case 0x3 => Load(LdR8R8(H, E))
      case 0x4 => Load(LdR8R8(H, H))
      case 0x5 => Load(LdR8R8(H, L))
      case 0x6 => Load(LdR8HlAddr(H))
      case 0x7 => Load(LdR8R8(H, A))
      case 0x8 => Load(LdR8R8(L, B))
      case 0x9 => Load(LdR8R8(L, Register.C))
      case 0xA => Load(LdR8R8(L, D))
      case 0xB => Load(LdR8R8(L, E))
      case 0xC => Load(LdR8R8(L, H))
      case 0xD => Load(LdR8R8(L, L))
      case 0xE => Load(LdR8HlAddr(L))
      case 0xF => Load(LdR8R8(L, A)))
    case 0x7 =>
      (match op & 0xF
      case 0x0 => Load(LdHlAddrR8(B))
      case 0x1 => Load(LdHlAddrR8(Register.C))
      case 0x2 => Load(LdHlAddrR8(D))
      case 0x3 => Load(LdHlAddrR8(E))
      case 0x4 => Load(LdHlAddrR8(H))
      case 0x5 => Load(LdHlAddrR8(L))
      case 0x6 => Halt
      case 0x7 => Load(LdHlAddrR8(A))
      case 0x8 => Load(LdR8R8(A, B))
      case 0x9 => Load(LdR8R8(A, Register.C))
      case 0xA => Load(LdR8R8(A, D))
      case 0xB => Load(LdR8R8(A, E))
      case 0xC => Load(LdR8R8(A, H))
      case 0xD => Load(LdR8R8(A, L))
      case 0xE => Load(LdR8HlAddr(A))
      case 0xF => Load(LdR8R8(A, A)))
    case 0x8 =>
      (match op & 0xF
      case 0x0 => Arith(AluR8(Semantics.Add, B))
      case 0x1 => Arith(AluR8(Semantics.Add, Register.C))
      case 0x2 => Arith(AluR8(Semantics.Add, D))
      case 0x3 => Arith(AluR8(Semantics.Add, E))
      case 0x4 => Arith(AluR8(Semantics.Add, H))
      case 0x5 => Arith(AluR8(Semantics.Add, L))
      case 0x6 => Arith(AluHlAddr(Semantics.Add))
      case 0x7 => Arith(AluR8(Semantics.Add, A))
      case 0x8 => Arith(AluR8(Semantics.Adc, B))
      case 0x9 => Arith(AluR8(Semantics.Adc, Register.C))
      case 0xA => Arith(AluR8(Semantics.Adc, D))
      case 0xB => Arith(AluR8(Semantics.Adc, E))
      case 0xC => Arith(AluR8(Semantics.Adc, H))
      case 0xD => Arith(AluR8(Semantics.Adc, L))
      case 0xE => Arith(AluHlAddr(Semantics.Adc))
      case 0xF => Arith(AluR8(Semantics.Adc, A)))
    case 0x9 =>
      (match op & 0xF
      case 0x0 => Arith(AluR8(Semantics.Sub, B))
      case 0x1 => Arith(AluR8(Semantics.Sub, Register.C))
      case 0x2 => Arith(AluR8(Semantics.Sub, D))
      case 0x3 => Arith(AluR8(Semantics.Sub, E))
      case 0x4 => Arith(AluR8(Semantics.Sub, H))
      case 0x5 => Arith(AluR8(Semantics.Sub, L))
      case 0x6 => Arith(AluHlAddr(Semantics.Sub))
      case 0x7 => Arith(AluR8(Semantics.Sub, A))
      case 0x8 => Arith(AluR8(Semantics.Sbc, B))
      case 0x9 => Arith(AluR8(Semantics.Sbc, Register.C))
      case 0xA => Arith(AluR8(Semantics.Sbc, D))
      case 0xB => Arith(AluR8(Semantics.Sbc, E))
      case 0xC => Arith(AluR8(Semantics.Sbc, H))
      case 0xD => Arith(AluR8(Semantics.Sbc, L))
      case 0xE => Arith(AluHlAddr(Semantics.Sbc))
      case 0xF => Arith(AluR8(Semantics.Sbc, A)))
    case 0xA =>
      (match op & 0xF
      case 0x0 => Arith(AluR8(Semantics.And, B))
      case 0x1 => Arith(AluR8(Semantics.And, Register.C))
      case 0x2 => Arith(AluR8(Semantics.And, D))
      case 0x3 => Arith(AluR8(Semantics.And, E))
      case 0x4 => Arith(AluR8(Semantics.And, H))
      case 0x5 => Arith(AluR8(Semantics.And, L))
      case 0x6 => Arith(AluHlAddr(Semantics.And))
      case 0x7 => Arith(AluR8(Semantics.And, A))
      case 0x8 => Arith(AluR8(Semantics.Xor, B))
      case 0x9 => Arith(AluR8(Semantics.Xor, Register.C))
      case 0xA => Arith(AluR8(Semantics.Xor, D))
      case 0xB => Arith(AluR8(Semantics.Xor, E))
      case 0xC => Arith(AluR8(Semantics.Xor, H))
      case 0xD => Arith(AluR8(Semantics.Xor, L))
      case 0xE => Arith(AluHlAddr(Semantics.Xor))
      case 0xF => Arith(AluR8(Semantics.Xor, A)))
    case 0xB =>
      (match op & 0xF
      case 0x0 => Arith(AluR8(Semantics.Or, B))
      case 0x1 => Arith(AluR8(Semantics.Or, Register.C))
      case 0x2 => Arith(AluR8(Semantics.Or, D))
      case 0x3 => Arith(AluR8(Semantics.Or, E))
      case 0x4 => Arith(AluR8(Semantics.Or, H))
      case 0x5 => Arith(AluR8(Semantics.Or, L))
      case 0x6 => Arith(AluHlAddr(Semantics.Or))
      case 0x7 => Arith(AluR8(Semantics.Or, A))
      case 0x8 => Arith(AluR8(Semantics.Cp, B))
      case 0x9 => Arith(AluR8(Semantics.Cp, Register.C))
      case 0xA => Arith(AluR8(Semantics.Cp, D))
      case 0xB => Arith(AluR8(Semantics.Cp, E))
      case 0xC => Arith(AluR8(Semantics.Cp, H))
      case 0xD => Arith(AluR8(Semantics.Cp, L))
      case 0xE => Arith(AluHlAddr(Semantics.Cp))
      case 0xF => Arith(AluR8(Semantics.Cp, A)))
    case 0xC =>
      (match op & 0xF
      case 0x0 => Jump(RetCc(CC.NZ))
      case 0x1 => Stack(PopR16(BC))
      case 0x2 => Jump(JpCc(CC.NZ))
      case 0x3 => Jump(JpN16)
      case 0x4 => Jump(CallCc(CC.NZ))
      case 0x5 => Stack(PushR16(BC))
      case 0x6 => Arith(AluN8(Semantics.Add))
      case 0x7 => Jump(RstVec(0x00))
      case 0x8 => Jump(RetCc(CC.Z))
      case 0x9 => Jump(Ret)
      case 0xA => Jump(JpCc(CC.Z))
      case 0xB => Nop
      case 0xC => Jump(CallCc(CC.Z))
      case 0xD => Jump(CallN16)
      case 0xE => Arith(AluN8(Semantics.Adc))
      case 0xF => Jump(RstVec(0x08)))
    case 0xD =>
      (match op & 0xF
      case 0x0 => Jump(RetCc(CC.NC))
      case 0x1 => Stack(PopR16(DE))
      case 0x2 => Jump(JpCc(CC.NC))
      case 0x3 => Nop
      case 0x4 => Jump(CallCc(CC.NC))
      case 0x5 => Stack(PushR16(DE))
      case 0x6 => Arith(AluN8(Semantics.Sub))
      case 0x7 => Jump(RstVec(0x10))
      case 0x8 => Jump(RetCc(CC.C))
      case 0x9 => Jump(Reti)
      case 0xA => Jump(JpCc(CC.C))
      case 0xB => Nop
      case 0xC => Jump(CallCc(CC.C))
      case 0xD => Nop
      case 0xE => Arith(AluN8(Semantics.Sbc))
      case 0xF => Jump(RstVec(0x18)))
    case 0xE =>
      (match op & 0xF
      case 0x0 => Load(LdhN8AddrA)
      case 0x1 => Stack(PopR16(HL))
      case 0x2 => Load(LdhCAddrA)
      case 0x3 => Nop
      case 0x4 => Nop
      case 0x5 => Stack(PushR16(HL))
      case 0x6 => Arith(AluN8(Semantics.And))
      case 0x7 => Jump(RstVec(0x20))
      case 0x8 => Wide(AddSpE8)
      case 0x9 => Jump(JpHl)
      case 0xA => Load(LdN16AddrA)
      case 0xB => Nop
      case 0xC => Nop
      case 0xD => Nop
      case 0xE => Arith(AluN8(Semantics.Xor))
      case 0xF => Jump(RstVec(0x28)))
    case 0xF =>
      (match op & 0xF
      case 0x0 => LoadA(LdhAN8Addr)
      case 0x1 => Stack(PopR16(AF))
      case 0x2 => LoadA(LdhACAddr)
      case 0x3 => Di
      case 0x4 => Nop
      case 0x5 => Stack(PushR16(AF))
      case 0x6 => Arith(AluN8(Semantics.Or))
      case 0x7 => Jump(RstVec(0x30))
      case 0x8 => Wide(LdHlSpE8)
      case 0x9 => Stack(LdSpHl)
      case 0xA => LoadA(LdAN16Addr)
      case 0xB => Ei
      case 0xC => Nop
      case 0xD => Nop
      case 0xE => Arith(AluN8(Semantics.Cp))
      case 0xF => Jump(RstVec(0x38)))
  }

  /** cb_prefix_opcodes: the routine each byte after 0xCB selects, as an opcode chart. */
  function DecodeCb(op: Byte): Instr {
    match op >> 4
    case 0x0 =>
      (match op & 0xF
      case 0x0 => Bit(ShiftR8(Semantics.Rlc, B))
      case 0x1 => Bit(ShiftR8(Semantics.Rlc, Register.C))
      case 0x2 => Bit(ShiftR8(Semantics.Rlc, D))
      case 0x3 => Bit(ShiftR8(Semantics.Rlc, E))
      case 0x4 => Bit(ShiftR8(Semantics.Rlc, H))
      case 0x5 => Bit(ShiftR8(Semantics.Rlc, L))
      case 0x6 => Bit(ShiftHlAddr(Semantics.Rlc))
      case 0x7 => Bit(ShiftR8(Semantics.Rlc, A))
      case 0x8 => Bit(ShiftR8(Semantics.Rrc, B))
      case 0x9 => Bit(ShiftR8(Semantics.Rrc, Register.C))
      case 0xA => Bit(ShiftR8(Semantics.Rrc, D))
      case 0xB => Bit(ShiftR8(Semantics.Rrc, E))
      case 0xC => Bit(ShiftR8(Semantics.Rrc, H))
      case 0xD => Bit(ShiftR8(Semantics.Rrc, L))
      case 0xE => Bit(ShiftHlAddr(Semantics.Rrc))
      case 0xF => Bit(ShiftR8(Semantics.Rrc, A)))
    case 0x1 =>
      (match op & 0xF
      case 0x0 => Bit(ShiftR8(Semantics.Rl, B))
      case 0x1 => Bit(ShiftR8(Semantics.Rl, Register.C))
      case 0x2 => Bit(ShiftR8(Semantics.Rl, D))
      case 0x3 => Bit(ShiftR8(Semantics.Rl, E))
      case 0x4 => Bit(ShiftR8(Semantics.Rl, H))
      case 0x5 => Bit(ShiftR8(Semantics.Rl, L))
      case 0x6 => Bit(ShiftHlAddr(Semantics.Rl))
      case 0x7 => Bit(ShiftR8(Semantics.Rl, A))
      case 0x8 => Bit(ShiftR8(Semantics.Rr, B))
      case 0x9 => Bit(ShiftR8(Semantics.Rr, Register.C))
      case 0xA => Bit(ShiftR8(Semantics.Rr, D))
      case 0xB => Bit(ShiftR8(Semantics.Rr, E))
      case 0xC => Bit(ShiftR8(Semantics.Rr, H))
      case 0xD => Bit(ShiftR8(Semantics.Rr, L))
      case 0xE => Bit(ShiftHlAddr(Semantics.Rr))
      case 0xF => Bit(ShiftR8(Semantics.Rr, A)))
    case 0x2 =>
      (match op & 0xF
      case 0x0 => Bit(ShiftR8(Semantics.Sla, B))
      case 0x1 => Bit(ShiftR8(Semantics.Sla, Register.C))
      case 0x2 => Bit(ShiftR8(Semantics.Sla, D))
      case 0x3 => Bit(ShiftR8(Semantics.Sla, E))
      case 0x4 => Bit(ShiftR8(Semantics.Sla, H))
      case 0x5 => Bit(ShiftR8(Semantics.Sla, L))
      case 0x6 => Bit(ShiftHlAddr(Semantics.Sla))
      case 0x7 => Bit(ShiftR8(Semantics.Sla, A))
      case 0x8 => Bit(ShiftR8(Semantics.Sra, B))
      case 0x9 => Bit(ShiftR8(Semantics.Sra, Register.C))
      case 0xA => Bit(ShiftR8(Semantics.Sra, D))
      case 0xB => Bit(ShiftR8(Semantics.Sra, E))
      case 0xC => Bit(ShiftR8(Semantics.Sra, H))
      case 0xD => Bit(ShiftR8(Semantics.Sra, L))
      case 0xE => Bit(ShiftHlAddr(Semantics.Sra))
      case 0xF => Bit(ShiftR8(Semantics.Sra, A)))
    case 0x3 =>
      (match op & 0xF
      case 0x0 => Bit(ShiftR8(Semantics.Swap, B))
      case 0x1 => Bit(ShiftR8(Semantics.Swap, Register.C))
      case 0x2 => Bit(ShiftR8(Semantics.Swap, D))
      case 0x3 => Bit(ShiftR8(Semantics.Swap, E))
      case 0x4 => Bit(ShiftR8(Semantics.Swap, H))
      case 0x5 => Bit(ShiftR8(Semantics.Swap, L))
      case 0x6 => Bit(ShiftHlAddr(Semantics.Swap))
      case 0x7 => Bit(ShiftR8(Semantics.Swap, A))
      case 0x8 => Bit(ShiftR8(Semantics.Srl, B))
      case 0x9 => Bit(ShiftR8(Semantics.Srl, Register.C))
      case 0xA => Bit(ShiftR8(Semantics.Srl, D))
      case 0xB => Bit(ShiftR8(Semantics.Srl, E))
      case 0xC => Bit(ShiftR8(Semantics.Srl, H))
      case 0xD => Bit(ShiftR8(Semantics.Srl, L))
      case 0xE => Bit(ShiftHlAddr(Semantics.Srl))
      case 0xF => Bit(ShiftR8(Semantics.Srl, A)))
    case 0x4 =>
      (match op & 0xF
      case 0x0 => Bit(BitR8(0, B))
      case 0x1 => Bit(BitR8(0, Register.C))
      case 0x2 => Bit(BitR8(0, D))
      case 0x3 => Bit(BitR8(0, E))
      case 0x4 => Bit(BitR8(0, H))
      case 0x5 => Bit(BitR8(0, L))
      case 0x6 => Bit(BitHlAddr(0))
      case 0x7 => Bit(BitR8(0, A))
      case 0x8 => Bit(BitR8(1, B))
      case 0x9 => Bit(BitR8(1, Register.C))
      case 0xA => Bit(BitR8(1, D))
      case 0xB => Bit(BitR8(1, E))
      case 0xC => Bit(BitR8(1, H))
      case 0xD => Bit(BitR8(1, L))
      case 0xE => Bit(BitHlAddr(1))
      case 0xF => Bit(BitR8(1, A)))
    case 0x5 =>
      (match op & 0xF
      case 0x0 => Bit(BitR8(2, B))
      case 0x1 => Bit(BitR8(2, Register.C))
      case 0x2 => Bit(BitR8(2, D))
      case 0x3 => Bit(BitR8(2, E))
      case 0x4 => Bit(BitR8(2, H))
      case 0x5 => Bit(BitR8(2, L))
      case 0x6 => Bit(BitHlAddr(2))
      case 0x7 => Bit(BitR8(2, A))
      case 0x8 => Bit(BitR8(3, B))
      case 0x9 => Bit(BitR8(3, Register.C))
      case 0xA => Bit(BitR8(3, D))
      case 0xB => Bit(BitR8(3, E))
      case 0xC => Bit(BitR8(3, H))
      case 0xD => Bit(BitR8(3, L))
      case 0xE => Bit(BitHlAddr(3))
      case 0xF => Bit(BitR8(3, A)))
    case 0x6 =>
      (match op & 0xF
      case 0x0 => Bit(BitR8(4, B))
      case 0x1 => Bit(BitR8(4, Register.C))
      case 0x2 => Bit(BitR8(4, D))
      case 0x3 => Bit(BitR8(4, E))
      case 0x4 => Bit(BitR8(4, H))
      case 0x5 => Bit(BitR8(4, L))
      case 0x6 => Bit(BitHlAddr(4))
      case 0x7 => Bit(BitR8(4, A))
      case 0x8 => Bit(BitR8(5, B))
      case 0x9 => Bit(BitR8(5, Register.C))
      case 0xA => Bit(BitR8(5, D))
      case 0xB => Bit(BitR8(5, E))
      case 0xC => Bit(BitR8(5, H))
      case 0xD => Bit(BitR8(5, L))
      case 0xE => Bit(BitHlAddr(5))
      case 0xF => Bit(BitR8(5, A)))
    case 0x7 =>
      (match op & 0xF
      case 0x0 => Bit(BitR8(6, B))
      case 0x1 => Bit(BitR8(6, Register.C))
      case 0x2 => Bit(BitR8(6, D))
      case 0x3 => Bit(BitR8(6, E))
      case 0x4 => Bit(BitR8(6, H))
      case 0x5 => Bit(BitR8(6, L))
      case 0x6 => Bit(BitHlAddr(6))
      case 0x7 => Bit(BitR8(6, A))
      case 0x8 => Bit(BitR8(7, B))
      case 0x9 => Bit(BitR8(7, Register.C))
      case 0xA => Bit(BitR8(7, D))
      case 0xB => Bit(BitR8(7, E))
      case 0xC => Bit(BitR8(7, H))
      case 0xD => Bit(BitR8(7, L))
      case 0xE => Bit(BitHlAddr(7))
      case 0xF => Bit(BitR8(7, A)))
    case 0x8 =>
      (match op & 0xF
      case 0x0 => Bit(ResR8(0, B))
      case 0x1 => Bit(ResR8(0, Register.C))
      case 0x2 => Bit(ResR8(0, D))
      case 0x3 => Bit(ResR8(0, E))
      case 0x4 => Bit(ResR8(0, H))
      case 0x5 => Bit(ResR8(0, L))
      case 0x6 => Bit(ResHlAddr(0))
      case 0x7 => Bit(ResR8(0, A))
      case 0x8 => Bit(ResR8(1, B))
      case 0x9 => Bit(ResR8(1, Register.C))
      case 0xA => Bit(ResR8(1, D))
      case 0xB => Bit(ResR8(1, E))
      case 0xC => Bit(ResR8(1, H))
      case 0xD => Bit(ResR8(1, L))
      case 0xE => Bit(ResHlAddr(1))
      case 0xF => Bit(ResR8(1, A)))
    case 0x9 =>
      (match op & 0xF
      case 0x0 => Bit(ResR8(2, B))
      case 0x1 => Bit(ResR8(2, Register.C))
      case 0x2 => Bit(ResR8(2, D))
      case 0x3 => Bit(ResR8(2, E))
      case 0x4 => Bit(ResR8(2, H))
      case 0x5 => Bit(ResR8(2, L))
      case 0x6 => Bit(ResHlAddr(2))
      case 0x7 => Bit(ResR8(2, A))
      case 0x8 => Bit(ResR8(3, B))
      case 0x9 => Bit(ResR8(3, Register.C))
      case 0xA => Bit(ResR8(3, D))
      case 0xB => Bit(ResR8(3, E))
      case 0xC => Bit(ResR8(3, H))
      case 0xD => Bit(ResR8(3, L))
      case 0xE => Bit(ResHlAddr(3))
      case 0xF => Bit(ResR8(3, A)))
    case 0xA =>
      (match op & 0xF
      case 0x0 => Bit(ResR8(4, B))
      case 0x1 => Bit(ResR8(4, Register.C))
      case 0x2 => Bit(ResR8(4, D))
      case 0x3 => Bit(ResR8(4, E))
      case 0x4 => Bit(ResR8(4, H))
      case 0x5 => Bit(ResR8(4, L))
      case 0x6 => Bit(ResHlAddr(4))
      case 0x7 => Bit(ResR8(4, A))
      case 0x8 => Bit(ResR8(5, B))
      case 0x9 => Bit(ResR8(5, Register.C))
      case 0xA => Bit(ResR8(5, D))
      case 0xB => Bit(ResR8(5, E))
      case 0xC => Bit(ResR8(5, H))
      case 0xD => Bit(ResR8(5, L))
      case 0xE => Bit(ResHlAddr(5))
      case 0xF => Bit(ResR8(5, A)))
    case 0xB =>
      (match op & 0xF
      case 0x0 => Bit(ResR8(6, B))
      case 0x1 => Bit(ResR8(6, Register.C))
      case 0x2 => Bit(ResR8(6, D))
      case 0x3 => Bit(ResR8(6, E))
      case 0x4 => Bit(ResR8(6, H))
      case 0x5 => Bit(ResR8(6, L))
      case 0x6 => Bit(ResHlAddr(6))
      case 0x7 => Bit(ResR8(6, A))
      case 0x8 => Bit(ResR8(7, B))
      case 0x9 => Bit(ResR8(7, Register.C))
      case 0xA => Bit(ResR8(7, D))
      case 0xB => Bit(ResR8(7, E))
      case 0xC => Bit(ResR8(7, H))
      case 0xD => Bit(ResR8(7, L))
      case 0xE => Bit(ResHlAddr(7))
      case 0xF => Bit(ResR8(7, A)))
    case 0xC =>
      (match op & 0xF
      case 0x0 => Bit(SetR8(0, B))
      case 0x1 => Bit(SetR8(0, Register.C))
      case 0x2 => Bit(SetR8(0, D))
      case 0x3 => Bit(SetR8(0, E))
      case 0x4 => Bit(SetR8(0, H))
      case 0x5 => Bit(SetR8(0, L))
      case 0x6 => Bit(SetHlAddr(0))
      case 0x7 => Bit(SetR8(0, A))
      case 0x8 => Bit(SetR8(1, B))
      case 0x9 => Bit(SetR8(1, Register.C))
      case 0xA => Bit(SetR8(1, D))
      case 0xB => Bit(SetR8(1, E))
      case 0xC => Bit(SetR8(1, H))
      case 0xD => Bit(SetR8(1, L))
      case 0xE => Bit(SetHlAddr(1))
      case 0xF => Bit(SetR8(1, A)))
    case 0xD =>
      (match op & 0xF
      case 0x0 => Bit(SetR8(2, B))
      case 0x1 => Bit(SetR8(2, Register.C))
      case 0x2 => Bit(SetR8(2, D))
      case 0x3 => Bit(SetR8(2, E))
      case 0x4 => Bit(SetR8(2, H))
      case 0x5 => Bit(SetR8(2, L))
      case 0x6 => Bit(SetHlAddr(2))
      case 0x7 => Bit(SetR8(2, A))
      case 0x8 => Bit(SetR8(3, B))
      case 0x9 => Bit(SetR8(3, Register.C))
      case 0xA => Bit(SetR8(3, D))
      case 0xB => Bit(SetR8(3, E))
      case 0xC => Bit(SetR8(3, H))
      case 0xD => Bit(SetR8(3, L))
      case 0xE => Bit(SetHlAddr(3))
      case 0xF => Bit(SetR8(3, A)))
    case 0xE =>
      (match op & 0xF
      case 0x0 => Bit(SetR8(4, B))
      case 0x1 => Bit(SetR8(4, Register.C))
      case 0x2 => Bit(SetR8(4, D))
      case 0x3 => Bit(SetR8(4, E))
      case 0x4 => Bit(SetR8(4, H))
      case 0x5 => Bit(SetR8(4, L))
      case 0x6 => Bit(SetHlAddr(4))
      case 0x7 => Bit(SetR8(4, A))
      case 0x8 => Bit(SetR8(5, B))
      case 0x9 => Bit(SetR8(5, Register.C))
      case 0xA => Bit(SetR8(5, D))
      case 0xB => Bit(SetR8(5, E))
      case 0xC => Bit(SetR8(5, H))
      case 0xD => Bit(SetR8(5, L))
      case 0xE => Bit(SetHlAddr(5))
      case 0xF => Bit(SetR8(5, A)))
    case 0xF =>
      (match op & 0xF
      case 0x0 => Bit(SetR8(6, B))
      case 0x1 => Bit(SetR8(6, Register.C))
      case 0x2 => Bit(SetR8(6, D))
      case 0x3 => Bit(SetR8(6, E))
      case 0x4 => Bit(SetR8(6, H))
      case 0x5 => Bit(SetR8(6, L))
      case 0x6 => Bit(SetHlAddr(6))
      case 0x7 => Bit(SetR8(6, A))
      case 0x8 => Bit(SetR8(7, B))
      case 0x9 => Bit(SetR8(7, Register.C))
      case 0xA => Bit(SetR8(7, D))
      case 0xB => Bit(SetR8(7, E))
      case 0xC => Bit(SetR8(7, H))
      case 0xD => Bit(SetR8(7, L))
      case 0xE => Bit(SetHlAddr(7))
      case 0xF => Bit(SetR8(7, A)))
  }

  /** two_byte_ins: the opcodes followed by one operand byte. */
  const TwoByteIns: set<Byte> := {
    0x06, 0x0E, 0x16, 0x18, 0x1E, 0x20, 0x26, 0x28, 0x2E, 0x30, 0x36, 0x38, 0x3E,
    0xC6, 0xCE, 0xD6, 0xDE, 0xE0, 0xE6, 0xE8, 0xEE, 0xF0, 0xF6, 0xF8, 0xFE }

  /** three_byte_ins: the opcodes followed by two operand bytes. */
  const ThreeByteIns: set<Byte> := {
    0x01, 0x08, 0x11, 0x21, 0x31, 0xC2, 0xC3, 0xC4, 0xCA, 0xCC, 0xCD, 0xD2, 0xD4,
    0xDA, 0xDC, 0xEA, 0xFA }

  /** How far step moves PC after an unprefixed opcode that did not move PC itself. */
  function Advance(op: Byte): (n: Word)
    ensures 1 <= n <= 3
    ensures n == 1 <==> op !in TwoByteIns && op !in ThreeByteIns
  {
    if op in TwoByteIns then 2 else if op in ThreeByteIns then 3 else 1
  }

  // ---------------------------------------------------------------- running an entry

  /** What the routine of an entry does to the machine, and its M-cycle cost. */
  function Exec(m: Machine, i: Instr): Semantics.Outcome {
    match i
    case Load(e) => ExecLoad(m, e)
    case LoadA(e) => ExecLoadA(m, e)
    case Arith(e) => ExecArith(m, e)
    case Wide(e) => ExecWide(m, e)
    case Stack(e) => ExecStack(m, e)
    case Bit(e) => ExecBit(m, e)
    case Jump(e) => ExecJump(m, e)
    case Nop => Semantics.Outcome(m, 1)
    case Di => Semantics.Di(m)
    case Ei => Semantics.Ei(m)
    case Stop => Semantics.Idle(m)
    case Halt => Semantics.Idle(m)
  }

  function ExecLoad(m: Machine, e: LoadEntry): Semantics.Outcome {
    match e
    case LdR8R8(r1, r2) => Semantics.LdR8R8(m, r1, r2)
    case LdR8N8(r) => Semantics.LdR8N8(m, r)
    case LdHlAddrR8(r) => Semantics.LdHlAddrR8(m, r)
    case LdHlAddrN8 => Semantics.LdHlAddrN8(m)
    case LdR8HlAddr(r) => Semantics.LdR8HlAddr(m, r)
    case LdR16AddrA(r) => Semantics.LdR16AddrA(m, r)
    case LdN16AddrA => Semantics.LdN16AddrA(m)
    case LdhN8AddrA => Semantics.LdhN8AddrA(m)
    case LdhCAddrA => Semantics.LdhCAddrA(m)
  }

  function ExecLoadA(m: Machine, e: LoadAEntry): Semantics.Outcome {
    match e
    case LdAR16Addr(r) => Semantics.LdAR16Addr(m, r)
    case LdAN16Addr => Semantics.LdAN16Addr(m)
    case LdhAN8Addr => Semantics.LdhAN8Addr(m)
    case LdhACAddr => Semantics.LdhACAddr(m)
    case LdHliAddrA => Semantics.LdHliAddrA(m)
    case LdHldAddrA => Semantics.LdHldAddrA(m)
    case LdAHld => Semantics.LdAHld(m)
    case LdAHli => Semantics.LdAHli(m)
  }

  function ExecArith(m: Machine, e: ArithEntry): Semantics.Outcome {
    match e
    case AluR8(op, r) => Semantics.AluR8(m, op, r)
    case AluHlAddr(op) => Semantics.AluHlAddr(m, op)
    case AluN8(op) => Semantics.AluN8(m, op)
    case DecR8(r) => Semantics.DecR8(m, r)
    case DecHlAddr => Semantics.DecHlAddr(m)
    case IncR8(r) => Semantics.IncR8(m, r)
    case IncHlAddr => Semantics.IncHlAddr(m)
    case Cpl => Semantics.Cpl(m)
    case Ccf => Semantics.Ccf(m)
    case Scf => Semantics.Scf(m)
    case Daa => Semantics.Daa(m)
  }

  function ExecWide(m: Machine, e: WideEntry): Semantics.Outcome {
    match e
    case LdR16N16(r) => Semantics.LdR16N16(m, r)
    case DecR16(r) => Semantics.DecR16(m, r)
    case IncR16(r) => Semantics.IncR16(m, r)
    case AddHlR16(r) => Semantics.AddHlR16(m, r)
    case AddHlSp => Semantics.AddHlSp(m)
    case AddSpE8 => Semantics.AddSpE8(m)
    case LdHlSpE8 => Semantics.LdHlSpE8(m)
  }

  function ExecStack(m: Machine, e: StackEntry): Semantics.Outcome {
    match e
    case DecSp => Semantics.DecSp(m)
    case IncSp => Semantics.IncSp(m)
    case PushR16(r) => Semantics.PushR16(m, r)
    case PopR16(r) => Semantics.PopR16(m, r)
    case LdN16AddrSp => Semantics.LdN16AddrSp(m)
    case LdSpN16Addr => Semantics.LdSpN16Addr(m)
    case LdSpHl => Semantics.LdSpHl(m)
  }

  function ExecBit(m: Machine, e: BitEntry): Semantics.Outcome {
    match e
    case BitR8(u, r) => Semantics.BitR8(m, u, r)
    case BitHlAddr(u) => Semantics.BitHlAddr(m, u)
    case ResR8(u, r) => Semantics.ResR8(m, u, r)
    case ResHlAddr(u) => Semantics.ResHlAddr(m, u)
    case SetR8(u, r) => Semantics.SetR8(m, u, r)
    case SetHlAddr(u) => Semantics.SetHlAddr(m, u)
    case ShiftR8(op, r) => Semantics.ShiftR8(m, op, r)
    case ShiftHlAddr(op) => Semantics.ShiftHlAddr(m, op)
    case RotateA(op) => Semantics.RotateA(m, op)
  }

  function ExecJump(m: Machine, e: JumpEntry): Semantics.Outcome {
    match e
    case JpN16 => Semantics.JpN16(m)
    case JpHl => Semantics.JpHl(m)
    case JpCc(cc) => Semantics.JpCc(m, cc)
    case JrE8 => Semantics.JrE8(m)
    case JrCc(cc) => Semantics.JrCc(m, cc)
    case CallN16 => Semantics.CallN16(m)
    case CallCc(cc) => Semantics.CallCc(m, cc)
    case Ret => Semantics.Ret(m)
    case Reti => Semantics.Reti(m)
    case RetCc(cc) => Semantics.RetCc(m, cc)
    case RstVec(vec) => Semantics.RstVec(m, vec)
  }

  /**
   * The entry step runs for the opcode `op` at PC, and how far it moves PC when
   * the routine did not: an unprefixed opcode by its length, and 0xCB followed
   * by `next` by 2.
   */
  function Lookup(op: Byte, next: Byte): (Instr, Word) {
    if op != 0xCB then (Decode(op), Advance(op)) else (DecodeCb(next), 2)
  }

  /** The entry step runs on a machine, and the advance it implies. */
  function Fetch(m: Machine): (Instr, Word) {
    Lookup(ReadByte(m, m.regs.pc), ReadByte(m, m.regs.pc + 1))
  }

  /**
   * The end of step, after the routine returned the outcome `o`: the clock takes
   * the routine's cycles; if the routine moved PC, the moved mark is cleared and
   * PC stays (the advance becomes 0), otherwise PC moves on by `advance`.
   */
  function Finish(o: Semantics.Outcome, advance: Word): (r: Semantics.Outcome)
    ensures !r.m.pcMoved && r.cycles == o.cycles && r.m.cycles == o.m.cycles + o.cycles
    ensures o.m.pcMoved ==> r.m.regs == o.m.regs
    ensures !o.m.pcMoved ==> r.m.regs == o.m.regs.(pc := o.m.regs.pc + advance)
    ensures r.m.bus == o.m.bus && r.m.ime == o.m.ime
  {
    if o.m.pcMoved then
      var m1 := AddCycles(SetPcMoved(o.m, false), o.cycles);
      Semantics.Outcome(SetReg16(m1, PC, o.m.regs.pc), o.cycles)
    else
      var m1 := AddCycles(o.m, o.cycles);
      Semantics.Outcome(SetReg16(m1, PC, o.m.regs.pc + advance), o.cycles)
  }

  /** One step of the CPU (step): the new machine and the cycles returned. */
  function StepSpec(m: Machine): (r: Semantics.Outcome)
    ensures !r.m.pcMoved
  {
    var f := Fetch(m);
    Finish(Exec(m, f.0), f.1)
  }

  // ---------------------------------------------------------------- kinds of entry

  // ---------------------------------------------------------------- the methods

  /** Runs the loads between registers and memory that do not involve A alone. */
  method ExecuteLoad(s: GameState, e: LoadEntry) returns (cost: nat)
    requires s.Valid()
    modifies s, s.wram, s.vram, s.oam, s.hram
    ensures s.Valid() && s.View() == ExecLoad(old(s.View()), e).m
    ensures cost == ExecLoad(old(s.View()), e).cycles
  {
    match e
    case LdR8R8(r1, r2) => cost := Instructions.LdR8R8(s, r1, r2);
    case LdR8N8(r) => cost := Instructions.LdR8N8(s, r);
    case LdHlAddrR8(r) => cost := Instructions.LdHlAddrR8(s, r);
    case LdHlAddrN8 => cost := Instructions.LdHlAddrN8(s);
    case LdR8HlAddr(r) => cost := Instructions.LdR8HlAddr(s, r);
    case LdR16AddrA(r) => cost := Instructions.LdR16AddrA(s, r);
    case LdN16AddrA => cost := Instructions.LdN16AddrA(s);
    case LdhN8AddrA => cost := Instructions.LdhN8AddrA(s);
    case LdhCAddrA => cost := Instructions.LdhCAddrA(s);
  }

  /** Runs the loads into A, and the loads through HL that step HL. */
  method ExecuteLoadA(s: GameState, e: LoadAEntry) returns (cost: nat)
    requires s.Valid()
    modifies s, s.wram, s.vram, s.oam, s.hram
    ensures s.Valid() && s.View() == ExecLoadA(old(s.View()), e).m
    ensures cost == ExecLoadA(old(s.View()), e).cycles
  {
    match e
    case LdAR16Addr(r) => cost := Instructions.LdAR16Addr(s, r);
    case LdAN16Addr => cost := Instructions.LdAN16Addr(s);
    case LdhAN8Addr => cost := Instructions.LdhAN8Addr(s);
    case LdhACAddr => cost := Instructions.LdhACAddr(s);
    case LdHliAddrA => cost := Instructions.LdHliAddrA(s);
    case LdHldAddrA => cost := Instructions.LdHldAddrA(s);
    case LdAHld => cost := Instructions.LdAHld(s);
    case LdAHli => cost := Instructions.LdAHli(s);
  }

  /** Runs the 8-bit arithmetic and logic, and the flag operations. */
  method ExecuteArith(s: GameState, e: ArithEntry) returns (cost: nat)
    requires s.Valid()
    modifies s, s.wram, s.vram, s.oam, s.hram
    ensures s.Valid() && s.View() == ExecArith(old(s.View()), e).m
    ensures cost == ExecArith(old(s.View()), e).cycles
  {
    match e
    case AluR8(op, r) => cost := Instructions.AluR8(s, op, r);
    case AluHlAddr(op) => cost := Instructions.AluHlAddr(s, op);
    case AluN8(op) => cost := Instructions.AluN8(s, op);
    case DecR8(r) => cost := Instructions.DecR8(s, r);
    case DecHlAddr => cost := Instructions.DecHlAddr(s);
    case IncR8(r) => cost := Instructions.IncR8(s, r);
    case IncHlAddr => cost := Instructions.IncHlAddr(s);
    case Cpl => cost := Instructions.Cpl(s);
    case Ccf => cost := Instructions.Ccf(s);
    case Scf => cost := Instructions.Scf(s);
    case Daa => cost := Instructions.Daa(s);
  }

  /** Runs the 16-bit loads and arithmetic outside the stack. */
  method ExecuteWide(s: GameState, e: WideEntry) returns (cost: nat)
    requires s.Valid()
    modifies s, s.wram, s.vram, s.oam, s.hram
    ensures s.Valid() && s.View() == ExecWide(old(s.View()), e).m
    ensures cost == ExecWide(old(s.View()), e).cycles
  {
    match e
    case LdR16N16(r) => cost := Instructions.LdR16N16(s, r);
    case DecR16(r) => cost := Instructions.DecR16(s, r);
    case IncR16(r) => cost := Instructions.IncR16(s, r);
    case AddHlR16(r) => cost := Instructions.AddHlR16(s, r);
    case AddHlSp => cost := Instructions.AddHlSp(s);
    case AddSpE8 => cost := Instructions.AddSpE8(s);
    case LdHlSpE8 => cost := Instructions.LdHlSpE8(s);
  }

  /** Runs the stack pointer operations. */
  method ExecuteStack(s: GameState, e: StackEntry) returns (cost: nat)
    requires s.Valid()
    modifies s, s.wram, s.vram, s.oam, s.hram
    ensures s.Valid() && s.View() == ExecStack(old(s.View()), e).m
    ensures cost == ExecStack(old(s.View()), e).cycles
  {
    match e
    case DecSp => cost := Instructions.DecSp(s);
    case IncSp => cost := Instructions.IncSp(s);
    case PushR16(r) => cost := Instructions.PushR16(s, r);
    case PopR16(r) => cost := Instructions.PopR16(s, r);
    case LdN16AddrSp => cost := Instructions.LdN16AddrSp(s);
    case LdSpN16Addr => cost := Instructions.LdSpN16Addr(s);
    case LdSpHl => cost := Instructions.LdSpHl(s);
  }

  /** Runs the bit tests, resets and sets, and the rotates and shifts. */
  method ExecuteBit(s: GameState, e: BitEntry) returns (cost: nat)
    requires s.Valid()
    modifies s, s.wram, s.vram, s.oam, s.hram
    ensures s.Valid() && s.View() == ExecBit(old(s.View()), e).m
    ensures cost == ExecBit(old(s.View()), e).cycles
  {
    match e
    case BitR8(u, r) => cost := Instructions.BitR8(s, u, r);
    case BitHlAddr(u) => cost := Instructions.BitHlAddr(s, u);
    case ResR8(u, r) => cost := Instructions.ResR8(s, u, r);
    case ResHlAddr(u) => cost := Instructions.ResHlAddr(s, u);
    case SetR8(u, r) => cost := Instructions.SetR8(s, u, r);
    case SetHlAddr(u) => cost := Instructions.SetHlAddr(s, u);
    case ShiftR8(op, r) => cost := Instructions.ShiftR8(s, op, r);
    case ShiftHlAddr(op) => cost := Instructions.ShiftHlAddr(s, op);
    case RotateA(op) => cost := Instructions.RotateA(s, op);
  }

  /** Runs the jumps, calls, returns and restarts. */
  method ExecuteJump(s: GameState, e: JumpEntry) returns (cost: nat)
    requires s.Valid()
    modifies s, s.wram, s.vram, s.oam, s.hram
    ensures s.Valid() && s.View() == ExecJump(old(s.View()), e).m
    ensures cost == ExecJump(old(s.View()), e).cycles
  {
    match e
    case JpN16 => cost := Instructions.JpN16(s);
    case JpHl => cost := Instructions.JpHl(s);
    case JpCc(cc) => cost := Instructions.JpCc(s, cc);
    case JrE8 => cost := Instructions.JrE8(s);
    case JrCc(cc) => cost := Instructions.JrCc(s, cc);
    case CallN16 => cost := Instructions.CallN16(s);
    case CallCc(cc) => cost := Instructions.CallCc(s, cc);
    case Ret => cost := Instructions.Ret(s);
    case Reti => cost := Instructions.Reti(s);
    case RetCc(cc) => cost := Instructions.RetCc(s, cc);
    case RstVec(vec) => cost := Instructions.RstVec(s, vec);
  }

  /** Calls the routine of an entry on the game state. */
  method Execute(s: GameState, i: Instr) returns (cost: nat)
    requires s.Valid()
    modifies s, s.wram, s.vram, s.oam, s.hram
    ensures s.Valid() && s.View() == Exec(old(s.View()), i).m
    ensures cost == Exec(old(s.View()), i).cycles
  {
    match i
    case Load(e) => cost := ExecuteLoad(s, e);
    case LoadA(e) => cost := ExecuteLoadA(s, e);
    case Arith(e) => cost := ExecuteArith(s, e);
    case Wide(e) => cost := ExecuteWide(s, e);
    case Stack(e) => cost := ExecuteStack(s, e);
    case Bit(e) => cost := ExecuteBit(s, e);
    case Jump(e) => cost := ExecuteJump(s, e);
    case Nop => cost := 1;
    case Di => cost := Instructions.Di(s);
    case Ei => cost := Instructions.Ei(s);
    case Stop => cost := Instructions.Stop(s);
    case Halt => cost := Instructions.Halt(s);
  }

  /** The length step gives an unprefixed opcode, looked up in the two sets. */
  method OpcodeLength(op: Byte) returns (advance: Word)
    ensures advance == Advance(op)
  {
    advance := 1;
    if op in TwoByteIns {
      advance := 2;
    } else if op in ThreeByteIns {
      advance := 3;
    }
  }

  /** The table lookup of step, once the opcode (and, after 0xCB, the next byte) is read. */
  method LookupEntry(op: Byte, next: Byte) returns (i: Instr, advance: Word)
    ensures (i, advance) == Lookup(op, next)
  {
    if op != 0xCB {
      advance := OpcodeLength(op);
      i := Decode(op);
    } else {
      i := DecodeCb(next);
      advance := 2;
    }
  }

  /** The end of step: see Finish. */
  method FinishStep(s: GameState, cycles: nat, advance: Word)
    requires s.Valid()
    modifies s
    ensures s.Valid() && s.View() == Finish(Semantics.Outcome(old(s.View()), cycles), advance).m
  {
    var pc := s.regs.pc;
    if s.pcMoved {
      s.SetPcMoved(false);
      s.UpdateClock(cycles);
      s.SetRegister16(PC, pc);
    } else {
      s.UpdateClock(cycles);
      s.SetRegister16(PC, pc + advance);
    }
  }

  /** Runs entry `i`, then ends the step with the given advance. */
  method RunEntry(s: GameState, i: Instr, advance: Word) returns (cycles: nat)
    requires s.Valid()
    modifies s, s.wram, s.vram, s.oam, s.hram
    ensures s.Valid() && s.View() == Finish(Exec(old(s.View()), i), advance).m
    ensures cycles == Exec(old(s.View()), i).cycles
  {
    ghost var o := Exec(s.View(), i);
    cycles := Execute(s, i);
    assert Semantics.Outcome(s.View(), cycles) == o;
    FinishStep(s, cycles, advance);
  }

  /** The opcode at PC and the byte after it, as step reads them. */
  method ReadOpcode(s: GameState) returns (op: Byte, next: Byte)
    requires s.Valid()
    ensures op == ReadByte(s.View(), s.View().regs.pc)
    ensures next == ReadByte(s.View(), s.View().regs.pc + 1)
  {
    var currPc := s.regs.pc;
    op := s.Read(currPc);
    next := s.Read(currPc + 1);
  }

  /** step: runs the instruction at PC and moves PC past it unless it moved PC itself. */
  method Step(s: GameState) returns (cycles: nat)
    requires s.Valid()
    modifies s, s.wram, s.vram, s.oam, s.hram
    ensures s.Valid() && s.View() == StepSpec(old(s.View())).m
    ensures cycles == StepSpec(old(s.View())).cycles
  {
    var op, next := ReadOpcode(s);
    var i, advance := LookupEntry(op, next);
    cycles := RunEntry(s, i, advance);
  }
}
