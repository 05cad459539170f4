/**
 * The instruction routines of the emulator as functions from the state before
 * to the state after, each with the M-cycle cost the routine returns. Every
 * function takes the same steps as its routine, in the same order, through the
 * accessors of StateModel (set_register8, set_flags, write, ...): where a routine
 * reads the state again after changing it, so does the function. Plain `+`/`-`
 * on u8/u16, which panics in a debug build, is taken with its wrapping result.
 */
module Semantics {
  import opened Bits
  import opened StateModel
  import opened Alu

  /** The state after a routine and the cost it returns. */
  datatype Outcome = Outcome(m: Machine, cycles: nat)

  /** The eight ALU operations of the 0x80-0xBF block and the n8 forms, in opcode order. */
  datatype AluOp = Add | Adc | Sub | Sbc | And | Xor | Or | Cp

  /** The eight rotate and shift operations of the CB block 0x00-0x3F, in opcode order. */
  datatype ShiftOp = Rlc | Rrc | Rl | Rr | Sla | Sra | Swap | Srl

  predicate IsLogic(op: AluOp) {
    op == And || op == Xor || op == Or
  }

  predicate IsRotate(op: ShiftOp) {
    op == Rlc || op == Rrc || op == Rl || op == Rr
  }

  // ---------------------------------------------------------------- operands

  function HlOf(m: Machine): Word {
    m.regs.Get16(HL)
  }

  /** The byte after the opcode. */
  function Imm8(m: Machine): Byte {
    ReadByte(m, m.regs.pc + 1)
  }

  /** The little-endian word after the opcode. */
  function Imm16(m: Machine): Word {
    Join(ReadByte(m, m.regs.pc + 1), ReadByte(m, m.regs.pc + 2))
  }

  /** Whether a condition code holds for the flags (the `matches!` chains of the conditional routines). */
  predicate Condition(fl: Flags, cc: CC) {
    match cc
    case Z => fl.z
    case NZ => !fl.z
    case C => fl.c
    case NC => !fl.c
  }

  // ---------------------------------------------------------------- loads

  function LdR8R8(m: Machine, r1: Register, r2: Register): Outcome {
    Outcome(SetReg8(m, r1, m.regs.Get8(r2)), 1)
  }

  function LdR8N8(m: Machine, r: Register): Outcome {
    Outcome(SetReg8(m, r, Imm8(m)), 2)
  }

  function LdR16N16(m: Machine, r: Register): Outcome {
    Outcome(SetReg16(m, r, Imm16(m)), 2)
  }

  function LdHlAddrR8(m: Machine, r: Register): Outcome {
    Outcome(WriteByte(m, m.regs.Get8(r), HlOf(m)), 2)
  }

  function LdHlAddrN8(m: Machine): Outcome {
    Outcome(WriteByte(m, Imm8(m), HlOf(m)), 3)
  }

  function LdR8HlAddr(m: Machine, r: Register): Outcome {
    Outcome(SetReg8(m, r, ReadByte(m, HlOf(m))), 2)
  }

  function LdR16AddrA(m: Machine, r: Register): Outcome {
    Outcome(WriteByte(m, m.regs.a, m.regs.Get16(r)), 2)
  }

  function LdN16AddrA(m: Machine): Outcome {
    Outcome(WriteByte(m, m.regs.a, Imm16(m)), 4)
  }

  function LdhN8AddrA(m: Machine): Outcome {
    Outcome(WriteByte(m, m.regs.a, 0xFF00 | Imm8(m) as Word), 3)
  }

  function LdhCAddrA(m: Machine): Outcome {
    Outcome(WriteByte(m, m.regs.a, 0xFF00 + m.regs.c as Word), 2)
  }

  function LdAR16Addr(m: Machine, r: Register): Outcome {
    Outcome(SetReg8(m, A, ReadByte(m, m.regs.Get16(r))), 2)
  }

  function LdAN16Addr(m: Machine): Outcome {
    Outcome(SetReg8(m, A, ReadByte(m, Imm16(m))), 4)
  }

  function LdhAN8Addr(m: Machine): Outcome {
    Outcome(SetReg8(m, A, ReadByte(m, 0xFF00 | Imm8(m) as Word)), 3)
  }

  function LdhACAddr(m: Machine): Outcome {
    Outcome(SetReg8(m, A, ReadByte(m, m.regs.c as Word + 0xFF00)), 2)
  }

  /** LD (HL+),A: the store of ld_hladdr_r8, then HL (read again) plus one. */
  function LdHliAddrA(m: Machine): Outcome {
    var m1 := LdHlAddrR8(m, A).m;
    Outcome(SetReg16(m1, HL, HlOf(m1) + 1), 2)
  }

  function LdHldAddrA(m: Machine): Outcome {
    var m1 := LdHlAddrR8(m, A).m;
    Outcome(SetReg16(m1, HL, HlOf(m1) - 1), 2)
  }

  function LdAHld(m: Machine): Outcome {
    var m1 := LdAR16Addr(m, HL).m;
    Outcome(SetReg16(m1, HL, HlOf(m1) - 1), 2)
  }

  function LdAHli(m: Machine): Outcome {
    var m1 := LdAR16Addr(m, HL).m;
    Outcome(SetReg16(m1, HL, HlOf(m1) + 1), 2)
  }

  // ---------------------------------------------------------------- 8-bit arithmetic and logic

  /** The carry-in of general_add_a_n8 and general_sub_a_n8: C when the carry is enabled, else 0. */
  function CarryIn(m: Machine, on: bool): Byte {
    if on && FlagsOf(m).c then 1 else 0
  }

  /** general_add_a_n8: A takes the sum; the carry-in is C only for ADC. */
  function GeneralAddA(m: Machine, val: Byte, carryOn: bool): Machine {
    var c := CarryIn(m, carryOn);
    var r := Add8(m.regs.a, val, c);
    var m1 := SetReg8(m, A, r.value);
    SetFlagsOf(m1, Flags(r.value == 0, false, r.half, r.carry))
  }

  /** general_sub_a_n8: A takes `A - val` unless the result is discarded (CP); N is set. */
  function GeneralSubA(m: Machine, val: Byte, borrowOn: bool, discard: bool): Machine {
    var c := CarryIn(m, borrowOn);
    var r := Sub8(m.regs.a, val, c);
    var m1 := if !discard then SetReg8(m, A, r.value) else m;
    SetFlagsOf(m1, Flags(r.value == 0, true, r.half, r.carry))
  }

  /** The five arithmetic operations, each through its general routine. */
  function ArithA(m: Machine, op: AluOp, val: Byte): (m': Machine)
    requires !IsLogic(op)
    ensures m'.regs.pc == m.regs.pc && m'.regs.sp == m.regs.sp && m'.pcMoved == m.pcMoved
    ensures m'.bus == m.bus && m'.cycles == m.cycles && m'.ime == m.ime
  {
    match op
    case Add => GeneralAddA(m, val, false)
    case Adc => GeneralAddA(m, val, true)
    case Sub => GeneralSubA(m, val, false, false)
    case Sbc => GeneralSubA(m, val, true, false)
    case Cp => GeneralSubA(m, val, false, true)
  }

  /** general_and_a and general_or_a: the flags are set here; the caller stores the result. */
  function LogicA(m: Machine, op: AluOp, val: Byte): (Machine, Byte)
    requires IsLogic(op)
  {
    var res := LogicValue(op, m.regs.a, val);
    (SetFlagsOf(m, Flags(res == 0, false, op == And, false)), res)
  }

  function LogicValue(op: AluOp, a: Byte, val: Byte): Byte
    requires IsLogic(op)
  {
    match op
    case And => a & val
    case Xor => a ^ val
    case Or => a | val
  }

  /** add_a_r8, adc_a_r8, sub_a_r8, sbc_a_r8, and_a_r8, xor_a_r8, or_a_r8, cp_a_r8. */
  function AluR8(m: Machine, op: AluOp, r: Register): Outcome {
    var val := m.regs.Get8(r);
    if IsLogic(op) then
      var (m1, res) := LogicA(m, op, val);
      Outcome(SetReg8(m1, A, res), 1)
    else
      Outcome(ArithA(m, op, val), 1)
  }

  /** The (HL) forms: the logic operations store their result at HL and leave A alone. */
  function AluHlAddr(m: Machine, op: AluOp): Outcome {
    var addr := HlOf(m);
    var val := ReadByte(m, addr);
    if IsLogic(op) then
      var (m1, res) := LogicA(m, op, val);
      Outcome(WriteByte(m1, res, addr), 2)
    else
      Outcome(ArithA(m, op, val), 2)
  }

  /** The n8 forms. */
  function AluN8(m: Machine, op: AluOp): Outcome {
    var val := Imm8(m);
    if IsLogic(op) then
      var (m1, res) := LogicA(m, op, val);
      Outcome(SetReg8(m1, A, res), 2)
    else
      Outcome(ArithA(m, op, val), 2)
  }

  // ---------------------------------------------------------------- increments and decrements

  /** dec_r8: the register is stored first, so C is read back from the state after the store. */
  function DecR8(m: Machine, r: Register): Outcome {
    var d := Sub8(m.regs.Get8(r), 1, 0);
    var m1 := SetReg8(m, r, d.value);
    Outcome(SetFlagsOf(m1, Flags(d.value == 0, true, d.half, FlagsOf(m1).c)), 1)
  }

  function DecHlAddr(m: Machine): Outcome {
    var addr := HlOf(m);
    var d := Sub8(ReadByte(m, addr), 1, 0);
    var m1 := WriteByte(m, d.value, addr);
    Outcome(SetFlagsOf(m1, Flags(d.value == 0, true, d.half, FlagsOf(m1).c)), 3)
  }

  function DecR16(m: Machine, r: Register): Outcome {
    Outcome(SetReg16(m, r, m.regs.Get16(r) - 1), 2)
  }

  function IncR8(m: Machine, r: Register): Outcome {
    var s := Add8(m.regs.Get8(r), 1, 0);
    var m1 := SetReg8(m, r, s.value);
    Outcome(SetFlagsOf(m1, Flags(s.value == 0, false, s.half, FlagsOf(m1).c)), 1)
  }

  function IncHlAddr(m: Machine): Outcome {
    var addr := HlOf(m);
    var s := Add8(ReadByte(m, addr), 1, 0);
    var m1 := WriteByte(m, s.value, addr);
    Outcome(SetFlagsOf(m1, Flags(s.value == 0, false, s.half, FlagsOf(m1).c)), 3)
  }

  function IncR16(m: Machine, r: Register): Outcome {
    Outcome(SetReg16(m, r, m.regs.Get16(r) + 1), 2)
  }

  // ---------------------------------------------------------------- 16-bit arithmetic

  /** add_hl_r16: Z is read back after HL is stored. */
  function AddHlR16(m: Machine, r: Register): Outcome {
    var s := Add16(HlOf(m), m.regs.Get16(r));
    var m1 := SetReg16(m, HL, s.value);
    Outcome(SetFlagsOf(m1, Flags(FlagsOf(m1).z, false, s.half, s.carry)), 2)
  }

  function AddHlSp(m: Machine): Outcome {
    Outcome(AddHlR16(m, SP).m, 2)
  }

  function AddSpE8(m: Machine): Outcome {
    var e := Imm8(m);
    var s := Add16Special(m.regs.sp, SignExtend(e));
    var m1 := SetReg16(m, SP, s.value);
    Outcome(SetFlagsOf(m1, Flags(false, false, s.half, s.carry)), 4)
  }

  /** ld_hl_spe8: the sum goes to SP as well as to HL. */
  function LdHlSpE8(m: Machine): Outcome {
    var e := Imm8(m);
    var s := Add16Special(m.regs.sp, SignExtend(e));
    var m1 := SetReg16(SetReg16(m, SP, s.value), HL, s.value);
    Outcome(SetFlagsOf(m1, Flags(false, false, s.half, s.carry)), 3)
  }

  // ---------------------------------------------------------------- flag and accumulator operations

  function Cpl(m: Machine): Outcome {
    var m1 := SetReg8(m, A, !m.regs.a);
    var was := FlagsOf(m1);
    Outcome(SetFlagsOf(m1, Flags(was.z, true, true, was.c)), 1)
  }

  function Ccf(m: Machine): Outcome {
    var was := FlagsOf(m);
    Outcome(SetFlagsOf(m, Flags(was.z, false, false, !was.c)), 1)
  }

  function Scf(m: Machine): Outcome {
    var was := FlagsOf(m);
    Outcome(SetFlagsOf(m, Flags(was.z, false, false, true)), 1)
  }

  /** The correction daa applies to A, and whether it sets C. */
  function DaaAdjustment(fl: Flags, a: Byte): (Byte, bool) {
    if fl.n then
      ((if fl.h then 0x06 else 0) + (if fl.c then 0x60 else 0), fl.c)
    else
      ((if fl.h || a & 0x0F > 0x09 then 0x06 else 0) + (if fl.c || a > 0x99 then 0x60 else 0),
       fl.c || a > 0x99)
  }

  /** The value daa leaves in A: the adjustment subtracted, in both branches. */
  function DaaValue(fl: Flags, a: Byte): Byte {
    a - DaaAdjustment(fl, a).0
  }

  /** daa: Z keeps its old value unless the result is 0; C is the adjustment's carry. */
  function Daa(m: Machine): Outcome {
    var fl := FlagsOf(m);
    var result := DaaValue(fl, m.regs.a);
    var m1 := SetReg8(m, A, result);
    Outcome(SetFlagsOf(m1, Flags(fl.z || result == 0, fl.n, false, DaaAdjustment(fl, m.regs.a).1)), 1)
  }

  // ---------------------------------------------------------------- bit operations

  /** `1 << u` on u8. */
  function BitMask(u: Byte): Byte
    requires u < 8
  {
    1 << u
  }

  function BitR8(m: Machine, u: Byte, r: Register): Outcome
    requires u < 8
  {
    var zero := m.regs.Get8(r) & BitMask(u) == 0;
    Outcome(SetFlagsOf(m, Flags(zero, false, true, FlagsOf(m).c)), 2)
  }

  function BitHlAddr(m: Machine, u: Byte): Outcome
    requires u < 8
  {
    var zero := ReadByte(m, HlOf(m)) & BitMask(u) == 0;
    Outcome(SetFlagsOf(m, Flags(zero, false, true, FlagsOf(m).c)), 3)
  }

  function ResR8(m: Machine, u: Byte, r: Register): Outcome
    requires u < 8
  {
    Outcome(SetReg8(m, r, m.regs.Get8(r) & !BitMask(u)), 2)
  }

  function ResHlAddr(m: Machine, u: Byte): Outcome
    requires u < 8
  {
    var addr := HlOf(m);
    Outcome(WriteByte(m, ReadByte(m, addr) & !BitMask(u), addr), 4)
  }

  function SetR8(m: Machine, u: Byte, r: Register): Outcome
    requires u < 8
  {
    Outcome(SetReg8(m, r, m.regs.Get8(r) | BitMask(u)), 2)
  }

  function SetHlAddr(m: Machine, u: Byte): Outcome
    requires u < 8
  {
    var addr := HlOf(m);
    Outcome(WriteByte(m, ReadByte(m, addr) | BitMask(u), addr), 4)
  }

  // ---------------------------------------------------------------- rotates and shifts

  /** The result of each rotate or shift, with the old C as input. */
  function ShiftResult(op: ShiftOp, val: Byte, oldC: bool): Byte {
    var carryIn: Byte := if oldC then 1 else 0;
    match op
    case Rl => (val << 1) | carryIn
    case Rlc => (val << 1) | (val >> 7)
    case Rr => (val >> 1) | (carryIn << 7)
    case Rrc => (val >> 1) | ((val & 1) << 7)
    case Sla => val << 1
    case Sra => (val >> 1) | (val & 0x80)
    case Srl => val >> 1
    case Swap => (val << 4) | (val >> 4)
  }

  /** The new C of each rotate or shift. */
  function ShiftCarry(op: ShiftOp, val: Byte): bool {
    match op
    case Rl | Rlc | Sla => val >> 7 == 1
    case Rr | Rrc | Sra | Srl => val & 1 == 1
    case Swap => false
  }

  /**
   * general_rl, general_rlc, general_rr, general_rrc, general_sla, general_sra,
   * general_srl and swap_general: the flags are set here and the result returned.
   * Only the four rotates take `checkZero`; the shifts always test for zero.
   */
  function GeneralShift(m: Machine, op: ShiftOp, val: Byte, checkZero: bool): (r: (Machine, Byte))
    ensures r.0.regs.pc == m.regs.pc && r.0.regs.sp == m.regs.sp && r.0.pcMoved == m.pcMoved
    ensures r.0.bus == m.bus && r.0.cycles == m.cycles && r.0.ime == m.ime
  {
    var res := ShiftResult(op, val, FlagsOf(m).c);
    var z := if IsRotate(op) then res == 0 && checkZero else res == 0;
    (SetFlagsOf(m, Flags(z, false, false, ShiftCarry(op, val))), res)
  }

  /** rl_r8, rlc_r8, rr_r8, rrc_r8, sla_r8, sra_r8, srl_r8, swap_r8. */
  function ShiftR8(m: Machine, op: ShiftOp, r: Register): Outcome {
    var (m1, res) := GeneralShift(m, op, m.regs.Get8(r), true);
    Outcome(SetReg8(m1, r, res), 2)
  }

  /** The (HL) forms of the CB rotates and shifts. */
  function ShiftHlAddr(m: Machine, op: ShiftOp): Outcome {
    var addr := HlOf(m);
    var (m1, res) := GeneralShift(m, op, ReadByte(m, addr), true);
    Outcome(WriteByte(m1, res, addr), 4)
  }

  /** rla, rlca, rra, rrca: the rotates of A, which never set Z. */
  function RotateA(m: Machine, op: ShiftOp): Outcome
    requires IsRotate(op)
  {
    var (m1, res) := GeneralShift(m, op, m.regs.a, false);
    Outcome(SetReg8(m1, A, res), 1)
  }

  // ---------------------------------------------------------------- stack

  function DecSp(m: Machine): Outcome {
    Outcome(SetReg16(m, SP, m.regs.sp - 1), 2)
  }

  function IncSp(m: Machine): Outcome {
    Outcome(SetReg16(m, SP, m.regs.sp + 1), 2)
  }

  /** The push sequence shared by push_r16, call_n16, rst_vec and interrupt_handler. */
  function PushWord(m: Machine, v: Word): Machine {
    var m1 := DecSp(m).m;
    var m2 := WriteByte(m1, High(v), m1.regs.sp);
    var m3 := DecSp(m2).m;
    WriteByte(m3, Low(v), m3.regs.sp)
  }

  function PushR16(m: Machine, r: Register): Outcome {
    Outcome(PushWord(m, m.regs.Get16(r)), 4)
  }

  /** pop_r16: for AF the low byte goes to F unmasked. */
  function PopR16(m: Machine, r: Register): Outcome {
    var lsb := ReadByte(m, m.regs.sp);
    var m1 := IncSp(m).m;
    var msb := ReadByte(m1, m1.regs.sp);
    var m2 := IncSp(m1).m;
    Outcome(SetReg16(m2, r, Join(lsb, msb)), 3)
  }

  function LdN16AddrSp(m: Machine): Outcome {
    var addr := Imm16(m);
    var sp := m.regs.sp;
    var m1 := WriteByte(m, Low(sp), addr);
    Outcome(WriteByte(m1, High(sp), addr + 1), 5)
  }

  /** ld_sp_n16addr, which loads the immediate word itself into SP. */
  function LdSpN16Addr(m: Machine): Outcome {
    Outcome(SetReg16(m, SP, Imm16(m)), 3)
  }

  function LdSpHl(m: Machine): Outcome {
    Outcome(SetReg16(m, SP, HlOf(m)), 2)
  }

  // ---------------------------------------------------------------- jumps, calls and returns

  function JpN16(m: Machine): Outcome {
    var target := Imm16(m);
    Outcome(SetPcMoved(SetReg16(m, PC, target), true), 4)
  }

  function JpHl(m: Machine): Outcome {
    Outcome(SetPcMoved(SetReg16(m, PC, HlOf(m)), true), 1)
  }

  function JpCc(m: Machine, cc: CC): Outcome {
    if Condition(FlagsOf(m), cc) then Outcome(JpN16(m).m, 4) else Outcome(m, 3)
  }

  /** jr_e8: the target is the address after the instruction plus the signed offset, wrapped. */
  function JrE8(m: Machine): Outcome {
    var target := m.regs.pc + 2 + SignExtend(Imm8(m));
    Outcome(SetPcMoved(SetReg16(m, PC, target), true), 3)
  }

  function JrCc(m: Machine, cc: CC): Outcome {
    if Condition(FlagsOf(m), cc) then Outcome(JrE8(m).m, 3) else Outcome(m, 2)
  }

  /** call_n16: push the address after the call, then read the target (after the pushes) and jump. */
  function CallN16(m: Machine): Outcome {
    var m1 := PushWord(m, m.regs.pc + 3);
    Outcome(JpN16(m1).m, 6)
  }

  function CallCc(m: Machine, cc: CC): Outcome {
    if Condition(FlagsOf(m), cc) then Outcome(CallN16(m).m, 6) else Outcome(m, 3)
  }

  function Ret(m: Machine): Outcome {
    var m1 := PopR16(m, PC).m;
    Outcome(SetPcMoved(m1, true), 4)
  }

  function Reti(m: Machine): Outcome {
    var m1 := PopR16(SetIme(m, true), PC).m;
    Outcome(SetPcMoved(m1, true), 4)
  }

  function RetCc(m: Machine, cc: CC): Outcome {
    if Condition(FlagsOf(m), cc) then Outcome(Ret(m).m, 5) else Outcome(m, 2)
  }

  function RstVec(m: Machine, vec: Byte): Outcome {
    var m1 := PushWord(m, m.regs.pc + 1);
    Outcome(SetPcMoved(SetReg16(m1, PC, Join(vec, 0)), true), 4)
  }

  // ---------------------------------------------------------------- control

  function Di(m: Machine): Outcome {
    Outcome(SetIme(m, false), 1)
  }

  function Ei(m: Machine): Outcome {
    Outcome(SetIme(m, true), 1)
  }

  /** What both stop and halt do: nothing, at no cost. */
  function Idle(m: Machine): Outcome {
    Outcome(m, 0)
  }

  // ---------------------------------------------------------------- interrupt dispatch

  /** The IF bit interrupt_handler serves and its vector: the first set bit of bits 0-3, else the joypad. */
  function PendingInterrupt(iflag: Byte): (Byte, Word) {
    if iflag & IntVBlank != 0 then (IntVBlank, 0x0040)
    else if iflag & IntLcd != 0 then (IntLcd, 0x0048)
    else if iflag & IntTimer != 0 then (IntTimer, 0x0050)
    else if iflag & IntSerial != 0 then (IntSerial, 0x0058)
    else (IntJoypad, 0x0060)
  }

  /** The test of interrupt_handler, `i_flag << 3 != 0` on u8. */
  predicate AnyPending(iflag: Byte) {
    iflag << 3 != 0
  }

  /** IF with the served bit cleared. */
  function Acknowledge(iflag: Byte, mask: Byte): Byte {
    iflag & !mask
  }

  /**
   * interrupt_handler: when any of IF bits 0-4 is set, IME is cleared, the
   * served bit is cleared in IF, the current PC is pushed, and the handler
   * jumps to the vector with pc_moved set and 5 cycles added. IME and IE are
   * not consulted.
   */
  function InterruptHandler(m: Machine): Machine {
    var iflag := ReadByte(m, 0xFF0F);
    if AnyPending(iflag) then
      var m1 := SetIme(m, false);
      var p := PendingInterrupt(iflag);
      var m2 := WriteByte(m1, Acknowledge(iflag, p.0), 0xFF0F);
      var m3 := PushWord(m2, m2.regs.pc);
      AddCycles(SetPcMoved(SetReg16(m3, PC, p.1), true), 5)
    else
      m
  }
}
