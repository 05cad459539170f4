/**
 * What the instruction routines promise, stated over the Semantics functions:
 * the flag formulas, what each routine leaves alone, the stack layout and its
 * round trips, the branch conditions and costs, and the interrupt priority.
 * Where the routines differ from the SM83 they are described as they are.
 *
 * Most properties are proved in two steps: a lemma about the whole state that
 * says which helper result lands in which register, and the contract of the
 * helper (Alu) or a lemma about plain bytes that says what that result is.
 */
module InstructionProps {
  import opened Bits
  import opened StateModel
  import opened Alu
  import opened Semantics

  /** Only A and F may differ between the two states; the bus and the other registers agree. */
  predicate OnlyAF(m: Machine, m': Machine) {
    m'.bus == m.bus && m'.regs == m.regs.(a := m'.regs.a, f := m'.regs.f)
    && m'.ime == m.ime && m'.pcMoved == m.pcMoved && m'.cycles == m.cycles
  }

  /** Only F may differ. */
  predicate OnlyF(m: Machine, m': Machine) {
    m'.bus == m.bus && m'.regs == m.regs.(f := m'.regs.f)
    && m'.ime == m.ime && m'.pcMoved == m.pcMoved && m'.cycles == m.cycles
  }

  /**
   * The two bytes below SP lie in RAM (video RAM, work RAM with its echo and
   * OAM, or high RAM), written on the word itself; StackSlotsInRam reads it
   * back as addresses.
   */
  predicate StackInRam(sp: Word) {
    0x8002 <= sp <= 0xA000 || 0xC002 <= sp <= 0xFEA0 || 0xFF82 <= sp
  }

  /** The stack slots of a stack in RAM are RAM addresses. */
  lemma StackSlotsInRam(sp: Word)
    requires StackInRam(sp)
    ensures IsRam((sp - 1) as int) && IsRam((sp - 2) as int)
  {
  }

  /** The little-endian word at SP, the one a pop would read. */
  function TopWord(m: Machine): Word {
    Join(ReadByte(m, m.regs.sp), ReadByte(m, m.regs.sp + 1))
  }

  /** set_flags followed by get_flags gives the flags back; only F changes, and its low nibble is kept. */
  lemma FlagsStored(m: Machine, fl: Flags)
    ensures FlagsOf(SetFlagsOf(m, fl)) == fl
    ensures SetFlagsOf(m, fl).regs.f & 0x0F == m.regs.f & 0x0F
    ensures OnlyF(m, SetFlagsOf(m, fl))
  {
    FlagsRoundTrip(fl, m.regs.f);
  }

  lemma CarryInBit(m: Machine, on: bool)
    ensures CarryIn(m, on) <= 1
    ensures CarryIn(m, on) == 1 <==> on && FlagsOf(m).c
  {
  }

  // ---------------------------------------------------------------- 8-bit arithmetic

  lemma AddStructure(m: Machine, val: Byte, carryOn: bool)
    ensures var r := Add8(m.regs.a, val, CarryIn(m, carryOn)); var m' := GeneralAddA(m, val, carryOn);
      m'.regs.a == r.value && FlagsOf(m') == Flags(r.value == 0, false, r.half, r.carry)
      && m'.regs.f & 0x0F == m.regs.f & 0x0F && OnlyAF(m, m')
  {
    var r := Add8(m.regs.a, val, CarryIn(m, carryOn));
    FlagsStored(SetReg8(m, A, r.value), Flags(r.value == 0, false, r.half, r.carry));
  }

  /**
   * ADD and ADC: with the carry-in C for ADC only, A takes the wrapped sum and
   * C is set iff the full sum exceeds 0xFF; Z is set iff A is 0, N is cleared, H
   * is the carry into bit 4, and the low nibble of F is kept.
   */
  lemma AddToA(m: Machine, val: Byte, carryOn: bool)
    ensures var m' := GeneralAddA(m, val, carryOn);
      var cin := CarryIn(m, carryOn);
      var fl := FlagsOf(m');
      m'.regs.a == m.regs.a + val + cin && fl.c == (m.regs.a as Word + val as Word + cin as Word > 0xFF)
      && fl.z == (m'.regs.a == 0) && !fl.n && fl.h == ((m.regs.a ^ val ^ m'.regs.a) & 0x10 != 0)
      && m'.regs.f & 0x0F == m.regs.f & 0x0F && OnlyAF(m, m')
  {
    AddStructure(m, val, carryOn);
    CarryInBit(m, carryOn);
    var m' := GeneralAddA(m, val, carryOn);
    AddFacts(m.regs.a, val, CarryIn(m, carryOn), m'.regs.a, FlagsOf(m'));
  }

  /** What add8's outputs say about the operands, for a result already stored. */
  lemma AddFacts(a: Byte, val: Byte, cin: Byte, a': Byte, fl: Flags)
    requires cin <= 1
    requires var r := Add8(a, val, cin); a' == r.value && fl == Flags(r.value == 0, false, r.half, r.carry)
    ensures a' == a + val + cin && fl.c == (a as Word + val as Word + cin as Word > 0xFF)
    ensures fl.z == (a' == 0) && !fl.n && fl.h == ((a ^ val ^ a') & 0x10 != 0)
  {
  }

  lemma SubStructure(m: Machine, val: Byte, borrowOn: bool, discard: bool)
    ensures var r := Sub8(m.regs.a, val, CarryIn(m, borrowOn)); var m' := GeneralSubA(m, val, borrowOn, discard);
      m'.regs.a == (if discard then m.regs.a else r.value)
      && FlagsOf(m') == Flags(r.value == 0, true, r.half, r.carry) && OnlyAF(m, m')
  {
    var r := Sub8(m.regs.a, val, CarryIn(m, borrowOn));
    var m1 := if !discard then SetReg8(m, A, r.value) else m;
    FlagsStored(m1, Flags(r.value == 0, true, r.half, r.carry));
  }

  /**
   * SUB, SBC and CP: A takes `A - val` (for SBC too: the carry is not
   * subtracted from the stored value) unless the result is discarded, as CP
   * does. The flags describe `A - val - cin`: C is its borrow, H its borrow
   * from bit 4, N is set, and Z tells whether `A - val` is 0.
   */
  lemma SubFromA(m: Machine, val: Byte, borrowOn: bool, discard: bool)
    ensures var m' := GeneralSubA(m, val, borrowOn, discard);
      var cin := CarryIn(m, borrowOn);
      var fl := FlagsOf(m');
      m'.regs.a == (if discard then m.regs.a else m.regs.a - val)
      && fl.c == ((m.regs.a as Word - val as Word - cin as Word) & 0x100 != 0)
      && fl.h == ((m.regs.a ^ val ^ (m.regs.a - val - cin)) & 0x10 != 0)
      && fl.n && fl.z == (m.regs.a == val) && OnlyAF(m, m')
  {
    SubStructure(m, val, borrowOn, discard);
    CarryInBit(m, borrowOn);
    var m' := GeneralSubA(m, val, borrowOn, discard);
    SubFacts(m.regs.a, val, CarryIn(m, borrowOn), FlagsOf(m'));
  }

  /** What sub8's flags say about the operands. */
  lemma SubFacts(a: Byte, val: Byte, cin: Byte, fl: Flags)
    requires cin <= 1
    requires var r := Sub8(a, val, cin); fl == Flags(r.value == 0, true, r.half, r.carry)
    ensures fl.c == ((a as Word - val as Word - cin as Word) & 0x100 != 0)
    ensures fl.h == ((a ^ val ^ (a - val - cin)) & 0x10 != 0)
    ensures fl.n && fl.z == (a == val) && Sub8(a, val, cin).value == a - val
  {
  }

  /** SBC as written: 0x10 - 0x01 with C set stores 0x0F (the SM83 stores 0x0E) and reports no borrow. */
  lemma SbcStoresDifferenceOnly(m: Machine)
    requires m.regs.a == 0x10 && m.regs.b == 0x01 && FlagsOf(m).c
    ensures AluR8(m, Sbc, B).m.regs.a == 0x0F && !FlagsOf(AluR8(m, Sbc, B).m).c
  {
    assert m.regs.Get8(B) == 0x01;
    assert AluR8(m, Sbc, B).m == GeneralSubA(m, 0x01, true, false);
    SubFromA(m, 0x01, true, false);
    CarryInBit(m, true);
  }

  /** CP compares without storing: A is kept, and Z is set exactly when A equals the operand. */
  lemma CompareKeepsA(m: Machine, r: Register)
    ensures AluR8(m, Cp, r).m.regs.a == m.regs.a
    ensures FlagsOf(AluR8(m, Cp, r).m).z == (m.regs.a == m.regs.Get8(r))
    ensures FlagsOf(AluR8(m, Cp, r).m).n
  {
    SubFromA(m, m.regs.Get8(r), false, true);
  }

  lemma LogicStructure(m: Machine, op: AluOp, val: Byte)
    requires IsLogic(op)
    ensures LogicA(m, op, val).1 == LogicValue(op, m.regs.a, val)
    ensures FlagsOf(LogicA(m, op, val).0) == Flags(LogicValue(op, m.regs.a, val) == 0, false, op == And, false)
    ensures OnlyF(m, LogicA(m, op, val).0)
  {
    FlagsStored(m, Flags(LogicValue(op, m.regs.a, val) == 0, false, op == And, false));
  }

  /**
   * AND, XOR and OR on a register: A takes the bitwise operation of A and the
   * operand (LogicValue), Z is set iff the result is 0, N
   * and C are cleared, H is set for AND only; nothing but A and F changes.
   */
  lemma LogicFlags(m: Machine, op: AluOp, r: Register)
    requires IsLogic(op)
    ensures var m' := AluR8(m, op, r).m;
      m'.regs.a == LogicValue(op, m.regs.a, m.regs.Get8(r))
      && FlagsOf(m') == Flags(m'.regs.a == 0, false, op == And, false) && OnlyAF(m, m')
  {
    LogicStructure(m, op, m.regs.Get8(r));
  }

  /**
   * The two idioms programs use the logic operations for: XOR A clears A and
   * leaves only Z set, and AND A or OR A keep A and set Z exactly when A is 0,
   * clearing C.
   */
  lemma LogicOnItself(m: Machine, op: AluOp)
    requires IsLogic(op)
    ensures var m' := AluR8(m, op, A).m;
      (op == Xor ==> m'.regs.a == 0 && FlagsOf(m') == Flags(true, false, false, false))
      && (op != Xor ==> m'.regs.a == m.regs.a && FlagsOf(m').z == (m.regs.a == 0) && !FlagsOf(m').c)
  {
    LogicFlags(m, op, A);
  }

  /**
   * AND, XOR and OR with the (HL) operand store the result at HL and leave A
   * unchanged; when HL is a RAM address the result reads back from there.
   */
  lemma LogicHlAddrWritesMemory(m: Machine, op: AluOp)
    requires IsLogic(op)
    ensures var o := AluHlAddr(m, op);
      o.m.regs.a == m.regs.a && o.cycles == 2
      && (IsRam(HlOf(m) as int) ==> ReadByte(o.m, HlOf(m)) == LogicValue(op, m.regs.a, ReadByte(m, HlOf(m))))
  {
    var addr := HlOf(m);
    var val := ReadByte(m, addr);
    LogicStructure(m, op, val);
    if IsRam(addr as int) {
      RamReadAfterWrite(LogicA(m, op, val).0.bus, LogicValue(op, m.regs.a, val), addr as int);
    }
  }

  // ---------------------------------------------------------------- increments and decrements

  /** Only register `r` may differ. */
  predicate OnlyReg(m: Machine, m': Machine, r: Register) {
    m'.bus == m.bus && m'.regs == m.regs.With8(r, m'.regs.Get8(r))
    && m'.ime == m.ime && m'.pcMoved == m.pcMoved && m'.cycles == m.cycles
  }

  /** Only register `r` and F may differ. */
  predicate OnlyRegF(m: Machine, m': Machine, r: Register) {
    m'.bus == m.bus && m'.regs.(f := m.regs.f) == m.regs.With8(r, m'.regs.Get8(r))
    && m'.ime == m.ime && m'.pcMoved == m.pcMoved && m'.cycles == m.cycles
  }

  /** add8 and sub8 by 1 add and subtract one, with wrap-around, and undo each other. */
  lemma StepByOne(v: Byte)
    ensures Add8(v, 1, 0).value == v + 1 && Sub8(v, 1, 0).value == v - 1
    ensures Add8(Sub8(v, 1, 0).value, 1, 0).value == v && Sub8(Add8(v, 1, 0).value, 1, 0).value == v
  {
  }

  /**
   * INC r8: the register takes add8(v, 1) (v + 1, see StepByOne), Z is set iff
   * it becomes 0, N is cleared, H comes from add8, C is kept, and nothing else
   * changes.
   */
  lemma IncR8Effect(m: Machine, r: Register)
    requires IsByteRegister(r) && r != F
    ensures var m' := IncR8(m, r).m; var s := Add8(m.regs.Get8(r), 1, 0);
      m'.regs.Get8(r) == s.value && FlagsOf(m') == Flags(s.value == 0, false, s.half, FlagsOf(m).c)
      && OnlyRegF(m, m', r)
  {
    var s := Add8(m.regs.Get8(r), 1, 0);
    Register8RoundTrip(m.regs, r, s.value);
    FlagsStored(SetReg8(m, r, s.value), Flags(s.value == 0, false, s.half, FlagsOf(m).c));
  }

  /** DEC r8: as INC r8 with sub8(v, 1) (v - 1), and N set. */
  lemma DecR8Effect(m: Machine, r: Register)
    requires IsByteRegister(r) && r != F
    ensures var m' := DecR8(m, r).m; var d := Sub8(m.regs.Get8(r), 1, 0);
      m'.regs.Get8(r) == d.value && FlagsOf(m') == Flags(d.value == 0, true, d.half, FlagsOf(m).c)
      && OnlyRegF(m, m', r)
  {
    var d := Sub8(m.regs.Get8(r), 1, 0);
    Register8RoundTrip(m.regs, r, d.value);
    FlagsStored(SetReg8(m, r, d.value), Flags(d.value == 0, true, d.half, FlagsOf(m).c));
  }

  /** DEC then INC of a register gives the register its value back. */
  lemma IncUndoesDec(m: Machine, r: Register)
    requires IsByteRegister(r) && r != F
    ensures IncR8(DecR8(m, r).m, r).m.regs.Get8(r) == m.regs.Get8(r)
  {
    DecR8Effect(m, r);
    IncR8Effect(DecR8(m, r).m, r);
    StepByOne(m.regs.Get8(r));
  }

  /** INC (HL): at a RAM address the byte there takes add8(v, 1); C and the registers other than F are kept. */
  lemma IncHlAddrEffect(m: Machine)
    requires IsRam(HlOf(m) as int)
    ensures var m' := IncHlAddr(m).m; var s := Add8(ReadByte(m, HlOf(m)), 1, 0);
      ReadByte(m', HlOf(m)) == s.value && FlagsOf(m') == Flags(s.value == 0, false, s.half, FlagsOf(m).c)
      && m'.regs.(f := m.regs.f) == m.regs
  {
    var addr := HlOf(m);
    var s := Add8(ReadByte(m, addr), 1, 0);
    RamReadAfterWrite(m.bus, s.value, addr as int);
    FlagsStored(WriteByte(m, s.value, addr), Flags(s.value == 0, false, s.half, FlagsOf(m).c));
  }

  /** DEC (HL): as INC (HL) with sub8(v, 1), and N set. */
  lemma DecHlAddrEffect(m: Machine)
    requires IsRam(HlOf(m) as int)
    ensures var m' := DecHlAddr(m).m; var d := Sub8(ReadByte(m, HlOf(m)), 1, 0);
      ReadByte(m', HlOf(m)) == d.value && FlagsOf(m') == Flags(d.value == 0, true, d.half, FlagsOf(m).c)
      && m'.regs.(f := m.regs.f) == m.regs
  {
    var addr := HlOf(m);
    var d := Sub8(ReadByte(m, addr), 1, 0);
    RamReadAfterWrite(m.bus, d.value, addr as int);
    FlagsStored(WriteByte(m, d.value, addr), Flags(d.value == 0, true, d.half, FlagsOf(m).c));
  }

  // ---------------------------------------------------------------- 16-bit arithmetic

  /**
   * ADD HL,r16: HL takes add16's sum (HL + r16, wrapped), Z is kept, N is
   * cleared, H and C are add16's (the carries into bit 12 and out of bit 15);
   * SP, PC and the bus are kept.
   */
  lemma AddHlFlags(m: Machine, r: Register)
    requires r in {BC, DE, HL, SP}
    ensures var m' := AddHlR16(m, r).m;
      var s := Add16(HlOf(m), m.regs.Get16(r));
      HlOf(m') == s.value && FlagsOf(m') == Flags(FlagsOf(m).z, false, s.half, s.carry)
      && m'.regs.sp == m.regs.sp && m'.regs.pc == m.regs.pc && m'.bus == m.bus
  {
    var s := Add16(HlOf(m), m.regs.Get16(r));
    JoinSplit(s.value);
    FlagsStored(SetReg16(m, HL, s.value), Flags(FlagsOf(m).z, false, s.half, s.carry));
  }

  /** ADD SP,e8: SP takes add16_special(SP, sext(e)); Z and N are cleared, H and C are add16_special's. */
  lemma AddSpEffect(m: Machine)
    ensures var s := Add16Special(m.regs.sp, SignExtend(Imm8(m)));
      var m' := AddSpE8(m).m;
      m'.regs.sp == s.value && FlagsOf(m') == Flags(false, false, s.half, s.carry)
      && m'.bus == m.bus && m'.regs.pc == m.regs.pc
  {
    var s := Add16Special(m.regs.sp, SignExtend(Imm8(m)));
    FlagsStored(SetReg16(m, SP, s.value), Flags(false, false, s.half, s.carry));
  }

  /** LD HL,SP+e8 as written: the same sum goes to HL and to SP, with the flags of ADD SP,e8. */
  lemma LdHlSpEffect(m: Machine)
    ensures var s := Add16Special(m.regs.sp, SignExtend(Imm8(m)));
      var m' := LdHlSpE8(m).m;
      HlOf(m') == s.value && m'.regs.sp == s.value && FlagsOf(m') == FlagsOf(AddSpE8(m).m)
  {
    var s := Add16Special(m.regs.sp, SignExtend(Imm8(m)));
    var m1 := SetReg16(m, SP, s.value);
    PairRoundTrip(m1.regs, HL, s.value);
    AddSpEffect(m);
    FlagsStored(SetReg16(m1, HL, s.value), Flags(false, false, s.half, s.carry));
  }

  // ---------------------------------------------------------------- flag and accumulator operations

  /** CPL complements A and sets N and H; CCF flips C and SCF sets it, both clearing N and H; Z is kept by all three. */
  lemma FlagOperations(m: Machine)
    ensures Cpl(m).m.regs.a == !m.regs.a && FlagsOf(Cpl(m).m) == FlagsOf(m).(n := true, h := true)
    ensures FlagsOf(Ccf(m).m) == FlagsOf(m).(n := false, h := false, c := !FlagsOf(m).c)
    ensures FlagsOf(Scf(m).m) == FlagsOf(m).(n := false, h := false, c := true)
    ensures OnlyF(m, Ccf(m).m) && OnlyF(m, Scf(m).m) && OnlyAF(m, Cpl(m).m)
  {
    var fl := FlagsOf(m);
    FlagsStored(SetReg8(m, A, !m.regs.a), Flags(fl.z, true, true, fl.c));
    FlagsStored(m, Flags(fl.z, false, false, !fl.c));
    FlagsStored(m, Flags(fl.z, false, false, true));
  }

  /** DAA's correction only ever sets C. */
  lemma DaaCarryMonotone(fl: Flags, a: Byte)
    ensures fl.c ==> DaaAdjustment(fl, a).1
    ensures fl.n ==> DaaAdjustment(fl, a).1 == fl.c
  {
  }

  /**
   * An unfolding of Semantics.Daa for the lemmas below; the property DAA
   * serves is SubThenDaa. DAA as written subtracts its correction from A whether the last operation
   * was an addition or a subtraction; Z is set if A becomes 0 and otherwise keeps
   * its old value, N is kept, H cleared, and C is the correction's carry (see
   * DaaCarryMonotone); nothing but A and F changes.
   */
  lemma DaaFlags(m: Machine)
    ensures Daa(m).m.regs.a == DaaValue(FlagsOf(m), m.regs.a)
    ensures FlagsOf(Daa(m).m)
            == Flags(FlagsOf(m).z || Daa(m).m.regs.a == 0, FlagsOf(m).n, false, DaaAdjustment(FlagsOf(m), m.regs.a).1)
    ensures OnlyAF(m, Daa(m).m)
  {
    var fl := FlagsOf(m);
    var result := DaaValue(fl, m.regs.a);
    AccumulatorStored(m, result, Flags(fl.z || result == 0, fl.n, false, DaaAdjustment(fl, m.regs.a).1));
  }

  /** Storing A and then the flags changes only A and F. */
  lemma AccumulatorStored(m: Machine, v: Byte, fl: Flags)
    ensures var m' := SetFlagsOf(SetReg8(m, A, v), fl);
      m'.regs.a == v && FlagsOf(m') == fl && OnlyAF(m, m')
  {
    FlagsStored(SetReg8(m, A, v), fl);
  }

  /**
   * After an addition (N, H and C clear) DAA as written turns A = 0x0F into 0x09:
   * it subtracts the correction 0x06 that the SM83 adds (giving 0x15).
   */
  lemma DaaAfterAddition(m: Machine)
    requires m.regs.a == 0x0F && !FlagsOf(m).n && !FlagsOf(m).h && !FlagsOf(m).c
    ensures Daa(m).m.regs.a == 0x09
  {
    DaaFlags(m);
    assert DaaAdjustment(FlagsOf(m), 0x0F).0 == 0x06;
  }

  // ---------------------------------------------------------------- packed decimal after a subtraction

  /** A byte holding two packed decimal digits, tens in the high nibble. */
  predicate IsBcd(x: Byte) {
    x >> 4 <= 9 && x & 0x0F <= 9
  }

  /** The tens digit of a packed decimal byte. */
  function Tens(x: Byte): int {
    (x >> 4) as int
  }

  /** The units digit of a packed decimal byte. */
  function Units(x: Byte): int {
    (x & 0x0F) as int
  }

  /** The number 0-99 that a packed decimal byte stands for. */
  function Decimal(x: Byte): int {
    Tens(x) * 10 + Units(x)
  }

  /** The decimal correction after a subtraction: 6 off for a half borrow, 0x60 off for a borrow. */
  function SubtractCorrection(a: Byte, halfBorrow: bool, borrow: bool): Byte {
    a - (if halfBorrow then 0x06 else 0) - (if borrow then 0x60 else 0)
  }

  /** The byte DAA leaves after SUB x, y. */
  function DaaAfterSub(x: Byte, y: Byte): Byte {
    SubtractCorrection(x - y, x & 0x0F < y & 0x0F, x < y)
  }

  lemma DaaAfterSubLow(x: Byte, y: Byte)
    requires IsBcd(x) && IsBcd(y)
    ensures DaaAfterSub(x, y) & 0x0F
            == if x & 0x0F < y & 0x0F then (x & 0x0F) + 10 - (y & 0x0F) else (x & 0x0F) - (y & 0x0F)
  {
  }

  lemma DaaAfterSubHigh(x: Byte, y: Byte)
    requires IsBcd(x) && IsBcd(y)
    ensures var tens := (x >> 4) - (y >> 4) - (if x & 0x0F < y & 0x0F then 1 else 0);
      DaaAfterSub(x, y) >> 4 == if x < y then tens + 10 else tens
  {
  }

  /** Packed decimal bytes compare as the numbers they stand for, and so do their units digits. */
  lemma BcdOrder(x: Byte, y: Byte)
    requires IsBcd(x) && IsBcd(y)
    ensures (x < y) == (Decimal(x) < Decimal(y))
    ensures (x & 0x0F < y & 0x0F) == (Units(x) < Units(y))
  {
  }

  /** The units digit of the corrected difference: the units subtracted, 10 added back on a borrow. */
  lemma DaaAfterSubUnits(x: Byte, y: Byte)
    requires IsBcd(x) && IsBcd(y)
    ensures Units(DaaAfterSub(x, y)) == Units(x) - Units(y) + (if Units(x) < Units(y) then 10 else 0)
  {
    DaaAfterSubLow(x, y);
    BcdOrder(x, y);
  }

  /** The tens digit of the corrected difference: the tens less the borrow, 10 added back on a borrow. */
  lemma DaaAfterSubTens(x: Byte, y: Byte)
    requires IsBcd(x) && IsBcd(y)
    ensures Tens(DaaAfterSub(x, y))
            == Tens(x) - Tens(y) - (if Units(x) < Units(y) then 1 else 0) + (if Decimal(x) < Decimal(y) then 10 else 0)
  {
    DaaAfterSubHigh(x, y);
    BcdOrder(x, y);
  }

  /**
   * Digit-wise subtraction is subtraction modulo 100: units digits subtracted
   * with 10 added back on a borrow, tens digits subtracted less the borrow
   * with 10 added back when the whole difference is negative.
   */
  lemma DigitDifference(xh: int, xl: int, yh: int, yl: int, rh: int, rl: int)
    requires 0 <= xh <= 9 && 0 <= xl <= 9 && 0 <= yh <= 9 && 0 <= yl <= 9
    requires rl == xl - yl + (if xl < yl then 10 else 0)
    requires rh == xh - yh - (if xl < yl then 1 else 0) + (if xh * 10 + xl < yh * 10 + yl then 10 else 0)
    ensures rh * 10 + rl == (xh * 10 + xl - (yh * 10 + yl)) % 100
  {
  }

  /** The digits of a packed decimal byte are 0-9. */
  lemma BcdDigits(x: Byte)
    requires IsBcd(x)
    ensures 0 <= Tens(x) <= 9 && 0 <= Units(x) <= 9
  {
  }

  /** The correction leaves two packed decimal digits ... */
  lemma DaaAfterSubIsBcd(x: Byte, y: Byte)
    requires IsBcd(x) && IsBcd(y)
    ensures IsBcd(DaaAfterSub(x, y))
  {
    DaaAfterSubLow(x, y);
    DaaAfterSubHigh(x, y);
  }

  /** ... that stand for the difference modulo 100. */
  lemma DaaAfterSubDecimal(x: Byte, y: Byte)
    requires IsBcd(x) && IsBcd(y)
    ensures Decimal(DaaAfterSub(x, y)) == (Decimal(x) - Decimal(y)) % 100
  {
    var r := DaaAfterSub(x, y);
    DaaAfterSubUnits(x, y);
    DaaAfterSubTens(x, y);
    BcdDigits(x);
    BcdDigits(y);
    DigitDifference(Tens(x), Units(x), Tens(y), Units(y), Tens(r), Units(r));
  }

  /** After a subtraction DAA subtracts 6 for a half borrow and 0x60 for a borrow, and keeps C. */
  lemma DaaSubtracting(fl: Flags, a: Byte)
    requires fl.n
    ensures DaaValue(fl, a) == SubtractCorrection(a, fl.h, fl.c)
    ensures DaaAdjustment(fl, a).1 == fl.c
  {
    if fl.h && fl.c {
      assert DaaAdjustment(fl, a).0 == 0x66;
    }
  }

  /** The flags SUB x, y leaves: H is a borrow from the units nibble and C a borrow from the byte. */
  lemma SubBorrows(x: Byte, y: Byte)
    ensures Sub8(x, y, 0).value == x - y && (x - y == 0) == (x == y)
    ensures Sub8(x, y, 0).half == (x & 0x0F < y & 0x0F)
    ensures Sub8(x, y, 0).carry == (x < y)
  {
    assert Sub8(x, y, 0).carry == ((x as Word) < (y as Word));
  }

  lemma SubCorrected(x: Byte, y: Byte, a: Byte, halfBorrow: bool, borrow: bool)
    requires a == x - y && halfBorrow == (x & 0x0F < y & 0x0F) && borrow == (x < y)
    ensures SubtractCorrection(a, halfBorrow, borrow) == DaaAfterSub(x, y)
  {
  }

  /** SUB stores the difference and the flags of its borrows. */
  lemma SubResult(m: Machine, y: Byte)
    ensures GeneralSubA(m, y, false, false).regs.a == m.regs.a - y
    ensures FlagsOf(GeneralSubA(m, y, false, false)) == Flags(m.regs.a == y, true, m.regs.a & 0x0F < y & 0x0F, m.regs.a < y)
    ensures var fl := FlagsOf(GeneralSubA(m, y, false, false));
      fl.z == (m.regs.a == y) && fl.n && fl.h == (m.regs.a & 0x0F < y & 0x0F) && fl.c == (m.regs.a < y)
  {
    assert CarryIn(m, false) == 0;
    SubStructure(m, y, false, false);
    SubBorrows(m.regs.a, y);
  }

  /** DAA on the state SUB x, y leaves: A becomes DaaAfterSub of the operands. */
  lemma DaaAfterSubValue(m1: Machine, x: Byte, y: Byte)
    requires m1.regs.a == x - y && FlagsOf(m1) == Flags(x == y, true, x & 0x0F < y & 0x0F, x < y)
    ensures Daa(m1).m.regs.a == DaaAfterSub(x, y)
  {
    var fl1 := FlagsOf(m1);
    DaaFlags(m1);
    DaaSubtracting(fl1, m1.regs.a);
    SubCorrected(x, y, m1.regs.a, fl1.h, fl1.c);
  }

  /** DAA on the state SUB x, y leaves: Z is set on equal operands or a zero result, N stays set, H is cleared and C is the borrow. */
  lemma DaaAfterSubFlags(m1: Machine, x: Byte, y: Byte)
    requires m1.regs.a == x - y && FlagsOf(m1) == Flags(x == y, true, x & 0x0F < y & 0x0F, x < y)
    ensures FlagsOf(Daa(m1).m) == Flags(x == y || Daa(m1).m.regs.a == 0, true, false, x < y)
  {
    DaaFlags(m1);
    DaaSubtracting(FlagsOf(m1), m1.regs.a);
  }

  /** The outcome of SUB and DAA on packed decimal bytes, read as numbers. */
  lemma BcdDifference(x: Byte, y: Byte, a: Byte, fl: Flags)
    requires IsBcd(x) && IsBcd(y)
    requires a == DaaAfterSub(x, y) && fl == Flags(x == y || a == 0, true, false, x < y)
    ensures IsBcd(a) && Decimal(a) == (Decimal(x) - Decimal(y)) % 100
    ensures fl.c == (Decimal(x) < Decimal(y)) && fl.z == (a == 0) && fl.n
  {
    DaaAfterSubIsBcd(x, y);
    DaaAfterSubDecimal(x, y);
    BcdOrder(x, y);
    assert x == y ==> a == 0;
  }

  /**
   * SUB followed by DAA is packed decimal subtraction: for a packed decimal A
   * and a packed decimal operand y (a register, (HL) or an immediate), A ends
   * up holding the digits of (A - y) mod 100, C tells whether the subtraction
   * borrowed (A < y as numbers), Z whether the result is 0, and N stays set.
   * The subtracting branch of daa agrees with the SM83.
   */
  lemma SubThenDaa(m: Machine, y: Byte, afterSub: Machine)
    requires IsBcd(m.regs.a) && IsBcd(y) && afterSub == ArithA(m, Sub, y)
    ensures var m' := Daa(afterSub).m;
      IsBcd(m'.regs.a) && Decimal(m'.regs.a) == (Decimal(m.regs.a) - Decimal(y)) % 100
      && FlagsOf(m').c == (Decimal(m.regs.a) < Decimal(y))
      && FlagsOf(m').z == (m'.regs.a == 0) && FlagsOf(m').n
  {
    SubResult(m, y);
    DaaOfDifference(m.regs.a, y, afterSub);
  }

  /** DAA on the state a subtraction x - y left behind, with the operands named. */
  lemma DaaOfDifference(x: Byte, y: Byte, afterSub: Machine)
    requires IsBcd(x) && IsBcd(y)
    requires afterSub.regs.a == x - y
    requires FlagsOf(afterSub) == Flags(x == y, true, x & 0x0F < y & 0x0F, x < y)
    ensures var m' := Daa(afterSub).m;
      IsBcd(m'.regs.a) && Decimal(m'.regs.a) == (Decimal(x) - Decimal(y)) % 100
      && FlagsOf(m').c == (Decimal(x) < Decimal(y))
      && FlagsOf(m').z == (m'.regs.a == 0) && FlagsOf(m').n
  {
    DaaAfterSubValue(afterSub, x, y);
    DaaAfterSubFlags(afterSub, x, y);
    var m' := Daa(afterSub).m;
    BcdDifference(x, y, m'.regs.a, FlagsOf(m'));
  }

  // ---------------------------------------------------------------- bit operations

  /** The mask `1 << u` selects bit u; clearing or setting it leaves the other bits. */
  lemma MaskSelectsBit(v: Byte, u: Byte, j: Byte)
    requires u < 8 && j < 8
    ensures (v & BitMask(u) == 0) == ((v >> u) & 1 == 0)
    ensures ((v & !BitMask(u)) >> j) & 1 == if j == u then 0 else (v >> j) & 1
    ensures ((v | BitMask(u)) >> j) & 1 == if j == u then 1 else (v >> j) & 1
  {
  }

  /** BIT u: Z is set iff the tested bit is clear (see MaskSelectsBit), N cleared, H set, C kept; nothing but F changes. */
  lemma BitTest(m: Machine, u: Byte, r: Register)
    requires u < 8
    ensures FlagsOf(BitR8(m, u, r).m) == Flags(m.regs.Get8(r) & BitMask(u) == 0, false, true, FlagsOf(m).c)
    ensures FlagsOf(BitHlAddr(m, u).m) == Flags(ReadByte(m, HlOf(m)) & BitMask(u) == 0, false, true, FlagsOf(m).c)
    ensures OnlyF(m, BitR8(m, u, r).m) && OnlyF(m, BitHlAddr(m, u).m)
  {
    FlagsStored(m, Flags(m.regs.Get8(r) & BitMask(u) == 0, false, true, FlagsOf(m).c));
    FlagsStored(m, Flags(ReadByte(m, HlOf(m)) & BitMask(u) == 0, false, true, FlagsOf(m).c));
  }

  /** RES u changes only the register, to its value with bit u cleared (see MaskSelectsBit); F is kept. */
  lemma ResEffect(m: Machine, u: Byte, r: Register)
    requires u < 8 && IsByteRegister(r) && r != F
    ensures var m' := ResR8(m, u, r).m;
      m'.regs.Get8(r) == m.regs.Get8(r) & !BitMask(u) && OnlyReg(m, m', r)
  {
    Register8RoundTrip(m.regs, r, m.regs.Get8(r) & !BitMask(u));
  }

  /** SET u changes only the register, to its value with bit u set (see MaskSelectsBit); F is kept. */
  lemma SetEffect(m: Machine, u: Byte, r: Register)
    requires u < 8 && IsByteRegister(r) && r != F
    ensures var m' := SetR8(m, u, r).m;
      m'.regs.Get8(r) == m.regs.Get8(r) | BitMask(u) && OnlyReg(m, m', r)
  {
    Register8RoundTrip(m.regs, r, m.regs.Get8(r) | BitMask(u));
  }

  // ---------------------------------------------------------------- rotates and shifts

  /**
   * Every rotate and shift puts the bit it shifts out into C (SWAP clears C),
   * and SRA keeps bit 7.
   */
  lemma ShiftCarryOut(op: ShiftOp, val: Byte, c: bool)
    ensures op in {Rlc, Rl, Sla} ==> ShiftCarry(op, val) == (val & 0x80 != 0)
    ensures op in {Rrc, Rr, Sra, Srl} ==> ShiftCarry(op, val) == (val & 1 != 0)
    ensures op == Swap ==> !ShiftCarry(op, val)
    ensures op == Sra ==> ShiftResult(op, val, c) & 0x80 == val & 0x80
  {
  }

  /**
   * The flags of a rotate or shift: C from ShiftCarry (see ShiftCarryOut), N and
   * H cleared, and Z set iff the result is 0, except that the rotates called
   * without the zero test (RLCA, RLA, RRCA, RRA) always clear Z.
   */
  lemma ShiftFlags(m: Machine, op: ShiftOp, val: Byte, checkZero: bool)
    ensures GeneralShift(m, op, val, checkZero).1 == ShiftResult(op, val, FlagsOf(m).c)
    ensures FlagsOf(GeneralShift(m, op, val, checkZero).0)
            == Flags((checkZero || !IsRotate(op)) && ShiftResult(op, val, FlagsOf(m).c) == 0, false, false,
                     ShiftCarry(op, val))
    ensures OnlyF(m, GeneralShift(m, op, val, checkZero).0)
  {
    var res := ShiftResult(op, val, FlagsOf(m).c);
    var z := if IsRotate(op) then res == 0 && checkZero else res == 0;
    FlagsStored(m, Flags(z, false, false, ShiftCarry(op, val)));
  }

  /** RLCA, RLA, RRCA and RRA always leave Z clear. */
  lemma RotateAClearsZ(m: Machine, op: ShiftOp)
    requires IsRotate(op)
    ensures !FlagsOf(RotateA(m, op).m).z
  {
    ShiftFlags(m, op, m.regs.a, false);
    var m1 := GeneralShift(m, op, m.regs.a, false).0;
    FlagsStored(m1, FlagsOf(m1));
    FlagsIdempotent(m1.regs.f);
  }

  /** Rotating left and then right through the carry (or the other way round) restores value and carry. */
  lemma RotateThroughCarryInverse(val: Byte, c: bool)
    ensures ShiftResult(Rr, ShiftResult(Rl, val, c), ShiftCarry(Rl, val)) == val
    ensures ShiftCarry(Rr, ShiftResult(Rl, val, c)) == c
    ensures ShiftResult(Rl, ShiftResult(Rr, val, c), ShiftCarry(Rr, val)) == val
    ensures ShiftCarry(Rl, ShiftResult(Rr, val, c)) == c
  {
  }

  /** RLC and RRC undo each other, and SWAP undoes itself. */
  lemma RotateInverse(val: Byte, c: bool, c': bool)
    ensures ShiftResult(Rrc, ShiftResult(Rlc, val, c), c') == val
    ensures ShiftResult(Rlc, ShiftResult(Rrc, val, c), c') == val
    ensures ShiftResult(Swap, ShiftResult(Swap, val, c), c') == val
  {
  }

  // ---------------------------------------------------------------- stack

  /** A word survives the round trip through the integers. */
  lemma WordAsInt(w: Word)
    ensures (w as int) as Word == w
  {
  }

  /** The work-RAM echo boundary, read back from the integers into words. */
  lemma EchoBoundary(w: Word)
    ensures w as int < 0xE000 ==> w < 0xE000
    ensures 0xE000 <= w as int ==> 0xE000 <= w
  {
  }

  /** The slots below SP are one apart. */
  lemma SlotsAdjacent(sp: Word)
    ensures (sp - 1) - 1 == sp - 2 && (sp - 2) + 1 == sp - 1
  {
  }

  /** The two slots below SP are distinct addresses. */
  lemma SlotsDistinct(sp: Word)
    ensures (sp - 1) as int != (sp - 2) as int
  {
    WordAsInt(sp - 1);
    WordAsInt(sp - 2);
  }

  /** When both slots below SP lie in work RAM or its echo, they are distinct cells. */
  lemma SlotsDistinctCells(sp: Word)
    ensures 0xC000 <= (sp - 1) as int <= 0xFDFF && 0xC000 <= (sp - 2) as int <= 0xFDFF ==>
      WramIndex((sp - 1) as int) != WramIndex((sp - 2) as int)
  {
    var hi, lo := sp - 1, sp - 2;
    WordAsInt(hi);
    WordAsInt(lo);
    EchoBoundary(hi);
    EchoBoundary(lo);
    assert hi == lo + 1;
  }

  /** Two stores into the slots below SP leave the first in the upper slot and the second in the lower. */
  lemma PushStores(b: Bus, hi: Byte, lo: Byte, sp: Word)
    requires StackInRam(sp)
    ensures Read(Write(Write(b, hi, sp - 1), lo, sp - 2), sp - 1) == hi
    ensures Read(Write(Write(b, hi, sp - 1), lo, sp - 2), sp - 2) == lo
  {
    StackSlotsInRam(sp);
    SlotsDistinct(sp);
    SlotsDistinctCells(sp);
    var b1 := Write(b, hi, sp - 1);
    RamReadAfterWrite(b, hi, (sp - 1) as int);
    RamReadAfterWrite(b1, lo, (sp - 2) as int);
    RamWriteFrame(b1, lo, (sp - 2) as int, (sp - 1) as int);
  }

  /** dec_sp changes SP alone. */
  lemma DecSpStep(m: Machine)
    ensures DecSp(m).m == m.(regs := m.regs.(sp := m.regs.sp - 1))
  {
  }

  /** inc_sp changes SP alone. */
  lemma IncSpStep(m: Machine)
    ensures IncSp(m).m == m.(regs := m.regs.(sp := m.regs.sp + 1))
  {
  }

  /** Two rounds of dec_sp and a store at the new SP: SP drops twice and the two stores land in order. */
  lemma PushSteps(m: Machine, hi: Byte, lo: Byte)
    ensures var m1 := DecSp(m).m; var m2 := WriteByte(m1, hi, m1.regs.sp); var m3 := DecSp(m2).m;
      WriteByte(m3, lo, m3.regs.sp)
      == m.(regs := m.regs.(sp := (m.regs.sp - 1) - 1),
            bus := Write(Write(m.bus, hi, m.regs.sp - 1), lo, (m.regs.sp - 1) - 1))
  {
    DecSpStep(m);
    var m1 := DecSp(m).m;
    DecSpStep(WriteByte(m1, hi, m1.regs.sp));
  }

  /** The push sequence moves SP down twice, storing the high byte after the first step and the low byte after the second. */
  lemma PushStructure(m: Machine, v: Word)
    ensures PushWord(m, v)
            == m.(regs := m.regs.(sp := m.regs.sp - 2),
                  bus := Write(Write(m.bus, High(v), m.regs.sp - 1), Low(v), m.regs.sp - 2))
  {
    PushSteps(m, High(v), Low(v));
    SlotsAdjacent(m.regs.sp);
  }

  /**
   * push_r16 and the pushes of CALL, RST and the interrupt handler: SP drops by
   * two, the high byte is stored just below the old SP and the low byte below
   * it, and no register but SP changes.
   */
  lemma PushLayout(m: Machine, v: Word)
    requires StackInRam(m.regs.sp)
    ensures var m' := PushWord(m, v);
      m'.regs == m.regs.(sp := m.regs.sp - 2)
      && ReadByte(m', m.regs.sp - 1) == High(v) && ReadByte(m', m.regs.sp - 2) == Low(v)
      && m'.ime == m.ime && m'.pcMoved == m.pcMoved && m'.cycles == m.cycles
  {
    PushFields(m, v);
    PushHighByte(m, v);
    PushLowByte(m, v);
  }

  /** The high byte of a push lands just below the old SP. */
  lemma PushHighByte(m: Machine, v: Word)
    requires StackInRam(m.regs.sp)
    ensures ReadByte(PushWord(m, v), m.regs.sp - 1) == High(v)
  {
    PushFields(m, v);
    PushStores(m.bus, High(v), Low(v), m.regs.sp);
  }

  /** The low byte of a push lands two below the old SP. */
  lemma PushLowByte(m: Machine, v: Word)
    requires StackInRam(m.regs.sp)
    ensures ReadByte(PushWord(m, v), m.regs.sp - 2) == Low(v)
  {
    PushFields(m, v);
    PushStores(m.bus, High(v), Low(v), m.regs.sp);
  }

  /** The fields of the state after a push, one by one. */
  lemma PushFields(m: Machine, v: Word)
    ensures PushWord(m, v).regs == m.regs.(sp := m.regs.sp - 2)
    ensures PushWord(m, v).bus == Write(Write(m.bus, High(v), m.regs.sp - 1), Low(v), m.regs.sp - 2)
    ensures PushWord(m, v).ime == m.ime && PushWord(m, v).pcMoved == m.pcMoved
    ensures PushWord(m, v).cycles == m.cycles
  {
    PushStructure(m, v);
  }

  /** After a push the word at the new SP, read little-endian, is the pushed word. */
  lemma PushedWordOnTop(m: Machine, v: Word)
    requires StackInRam(m.regs.sp)
    ensures TopWord(PushWord(m, v)) == v
  {
    PushLayout(m, v);
    SlotsAdjacent(m.regs.sp);
    JoinSplit(v);
  }

  /** The pop sequence reads the low byte at SP and the high byte above it, and moves SP up twice. */
  lemma PopStructure(m: Machine, r: Register)
    ensures PopR16(m, r).m
            == m.(regs := m.regs.(sp := m.regs.sp + 2)
                          .With16(r, Join(ReadByte(m, m.regs.sp), ReadByte(m, m.regs.sp + 1))))
  {
    IncSpStep(m);
    IncSpStep(IncSp(m).m);
    assert (m.regs.sp + 1) + 1 == m.regs.sp + 2;
  }

  /**
   * pop_r16 into AF, BC, DE, HL or PC: the register becomes the little-endian
   * word at SP, SP rises by two, and nothing else changes.
   */
  lemma PopLayout(m: Machine, r: Register)
    requires r in {AF, BC, DE, HL, PC}
    ensures var m' := PopR16(m, r).m;
      m'.regs.Get16(r) == TopWord(m)
      && m'.regs == m.regs.(sp := m.regs.sp + 2).With16(r, TopWord(m))
      && m'.bus == m.bus && m'.ime == m.ime && m'.pcMoved == m.pcMoved && m'.cycles == m.cycles
  {
    PopStructure(m, r);
    if r != PC {
      PairRoundTrip(m.regs.(sp := m.regs.sp + 2), r, TopWord(m));
    }
  }

  /**
   * POP AF copies the popped low byte into F whole: bits 0-3 of F, which the
   * SM83 keeps at zero, take whatever the stack held.
   */
  lemma PopAfRawFlags(m: Machine)
    ensures PopR16(m, AF).m.regs.f == ReadByte(m, m.regs.sp)
    ensures PopR16(m, AF).m.regs.a == ReadByte(m, m.regs.sp + 1)
  {
    PopStructure(m, AF);
    SplitJoin(ReadByte(m, m.regs.sp), ReadByte(m, m.regs.sp + 1));
  }

  /** Writing a register pair with its own value changes nothing. */
  lemma PairRewrite(regs: Registers, r: Register)
    ensures regs.With16(r, regs.Get16(r)) == regs
  {
    if r in {AF, BC, DE, HL} {
      SplitJoin(regs.Get8(LowHalf(r)), regs.Get8(HighHalf(r)));
    }
  }

  /** Moving SP down by two and back up again restores the registers. */
  lemma SpDownUp(regs: Registers)
    ensures regs.(sp := regs.sp - 2).(sp := (regs.sp - 2) + 2) == regs
  {
  }

  /** Popping right after a push gives the pushed word back and SP its old value. */
  lemma PopAfterPush(m: Machine, v: Word, r: Register)
    requires r in {AF, BC, DE, HL, PC} && StackInRam(m.regs.sp)
    ensures PopR16(PushWord(m, v), r).m.regs == m.regs.With16(r, v)
    ensures PopR16(PushWord(m, v), r).m.bus == PushWord(m, v).bus
  {
    var m1 := PushWord(m, v);
    PushLayout(m, v);
    PushedWordOnTop(m, v);
    PopLayout(m1, r);
    SpDownUp(m.regs);
  }

  /** PUSH r16 then POP r16 restores every register (SP included); the bus keeps the pushed bytes. */
  lemma PushPopRoundTrip(m: Machine, r: Register)
    requires r in {AF, BC, DE, HL} && StackInRam(m.regs.sp)
    ensures PopR16(PushR16(m, r).m, r).m.regs == m.regs
    ensures PopR16(PushR16(m, r).m, r).m.bus == PushR16(m, r).m.bus
  {
    PopAfterPush(m, m.regs.Get16(r), r);
    PairRewrite(m.regs, r);
  }

  // ---------------------------------------------------------------- calls and returns

  /** Setting PC and pc_moved changes nothing else. */
  lemma JumpStep(m: Machine, target: Word)
    ensures SetPcMoved(SetReg16(m, PC, target), true) == m.(regs := m.regs.(pc := target), pcMoved := true)
  {
  }

  /** CALL is the push of the return address followed by JP to the immediate word read after the push. */
  lemma CallStructure(m: Machine)
    ensures var m1 := PushWord(m, m.regs.pc + 3);
      CallN16(m).m == m1.(regs := m1.regs.(pc := Imm16(m1)), pcMoved := true)
  {
    var m1 := PushWord(m, m.regs.pc + 3);
    JumpStep(m1, Imm16(m1));
  }

  /** Two states with the same bus and SP have the same word on top of the stack. */
  lemma SameTop(m: Machine, m': Machine)
    requires m'.bus == m.bus && m'.regs.sp == m.regs.sp
    ensures TopWord(m') == TopWord(m)
  {
  }

  /** CALL pushes the address after its three bytes and moves SP down by two. */
  lemma CallPushesReturn(m: Machine)
    requires StackInRam(m.regs.sp)
    ensures var m' := CallN16(m).m;
      m'.regs == m.regs.(sp := m.regs.sp - 2, pc := m'.regs.pc) && m'.pcMoved
      && TopWord(m') == m.regs.pc + 3
  {
    var m1 := PushWord(m, m.regs.pc + 3);
    CallStructure(m);
    PushLayout(m, m.regs.pc + 3);
    PushedWordOnTop(m, m.regs.pc + 3);
    SameTop(m1, CallN16(m).m);
  }

  /** RET after CALL resumes at the instruction after the call, with SP where it was. */
  lemma CallThenRet(m: Machine)
    requires StackInRam(m.regs.sp)
    ensures Ret(CallN16(m).m).m.regs.pc == m.regs.pc + 3
    ensures Ret(CallN16(m).m).m.regs.sp == m.regs.sp
  {
    CallPushesReturn(m);
    PopLayout(CallN16(m).m, PC);
    assert (m.regs.sp - 2) + 2 == m.regs.sp;
  }

  /** RST is the push of the next address followed by a jump to `vec`. */
  lemma RstStructure(m: Machine, vec: Byte)
    ensures var m1 := PushWord(m, m.regs.pc + 1);
      RstVec(m, vec).m == m1.(regs := m1.regs.(pc := vec as Word), pcMoved := true)
  {
    var m1 := PushWord(m, m.regs.pc + 1);
    JumpStep(m1, Join(vec, 0));
  }

  /** RST pushes the address after its one byte and jumps to `vec`; RET afterwards comes back. */
  lemma RstPushesNext(m: Machine, vec: Byte)
    requires StackInRam(m.regs.sp)
    ensures var m' := RstVec(m, vec).m;
      m'.regs.pc == vec as Word && m'.regs.sp == m.regs.sp - 2 && m'.pcMoved
      && TopWord(m') == m.regs.pc + 1
  {
    RstStructure(m, vec);
    PushLayout(m, m.regs.pc + 1);
    PushedWordOnTop(m, m.regs.pc + 1);
    SameTop(PushWord(m, m.regs.pc + 1), RstVec(m, vec).m);
  }

  /** RET after RST resumes at the instruction after the RST. */
  lemma RstThenRet(m: Machine, vec: Byte)
    requires StackInRam(m.regs.sp)
    ensures Ret(RstVec(m, vec).m).m.regs.pc == m.regs.pc + 1
  {
    RstPushesNext(m, vec);
    PopLayout(RstVec(m, vec).m, PC);
  }

  // ---------------------------------------------------------------- branches

  /** NZ and NC are the negations of Z and C. */
  lemma ConditionPairs(fl: Flags)
    ensures Condition(fl, CC.Z) == fl.z && Condition(fl, CC.C) == fl.c
    ensures Condition(fl, NZ) == !Condition(fl, CC.Z) && Condition(fl, NC) == !Condition(fl, CC.C)
  {
  }

  /**
   * A conditional JP, JR, CALL or RET whose condition fails leaves the state as
   * it is (pc_moved stays clear, so the CPU steps over it); one whose condition
   * holds does what the unconditional form does and sets pc_moved.
   */
  lemma ConditionalJumps(m: Machine, cc: CC)
    ensures !Condition(FlagsOf(m), cc) ==> JpCc(m, cc).m == m && JrCc(m, cc).m == m
    ensures Condition(FlagsOf(m), cc) ==>
      JpCc(m, cc).m == JpN16(m).m && JpCc(m, cc).m.pcMoved && JrCc(m, cc).m == JrE8(m).m && JrCc(m, cc).m.pcMoved
    ensures JpCc(m, cc).cycles == (if Condition(FlagsOf(m), cc) then JpN16(m).cycles else 3)
    ensures JrCc(m, cc).cycles == (if Condition(FlagsOf(m), cc) then JrE8(m).cycles else 2)
  {
  }

  /** The same for CALL cc and RET cc; a taken RET cc costs one cycle more than RET. */
  lemma ConditionalCalls(m: Machine, cc: CC)
    ensures !Condition(FlagsOf(m), cc) ==> CallCc(m, cc).m == m && RetCc(m, cc).m == m
    ensures Condition(FlagsOf(m), cc) ==>
      CallCc(m, cc).m == CallN16(m).m && CallCc(m, cc).m.pcMoved && RetCc(m, cc).m == Ret(m).m && RetCc(m, cc).m.pcMoved
    ensures CallCc(m, cc).cycles == (if Condition(FlagsOf(m), cc) then CallN16(m).cycles else 3)
    ensures RetCc(m, cc).cycles == (if Condition(FlagsOf(m), cc) then Ret(m).cycles + 1 else 2)
  {
  }

  /** The byte-level reading of the JR target: forward by e for e < 0x80, back by 0x100 - e otherwise. */
  lemma RelativeTarget(pc: Word, e: Byte)
    ensures e < 0x80 ==> (pc + 2 + SignExtend(e)) - e as Word == pc + 2
    ensures e >= 0x80 ==> (pc + 2 + SignExtend(e)) + (0x100 - e as Word) == pc + 2
  {
  }

  /**
   * JR e8 sets PC to the address after its two bytes plus the sign-extended
   * offset byte; RelativeTarget reads that sum as a forward or backward jump.
   */
  lemma JrTarget(m: Machine)
    ensures JrE8(m).m.regs.pc == m.regs.pc + 2 + SignExtend(Imm8(m))
  {
    JumpStep(m, m.regs.pc + 2 + SignExtend(Imm8(m)));
  }

  /** JR e8 changes PC and sets pc_moved, and nothing else. */
  lemma JrFrame(m: Machine)
    ensures JrE8(m).m == m.(regs := m.regs.(pc := JrE8(m).m.regs.pc), pcMoved := true)
  {
    JumpStep(m, m.regs.pc + 2 + SignExtend(Imm8(m)));
  }

  // ---------------------------------------------------------------- interrupts

  /** `i_flag << 3` on u8 is non-zero exactly when one of IF bits 0-4 is set. */
  lemma ShiftTestsLowBits(iflag: Byte)
    ensures AnyPending(iflag) == (iflag & 0x1F != 0)
  {
  }

  /**
   * The interrupt served is the lowest set bit among IF bits 0-4, and its vector
   * is 0x40 plus eight times that bit's number.
   */
  lemma PendingPriority(iflag: Byte)
    requires iflag & 0x1F != 0
    ensures var (mask, vector) := PendingInterrupt(iflag);
      iflag & mask != 0 && iflag & (mask - 1) == 0 && mask & (mask - 1) == 0
      && vector & 7 == 0 && 0x40 <= vector <= 0x60 && mask as Word == 1 << ((vector - 0x40) >> 3)
  {
  }

  /** With none of IF bits 0-4 set, interrupt_handler changes nothing. */
  lemma NoInterruptNoChange(m: Machine)
    requires ReadByte(m, 0xFF0F) & 0x1F == 0
    ensures InterruptHandler(m) == m
  {
    ShiftTestsLowBits(ReadByte(m, 0xFF0F));
  }

  /** The dispatch sequence: IME cleared, IF updated, PC pushed, then the jump with its cost. */
  lemma InterruptStructure(m: Machine)
    requires AnyPending(ReadByte(m, 0xFF0F))
    ensures var iflag := ReadByte(m, 0xFF0F); var p := PendingInterrupt(iflag);
      var m2 := WriteByte(SetIme(m, false), Acknowledge(iflag, p.0), 0xFF0F);
      var m3 := PushWord(m2, m.regs.pc);
      InterruptHandler(m) == m3.(regs := m3.regs.(pc := p.1), pcMoved := true, cycles := m3.cycles + 5)
  {
    var iflag := ReadByte(m, 0xFF0F);
    var p := PendingInterrupt(iflag);
    var m3 := PushWord(WriteByte(SetIme(m, false), Acknowledge(iflag, p.0), 0xFF0F), m.regs.pc);
    JumpStep(m3, p.1);
  }

  /** Stores into RAM leave IF alone. */
  lemma IfSurvivesRamStore(b: Bus, v: Byte, a: Word)
    requires IsRam(a as int)
    ensures Write(b, v, a).iFlag == b.iFlag
  {
  }

  /** The bus reads and writes IF at 0xFF0F. */
  lemma IfRegister(b: Bus, v: Byte)
    ensures Read(b, 0xFF0F) == b.iFlag && Write(b, v, 0xFF0F).iFlag == v
  {
  }

  /**
   * interrupt_handler with an interrupt pending, whatever IME and IE hold: IME
   * is cleared, SP moves down by two, PC is the vector (see PendingPriority),
   * pc_moved is set and five cycles are added; no other register changes.
   */
  lemma InterruptRegisters(m: Machine)
    requires AnyPending(ReadByte(m, 0xFF0F)) && StackInRam(m.regs.sp)
    ensures var m' := InterruptHandler(m);
      !m'.ime && m'.pcMoved && m'.cycles == m.cycles + 5
      && m'.regs == m.regs.(sp := m.regs.sp - 2, pc := PendingInterrupt(ReadByte(m, 0xFF0F)).1)
  {
    var iflag := ReadByte(m, 0xFF0F);
    var p := PendingInterrupt(iflag);
    InterruptStructure(m);
    PushLayout(WriteByte(SetIme(m, false), Acknowledge(iflag, p.0), 0xFF0F), m.regs.pc);
  }

  /** With an interrupt pending, the interrupted PC is the word on top of the stack afterwards. */
  lemma InterruptSavesPc(m: Machine)
    requires AnyPending(ReadByte(m, 0xFF0F)) && StackInRam(m.regs.sp)
    ensures TopWord(InterruptHandler(m)) == m.regs.pc
  {
    var iflag := ReadByte(m, 0xFF0F);
    var p := PendingInterrupt(iflag);
    InterruptStructure(m);
    var m2 := WriteByte(SetIme(m, false), Acknowledge(iflag, p.0), 0xFF0F);
    PushedWordOnTop(m2, m.regs.pc);
    SameTop(PushWord(m2, m.regs.pc), InterruptHandler(m));
  }

  /** A push with the stack in RAM leaves IF alone. */
  lemma PushKeepsIf(m: Machine, v: Word)
    requires StackInRam(m.regs.sp)
    ensures PushWord(m, v).bus.iFlag == m.bus.iFlag
  {
    PushFields(m, v);
    StoresKeepIf(m.bus, High(v), Low(v), m.regs.sp);
  }

  /** The two stores of a push into RAM leave IF alone. */
  lemma StoresKeepIf(b: Bus, hi: Byte, lo: Byte, sp: Word)
    requires StackInRam(sp)
    ensures Write(Write(b, hi, sp - 1), lo, sp - 2).iFlag == b.iFlag
  {
    StackSlotsInRam(sp);
    IfSurvivesRamStore(b, hi, sp - 1);
    IfSurvivesRamStore(Write(b, hi, sp - 1), lo, sp - 2);
  }

  /** With an interrupt pending, IF afterwards has the served bit cleared and the others kept. */
  lemma InterruptAcknowledges(m: Machine)
    requires AnyPending(ReadByte(m, 0xFF0F)) && StackInRam(m.regs.sp)
    ensures var iflag := ReadByte(m, 0xFF0F);
      ReadByte(InterruptHandler(m), 0xFF0F) == Acknowledge(iflag, PendingInterrupt(iflag).0)
  {
    var iflag := ReadByte(m, 0xFF0F);
    var p := PendingInterrupt(iflag);
    InterruptStructure(m);
    var m2 := WriteByte(SetIme(m, false), Acknowledge(iflag, p.0), 0xFF0F);
    IfRegister(SetIme(m, false).bus, Acknowledge(iflag, p.0));
    PushKeepsIf(m2, m.regs.pc);
    IfRegister(InterruptHandler(m).bus, 0);
  }

  /** IME is not consulted: the handler does the same whether interrupts were enabled or not. */
  lemma InterruptIgnoresIme(m: Machine)
    ensures InterruptHandler(SetIme(m, true)).regs == InterruptHandler(SetIme(m, false)).regs
    ensures InterruptHandler(SetIme(m, true)).bus == InterruptHandler(SetIme(m, false)).bus
  {
  }

}
