/**
 * Properties of the CPU tables and of step: the regular layout of the two
 * opcode tables, the agreement of the two- and three-byte sets with the operands
 * each routine reads, and how far step moves PC.
 */
module CpuProps {
  import opened Bits
  import opened StateModel
  import Semantics
  import opened Cpu

  // ---------------------------------------------------------------- reference decoders

  /** The register an opcode names in a 3-bit field; slot 6 stands for (HL). */
  function RegisterSlot(k: Byte): Register
    requires k < 8
  {
    match k
    case 0 => B
    case 1 => Register.C
    case 2 => D
    case 3 => E
    case 4 => H
    case 5 => L
    case 6 => HL
    case _ => A
  }

  /** The ALU operation an opcode names in bits 3-5. */
  function AluSlot(k: Byte): Semantics.AluOp
    requires k < 8
  {
    match k
    case 0 => Semantics.Add
    case 1 => Semantics.Adc
    case 2 => Semantics.Sub
    case 3 => Semantics.Sbc
    case 4 => Semantics.And
    case 5 => Semantics.Xor
    case 6 => Semantics.Or
    case _ => Semantics.Cp
  }

  /** The rotate or shift a 0xCB-prefixed opcode names in bits 3-5. */
  function ShiftSlot(k: Byte): Semantics.ShiftOp
    requires k < 8
  {
    match k
    case 0 => Semantics.Rlc
    case 1 => Semantics.Rrc
    case 2 => Semantics.Rl
    case 3 => Semantics.Rr
    case 4 => Semantics.Sla
    case 5 => Semantics.Sra
    case 6 => Semantics.Swap
    case _ => Semantics.Srl
  }

  /** The 0xCB table as the bit fields of the opcode describe it. */
  function CbReference(op: Byte): Instr {
    var u: BitIndex := (op >> 3) & 7;
    var k := op & 7;
    match op >> 6
    case 0 => if k == 6 then Bit(ShiftHlAddr(ShiftSlot(u))) else Bit(ShiftR8(ShiftSlot(u), RegisterSlot(k)))
    case 1 => if k == 6 then Bit(BitHlAddr(u)) else Bit(BitR8(u, RegisterSlot(k)))
    case 2 => if k == 6 then Bit(ResHlAddr(u)) else Bit(ResR8(u, RegisterSlot(k)))
    case _ => if k == 6 then Bit(SetHlAddr(u)) else Bit(SetR8(u, RegisterSlot(k)))
  }

  /** Every 0xCB-prefixed opcode runs the routine its bit fields name. */
  lemma CbTableIsRegular(op: Byte)
    ensures DecodeCb(op) == CbReference(op)
  { }

  /** Opcodes 0x40-0x7F other than 0x76 copy the register in bits 0-2 into the one in bits 3-5. */
  lemma LoadBlockIsRegular(op: Byte)
    requires 0x40 <= op < 0x80 && op != 0x76
    ensures var dst, src := (op >> 3) & 7, op & 7;
      Decode(op) ==
        if src == 6 then Load(LdR8HlAddr(RegisterSlot(dst)))
        else if dst == 6 then Load(LdHlAddrR8(RegisterSlot(src)))
        else Load(LdR8R8(RegisterSlot(dst), RegisterSlot(src)))
  { }

  /** Opcodes 0x80-0xBF apply the ALU operation in bits 3-5 to A and the operand in bits 0-2. */
  lemma AluBlockIsRegular(op: Byte)
    requires 0x80 <= op < 0xC0
    ensures var k := op & 7;
      Decode(op) ==
        if k == 6 then Arith(AluHlAddr(AluSlot((op >> 3) & 7)))
        else Arith(AluR8(AluSlot((op >> 3) & 7), RegisterSlot(k)))
  { }

  /** The opcodes 0xC6, 0xCE, ..., 0xFE take the ALU operation in bits 3-5 with an immediate operand. */
  lemma AluImmediateIsRegular(op: Byte)
    requires op & 0xC7 == 0xC6
    ensures Decode(op) == Arith(AluN8(AluSlot((op >> 3) & 7)))
  { }

  /** The opcodes 0xC7, 0xCF, ..., 0xFF restart at the vector in bits 3-5 times 8. */
  lemma RestartsAreRegular(op: Byte)
    requires op & 0xC7 == 0xC7
    ensures Decode(op) == Jump(RstVec(op & 0x38))
  { }

  /** The entries that do nothing: NOP, the 0xCB slot and the eleven unassigned opcodes. */
  const Unassigned: set<Byte> := {0x00, 0xCB, 0xD3, 0xDB, 0xDD, 0xE3, 0xE4, 0xEB, 0xEC, 0xED, 0xF4, 0xFC, 0xFD}

  lemma NopEntries(op: Byte)
    ensures Decode(op) == Nop <==> op in Unassigned
  { }

  /** No 0xCB-prefixed opcode is a do-nothing entry. */
  lemma CbEntriesAct(op: Byte)
    ensures DecodeCb(op) != Nop
  {
    CbTableIsRegular(op);
  }

  // ---------------------------------------------------------------- lengths

  /** The operand bytes an entry's routine reads after its opcode. */
  function OperandBytes(i: Instr): nat {
    match i
    case Load(e) => (match e case LdR8N8(_) | LdHlAddrN8 | LdhN8AddrA => 1 case LdN16AddrA => 2 case _ => 0)
    case LoadA(e) => (match e case LdhAN8Addr => 1 case LdAN16Addr => 2 case _ => 0)
    case Arith(e) => if e.AluN8? then 1 else 0
    case Wide(e) => (match e case AddSpE8 | LdHlSpE8 => 1 case LdR16N16(_) => 2 case _ => 0)
    case Stack(e) => if e.LdN16AddrSp? || e.LdSpN16Addr? then 2 else 0
    case Jump(e) => (match e case JrE8 | JrCc(_) => 1 case JpN16 | JpCc(_) | CallN16 | CallCc(_) => 2 case _ => 0)
    case _ => 0
  }

  lemma LengthsRow0(op: Byte)
    requires op < 0x10
    ensures Advance(op) as nat == 1 + OperandBytes(Decode(op))
  { }

  lemma LengthsRow1(op: Byte)
    requires 0x10 <= op < 0x20
    ensures Advance(op) as nat == 1 + OperandBytes(Decode(op))
  { }

  lemma LengthsRow2(op: Byte)
    requires 0x20 <= op < 0x30
    ensures Advance(op) as nat == 1 + OperandBytes(Decode(op))
  { }

  lemma LengthsRow3(op: Byte)
    requires 0x30 <= op < 0x40
    ensures Advance(op) as nat == 1 + OperandBytes(Decode(op))
  { }

  lemma LengthsRows4ToB(op: Byte)
    requires 0x40 <= op < 0xC0
    ensures Advance(op) as nat == 1 + OperandBytes(Decode(op))
  { }

  lemma LengthsRowC(op: Byte)
    requires 0xC0 <= op < 0xD0 && op != 0xCB
    ensures Advance(op) as nat == 1 + OperandBytes(Decode(op))
  { }

  lemma LengthsRowD(op: Byte)
    requires 0xD0 <= op < 0xE0
    ensures Advance(op) as nat == 1 + OperandBytes(Decode(op))
  { }

  lemma LengthsRowE(op: Byte)
    requires 0xE0 <= op < 0xF0
    ensures Advance(op) as nat == 1 + OperandBytes(Decode(op))
  { }

  lemma LengthsRowF(op: Byte)
    requires 0xF0 <= op
    ensures Advance(op) as nat == 1 + OperandBytes(Decode(op))
  { }


  /**
   * The two- and three-byte sets agree with the routines: every unprefixed
   * opcode advances by one more than the operand bytes its routine reads.
   */
  lemma LengthsMatchOperands(op: Byte)
    requires op != 0xCB
    ensures Advance(op) as nat == 1 + OperandBytes(Decode(op))
  {
    if op < 0x10 {
      LengthsRow0(op);
    } else if op < 0x20 {
      LengthsRow1(op);
    } else if op < 0x30 {
      LengthsRow2(op);
    } else if op < 0x40 {
      LengthsRow3(op);
    } else if op < 0xC0 {
      LengthsRows4ToB(op);
    } else if op < 0xD0 {
      LengthsRowC(op);
    } else if op < 0xE0 {
      LengthsRowD(op);
    } else if op < 0xF0 {
      LengthsRowE(op);
    } else {
      LengthsRowF(op);
    }
  }

  // ---------------------------------------------------------------- registers the tables bind

  predicate IsRegister8(r: Register) {
    r == A || r == B || r == Register.C || r == D || r == E || r == H || r == L
  }

  predicate IsPair(r: Register) {
    r == AF || r == BC || r == DE || r == HL
  }

  /** The register arguments of an entry are 8-bit registers or register pairs, as its routine expects. */
  predicate WellFormed(i: Instr) {
    match i
    case Load(e) =>
      (e.LdR8R8? ==> IsRegister8(e.r1) && IsRegister8(e.r2)) &&
      (e.LdR8N8? || e.LdHlAddrR8? || e.LdR8HlAddr? ==> IsRegister8(e.r)) &&
      (e.LdR16AddrA? ==> IsPair(e.r))
    case LoadA(e) => e.LdAR16Addr? ==> IsPair(e.r)
    case Arith(e) => e.AluR8? || e.DecR8? || e.IncR8? ==> IsRegister8(e.r)
    case Wide(e) => e.LdR16N16? || e.DecR16? || e.IncR16? || e.AddHlR16? ==> IsPair(e.r)
    case Stack(e) => e.PushR16? || e.PopR16? ==> IsPair(e.r)
    case Bit(e) => e.BitR8? || e.ResR8? || e.SetR8? || e.ShiftR8? ==> IsRegister8(e.r)
    case _ => true
  }

  lemma PrimaryLowHalfWellFormed(op: Byte)
    requires op < 0x80
    ensures WellFormed(Decode(op))
  { }

  lemma PrimaryHighHalfWellFormed(op: Byte)
    requires 0x80 <= op
    ensures WellFormed(Decode(op))
  { }

  /** Both tables bind only 8-bit registers to 8-bit operands and register pairs to 16-bit ones. */
  lemma TablesWellFormed(op: Byte)
    ensures WellFormed(Decode(op)) && WellFormed(DecodeCb(op))
  {
    if op < 0x80 { PrimaryLowHalfWellFormed(op); } else { PrimaryHighHalfWellFormed(op); }
    CbTableIsRegular(op);
  }

  // ---------------------------------------------------------------- what an entry leaves alone

  lemma LoadKeepsPc(m: Machine, e: LoadEntry)
    ensures ExecLoad(m, e).m.regs.pc == m.regs.pc && ExecLoad(m, e).m.pcMoved == m.pcMoved
  { }

  lemma LoadAKeepsPc(m: Machine, e: LoadAEntry)
    ensures ExecLoadA(m, e).m.regs.pc == m.regs.pc && ExecLoadA(m, e).m.pcMoved == m.pcMoved
  { }

  lemma ArithKeepsPc(m: Machine, e: ArithEntry)
    ensures ExecArith(m, e).m.regs.pc == m.regs.pc && ExecArith(m, e).m.pcMoved == m.pcMoved
  {
    if e.AluR8? || e.AluHlAddr? || e.AluN8? {
      AluKeepsPc(m, e);
    } else {
      UnaryKeepsPc(m, e);
    }
  }

  lemma AluKeepsPc(m: Machine, e: ArithEntry)
    requires e.AluR8? || e.AluHlAddr? || e.AluN8?
    ensures ExecArith(m, e).m.regs.pc == m.regs.pc && ExecArith(m, e).m.pcMoved == m.pcMoved
  { }

  lemma UnaryKeepsPc(m: Machine, e: ArithEntry)
    requires !(e.AluR8? || e.AluHlAddr? || e.AluN8?)
    ensures ExecArith(m, e).m.regs.pc == m.regs.pc && ExecArith(m, e).m.pcMoved == m.pcMoved
  {
    if e.DecR8? || e.DecHlAddr? || e.IncR8? || e.IncHlAddr? {
      IncDecKeepsPc(m, e);
    } else {
      FlagOpKeepsPc(m, e);
    }
  }

  lemma IncDecKeepsPc(m: Machine, e: ArithEntry)
    requires e.DecR8? || e.DecHlAddr? || e.IncR8? || e.IncHlAddr?
    ensures ExecArith(m, e).m.regs.pc == m.regs.pc && ExecArith(m, e).m.pcMoved == m.pcMoved
  { }

  lemma FlagOpKeepsPc(m: Machine, e: ArithEntry)
    requires e.Cpl? || e.Ccf? || e.Scf? || e.Daa?
    ensures ExecArith(m, e).m.regs.pc == m.regs.pc && ExecArith(m, e).m.pcMoved == m.pcMoved
  { }

  lemma WideKeepsPc(m: Machine, e: WideEntry)
    requires WellFormed(Wide(e))
    ensures ExecWide(m, e).m.regs.pc == m.regs.pc && ExecWide(m, e).m.pcMoved == m.pcMoved
  { }

  lemma StackKeepsPc(m: Machine, e: StackEntry)
    requires WellFormed(Stack(e))
    ensures ExecStack(m, e).m.regs.pc == m.regs.pc && ExecStack(m, e).m.pcMoved == m.pcMoved
  { }

  lemma BitKeepsPc(m: Machine, e: BitEntry)
    ensures ExecBit(m, e).m.regs.pc == m.regs.pc && ExecBit(m, e).m.pcMoved == m.pcMoved
  {
    if e.ShiftR8? || e.ShiftHlAddr? || e.RotateA? {
      ShiftKeepsPc(m, e);
    } else {
      SingleBitKeepsPc(m, e);
    }
  }

  lemma ShiftKeepsPc(m: Machine, e: BitEntry)
    requires e.ShiftR8? || e.ShiftHlAddr? || e.RotateA?
    ensures ExecBit(m, e).m.regs.pc == m.regs.pc && ExecBit(m, e).m.pcMoved == m.pcMoved
  { }

  lemma SingleBitKeepsPc(m: Machine, e: BitEntry)
    requires !(e.ShiftR8? || e.ShiftHlAddr? || e.RotateA?)
    ensures ExecBit(m, e).m.regs.pc == m.regs.pc && ExecBit(m, e).m.pcMoved == m.pcMoved
  {
    if e.BitR8? || e.BitHlAddr? {
      BitTestKeepsPc(m, e);
    } else {
      BitWriteKeepsPc(m, e);
    }
  }

  lemma BitTestKeepsPc(m: Machine, e: BitEntry)
    requires e.BitR8? || e.BitHlAddr?
    ensures ExecBit(m, e).m.regs.pc == m.regs.pc && ExecBit(m, e).m.pcMoved == m.pcMoved
  { }

  lemma BitWriteKeepsPc(m: Machine, e: BitEntry)
    requires e.ResR8? || e.ResHlAddr? || e.SetR8? || e.SetHlAddr?
    ensures ExecBit(m, e).m.regs.pc == m.regs.pc && ExecBit(m, e).m.pcMoved == m.pcMoved
  { }

  /** Every routine other than a jump, call, return or restart leaves PC and the moved mark alone. */
  lemma ExecKeepsPc(m: Machine, i: Instr)
    requires WellFormed(i) && !i.Jump?
    ensures Exec(m, i).m.regs.pc == m.regs.pc && Exec(m, i).m.pcMoved == m.pcMoved
  {
    match i
    case Load(e) => LoadKeepsPc(m, e);
    case LoadA(e) => LoadAKeepsPc(m, e);
    case Arith(e) => ArithKeepsPc(m, e);
    case Wide(e) => WideKeepsPc(m, e);
    case Stack(e) => StackKeepsPc(m, e);
    case Bit(e) => BitKeepsPc(m, e);
    case _ =>
  }

  /** No routine touches the clock; step adds the cycles. */
  lemma ExecKeepsClock(m: Machine, i: Instr)
    ensures Exec(m, i).m.cycles == m.cycles
  {
    match i
    case Load(e) => LoadKeepsClock(m, e);
    case LoadA(e) => LoadAKeepsClock(m, e);
    case Arith(e) => ArithKeepsClock(m, e);
    case Wide(e) => WideKeepsClock(m, e);
    case Stack(e) => StackKeepsClock(m, e);
    case Bit(e) => BitKeepsClock(m, e);
    case Jump(e) => JumpKeepsClock(m, e);
    case _ =>
  }

  lemma LoadKeepsClock(m: Machine, e: LoadEntry)
    ensures ExecLoad(m, e).m.cycles == m.cycles
  { }

  lemma LoadAKeepsClock(m: Machine, e: LoadAEntry)
    ensures ExecLoadA(m, e).m.cycles == m.cycles
  { }

  lemma ArithKeepsClock(m: Machine, e: ArithEntry)
    ensures ExecArith(m, e).m.cycles == m.cycles
  { }

  lemma WideKeepsClock(m: Machine, e: WideEntry)
    ensures ExecWide(m, e).m.cycles == m.cycles
  { }

  lemma StackKeepsClock(m: Machine, e: StackEntry)
    ensures ExecStack(m, e).m.cycles == m.cycles
  { }

  lemma BitKeepsClock(m: Machine, e: BitEntry)
    ensures ExecBit(m, e).m.cycles == m.cycles
  { }

  lemma JumpKeepsClock(m: Machine, e: JumpEntry)
    ensures ExecJump(m, e).m.cycles == m.cycles
  { }


  // ---------------------------------------------------------------- step

  /** The clock advances by exactly the cycles step returns. */
  lemma StepClock(m: Machine)
    ensures StepSpec(m).m.cycles == m.cycles + StepSpec(m).cycles
  {
    ExecKeepsClock(m, Fetch(m).0);
  }

  /**
   * An instruction that does not transfer control moves PC by the advance of its
   * opcode: past its operand bytes (LengthsMatchOperands), or past both bytes of
   * a 0xCB pair.
   */
  lemma StepPastInstruction(m: Machine)
    requires !m.pcMoved && WellFormed(Fetch(m).0) && !Fetch(m).0.Jump?
    ensures StepSpec(m).m.regs.pc == m.regs.pc + Fetch(m).1
  {
    ExecKeepsPc(m, Fetch(m).0);
  }

  /** The entry and advance of an unprefixed opcode, and of a 0xCB pair. */
  lemma FetchCases(m: Machine)
    ensures ReadByte(m, m.regs.pc) != 0xCB ==>
      Fetch(m) == (Decode(ReadByte(m, m.regs.pc)), Advance(ReadByte(m, m.regs.pc)))
    ensures ReadByte(m, m.regs.pc) == 0xCB ==> Fetch(m) == (DecodeCb(ReadByte(m, m.regs.pc + 1)), 2)
  { }

  /** The CB table binds only 8-bit registers and holds no jump. */
  lemma CbEntriesStay(op: Byte)
    ensures WellFormed(DecodeCb(op)) && DecodeCb(op).Bit?
  {
    CbTableIsRegular(op);
  }

  /** A 0xCB-prefixed instruction moves PC past both bytes. */
  lemma StepPrefixed(m: Machine)
    requires !m.pcMoved && ReadByte(m, m.regs.pc) == 0xCB
    ensures StepSpec(m).m.regs.pc == m.regs.pc + 2
  {
    FetchCases(m);
    CbEntriesStay(ReadByte(m, m.regs.pc + 1));
    StepPastInstruction(m);
  }

  /** The entry of NOP and of the unassigned opcodes, and their advance. */
  lemma UnassignedLookup(op: Byte, next: Byte)
    requires op in Unassigned - {0xCB}
    ensures Lookup(op, next) == (Nop, 1)
  {
    NopEntries(op);
    UnassignedAdvance(op);
  }

  lemma UnassignedAdvance(op: Byte)
    requires op in Unassigned - {0xCB}
    ensures Advance(op) == 1
  { }

  /** NOP and the unassigned opcodes change only PC (by one) and the clock (by one cycle). */
  lemma StepUnassigned(m: Machine)
    requires !m.pcMoved && ReadByte(m, m.regs.pc) in Unassigned - {0xCB}
    ensures StepSpec(m) == Semantics.Outcome(m.(regs := m.regs.(pc := m.regs.pc + 1), cycles := m.cycles + 1), 1)
  {
    UnassignedStep(m);
  }

  lemma UnassignedStep(m: Machine)
    requires ReadByte(m, m.regs.pc) in Unassigned - {0xCB}
    ensures StepSpec(m) == Finish(Semantics.Outcome(m, 1), 1)
  {
    UnassignedLookup(ReadByte(m, m.regs.pc), ReadByte(m, m.regs.pc + 1));
    NopRoutine(m);
  }

  lemma NopRoutine(m: Machine)
    ensures Exec(m, Nop) == Semantics.Outcome(m, 1)
  { }

  /** After a taken jump, call, return or restart, PC is where the routine put it. */
  lemma StepTaken(m: Machine)
    requires Exec(m, Fetch(m).0).m.pcMoved
    ensures StepSpec(m).m.regs.pc == Exec(m, Fetch(m).0).m.regs.pc
  { }

  /** JP n16 (0xC3) lands on its operand. */
  lemma StepJumpAbsolute(m: Machine)
    requires ReadByte(m, m.regs.pc) == 0xC3
    ensures StepSpec(m).m.regs.pc == Semantics.Imm16(m)
  {
    FetchCases(m);
    assert Fetch(m).0 == Jump(JpN16);
    JpLands(m);
    StepTaken(m);
  }

  lemma JpLands(m: Machine)
    ensures Exec(m, Jump(JpN16)).m.pcMoved
    ensures Exec(m, Jump(JpN16)).m.regs.pc == Semantics.Imm16(m)
  {
    assert Exec(m, Jump(JpN16)) == Semantics.JpN16(m);
  }

  /** JR e8 (0x18) lands on the end of the instruction plus the signed offset. */
  lemma StepJumpRelative(m: Machine)
    requires ReadByte(m, m.regs.pc) == 0x18
    ensures StepSpec(m).m.regs.pc == m.regs.pc + 2 + SignExtend(Semantics.Imm8(m))
  {
    FetchCases(m);
    assert Fetch(m).0 == Jump(JrE8);
    JrLands(m);
    StepTaken(m);
  }

  lemma JrLands(m: Machine)
    ensures Exec(m, Jump(JrE8)).m.pcMoved
    ensures Exec(m, Jump(JrE8)).m.regs.pc == m.regs.pc + 2 + SignExtend(Semantics.Imm8(m))
  {
    JrRoutine(m);
    JrTarget(m);
  }

  lemma JrRoutine(m: Machine)
    ensures Exec(m, Jump(JrE8)) == Semantics.JrE8(m)
  { }

  lemma JrTarget(m: Machine)
    ensures Semantics.JrE8(m).m.pcMoved
    ensures Semantics.JrE8(m).m.regs.pc == m.regs.pc + 2 + SignExtend(Semantics.Imm8(m))
  {
    var t := m.regs.pc + 2 + SignExtend(Semantics.Imm8(m));
    assert Semantics.JrE8(m).m == SetPcMoved(SetReg16(m, PC, t), true);
    assert m.regs.With16(PC, t).pc == t;
  }

  /** A conditional routine whose condition fails changes nothing but reports its cycles. */
  lemma NotTakenKeepsState(m: Machine, e: JumpEntry)
    requires (e.JpCc? || e.JrCc? || e.CallCc? || e.RetCc?) && !Semantics.Condition(FlagsOf(m), e.cc)
    ensures ExecJump(m, e).m == m
  { }

  /**
   * A conditional jump, call or return whose condition fails moves PC past the
   * instruction like any other.
   */
  lemma StepNotTaken(m: Machine)
    requires !m.pcMoved && Fetch(m).0.Jump?
    requires var e := Fetch(m).0.jump;
      (e.JpCc? || e.JrCc? || e.CallCc? || e.RetCc?) && !Semantics.Condition(FlagsOf(m), e.cc)
    ensures StepSpec(m).m.regs.pc == m.regs.pc + Fetch(m).1
  {
    var f := Fetch(m);
    NotTakenKeepsState(m, f.0.jump);
    assert Exec(m, f.0) == ExecJump(m, f.0.jump);
  }
}
