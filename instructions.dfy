/**
 * The instruction routines as methods that change a GameState in place through
 * its accessors, in the order the routines use them. Each method is proved to
 * leave the state its Semantics function gives for the state it started from,
 * and to return that function's M-cycle cost; the properties of the routines
 * are proved about those functions (module InstructionProps).
 */
module Instructions {
  import opened Bits
  import opened StateModel
  import opened Alu
  import opened State
  import Semantics

  // ---------------------------------------------------------------- operands

  /** The byte after the opcode, as the routines read it. */
  method ReadImm8(s: GameState) returns (val: Byte)
    requires s.Valid()
    ensures val == Semantics.Imm8(s.View())
  {
    val := s.Read(s.regs.pc + 1);
  }

  /** The second byte after the opcode. */
  method ReadSecondOperand(s: GameState) returns (val: Byte)
    requires s.Valid()
    ensures val == ReadByte(s.View(), s.View().regs.pc + 2)
  {
    val := s.Read(s.regs.pc + 2);
  }

  /** The two bytes after the opcode, joined little-endian, as the routines read them. */
  method ReadImm16(s: GameState) returns (val: Word)
    requires s.Valid()
    ensures val == Semantics.Imm16(s.View())
  {
    var lsb := ReadImm8(s);
    var msb := ReadSecondOperand(s);
    val := Join(lsb, msb);
  }

  // ---------------------------------------------------------------- loads

  /** ld_r8_r8 */
  method LdR8R8(s: GameState, r1: Register, r2: Register) returns (cost: nat)
    requires s.Valid()
    modifies s
    ensures s.Valid() && s.View() == Semantics.LdR8R8(old(s.View()), r1, r2).m
    ensures cost == Semantics.LdR8R8(old(s.View()), r1, r2).cycles
  {
    s.SetRegister8(r1, s.regs.Get8(r2));
    cost := 1;
  }

  /** ld_r8_n8 */
  method LdR8N8(s: GameState, r: Register) returns (cost: nat)
    requires s.Valid()
    modifies s
    ensures s.Valid() && s.View() == Semantics.LdR8N8(old(s.View()), r).m
    ensures cost == Semantics.LdR8N8(old(s.View()), r).cycles
  {
    var val := ReadImm8(s);
    s.SetRegister8(r, val);
    cost := 2;
  }

  /** ld_r16_n16 */
  method LdR16N16(s: GameState, r: Register) returns (cost: nat)
    requires s.Valid()
    modifies s
    ensures s.Valid() && s.View() == Semantics.LdR16N16(old(s.View()), r).m
    ensures cost == Semantics.LdR16N16(old(s.View()), r).cycles
  {
    var val := ReadImm16(s);
    s.SetRegister16(r, val);
    cost := 2;
  }

  /** ld_hladdr_r8 */
  method LdHlAddrR8(s: GameState, r: Register) returns (cost: nat)
    requires s.Valid()
    modifies s, s.wram, s.vram, s.oam, s.hram
    ensures s.Valid() && s.View() == Semantics.LdHlAddrR8(old(s.View()), r).m
    ensures cost == Semantics.LdHlAddrR8(old(s.View()), r).cycles
  {
    s.Write(s.regs.Get8(r), s.regs.Get16(HL));
    cost := 2;
  }

  /** ld_hladdr_n8 */
  method LdHlAddrN8(s: GameState) returns (cost: nat)
    requires s.Valid()
    modifies s, s.wram, s.vram, s.oam, s.hram
    ensures s.Valid() && s.View() == Semantics.LdHlAddrN8(old(s.View())).m
    ensures cost == Semantics.LdHlAddrN8(old(s.View())).cycles
  {
    var val := ReadImm8(s);
    s.Write(val, s.regs.Get16(HL));
    cost := 3;
  }

  /** ld_r8_hladdr */
  method LdR8HlAddr(s: GameState, r: Register) returns (cost: nat)
    requires s.Valid()
    modifies s
    ensures s.Valid() && s.View() == Semantics.LdR8HlAddr(old(s.View()), r).m
    ensures cost == Semantics.LdR8HlAddr(old(s.View()), r).cycles
  {
    s.SetRegister8(r, s.Read(s.regs.Get16(HL)));
    cost := 2;
  }

  /** ld_r16addr_a */
  method LdR16AddrA(s: GameState, r: Register) returns (cost: nat)
    requires s.Valid()
    modifies s, s.wram, s.vram, s.oam, s.hram
    ensures s.Valid() && s.View() == Semantics.LdR16AddrA(old(s.View()), r).m
    ensures cost == Semantics.LdR16AddrA(old(s.View()), r).cycles
  {
    s.Write(s.regs.a, s.regs.Get16(r));
    cost := 2;
  }

  /** ld_n16addr_a */
  method LdN16AddrA(s: GameState) returns (cost: nat)
    requires s.Valid()
    modifies s, s.wram, s.vram, s.oam, s.hram
    ensures s.Valid() && s.View() == Semantics.LdN16AddrA(old(s.View())).m
    ensures cost == Semantics.LdN16AddrA(old(s.View())).cycles
  {
    var addr := ReadImm16(s);
    s.Write(s.regs.a, addr);
    cost := 4;
  }

  /** ldh_n8addr_a */
  method LdhN8AddrA(s: GameState) returns (cost: nat)
    requires s.Valid()
    modifies s, s.wram, s.vram, s.oam, s.hram
    ensures s.Valid() && s.View() == Semantics.LdhN8AddrA(old(s.View())).m
    ensures cost == Semantics.LdhN8AddrA(old(s.View())).cycles
  {
    var lsb := ReadImm8(s);
    s.Write(s.regs.a, 0xFF00 | lsb as Word);
    cost := 3;
  }

  /** ldh_caddr_a */
  method LdhCAddrA(s: GameState) returns (cost: nat)
    requires s.Valid()
    modifies s, s.wram, s.vram, s.oam, s.hram
    ensures s.Valid() && s.View() == Semantics.LdhCAddrA(old(s.View())).m
    ensures cost == Semantics.LdhCAddrA(old(s.View())).cycles
  {
    s.Write(s.regs.a, 0xFF00 + s.regs.c as Word);
    cost := 2;
  }

  /** ld_a_r16addr */
  method LdAR16Addr(s: GameState, r: Register) returns (cost: nat)
    requires s.Valid()
    modifies s
    ensures s.Valid() && s.View() == Semantics.LdAR16Addr(old(s.View()), r).m
    ensures cost == Semantics.LdAR16Addr(old(s.View()), r).cycles
  {
    s.SetRegister8(A, s.Read(s.regs.Get16(r)));
    cost := 2;
  }

  /** ld_a_n16addr */
  method LdAN16Addr(s: GameState) returns (cost: nat)
    requires s.Valid()
    modifies s
    ensures s.Valid() && s.View() == Semantics.LdAN16Addr(old(s.View())).m
    ensures cost == Semantics.LdAN16Addr(old(s.View())).cycles
  {
    var addr := ReadImm16(s);
    s.SetRegister8(A, s.Read(addr));
    cost := 4;
  }

  /** ldh_a_n8addr */
  method LdhAN8Addr(s: GameState) returns (cost: nat)
    requires s.Valid()
    modifies s
    ensures s.Valid() && s.View() == Semantics.LdhAN8Addr(old(s.View())).m
    ensures cost == Semantics.LdhAN8Addr(old(s.View())).cycles
  {
    var lsb := ReadImm8(s);
    s.SetRegister8(A, s.Read(0xFF00 | lsb as Word));
    cost := 3;
  }

  /** ldh_a_caddr */
  method LdhACAddr(s: GameState) returns (cost: nat)
    requires s.Valid()
    modifies s
    ensures s.Valid() && s.View() == Semantics.LdhACAddr(old(s.View())).m
    ensures cost == Semantics.LdhACAddr(old(s.View())).cycles
  {
    s.SetRegister8(A, s.Read(s.regs.c as Word + 0xFF00));
    cost := 2;
  }

  /** ld_hliaddr_a */
  method LdHliAddrA(s: GameState) returns (cost: nat)
    requires s.Valid()
    modifies s, s.wram, s.vram, s.oam, s.hram
    ensures s.Valid() && s.View() == Semantics.LdHliAddrA(old(s.View())).m
    ensures cost == Semantics.LdHliAddrA(old(s.View())).cycles
  {
    var _ := LdHlAddrR8(s, A);
    s.SetRegister16(HL, s.regs.Get16(HL) + 1);
    cost := 2;
  }

  /** ld_hldaddr_a */
  method LdHldAddrA(s: GameState) returns (cost: nat)
    requires s.Valid()
    modifies s, s.wram, s.vram, s.oam, s.hram
    ensures s.Valid() && s.View() == Semantics.LdHldAddrA(old(s.View())).m
    ensures cost == Semantics.LdHldAddrA(old(s.View())).cycles
  {
    var _ := LdHlAddrR8(s, A);
    s.SetRegister16(HL, s.regs.Get16(HL) - 1);
    cost := 2;
  }

  /** ld_a_hld */
  method LdAHld(s: GameState) returns (cost: nat)
    requires s.Valid()
    modifies s
    ensures s.Valid() && s.View() == Semantics.LdAHld(old(s.View())).m
    ensures cost == Semantics.LdAHld(old(s.View())).cycles
  {
    var _ := LdAR16Addr(s, HL);
    s.SetRegister16(HL, s.regs.Get16(HL) - 1);
    cost := 2;
  }

  /** ld_a_hli */
  method LdAHli(s: GameState) returns (cost: nat)
    requires s.Valid()
    modifies s
    ensures s.Valid() && s.View() == Semantics.LdAHli(old(s.View())).m
    ensures cost == Semantics.LdAHli(old(s.View())).cycles
  {
    var _ := LdAR16Addr(s, HL);
    s.SetRegister16(HL, s.regs.Get16(HL) + 1);
    cost := 2;
  }

  // ---------------------------------------------------------------- 8-bit arithmetic and logic

  /** general_add_a_n8 */
  method GeneralAddA(s: GameState, val: Byte, carryOn: bool)
    requires s.Valid()
    modifies s
    ensures s.Valid() && s.View() == Semantics.GeneralAddA(old(s.View()), val, carryOn)
  {
    var c: Byte := if carryOn && GetFlags(s.regs.f).c then 1 else 0;
    var r := Add8(s.regs.a, val, c);
    s.SetRegister8(A, r.value);
    s.SetFlags(Flags(r.value == 0, false, r.half, r.carry));
  }

  /** general_sub_a_n8 */
  method GeneralSubA(s: GameState, val: Byte, borrowOn: bool, discard: bool)
    requires s.Valid()
    modifies s
    ensures s.Valid() && s.View() == Semantics.GeneralSubA(old(s.View()), val, borrowOn, discard)
  {
    var c: Byte := if borrowOn && GetFlags(s.regs.f).c then 1 else 0;
    var r := Sub8(s.regs.a, val, c);
    if !discard {
      s.SetRegister8(A, r.value);
    }
    s.SetFlags(Flags(r.value == 0, true, r.half, r.carry));
  }

  /** general_and_a: sets the flags and returns `A & val` for the caller to store. */
  method GeneralAndA(s: GameState, val: Byte) returns (result: Byte)
    requires s.Valid()
    modifies s
    ensures s.Valid() && (s.View(), result) == Semantics.LogicA(old(s.View()), Semantics.And, val)
  {
    result := s.regs.a & val;
    s.SetFlags(Flags(result == 0, false, true, false));
  }

  /** general_or_a: sets the flags and returns `A ^ val` or `A | val` for the caller to store. */
  method GeneralOrA(s: GameState, val: Byte, exclusive: bool) returns (result: Byte)
    requires s.Valid()
    modifies s
    ensures s.Valid()
    ensures (s.View(), result)
         == Semantics.LogicA(old(s.View()), if exclusive then Semantics.Xor else Semantics.Or, val)
  {
    var a := s.regs.a;
    result := if exclusive then a ^ val else a | val;
    s.SetFlags(Flags(result == 0, false, false, false));
  }

  /** The arithmetic operations, each handing its operand to its general routine. */
  method ArithA(s: GameState, op: Semantics.AluOp, val: Byte)
    requires s.Valid() && !Semantics.IsLogic(op)
    modifies s
    ensures s.Valid() && s.View() == Semantics.ArithA(old(s.View()), op, val)
  {
    match op
    case Add => GeneralAddA(s, val, false);
    case Adc => GeneralAddA(s, val, true);
    case Sub => GeneralSubA(s, val, false, false);
    case Sbc => GeneralSubA(s, val, true, false);
    case Cp => GeneralSubA(s, val, false, true);
  }

  /** The logic operations through general_and_a and general_or_a; the result is returned. */
  method LogicA(s: GameState, op: Semantics.AluOp, val: Byte) returns (result: Byte)
    requires s.Valid() && Semantics.IsLogic(op)
    modifies s
    ensures s.Valid() && (s.View(), result) == Semantics.LogicA(old(s.View()), op, val)
  {
    if op == Semantics.And {
      result := GeneralAndA(s, val);
    } else {
      result := GeneralOrA(s, val, op == Semantics.Xor);
    }
  }

  /** add_a_r8, adc_a_r8, sub_a_r8, sbc_a_r8, and_a_r8, xor_a_r8, or_a_r8 and cp_a_r8. */
  method AluR8(s: GameState, op: Semantics.AluOp, r: Register) returns (cost: nat)
    requires s.Valid()
    modifies s
    ensures s.Valid() && s.View() == Semantics.AluR8(old(s.View()), op, r).m
    ensures cost == Semantics.AluR8(old(s.View()), op, r).cycles
  {
    ghost var m0 := s.View();
    var val := s.regs.Get8(r);
    assert val == m0.regs.Get8(r);
    if Semantics.IsLogic(op) {
      var result := LogicA(s, op, val);
      s.SetRegister8(A, result);
    } else {
      ArithA(s, op, val);
    }
    cost := 1;
  }

  /** add_a_hladdr, ..., cp_a_hladdr: the logic forms store their result at HL. */
  method AluHlAddr(s: GameState, op: Semantics.AluOp) returns (cost: nat)
    requires s.Valid()
    modifies s, s.wram, s.vram, s.oam, s.hram
    ensures s.Valid() && s.View() == Semantics.AluHlAddr(old(s.View()), op).m
    ensures cost == Semantics.AluHlAddr(old(s.View()), op).cycles
  {
    var addr := s.regs.Get16(HL);
    var val := s.Read(addr);
    if Semantics.IsLogic(op) {
      var result := LogicA(s, op, val);
      s.Write(result, addr);
    } else {
      ArithA(s, op, val);
    }
    cost := 2;
  }

  /** add_a_n8, ..., cp_a_n8. */
  method AluN8(s: GameState, op: Semantics.AluOp) returns (cost: nat)
    requires s.Valid()
    modifies s
    ensures s.Valid() && s.View() == Semantics.AluN8(old(s.View()), op).m
    ensures cost == Semantics.AluN8(old(s.View()), op).cycles
  {
    var val := ReadImm8(s);
    if Semantics.IsLogic(op) {
      var result := LogicA(s, op, val);
      s.SetRegister8(A, result);
    } else {
      ArithA(s, op, val);
    }
    cost := 2;
  }

  // ---------------------------------------------------------------- increments and decrements

  /** dec_r8 */
  method DecR8(s: GameState, r: Register) returns (cost: nat)
    requires s.Valid()
    modifies s
    ensures s.Valid() && s.View() == Semantics.DecR8(old(s.View()), r).m
    ensures cost == Semantics.DecR8(old(s.View()), r).cycles
  {
    var d := Sub8(s.regs.Get8(r), 1, 0);
    s.SetRegister8(r, d.value);
    s.SetFlags(Flags(d.value == 0, true, d.half, GetFlags(s.regs.f).c));
    cost := 1;
  }

  /** dec_hladdr */
  method DecHlAddr(s: GameState) returns (cost: nat)
    requires s.Valid()
    modifies s, s.wram, s.vram, s.oam, s.hram
    ensures s.Valid() && s.View() == Semantics.DecHlAddr(old(s.View())).m
    ensures cost == Semantics.DecHlAddr(old(s.View())).cycles
  {
    var addr := s.regs.Get16(HL);
    var d := Sub8(s.Read(addr), 1, 0);
    s.Write(d.value, addr);
    s.SetFlags(Flags(d.value == 0, true, d.half, GetFlags(s.regs.f).c));
    cost := 3;
  }

  /** dec_r16 */
  method DecR16(s: GameState, r: Register) returns (cost: nat)
    requires s.Valid()
    modifies s
    ensures s.Valid() && s.View() == Semantics.DecR16(old(s.View()), r).m
    ensures cost == Semantics.DecR16(old(s.View()), r).cycles
  {
    s.SetRegister16(r, s.regs.Get16(r) - 1);
    cost := 2;
  }

  /** inc_r8 */
  method IncR8(s: GameState, r: Register) returns (cost: nat)
    requires s.Valid()
    modifies s
    ensures s.Valid() && s.View() == Semantics.IncR8(old(s.View()), r).m
    ensures cost == Semantics.IncR8(old(s.View()), r).cycles
  {
    var sum := Add8(s.regs.Get8(r), 1, 0);
    s.SetRegister8(r, sum.value);
    s.SetFlags(Flags(sum.value == 0, false, sum.half, GetFlags(s.regs.f).c));
    cost := 1;
  }

  /** inc_hladdr */
  method IncHlAddr(s: GameState) returns (cost: nat)
    requires s.Valid()
    modifies s, s.wram, s.vram, s.oam, s.hram
    ensures s.Valid() && s.View() == Semantics.IncHlAddr(old(s.View())).m
    ensures cost == Semantics.IncHlAddr(old(s.View())).cycles
  {
    var addr := s.regs.Get16(HL);
    var sum := Add8(s.Read(addr), 1, 0);
    s.Write(sum.value, addr);
    s.SetFlags(Flags(sum.value == 0, false, sum.half, GetFlags(s.regs.f).c));
    cost := 3;
  }

  /** inc_r16 */
  method IncR16(s: GameState, r: Register) returns (cost: nat)
    requires s.Valid()
    modifies s
    ensures s.Valid() && s.View() == Semantics.IncR16(old(s.View()), r).m
    ensures cost == Semantics.IncR16(old(s.View()), r).cycles
  {
    s.SetRegister16(r, s.regs.Get16(r) + 1);
    cost := 2;
  }

  // ---------------------------------------------------------------- 16-bit arithmetic

  /** add_hl_r16 */
  method AddHlR16(s: GameState, r: Register) returns (cost: nat)
    requires s.Valid()
    modifies s
    ensures s.Valid() && s.View() == Semantics.AddHlR16(old(s.View()), r).m
    ensures cost == Semantics.AddHlR16(old(s.View()), r).cycles
  {
    var sum := Add16(s.regs.Get16(HL), s.regs.Get16(r));
    s.SetRegister16(HL, sum.value);
    s.SetFlags(Flags(GetFlags(s.regs.f).z, false, sum.half, sum.carry));
    cost := 2;
  }

  /** add_hl_sp */
  method AddHlSp(s: GameState) returns (cost: nat)
    requires s.Valid()
    modifies s
    ensures s.Valid() && s.View() == Semantics.AddHlSp(old(s.View())).m
    ensures cost == Semantics.AddHlSp(old(s.View())).cycles
  {
    var _ := AddHlR16(s, SP);
    cost := 2;
  }

  /** add_sp_e8 */
  method AddSpE8(s: GameState) returns (cost: nat)
    requires s.Valid()
    modifies s
    ensures s.Valid() && s.View() == Semantics.AddSpE8(old(s.View())).m
    ensures cost == Semantics.AddSpE8(old(s.View())).cycles
  {
    var e := ReadImm8(s);
    var sum := Add16Special(s.regs.sp, SignExtend(e));
    s.SetRegister16(SP, sum.value);
    s.SetFlags(Flags(false, false, sum.half, sum.carry));
    cost := 4;
  }

  /** ld_hl_spe8 */
  method LdHlSpE8(s: GameState) returns (cost: nat)
    requires s.Valid()
    modifies s
    ensures s.Valid() && s.View() == Semantics.LdHlSpE8(old(s.View())).m
    ensures cost == Semantics.LdHlSpE8(old(s.View())).cycles
  {
    var e := ReadImm8(s);
    var sum := Add16Special(s.regs.sp, SignExtend(e));
    s.SetRegister16(SP, sum.value);
    s.SetRegister16(HL, sum.value);
    s.SetFlags(Flags(false, false, sum.half, sum.carry));
    cost := 3;
  }

  // ---------------------------------------------------------------- flag and accumulator operations

  /** cpl */
  method Cpl(s: GameState) returns (cost: nat)
    requires s.Valid()
    modifies s
    ensures s.Valid() && s.View() == Semantics.Cpl(old(s.View())).m
    ensures cost == Semantics.Cpl(old(s.View())).cycles
  {
    s.SetRegister8(A, !s.regs.a);
    var was := GetFlags(s.regs.f);
    s.SetFlags(Flags(was.z, true, true, was.c));
    cost := 1;
  }

  /** ccf */
  method Ccf(s: GameState) returns (cost: nat)
    requires s.Valid()
    modifies s
    ensures s.Valid() && s.View() == Semantics.Ccf(old(s.View())).m
    ensures cost == Semantics.Ccf(old(s.View())).cycles
  {
    var was := GetFlags(s.regs.f);
    s.SetFlags(Flags(was.z, false, false, !was.c));
    cost := 1;
  }

  /** scf */
  method Scf(s: GameState) returns (cost: nat)
    requires s.Valid()
    modifies s
    ensures s.Valid() && s.View() == Semantics.Scf(old(s.View())).m
    ensures cost == Semantics.Scf(old(s.View())).cycles
  {
    var was := GetFlags(s.regs.f);
    s.SetFlags(Flags(was.z, false, false, true));
    cost := 1;
  }

  /**
   * The first half of daa: the adjustment built up from H, C and the digits of
   * A, and whether the new C is set.
   */
  method DaaAdjust(flags: Flags, aVal: Byte) returns (adjustment: Byte, carry: bool)
    ensures (adjustment, carry) == Semantics.DaaAdjustment(flags, aVal)
  {
    adjustment := 0;
    carry := flags.c;
    if flags.n {
      if flags.h {
        adjustment := adjustment + 0x06;
      }
      if flags.c {
        adjustment := adjustment + 0x60;
      }
    } else {
      if flags.h || aVal & 0x0F > 0x09 {
        adjustment := adjustment + 0x06;
      }
      if flags.c || aVal > 0x99 {
        adjustment := adjustment + 0x60;
        carry := true;
      }
    }
  }

  /** daa: the adjustment is subtracted from A; Z is set if the result is 0 and otherwise kept. */
  method Daa(s: GameState) returns (cost: nat)
    requires s.Valid()
    modifies s
    ensures s.Valid() && s.View() == Semantics.Daa(old(s.View())).m
    ensures cost == Semantics.Daa(old(s.View())).cycles
  {
    var flags := GetFlags(s.regs.f);
    var aVal := s.regs.a;
    var adjustment, carry := DaaAdjust(flags, aVal);
    var newFlags := Flags(flags.z, flags.n, false, carry);
    var result := aVal - adjustment;
    assert result == Semantics.DaaValue(flags, aVal);
    s.SetRegister8(A, result);
    if result == 0 {
      newFlags := newFlags.(z := true);
    }
    s.SetFlags(newFlags);
    cost := 1;
  }

  // ---------------------------------------------------------------- bit operations

  /** bit_u3_r8 */
  method BitR8(s: GameState, u: Byte, r: Register) returns (cost: nat)
    requires s.Valid() && u < 8
    modifies s
    ensures s.Valid() && s.View() == Semantics.BitR8(old(s.View()), u, r).m
    ensures cost == Semantics.BitR8(old(s.View()), u, r).cycles
  {
    var zero := s.regs.Get8(r) & (1 << u) == 0;
    s.SetFlags(Flags(zero, false, true, GetFlags(s.regs.f).c));
    cost := 2;
  }

  /** bit_u3_hladdr */
  method BitHlAddr(s: GameState, u: Byte) returns (cost: nat)
    requires s.Valid() && u < 8
    modifies s
    ensures s.Valid() && s.View() == Semantics.BitHlAddr(old(s.View()), u).m
    ensures cost == Semantics.BitHlAddr(old(s.View()), u).cycles
  {
    var zero := s.Read(s.regs.Get16(HL)) & (1 << u) == 0;
    s.SetFlags(Flags(zero, false, true, GetFlags(s.regs.f).c));
    cost := 3;
  }

  /** res_u3_r8 */
  method ResR8(s: GameState, u: Byte, r: Register) returns (cost: nat)
    requires s.Valid() && u < 8
    modifies s
    ensures s.Valid() && s.View() == Semantics.ResR8(old(s.View()), u, r).m
    ensures cost == Semantics.ResR8(old(s.View()), u, r).cycles
  {
    s.SetRegister8(r, s.regs.Get8(r) & !(1 << u));
    cost := 2;
  }

  /** res_u3_hladdr */
  method ResHlAddr(s: GameState, u: Byte) returns (cost: nat)
    requires s.Valid() && u < 8
    modifies s, s.wram, s.vram, s.oam, s.hram
    ensures s.Valid() && s.View() == Semantics.ResHlAddr(old(s.View()), u).m
    ensures cost == Semantics.ResHlAddr(old(s.View()), u).cycles
  {
    var addr := s.regs.Get16(HL);
    s.Write(s.Read(addr) & !(1 << u), addr);
    cost := 4;
  }

  /** set_u3_r8 */
  method SetR8(s: GameState, u: Byte, r: Register) returns (cost: nat)
    requires s.Valid() && u < 8
    modifies s
    ensures s.Valid() && s.View() == Semantics.SetR8(old(s.View()), u, r).m
    ensures cost == Semantics.SetR8(old(s.View()), u, r).cycles
  {
    s.SetRegister8(r, s.regs.Get8(r) | (1 << u));
    cost := 2;
  }

  /** set_u3_hladdr */
  method SetHlAddr(s: GameState, u: Byte) returns (cost: nat)
    requires s.Valid() && u < 8
    modifies s, s.wram, s.vram, s.oam, s.hram
    ensures s.Valid() && s.View() == Semantics.SetHlAddr(old(s.View()), u).m
    ensures cost == Semantics.SetHlAddr(old(s.View()), u).cycles
  {
    var addr := s.regs.Get16(HL);
    s.Write(s.Read(addr) | (1 << u), addr);
    cost := 4;
  }

  // ---------------------------------------------------------------- rotates and shifts

  /**
   * The computation in general_rl, general_rlc, general_rr, general_rrc,
   * general_sla, general_sra, general_srl and swap_general: the result and the
   * bit that goes to C, with the old C as `c`.
   */
  method ShiftBits(op: Semantics.ShiftOp, val: Byte, c: bool) returns (result: Byte, newC: bool)
    ensures result == Semantics.ShiftResult(op, val, c)
    ensures newC == Semantics.ShiftCarry(op, val)
  {
    var oldC: Byte := if c then 1 else 0;
    match op {
      case Rl =>
        result := (val << 1) | oldC;
        newC := val >> 7 == 1;
      case Rlc =>
        result := (val << 1) | (val >> 7);
        newC := val >> 7 == 1;
      case Rr =>
        result := (val >> 1) | (oldC << 7);
        newC := val & 1 == 1;
      case Rrc =>
        result := (val >> 1) | ((val & 1) << 7);
        newC := val & 1 == 1;
      case Sla =>
        result := val << 1;
        newC := val >> 7 == 1;
      case Sra =>
        result := (val >> 1) | (val & 0x80);
        newC := val & 1 == 1;
      case Srl =>
        result := val >> 1;
        newC := val & 1 == 1;
      case Swap =>
        result := (val << 4) | (val >> 4);
        newC := false;
    }
  }

  /**
   * The flag half of the same routines: Z (only when `checkZero` for the
   * rotates), N and H cleared, C the bit shifted out; the result is returned
   * for the caller to store.
   */
  method GeneralShift(s: GameState, op: Semantics.ShiftOp, val: Byte, checkZero: bool) returns (result: Byte)
    requires s.Valid()
    modifies s
    ensures s.Valid() && (s.View(), result) == Semantics.GeneralShift(old(s.View()), op, val, checkZero)
  {
    var newC;
    result, newC := ShiftBits(op, val, GetFlags(s.regs.f).c);
    var z := if Semantics.IsRotate(op) then result == 0 && checkZero else result == 0;
    s.SetFlags(Flags(z, false, false, newC));
  }

  /** rl_r8, rlc_r8, rr_r8, rrc_r8, sla_r8, sra_r8, srl_r8 and swap_r8. */
  method ShiftR8(s: GameState, op: Semantics.ShiftOp, r: Register) returns (cost: nat)
    requires s.Valid()
    modifies s
    ensures s.Valid() && s.View() == Semantics.ShiftR8(old(s.View()), op, r).m
    ensures cost == Semantics.ShiftR8(old(s.View()), op, r).cycles
  {
    var result := GeneralShift(s, op, s.regs.Get8(r), true);
    s.SetRegister8(r, result);
    cost := 2;
  }

  /** rl_hladdr, ..., swap_hladdr. */
  method ShiftHlAddr(s: GameState, op: Semantics.ShiftOp) returns (cost: nat)
    requires s.Valid()
    modifies s, s.wram, s.vram, s.oam, s.hram
    ensures s.Valid() && s.View() == Semantics.ShiftHlAddr(old(s.View()), op).m
    ensures cost == Semantics.ShiftHlAddr(old(s.View()), op).cycles
  {
    var addr := s.regs.Get16(HL);
    var result := GeneralShift(s, op, s.Read(addr), true);
    s.Write(result, addr);
    cost := 4;
  }

  /** rla, rlca, rra and rrca. */
  method RotateA(s: GameState, op: Semantics.ShiftOp) returns (cost: nat)
    requires s.Valid() && Semantics.IsRotate(op)
    modifies s
    ensures s.Valid() && s.View() == Semantics.RotateA(old(s.View()), op).m
    ensures cost == Semantics.RotateA(old(s.View()), op).cycles
  {
    var result := GeneralShift(s, op, s.regs.a, false);
    s.SetRegister8(A, result);
    cost := 1;
  }

  // ---------------------------------------------------------------- stack

  /** dec_sp */
  method DecSp(s: GameState) returns (cost: nat)
    requires s.Valid()
    modifies s
    ensures s.Valid() && s.View() == Semantics.DecSp(old(s.View())).m
    ensures cost == Semantics.DecSp(old(s.View())).cycles
  {
    s.SetRegister16(SP, s.regs.sp - 1);
    cost := 2;
  }

  /** inc_sp */
  method IncSp(s: GameState) returns (cost: nat)
    requires s.Valid()
    modifies s
    ensures s.Valid() && s.View() == Semantics.IncSp(old(s.View())).m
    ensures cost == Semantics.IncSp(old(s.View())).cycles
  {
    s.SetRegister16(SP, s.regs.sp + 1);
    cost := 2;
  }

  /**
   * The push sequence written out in push_r16, call_n16, rst_vec and
   * interrupt_handler: SP down, the high byte stored at SP, SP down again,
   * the low byte stored at SP.
   */
  method Push(s: GameState, v: Word)
    requires s.Valid()
    modifies s, s.wram, s.vram, s.oam, s.hram
    ensures s.Valid() && s.View() == Semantics.PushWord(old(s.View()), v)
  {
    var lsb := Low(v);
    var msb := High(v);
    var _ := DecSp(s);
    s.Write(msb, s.regs.sp);
    var _ := DecSp(s);
    s.Write(lsb, s.regs.sp);
  }

  /** push_r16 */
  method PushR16(s: GameState, r: Register) returns (cost: nat)
    requires s.Valid()
    modifies s, s.wram, s.vram, s.oam, s.hram
    ensures s.Valid() && s.View() == Semantics.PushR16(old(s.View()), r).m
    ensures cost == Semantics.PushR16(old(s.View()), r).cycles
  {
    var regVal := s.regs.Get16(r);
    Push(s, regVal);
    cost := 4;
  }

  /** pop_r16 */
  method PopR16(s: GameState, r: Register) returns (cost: nat)
    requires s.Valid()
    modifies s
    ensures s.Valid() && s.View() == Semantics.PopR16(old(s.View()), r).m
    ensures cost == Semantics.PopR16(old(s.View()), r).cycles
  {
    var lsb := s.Read(s.regs.sp);
    var _ := IncSp(s);
    var msb := s.Read(s.regs.sp);
    var _ := IncSp(s);
    s.SetRegister16(r, Join(lsb, msb));
    cost := 3;
  }

  /** ld_n16addr_sp */
  method LdN16AddrSp(s: GameState) returns (cost: nat)
    requires s.Valid()
    modifies s, s.wram, s.vram, s.oam, s.hram
    ensures s.Valid() && s.View() == Semantics.LdN16AddrSp(old(s.View())).m
    ensures cost == Semantics.LdN16AddrSp(old(s.View())).cycles
  {
    var addr := ReadImm16(s);
    var spVal := s.regs.sp;
    s.Write(Low(spVal), addr);
    s.Write(High(spVal), addr + 1);
    cost := 5;
  }

  /** ld_sp_n16addr */
  method LdSpN16Addr(s: GameState) returns (cost: nat)
    requires s.Valid()
    modifies s
    ensures s.Valid() && s.View() == Semantics.LdSpN16Addr(old(s.View())).m
    ensures cost == Semantics.LdSpN16Addr(old(s.View())).cycles
  {
    var val := ReadImm16(s);
    s.SetRegister16(SP, val);
    cost := 3;
  }

  /** ld_sp_hl */
  method LdSpHl(s: GameState) returns (cost: nat)
    requires s.Valid()
    modifies s
    ensures s.Valid() && s.View() == Semantics.LdSpHl(old(s.View())).m
    ensures cost == Semantics.LdSpHl(old(s.View())).cycles
  {
    s.SetRegister16(SP, s.regs.Get16(HL));
    cost := 2;
  }

  // ---------------------------------------------------------------- jumps, calls and returns

  /** jp_n16 */
  method JpN16(s: GameState) returns (cost: nat)
    requires s.Valid()
    modifies s
    ensures s.Valid() && s.View() == Semantics.JpN16(old(s.View())).m
    ensures cost == Semantics.JpN16(old(s.View())).cycles
  {
    var val := ReadImm16(s);
    s.SetRegister16(PC, val);
    s.SetPcMoved(true);
    cost := 4;
  }

  /** jp_hl */
  method JpHl(s: GameState) returns (cost: nat)
    requires s.Valid()
    modifies s
    ensures s.Valid() && s.View() == Semantics.JpHl(old(s.View())).m
    ensures cost == Semantics.JpHl(old(s.View())).cycles
  {
    s.SetRegister16(PC, s.regs.Get16(HL));
    s.SetPcMoved(true);
    cost := 1;
  }

  /** jp_cc */
  method JpCc(s: GameState, cc: CC) returns (cost: nat)
    requires s.Valid()
    modifies s
    ensures s.Valid() && s.View() == Semantics.JpCc(old(s.View()), cc).m
    ensures cost == Semantics.JpCc(old(s.View()), cc).cycles
  {
    var flags := GetFlags(s.regs.f);
    if Semantics.Condition(flags, cc) {
      var _ := JpN16(s);
      return 4;
    }
    cost := 3;
  }

  /** jr_e8: the offset is read as i8 and added to PC + 2, wrapping. */
  method JrE8(s: GameState) returns (cost: nat)
    requires s.Valid()
    modifies s
    ensures s.Valid() && s.View() == Semantics.JrE8(old(s.View())).m
    ensures cost == Semantics.JrE8(old(s.View())).cycles
  {
    var offset := ReadImm8(s);
    var jumpAddr := s.regs.pc + 2 + SignExtend(offset);
    s.SetRegister16(PC, jumpAddr);
    s.SetPcMoved(true);
    cost := 3;
  }

  /** jr_cc */
  method JrCc(s: GameState, cc: CC) returns (cost: nat)
    requires s.Valid()
    modifies s
    ensures s.Valid() && s.View() == Semantics.JrCc(old(s.View()), cc).m
    ensures cost == Semantics.JrCc(old(s.View()), cc).cycles
  {
    var flags := GetFlags(s.regs.f);
    if Semantics.Condition(flags, cc) {
      var _ := JrE8(s);
      return 3;
    }
    cost := 2;
  }

  /** call_n16 */
  method CallN16(s: GameState) returns (cost: nat)
    requires s.Valid()
    modifies s, s.wram, s.vram, s.oam, s.hram
    ensures s.Valid() && s.View() == Semantics.CallN16(old(s.View())).m
    ensures cost == Semantics.CallN16(old(s.View())).cycles
  {
    var nextAddr := s.regs.pc + 3;
    Push(s, nextAddr);
    var _ := JpN16(s);
    cost := 6;
  }

  /** call_cc */
  method CallCc(s: GameState, cc: CC) returns (cost: nat)
    requires s.Valid()
    modifies s, s.wram, s.vram, s.oam, s.hram
    ensures s.Valid() && s.View() == Semantics.CallCc(old(s.View()), cc).m
    ensures cost == Semantics.CallCc(old(s.View()), cc).cycles
  {
    var flags := GetFlags(s.regs.f);
    if Semantics.Condition(flags, cc) {
      var _ := CallN16(s);
      return 6;
    }
    cost := 3;
  }

  /** ret */
  method Ret(s: GameState) returns (cost: nat)
    requires s.Valid()
    modifies s
    ensures s.Valid() && s.View() == Semantics.Ret(old(s.View())).m
    ensures cost == Semantics.Ret(old(s.View())).cycles
  {
    var _ := PopR16(s, PC);
    s.SetPcMoved(true);
    cost := 4;
  }

  /** reti: IME is set before the pop. */
  method Reti(s: GameState) returns (cost: nat)
    requires s.Valid()
    modifies s
    ensures s.Valid() && s.View() == Semantics.Reti(old(s.View())).m
    ensures cost == Semantics.Reti(old(s.View())).cycles
  {
    s.SetInterrupts(true);
    var _ := PopR16(s, PC);
    s.SetPcMoved(true);
    cost := 4;
  }

  /** ret_cc */
  method RetCc(s: GameState, cc: CC) returns (cost: nat)
    requires s.Valid()
    modifies s
    ensures s.Valid() && s.View() == Semantics.RetCc(old(s.View()), cc).m
    ensures cost == Semantics.RetCc(old(s.View()), cc).cycles
  {
    var flags := GetFlags(s.regs.f);
    if Semantics.Condition(flags, cc) {
      var _ := Ret(s);
      return 5;
    }
    cost := 2;
  }

  /** rst_vec */
  method RstVec(s: GameState, vec: Byte) returns (cost: nat)
    requires s.Valid()
    modifies s, s.wram, s.vram, s.oam, s.hram
    ensures s.Valid() && s.View() == Semantics.RstVec(old(s.View()), vec).m
    ensures cost == Semantics.RstVec(old(s.View()), vec).cycles
  {
    var nextAddr := s.regs.pc + 1;
    Push(s, nextAddr);
    s.SetRegister16(PC, Join(vec, 0));
    s.SetPcMoved(true);
    cost := 4;
  }

  // ---------------------------------------------------------------- control

  /** di */
  method Di(s: GameState) returns (cost: nat)
    requires s.Valid()
    modifies s
    ensures s.Valid() && s.View() == Semantics.Di(old(s.View())).m
    ensures cost == Semantics.Di(old(s.View())).cycles
  {
    s.SetInterrupts(false);
    cost := 1;
  }

  /** ei */
  method Ei(s: GameState) returns (cost: nat)
    requires s.Valid()
    modifies s
    ensures s.Valid() && s.View() == Semantics.Ei(old(s.View())).m
    ensures cost == Semantics.Ei(old(s.View())).cycles
  {
    s.SetInterrupts(true);
    cost := 1;
  }

  /** stop */
  method Stop(s: GameState) returns (cost: nat)
    requires s.Valid()
    ensures cost == Semantics.Idle(s.View()).cycles
  {
    cost := 0;
  }

  /** halt */
  method Halt(s: GameState) returns (cost: nat)
    requires s.Valid()
    ensures cost == Semantics.Idle(s.View()).cycles
  {
    cost := 0;
  }

  // ---------------------------------------------------------------- interrupt dispatch

  /**
   * The branch chain of interrupt_handler: the IF bit served, the first set
   * one among VBlank, LCD, Timer and Serial and otherwise Joypad, and its
   * vector.
   */
  method ServedInterrupt(iFlag: Byte) returns (mask: Byte, jumpAddr: Word)
    ensures (mask, jumpAddr) == Semantics.PendingInterrupt(iFlag)
  {
    if iFlag & IntVBlank != 0 {
      mask, jumpAddr := IntVBlank, 0x0040;
    } else if iFlag & IntLcd != 0 {
      mask, jumpAddr := IntLcd, 0x0048;
    } else if iFlag & IntTimer != 0 {
      mask, jumpAddr := IntTimer, 0x0050;
    } else if iFlag & IntSerial != 0 {
      mask, jumpAddr := IntSerial, 0x0058;
    } else {
      mask, jumpAddr := IntJoypad, 0x0060;
    }
  }

  /**
   * interrupt_handler: with any of IF bits 0-4 set, IME is cleared, the served
   * bit is cleared in IF, PC is pushed and the handler jumps to the vector.
   */
  method InterruptHandler(s: GameState)
    requires s.Valid()
    modifies s, s.wram, s.vram, s.oam, s.hram
    ensures s.Valid() && s.View() == Semantics.InterruptHandler(old(s.View()))
  {
    var iFlag := s.Read(0xFF0F);
    if Semantics.AnyPending(iFlag) {
      s.SetInterrupts(false);
      var mask, jumpAddr := ServedInterrupt(iFlag);
      s.Write(Semantics.Acknowledge(iFlag, mask), 0xFF0F);
      var currAddr := s.regs.pc;
      Push(s, currAddr);
      s.SetRegister16(PC, jumpAddr);
      s.SetPcMoved(true);
      s.UpdateClock(5);
    }
  }
}
