/**
 * The state of the Game Boy as a value: registers, flags, I/O and timer
 * registers, the joypad, the memories and the cartridge ROM, together with
 * the memory bus (`read`/`write` of `GameState`) as pure functions. The
 * imperative `GameState` class (module State) is proved to agree with these
 * functions.
 */
module StateModel {
  import opened Bits

  /** Every register name an instruction can mention; 8-bit and 16-bit ones share the type. */
  datatype Register = A | F | AF | B | C | BC | D | E | DE | H | L | HL | PC | SP

  /** Branch conditions. */
  datatype CC = Z | NZ | C | NC

  datatype Flags = Flags(z: bool, n: bool, h: bool, c: bool)

  const FlagZ: Byte := 0x80
  const FlagN: Byte := 0x40
  const FlagH: Byte := 0x20
  const FlagC: Byte := 0x10

  /** Interrupt request bits of IF (0xFF0F), in the hardware's layout. */
  const IntVBlank: Byte := 0x01
  const IntLcd: Byte := 0x02
  const IntTimer: Byte := 0x04
  const IntSerial: Byte := 0x08
  const IntJoypad: Byte := 0x10

  /** LCDC bits and sprite attribute bits. */
  const LcdcTileSize: Byte := 0x04
  const LcdcTileMap: Byte := 0x08
  const LcdcTileBgData: Byte := 0x10
  const LcdcWinOn: Byte := 0x20
  const LcdcTileWinData: Byte := 0x40
  const SpritePriority: Byte := 0x80
  const SpriteYFlip: Byte := 0x40
  const SpriteXFlip: Byte := 0x20

  const WramSize := 0x2000
  const VramSize := 0x2000
  const OamSize := 0xA0
  const HramSize := 0x7F
  /** The bus maps 0x0000-0x7FFF straight onto the ROM image, so it must cover that range. */
  const RomMinSize := 0x8000

  predicate IsByteRegister(r: Register) {
    r in {A, F, B, Register.C, D, E, H, L}
  }

  predicate IsWordRegister(r: Register) {
    r in {AF, BC, DE, HL, PC, SP}
  }

  /** The 8-bit halves of a register pair. */
  function HighHalf(r: Register): Register
    requires r in {AF, BC, DE, HL}
  {
    match r
    case AF => A
    case BC => B
    case DE => D
    case HL => H
  }

  function LowHalf(r: Register): Register
    requires r in {AF, BC, DE, HL}
  {
    match r
    case AF => F
    case BC => Register.C
    case DE => E
    case HL => L
  }

  datatype Registers = Registers(a: Byte, f: Byte, b: Byte, c: Byte, d: Byte, e: Byte,
                                 h: Byte, l: Byte, pc: Word, sp: Word)
  {
    /** get_register8: a register that is not 8 bits wide reads as 0. */
    function Get8(r: Register): Byte {
      match r
      case A => a
      case F => f
      case B => b
      case C => c
      case D => d
      case E => e
      case H => h
      case L => l
      case _ => 0
    }

    /** get_register16: a pair reads as its high register followed by its low one. */
    function Get16(r: Register): Word {
      match r
      case AF => Join(f, a)
      case BC => Join(c, b)
      case DE => Join(e, d)
      case HL => Join(l, h)
      case PC => pc
      case SP => sp
      case _ => 0
    }

    /** set_register8: writing a register that is not 8 bits wide does nothing. */
    function With8(r: Register, v: Byte): (q: Registers)
      ensures q.pc == pc && q.sp == sp
    {
      match r
      case A => this.(a := v)
      case F => this.(f := v)
      case B => this.(b := v)
      case C => this.(c := v)
      case D => this.(d := v)
      case E => this.(e := v)
      case H => this.(h := v)
      case L => this.(l := v)
      case _ => this
    }

    /** set_register16: a pair takes the high byte into its high register. */
    function With16(r: Register, v: Word): (q: Registers)
      ensures r != PC ==> q.pc == pc
      ensures r != SP ==> q.sp == sp
    {
      match r
      case AF => this.(a := High(v), f := Low(v))
      case BC => this.(b := High(v), c := Low(v))
      case DE => this.(d := High(v), e := Low(v))
      case HL => this.(h := High(v), l := Low(v))
      case PC => this.(pc := v)
      case SP => this.(sp := v)
      case _ => this
    }
  }

  datatype IORegisters = IORegisters(joyp: Byte, lcdc: Byte, ly: Byte, lyc: Byte, stat: Byte,
                                     scy: Byte, scx: Byte, wy: Byte, wx: Byte,
                                     bgp: Byte, obp0: Byte, obp1: Byte)

  datatype TimerRegisters = TimerRegisters(div: Word, tima: Byte, tma: Byte, tac: Byte)

  datatype Joypad = Joypad(aButton: bool, bButton: bool, startButton: bool, selectButton: bool,
                           upButton: bool, downButton: bool, leftButton: bool, rightButton: bool)

  /**
   * Everything the memory bus reaches: the I/O, timer and interrupt registers,
   * the joypad, the four memories and the cartridge ROM. The cartridge RAM, bank
   * number and MBC kind are never consulted by the bus and are not modelled.
   */
  datatype BusState = BusState(
    io: IORegisters, timer: TimerRegisters, joypad: Joypad, iEnable: Byte, iFlag: Byte, dma: Byte,
    wram: seq<Byte>, vram: seq<Byte>, oam: seq<Byte>, hram: seq<Byte>, rom: seq<Byte>)
  {
    predicate Valid() {
      |wram| == WramSize && |vram| == VramSize && |oam| == OamSize && |hram| == HramSize
      && |rom| >= RomMinSize
    }
  }

  type Bus = b: BusState | b.Valid()
    witness BusState(
      IORegisters(0, 0, 0, 0, 0, 0, 0, 0, 0, 0, 0, 0),
      TimerRegisters(0, 0, 0, 0),
      Joypad(false, false, false, false, false, false, false, false),
      0, 0, 0,
      seq(WramSize, _ => 0), seq(VramSize, _ => 0), seq(OamSize, _ => 0), seq(HramSize, _ => 0),
      seq(RomMinSize, _ => 0))

  /** Everything a `GameState` holds: the CPU's own state and the bus. `cycles` is the u128 clock. */
  datatype Machine = Machine(regs: Registers, ime: bool, pcMoved: bool, cycles: nat, bus: Bus)

  /** start_game and reset_gb: the power-up values of every register, zeroed memories, the given ROM. */
  function Reset(rom: seq<Byte>): (m: Machine)
    requires |rom| >= RomMinSize
    ensures m.bus.rom == rom && m.regs.pc == 0x0100 && m.regs.sp == 0xFFFE
    ensures m.cycles == 0 && !m.ime && !m.pcMoved
    ensures forall i :: 0 <= i < |m.bus.wram| ==> m.bus.wram[i] == 0
  {
    Machine(
      Registers(0x01, 0xB0, 0x00, 0x13, 0x00, 0xD8, 0x01, 0x4D, 0x0100, 0xFFFE),
      false, false, 0,
      BusState(
        IORegisters(0xCF, 0x91, 0, 0, 0x85, 0, 0, 0, 0, 0xFC, 0xFF, 0xFF),
        TimerRegisters(0x0000, 0x00, 0x00, 0xF8),
        Joypad(false, false, false, false, false, false, false, false),
        0, 0, 0,
        seq(WramSize, _ => 0), seq(VramSize, _ => 0), seq(OamSize, _ => 0), seq(HramSize, _ => 0),
        rom))
  }

  // ---------------------------------------------------------------- flags

  /** get_flags: each flag is its bit of F. */
  function GetFlags(f: Byte): Flags {
    Flags(f & FlagZ != 0, f & FlagN != 0, f & FlagH != 0, f & FlagC != 0)
  }

  /** The F register after set_flags: the four flag bits replaced, bits 0-3 kept. */
  function PackFlags(fl: Flags, f: Byte): Byte {
    (f & 0x0F)
    | (if fl.z then FlagZ else 0) | (if fl.n then FlagN else 0)
    | (if fl.h then FlagH else 0) | (if fl.c then FlagC else 0)
  }

  /** One step of set_flags: the bit `mask` of `f` set or cleared. */
  function SetFlagBit(f: Byte, on: bool, mask: Byte): Byte {
    if on then f | mask else f & !mask
  }

  /** The four steps of set_flags, taken in order, give PackFlags. */
  lemma SetFlagsInSteps(fl: Flags, f: Byte)
    ensures SetFlagBit(SetFlagBit(SetFlagBit(SetFlagBit(f, fl.z, FlagZ), fl.n, FlagN), fl.h, FlagH), fl.c, FlagC)
            == PackFlags(fl, f)
  {
  }

  /** Flags written by set_flags are read back unchanged by get_flags. */
  lemma FlagsRoundTrip(fl: Flags, f: Byte)
    ensures GetFlags(PackFlags(fl, f)) == fl
    ensures PackFlags(fl, f) & 0x0F == f & 0x0F
  {
  }

  /** Writing back the flags just read leaves F as it was, including its low nibble. */
  lemma FlagsIdempotent(f: Byte)
    ensures PackFlags(GetFlags(f), f) == f
  {
  }

  // ---------------------------------------------------------------- registers

  /** Reading back a register just written gives the written value; no other register changes. */
  lemma Register8RoundTrip(regs: Registers, r: Register, v: Byte)
    requires IsByteRegister(r)
    ensures regs.With8(r, v).Get8(r) == v
    ensures forall q :: q != r ==> regs.With8(r, v).Get8(q) == regs.Get8(q)
    ensures regs.With8(r, v).pc == regs.pc && regs.With8(r, v).sp == regs.sp
  {
  }

  /**
   * A pair written with set_register16 reads back as the written word, its high
   * half holds the high byte and its low half the low byte, and every 8-bit
   * register outside the pair keeps its value.
   */
  lemma PairRoundTrip(regs: Registers, r: Register, v: Word)
    requires r in {AF, BC, DE, HL}
    ensures regs.With16(r, v).Get16(r) == v
    ensures regs.With16(r, v).Get8(HighHalf(r)) == High(v)
    ensures regs.With16(r, v).Get8(LowHalf(r)) == Low(v)
    ensures forall q :: q != HighHalf(r) && q != LowHalf(r) ==> regs.With16(r, v).Get8(q) == regs.Get8(q)
    ensures regs.With16(r, v).pc == regs.pc && regs.With16(r, v).sp == regs.sp
  {
    JoinSplit(v);
  }

  /** A pair reads as the join of its two halves, and writing the halves sets the pair. */
  lemma PairOfHalves(regs: Registers, r: Register, lo: Byte, hi: Byte)
    requires r in {AF, BC, DE, HL}
    ensures regs.Get16(r) == Join(regs.Get8(LowHalf(r)), regs.Get8(HighHalf(r)))
    ensures regs.With8(HighHalf(r), hi).With8(LowHalf(r), lo).Get16(r) == Join(lo, hi)
  {
  }

  /** Register names of the wrong width read as 0 and are ignored when written. */
  lemma WrongWidthRegisters(regs: Registers, r: Register, v8: Byte, v16: Word)
    ensures !IsByteRegister(r) ==> regs.Get8(r) == 0 && regs.With8(r, v8) == regs
    ensures !IsWordRegister(r) ==> regs.Get16(r) == 0 && regs.With16(r, v16) == regs
  {
  }

  // ---------------------------------------------------------------- bus

  /** The joypad register as read at 0xFF00: a pressed key of a selected group reads as 0. */
  function JoypadRead(joyp: Byte, pad: Joypad): Byte {
    var buttonBits: Byte :=
      0x0F & (if pad.aButton then 0xFE else 0xFF) & (if pad.bButton then 0xFD else 0xFF)
           & (if pad.selectButton then 0xFB else 0xFF) & (if pad.startButton then 0xF7 else 0xFF);
    var dPadBits: Byte :=
      0x0F & (if pad.rightButton then 0xFE else 0xFF) & (if pad.leftButton then 0xFD else 0xFF)
           & (if pad.upButton then 0xFB else 0xFF) & (if pad.downButton then 0xF7 else 0xFF);
    var selectButtons := joyp & 0x20;
    var selectDPad := joyp & 0x10;
    if selectButtons == 0 && selectDPad == 0 then (joyp | 0x0F) & (buttonBits & dPadBits)
    else if selectButtons == 0 then (joyp | 0x0F) & buttonBits
    else if selectDPad == 0 then (joyp | 0x0F) & dPadBits
    else joyp | 0x0F
  }

  /** GameState::read: the byte the bus returns at `addr`. */
  function Read(b: Bus, addr: Word): Byte {
    ReadAt(b, addr as int)
  }

  /**
   * The byte at bus address `a`, given as an integer. The arms of read are
   * grouped by address range: memories, the first block of I/O registers, the
   * LCD registers, and high RAM with IE.
   */
  function ReadAt(b: Bus, a: int): Byte
    requires 0 <= a < 0x10000
  {
    if a < 0xFF00 then ReadMemory(b, a)
    else if a < 0xFF40 then ReadPorts(b, a)
    else if a < 0xFF80 then ReadLcd(b, a)
    else if a <= 0xFFFE then b.hram[a - 0xFF80]
    else b.iEnable
  }

  function ReadMemory(b: Bus, a: int): Byte
    requires 0 <= a < 0xFF00
  {
    if a <= 0x7FFF then b.rom[a]
    else if a <= 0x9FFF then b.vram[a - 0x8000]
    else if a <= 0xBFFF then 0xFF
    else if a <= 0xDFFF then b.wram[a - 0xC000]
    else if a <= 0xFDFF then b.wram[a - 0xE000]
    else if a <= 0xFE9F then b.oam[a - 0xFE00]
    else 0xFF
  }

  function ReadPorts(b: Bus, a: int): Byte
    requires 0xFF00 <= a < 0xFF40
  {
    if a == 0xFF00 then JoypadRead(b.io.joyp, b.joypad)
    else if a == 0xFF04 then High(b.timer.div)
    else if a == 0xFF05 then b.timer.tima
    else if a == 0xFF06 then b.timer.tma
    else if a == 0xFF07 then b.timer.tac
    else if a == 0xFF0F then b.iFlag
    else 0xFF
  }

  function ReadLcd(b: Bus, a: int): Byte
    requires 0xFF40 <= a < 0xFF80
  {
    if a == 0xFF40 then b.io.lcdc
    else if a == 0xFF41 then b.io.stat
    else if a == 0xFF42 then b.io.scy
    else if a == 0xFF43 then b.io.scx
    else if a == 0xFF44 then b.io.ly
    else if a == 0xFF45 then b.io.lyc
    else if a == 0xFF46 then b.dma
    else if a == 0xFF4A then b.io.wy
    else if a == 0xFF4B then b.io.wx
    else 0xFF
  }

  /** dma_oam: DMA records `v` and copies the 160 bytes at `v * 0x100` into OAM. */
  function DmaOam(b: Bus, v: Byte): (d: Bus)
    ensures d == b.(dma := v, oam := d.oam)
    ensures forall i :: 0 <= i < OamSize ==> d.oam[i] == ReadAt(b.(dma := v), v as int * 0x100 + i)
  {
    var b1 := b.(dma := v);
    var start := v as int * 0x100;
    b1.(oam := seq(OamSize, (i: int) requires 0 <= i < OamSize => ReadAt(b1, start + i)))
  }

  /** GameState::write: the bus after it stores `v` at `addr`. */
  function Write(b: Bus, v: Byte, addr: Word): Bus {
    WriteAt(b, v, addr as int)
  }

  /** The bus after it stores `v` at address `a`, given as an integer, grouped as ReadAt is. */
  function WriteAt(b: Bus, v: Byte, a: int): Bus
    requires 0 <= a < 0x10000
  {
    if a < 0xFF00 then WriteMemory(b, v, a)
    else if a < 0xFF40 then WritePorts(b, v, a)
    else if a < 0xFF80 then WriteLcd(b, v, a)
    else if a <= 0xFFFE then b.(hram := b.hram[a - 0xFF80 := v])
    else b.(iEnable := v)
  }

  function WriteMemory(b: Bus, v: Byte, a: int): Bus
    requires 0 <= a < 0xFF00
  {
    if a <= 0x7FFF then b
    else if a <= 0x9FFF then b.(vram := b.vram[a - 0x8000 := v])
    else if a <= 0xBFFF then b
    else if a <= 0xDFFF then b.(wram := b.wram[a - 0xC000 := v])
    else if a <= 0xFDFF then b.(wram := b.wram[a - 0xE000 := v])
    else if a <= 0xFE9F then b.(oam := b.oam[a - 0xFE00 := v])
    else b
  }

  function WritePorts(b: Bus, v: Byte, a: int): Bus
    requires 0xFF00 <= a < 0xFF40
  {
    if a == 0xFF00 then b.(io := b.io.(joyp := (b.io.joyp & 0xCF) | (v & 0x30)))
    else if a == 0xFF04 then b.(timer := b.timer.(div := 0))
    else if a == 0xFF05 then b.(timer := b.timer.(tima := v))
    else if a == 0xFF06 then b.(timer := b.timer.(tma := v))
    else if a == 0xFF07 then b.(timer := b.timer.(tac := v))
    else if a == 0xFF0F then b.(iFlag := v)
    else b
  }

  function WriteLcd(b: Bus, v: Byte, a: int): Bus
    requires 0xFF40 <= a < 0xFF80
  {
    if a == 0xFF40 then b.(io := b.io.(lcdc := v))
    else if a == 0xFF41 then b.(io := b.io.(stat := v))
    else if a == 0xFF42 then b.(io := b.io.(scy := v))
    else if a == 0xFF43 then b.(io := b.io.(scx := v))
    else if a == 0xFF45 then b.(io := b.io.(lyc := v))
    else if a == 0xFF46 then DmaOam(b, v)
    else if a == 0xFF4A then b.(io := b.io.(wy := v))
    else if a == 0xFF4B then b.(io := b.io.(wx := v))
    else b
  }

  // ---------------------------------------------------------------- bus properties

  /** Addresses backed by RAM the bus both reads and writes. */
  predicate IsRam(a: int) {
    0x8000 <= a <= 0x9FFF || 0xC000 <= a <= 0xFE9F || 0xFF80 <= a <= 0xFFFE
  }

  /** The I/O addresses the bus decodes. */
  const MappedIo: set<int> :=
    {0xFF00, 0xFF04, 0xFF05, 0xFF06, 0xFF07, 0xFF0F, 0xFF40, 0xFF41, 0xFF42, 0xFF43,
     0xFF44, 0xFF45, 0xFF46, 0xFF4A, 0xFF4B}

  /** Addresses no arm of read or write decodes (the unusable area and undecoded I/O). */
  predicate Unmapped(a: int) {
    0xFEA0 <= a <= 0xFF7F && a !in MappedIo
  }

  /** The work-RAM cell behind an address of work RAM or its echo. */
  function WramIndex(a: int): int
    requires 0xC000 <= a <= 0xFDFF
  {
    if a <= 0xDFFF then a - 0xC000 else a - 0xE000
  }

  /** An address of the 16-bit bus, as an integer. */
  predicate IsAddress(a: int) {
    0 <= a < 0x10000
  }

  /** No write through the bus changes the ROM or the joypad keys. */
  lemma WriteKeepsRom(b: Bus, v: Byte, a: int)
    requires IsAddress(a)
    ensures WriteAt(b, v, a).joypad == b.joypad && WriteAt(b, v, a).rom == b.rom
  {
    if a < 0xFF00 {
    } else if a < 0xFF40 {
    } else if a < 0xFF80 {
    }
  }

  /** A byte stored in RAM is what the bus then reads at that address. */
  lemma RamReadAfterWrite(b: Bus, v: Byte, a: int)
    requires IsRam(a)
    ensures ReadAt(WriteAt(b, v, a), a) == v
  {
  }

  /** A RAM store changes no other RAM byte, except the same work-RAM cell seen through the echo. */
  lemma RamWriteFrame(b: Bus, v: Byte, a: int, other: int)
    requires IsRam(a) && IsRam(other) && other != a
    requires 0xC000 <= a <= 0xFDFF && 0xC000 <= other <= 0xFDFF ==> WramIndex(a) != WramIndex(other)
    ensures ReadAt(WriteAt(b, v, a), other) == ReadAt(b, other)
  {
    var b' := WriteAt(b, v, a);
    if a <= 0x9FFF {
      assert b' == b.(vram := b.vram[a - 0x8000 := v]);
      VramOnlyFrame(b, b', other);
    } else if a <= 0xFDFF {
      assert b' == b.(wram := b'.wram);
      WramOnlyFrame(b, b', other);
    } else if a <= 0xFE9F {
      assert b' == b.(oam := b.oam[a - 0xFE00 := v]);
    } else {
      assert b' == b.(hram := b.hram[a - 0xFF80 := v]);
    }
  }

  lemma VramOnlyFrame(b: Bus, b': Bus, other: int)
    requires IsRam(other) && b' == b.(vram := b'.vram)
    requires 0x8000 <= other <= 0x9FFF ==> b'.vram[other - 0x8000] == b.vram[other - 0x8000]
    ensures ReadAt(b', other) == ReadAt(b, other)
  {
  }

  lemma WramOnlyFrame(b: Bus, b': Bus, other: int)
    requires IsRam(other) && b' == b.(wram := b'.wram)
    requires 0xC000 <= other <= 0xFDFF ==> b'.wram[WramIndex(other)] == b.wram[WramIndex(other)]
    ensures ReadAt(b', other) == ReadAt(b, other)
  {
  }

  /** 0xE000-0xFDFF mirrors 0xC000-0xDDFF in both directions. */
  lemma EchoAliasing(b: Bus, v: Byte, a: int)
    requires 0xC000 <= a <= 0xDDFF
    ensures ReadAt(b, a + 0x2000) == ReadAt(b, a)
    ensures ReadAt(WriteAt(b, v, a), a + 0x2000) == v
    ensures ReadAt(WriteAt(b, v, a + 0x2000), a) == v
  {
  }

  /** External RAM and undecoded addresses read as 0xFF. */
  lemma OpenBusReads(b: Bus, a: int)
    requires 0xA000 <= a <= 0xBFFF || Unmapped(a)
    ensures ReadAt(b, a) == 0xFF
  {
  }

  /** Stores to ROM, external RAM, undecoded addresses and LY are dropped. */
  lemma IgnoredWrites(b: Bus, v: Byte, a: int)
    requires 0 <= a <= 0x7FFF || 0xA000 <= a <= 0xBFFF || Unmapped(a) || a == 0xFF44
    ensures WriteAt(b, v, a) == b
  {
  }

  /** Any store to DIV (0xFF04) clears it, so DIV then reads 0. */
  lemma DivWriteResets(b: Bus, v: Byte)
    ensures Write(b, v, 0xFF04).timer.div == 0
    ensures Read(Write(b, v, 0xFF04), 0xFF04) == 0
    ensures Write(b, v, 0xFF04).timer.tima == b.timer.tima
  {
  }

  /** A store to JOYP changes only its two select bits (4 and 5). */
  lemma JoypWriteSelectsOnly(b: Bus, v: Byte)
    ensures Write(b, v, 0xFF00).io.joyp & 0x30 == v & 0x30
    ensures Write(b, v, 0xFF00).io.joyp & 0xCF == b.io.joyp & 0xCF
  {
  }

  /** With only the buttons selected, a key reads 0 in its bit exactly when it is held. */
  lemma JoypadButtonsSelected(joyp: Byte, pad: Joypad)
    requires joyp & 0x30 == 0x10
    ensures var r := JoypadRead(joyp, pad);
      (r & 0x01 == 0 <==> pad.aButton) && (r & 0x02 == 0 <==> pad.bButton)
      && (r & 0x04 == 0 <==> pad.selectButton) && (r & 0x08 == 0 <==> pad.startButton)
      && r & 0xF0 == 0
  {
  }

  /** With only the direction keys selected, a key reads 0 in its bit exactly when it is held. */
  lemma JoypadDPadSelected(joyp: Byte, pad: Joypad)
    requires joyp & 0x30 == 0x20
    ensures var r := JoypadRead(joyp, pad);
      (r & 0x01 == 0 <==> pad.rightButton) && (r & 0x02 == 0 <==> pad.leftButton)
      && (r & 0x04 == 0 <==> pad.upButton) && (r & 0x08 == 0 <==> pad.downButton)
      && r & 0xF0 == 0
  {
  }

  /** With both groups selected, a bit reads 0 when either key sharing it is held. */
  lemma JoypadBothSelected(joyp: Byte, pad: Joypad)
    requires joyp & 0x30 == 0
    ensures var r := JoypadRead(joyp, pad);
      (r & 0x01 == 0 <==> pad.aButton || pad.rightButton)
      && (r & 0x02 == 0 <==> pad.bButton || pad.leftButton)
      && (r & 0x04 == 0 <==> pad.selectButton || pad.upButton)
      && (r & 0x08 == 0 <==> pad.startButton || pad.downButton)
      && r & 0xF0 == 0
  {
  }

  /** With neither group selected, the low nibble reads all ones. */
  lemma JoypadNoneSelected(joyp: Byte, pad: Joypad)
    requires joyp & 0x30 == 0x30
    ensures JoypadRead(joyp, pad) == joyp | 0x0F
  {
  }

  /**
   * A store to 0xFF46 records the page in DMA and fills OAM with the 160 bytes
   * of that page: from the ROM for pages 0x00-0x7F, from work RAM for 0xC0-0xDF.
   */
  lemma DmaCopiesPage(b: Bus, v: Byte, i: int)
    requires 0 <= i < OamSize
    ensures Write(b, v, 0xFF46).dma == v
    ensures v <= 0x7F ==> Write(b, v, 0xFF46).oam[i] == b.rom[v as int * 0x100 + i]
    ensures 0xC0 <= v <= 0xDF ==> Write(b, v, 0xFF46).oam[i] == b.wram[(v as int - 0xC0) * 0x100 + i]
    ensures Write(b, v, 0xFF46).vram == b.vram
  {
    var start := v as int * 0x100;
    if v <= 0x7F {
      assert v as int <= 0x7F;
      assert ReadAt(b.(dma := v), start + i) == b.rom[start + i];
    }
    if 0xC0 <= v <= 0xDF {
      assert 0xC0 <= v as int <= 0xDF;
      assert ReadAt(b.(dma := v), start + i) == b.wram[start + i - 0xC000];
    }
  }

  // ---------------------------------------------------------------- timer and LCD counters

  /** update_tima: TIMA counts up; past 0xFF it reloads from TMA and requests the timer interrupt. */
  function UpdateTima(b: Bus): Bus {
    if b.timer.tima > 0xFF - 1 then
      var b1 := b.(timer := b.timer.(tima := b.timer.tma));
      Write(b1, Read(b1, 0xFF0F) | IntTimer, 0xFF0F)
    else
      b.(timer := b.timer.(tima := b.timer.tima + 1))
  }

  /** TIMA overflow reloads TMA and raises IF bit 2; otherwise TIMA grows by one. Nothing else changes. */
  lemma UpdateTimaEffect(b: Bus)
    ensures b.timer.tima == 0xFF ==>
      UpdateTima(b).timer.tima == b.timer.tma && UpdateTima(b).iFlag == b.iFlag | IntTimer
    ensures b.timer.tima < 0xFF ==>
      UpdateTima(b).timer.tima == b.timer.tima + 1 && UpdateTima(b).iFlag == b.iFlag
    ensures UpdateTima(b).io == b.io && UpdateTima(b).timer.tma == b.timer.tma
  {
  }

  /** inc_ly: LY advances by `amount`, modulo the 154 lines of a frame (the u8 sum wraps first). */
  function IncLy(b: Bus, amount: Byte): Bus {
    b.(io := b.io.(ly := NextLy(b.io.ly, amount)))
  }

  /** set_ly: LY takes the value `v`. */
  function SetLy(b: Bus, v: Byte): Bus {
    b.(io := b.io.(ly := v))
  }

  /** The line number `amount` lines after `ly`; the u8 sum wraps before the modulo. */
  function NextLy(ly: Byte, amount: Byte): (next: Byte)
    ensures next < 154
    ensures ly < 154 && amount == 1 ==> next == if ly == 153 then 0 else ly + 1
  {
    (ly + amount) % 154
  }

  // ---------------------------------------------------------------- PPU-facing reads

  /** get_oam_entry: the four bytes of the OAM entry at byte offset `loc % 0xA0`. */
  function OamEntryBytes(b: Bus, loc: Byte): (e: seq<Byte>)
    requires loc % 0xA0 <= 0x9C
    ensures |e| == 4
    ensures forall k :: 0 <= k < 4 ==> e[k] == ReadAt(b, 0xFE00 + (loc % 0xA0) as int + k)
  {
    var l := (loc % 0xA0) as int;
    [b.oam[l], b.oam[l + 1], b.oam[l + 2], b.oam[l + 3]]
  }

  /** get_tile_index: the tile number at position `tileInMap` of the map LCDC bit 3 selects. */
  function TileIndex(b: Bus, tileInMap: int): Byte
    requires 0 <= tileInMap < 0x400
  {
    if b.io.lcdc & LcdcTileMap == 0 then ReadAt(b, 0x9800 + tileInMap)
    else ReadAt(b, 0x9C00 + tileInMap)
  }

  /** The two tile maps are the VRAM bytes at 0x1800 and 0x1C00. */
  lemma TileIndexInVram(b: Bus, tileInMap: int)
    requires 0 <= tileInMap < 0x400
    ensures TileIndex(b, tileInMap) ==
      b.vram[(if b.io.lcdc & LcdcTileMap == 0 then 0x1800 else 0x1C00) + tileInMap]
  {
  }

  /** A tile of 16 bytes at `addr` lies inside VRAM. */
  predicate TileInVram(addr: int) {
    0x8000 <= addr <= 0x9FF0
  }

  /** Row `i` of the tile at `addr`, as get_tile_from_addr packs it: second byte high, first low. */
  function TileRow(b: Bus, addr: int, i: int): Word
    requires TileInVram(addr) && 0 <= i < 8
  {
    var base := addr - 0x8000 + 2 * i;
    Join(b.vram[base], b.vram[base + 1])
  }

  // ---------------------------------------------------------------- the machine through GameState's accessors

  /** set_register8 on the whole state. */
  function SetReg8(m: Machine, r: Register, v: Byte): Machine {
    m.(regs := m.regs.With8(r, v))
  }

  /** set_register16 on the whole state. */
  function SetReg16(m: Machine, r: Register, v: Word): Machine {
    m.(regs := m.regs.With16(r, v))
  }

  /** get_flags on the whole state. */
  function FlagsOf(m: Machine): Flags {
    GetFlags(m.regs.f)
  }

  /** set_flags on the whole state. */
  function SetFlagsOf(m: Machine, fl: Flags): Machine {
    m.(regs := m.regs.(f := PackFlags(fl, m.regs.f)))
  }

  /** read on the whole state. */
  function ReadByte(m: Machine, addr: Word): Byte {
    Read(m.bus, addr)
  }

  /** write on the whole state. */
  function WriteByte(m: Machine, v: Byte, addr: Word): Machine {
    m.(bus := Write(m.bus, v, addr))
  }

  /** set_interrupts on the whole state. */
  function SetIme(m: Machine, on: bool): Machine {
    m.(ime := on)
  }

  /** set_pc_moved on the whole state. */
  function SetPcMoved(m: Machine, moved: bool): Machine {
    m.(pcMoved := moved)
  }

  /** update_clock on the whole state. */
  function AddCycles(m: Machine, n: nat): Machine {
    m.(cycles := m.cycles + n)
  }
}
