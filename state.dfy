/**
 * GameState as an object whose methods update it in place, as the emulator's
 * `GameState` does. Every method is proved to take the state to the value the
 * pure functions of StateModel give for the state it started from.
 */
module State {
  import opened Bits
  import opened StateModel

  class GameState {
    var regs: Registers
    var ime: bool
    var pcMoved: bool
    var cycles: nat
    var io: IORegisters
    var timer: TimerRegisters
    var joypad: Joypad
    var iEnable: Byte
    var iFlag: Byte
    var dma: Byte
    const wram: array<Byte>
    const vram: array<Byte>
    const oam: array<Byte>
    const hram: array<Byte>
    const rom: seq<Byte>
    ghost const Repr: set<object>

    /** The memories have their fixed sizes, are four distinct arrays, and the ROM covers 0x0000-0x7FFF. */
    ghost predicate Valid() {
      Repr == {this, wram, vram, oam, hram}
      && wram.Length == WramSize && vram.Length == VramSize
      && oam.Length == OamSize && hram.Length == HramSize && |rom| >= RomMinSize
      && wram != vram && wram != oam && wram != hram && vram != oam && vram != hram && oam != hram
    }

    /** The bus half of the state as a value. */
    function BusView(): Bus
      reads this, wram, vram, oam, hram
      requires Valid()
    {
      BusState(io, timer, joypad, iEnable, iFlag, dma, wram[..], vram[..], oam[..], hram[..], rom)
    }

    /** The whole state as a value. */
    function View(): Machine
      reads this, wram, vram, oam, hram
      requires Valid()
    {
      Machine(regs, ime, pcMoved, cycles, BusView())
    }

    /** GameState::start_game with the cartridge image `romImage` (reading the file is not modelled). */
    constructor (romImage: seq<Byte>)
      requires |romImage| >= RomMinSize
      ensures Valid() && fresh(Repr - {this})
      ensures View() == Reset(romImage)
    {
      regs := Registers(0x01, 0xB0, 0x00, 0x13, 0x00, 0xD8, 0x01, 0x4D, 0x0100, 0xFFFE);
      ime := false;
      pcMoved := false;
      cycles := 0;
      io := IORegisters(0xCF, 0x91, 0, 0, 0x85, 0, 0, 0, 0, 0xFC, 0xFF, 0xFF);
      timer := TimerRegisters(0x0000, 0x00, 0x00, 0xF8);
      joypad := Joypad(false, false, false, false, false, false, false, false);
      iEnable := 0;
      iFlag := 0;
      dma := 0;
      var w := new Byte[WramSize](_ => 0);
      var v := new Byte[VramSize](_ => 0);
      var o := new Byte[OamSize](_ => 0);
      var h := new Byte[HramSize](_ => 0);
      wram, vram, oam, hram := w, v, o, h;
      rom := romImage;
      Repr := {this, w, v, o, h};
    }

    /** set_register8 */
    method SetRegister8(r: Register, v: Byte)
      requires Valid()
      modifies this
      ensures Valid() && View() == SetReg8(old(View()), r, v)
    {
      regs := regs.With8(r, v);
    }

    /** set_register16 */
    method SetRegister16(r: Register, v: Word)
      requires Valid()
      modifies this
      ensures Valid() && View() == SetReg16(old(View()), r, v)
    {
      regs := regs.With16(r, v);
    }

    /** set_flags: each flag bit of F is set or cleared on its own; bits 0-3 of F stay. */
    method SetFlags(fl: Flags)
      requires Valid()
      modifies this
      ensures Valid() && View() == SetFlagsOf(old(View()), fl)
    {
      var f := regs.f;
      f := SetFlagBit(f, fl.z, FlagZ);
      f := SetFlagBit(f, fl.n, FlagN);
      f := SetFlagBit(f, fl.h, FlagH);
      f := SetFlagBit(f, fl.c, FlagC);
      SetFlagsInSteps(fl, regs.f);
      regs := regs.(f := f);
    }

    /** set_interrupts: the master interrupt enable. */
    method SetInterrupts(on: bool)
      requires Valid()
      modifies this
      ensures Valid() && View() == StateModel.SetIme(old(View()), on)
    {
      ime := on;
    }

    /** set_pc_moved */
    method SetPcMoved(moved: bool)
      requires Valid()
      modifies this
      ensures Valid() && View() == StateModel.SetPcMoved(old(View()), moved)
    {
      pcMoved := moved;
    }

    /** update_clock: the cycle counter grows by `addCycles`. */
    method UpdateClock(addCycles: nat)
      requires Valid()
      modifies this
      ensures Valid() && View() == AddCycles(old(View()), addCycles)
    {
      cycles := cycles + addCycles;
    }

    /** GameState::read */
    function Read(addr: Word): Byte
      reads this, wram, vram, oam, hram
      requires Valid()
    {
      StateModel.Read(BusView(), addr)
    }

    /**
     * dma_oam: records the page and copies the 160 bytes from `page * 0x100`
     * into OAM one at a time, reading each through the bus.
     */
    method DmaOam(page: Byte)
      requires Valid()
      modifies this, oam
      ensures Valid() && View() == old(View()).(bus := StateModel.DmaOam(old(BusView()), page))
    {
      dma := page;
      var start := page as int * 0x100;
      CopyToOam(start);
      DmaFinished(old(BusView()), BusView(), page);
    }

    /** The copy loop of dma_oam: OAM byte `i` takes the bus byte at `start + i`. */
    method CopyToOam(start: int)
      requires Valid() && start % 0x100 == 0 && 0 <= start <= 0xFF00
      modifies oam
      ensures Valid() && View() == old(View()).(bus := old(BusView()).(oam := oam[..]))
      ensures forall k :: 0 <= k < OamSize ==> oam[k] == ReadAt(old(BusView()), start + k)
    {
      ghost var b1 := BusView();
      for i := 0 to OamSize
        invariant Valid()
        invariant BusView() == b1.(oam := oam[..])
        invariant forall k :: 0 <= k < i ==> oam[k] == ReadAt(b1, start + k)
        invariant forall k :: i <= k < OamSize ==> oam[k] == b1.oam[k]
      {
        DmaReadUnaffected(b1, oam[..], start, i);
        oam[i] := ReadAt(BusView(), start + i);
      }
    }

    /** The byte DMA copies at step `i` is not one of the OAM bytes it has already overwritten. */
    static lemma DmaReadUnaffected(b1: Bus, o: seq<Byte>, start: int, i: int)
      requires 0 <= i < OamSize && start % 0x100 == 0 && 0 <= start <= 0xFF00 && |o| == OamSize
      requires forall k :: i <= k < OamSize ==> o[k] == b1.oam[k]
      ensures ReadAt(b1.(oam := o), start + i) == ReadAt(b1, start + i)
    {
    }

    /** When every OAM byte holds its page byte, the bus is what DMA produces. */
    static lemma DmaFinished(b0: Bus, b: Bus, page: Byte)
      requires b == b0.(dma := page, oam := b.oam)
      requires forall k :: 0 <= k < OamSize ==> b.oam[k] == ReadAt(b0.(dma := page), page as int * 0x100 + k)
      ensures b == StateModel.DmaOam(b0, page)
    {
    }

    /** GameState::write */
    method Write(v: Byte, addr: Word)
      requires Valid()
      modifies this, wram, vram, oam, hram
      ensures Valid() && View() == WriteByte(old(View()), v, addr)
    {
      var a := addr as int;
      if a < 0xFF00 {
        WriteMemory(v, a);
      } else if a < 0xFF40 {
        WritePorts(v, a);
      } else if a < 0xFF80 {
        WriteLcd(v, a);
      } else if a <= 0xFFFE {
        hram[a - 0xFF80] := v;
      } else {
        iEnable := v;
      }
    }

    method WriteMemory(v: Byte, a: int)
      requires Valid() && 0 <= a < 0xFF00
      modifies wram, vram, oam
      ensures Valid() && View() == old(View()).(bus := StateModel.WriteMemory(old(BusView()), v, a))
    {
      if a <= 0x7FFF {
      } else if a <= 0x9FFF {
        vram[a - 0x8000] := v;
      } else if a <= 0xBFFF {
      } else if a <= 0xDFFF {
        wram[a - 0xC000] := v;
      } else if a <= 0xFDFF {
        wram[a - 0xE000] := v;
      } else if a <= 0xFE9F {
        oam[a - 0xFE00] := v;
      }
    }

    method WritePorts(v: Byte, a: int)
      requires Valid() && 0xFF00 <= a < 0xFF40
      modifies this
      ensures Valid() && View() == old(View()).(bus := StateModel.WritePorts(old(BusView()), v, a))
    {
      if a == 0xFF00 {
        io := io.(joyp := (io.joyp & 0xCF) | (v & 0x30));
      } else if a == 0xFF04 {
        timer := timer.(div := 0);
      } else if a == 0xFF05 {
        timer := timer.(tima := v);
      } else if a == 0xFF06 {
        timer := timer.(tma := v);
      } else if a == 0xFF07 {
        timer := timer.(tac := v);
      } else if a == 0xFF0F {
        iFlag := v;
      }
    }

    method WriteLcd(v: Byte, a: int)
      requires Valid() && 0xFF40 <= a < 0xFF80
      modifies this, oam
      ensures Valid() && View() == old(View()).(bus := StateModel.WriteLcd(old(BusView()), v, a))
    {
      if a == 0xFF40 {
        io := io.(lcdc := v);
      } else if a == 0xFF41 {
        io := io.(stat := v);
      } else if a == 0xFF42 {
        io := io.(scy := v);
      } else if a == 0xFF43 {
        io := io.(scx := v);
      } else if a == 0xFF45 {
        io := io.(lyc := v);
      } else if a == 0xFF46 {
        DmaOam(v);
      } else if a == 0xFF4A {
        io := io.(wy := v);
      } else if a == 0xFF4B {
        io := io.(wx := v);
      }
    }

    /** update_tima: TIMA counts up; on overflow it reloads from TMA and sets IF bit 2 through the bus. */
    method UpdateTima()
      requires Valid()
      modifies this, wram, vram, oam, hram
      ensures Valid() && View() == old(View()).(bus := StateModel.UpdateTima(old(BusView())))
    {
      if timer.tima > 0xFF - 1 {
        timer := timer.(tima := timer.tma);
        var flags := Read(0xFF0F);
        Write(flags | IntTimer, 0xFF0F);
      } else {
        timer := timer.(tima := timer.tima + 1);
      }
    }

    /** inc_ly */
    method IncLy(amount: Byte)
      requires Valid()
      modifies this
      ensures Valid() && View() == old(View()).(bus := StateModel.IncLy(old(BusView()), amount))
      ensures io.ly < 154
    {
      io := io.(ly := NextLy(io.ly, amount));
    }

    /** set_ly */
    method SetLy(v: Byte)
      requires Valid()
      modifies this
      ensures Valid() && View() == old(View()).(bus := StateModel.SetLy(old(BusView()), v))
    {
      io := io.(ly := v);
    }

    /** update_joypad: the eight buttons take the host's pressed state. */
    method UpdateJoypad(a: bool, b: bool, start: bool, select: bool, up: bool, down: bool, left: bool, right: bool)
      requires Valid()
      modifies this
      ensures Valid()
      ensures View() == old(View()).(bus := old(BusView()).(joypad := Joypad(a, b, start, select, up, down, left, right)))
    {
      joypad := joypad.(aButton := a, bButton := b, startButton := start, selectButton := select);
      joypad := joypad.(upButton := up, downButton := down, leftButton := left, rightButton := right);
    }

    /** get_oam_entry */
    function GetOamEntry(loc: Byte): (e: seq<Byte>)
      reads this, wram, vram, oam, hram
      requires Valid() && loc % 0xA0 <= 0x9C
      ensures |e| == 4
    {
      OamEntryBytes(BusView(), loc)
    }

    /** get_tile_index */
    function GetTileIndex(tileInMap: int): Byte
      reads this, wram, vram, oam, hram
      requires Valid() && 0 <= tileInMap < 0x400
    {
      TileIndex(BusView(), tileInMap)
    }

    /** get_tile_from_addr: the eight rows of the 16-byte tile at `addr`, each as a little-endian word. */
    method GetTileFromAddr(addr: int) returns (tile: seq<Word>)
      requires Valid() && TileInVram(addr)
      ensures |tile| == 8
      ensures forall i :: 0 <= i < 8 ==> tile[i] == TileRow(BusView(), addr, i)
    {
      tile := [];
      for i := 0 to 8
        invariant |tile| == i
        invariant forall k :: 0 <= k < i ==> tile[k] == TileRow(BusView(), addr, k)
      {
        var byte1 := vram[addr + 2 * i - 0x8000];
        var byte2 := vram[addr + 2 * i + 1 - 0x8000];
        tile := tile + [((byte2 as Word) << 8) | (byte1 as Word)];
      }
    }
  }
}
