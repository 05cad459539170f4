/**
 * The emulator's PPU object: a dot counter, the ten-slot buffer of the sprites
 * on the current line and the 160x144 frame buffer, all updated in place as
 * the CPU's cycles pass. Each method is proved to do what the functions of
 * PpuModel say of the state it starts from.
 */
module Ppu {
  import opened Bits
  import opened StateModel
  import opened State
  import opened PpuModel

  class Ppu {
    /** Dots counted towards the end of the current line (a u128 in the emulator). */
    var dotCounter: nat
    const activeSprites: array<Option<OamEntry>>
    const currentFb: array<Color>

    /**
     * The buffers have their sizes, less than a line of dots is pending, and
     * between two lines the sprite buffer is empty.
     */
    ghost predicate Valid()
      reads this, activeSprites
    {
      activeSprites.Length == BufferSlots && currentFb.Length == ScreenSize
      && dotCounter < DotsPerLine
      && forall j :: 0 <= j < BufferSlots ==> activeSprites[j] == None
    }

    /** PPU::initialize: no dots counted, an empty sprite buffer and an all-zero frame buffer. */
    constructor Initialize()
      ensures Valid() && fresh(activeSprites) && fresh(currentFb)
      ensures dotCounter == 0 && currentFb[..] == seq(ScreenSize, _ => 0)
    {
      dotCounter := 0;
      activeSprites := new Option<OamEntry>[BufferSlots](_ => None);
      currentFb := new Color[ScreenSize](_ => 0);
    }

    /** reset_active_entries: every slot of the sprite buffer becomes empty. */
    method ResetActiveEntries()
      requires activeSprites.Length == BufferSlots
      modifies activeSprites
      ensures forall j :: 0 <= j < BufferSlots ==> activeSprites[j] == None
    {
      forall j | 0 <= j < BufferSlots {
        activeSprites[j] := None;
      }
    }

    /**
     * oam_scan: walks the 40 OAM entries in order and puts each one the scan
     * keeps into the next slot, stopping once all ten slots are filled. Slots
     * past the last kept entry keep what they held.
     */
    method OamScan(gs: GameState)
      requires gs.Valid() && activeSprites.Length == BufferSlots
      modifies activeSprites
      ensures activeSprites[..] == Fill(old(activeSprites[..]), gs.BusView(), Scanned(gs.BusView()))
    {
      var b := gs.BusView();
      ghost var keep := KeptFlags(b);
      ghost var slots := activeSprites[..];
      var count := 0;
      var spriteHeight := SpriteHeight(gs.io.lcdc);
      for i := 0 to 40
        invariant gs.BusView() == b
        invariant count == |Selected(keep, i)| && count <= BufferSlots
        invariant activeSprites[..] == Fill(slots, b, Selected(keep, i))
      {
        if count == BufferSlots {
          SelectedGrows(keep, i, 40);
          FillFull(slots, b, Selected(keep, i), Selected(keep, 40));
          break;
        }
        var entry, kept := ReadEntry(gs, i, spriteHeight);
        if kept {
          assert Selected(keep, i + 1) == Selected(keep, i) + [i];
          FillAppend(slots, b, Selected(keep, i), i);
          activeSprites[count] := Some(entry);
          count := count + 1;
        } else {
          assert Selected(keep, i + 1) == Selected(keep, i);
        }
      }
    }

    /**
     * One round of oam_scan's loop up to its decision: reads the four bytes
     * of entry `i` at byte offset 4i and tests whether the scan keeps it.
     */
    method ReadEntry(gs: GameState, i: int, spriteHeight: Byte) returns (entry: OamEntry, kept: bool)
      requires gs.Valid() && 0 <= i < 40 && spriteHeight == SpriteHeight(gs.io.lcdc)
      ensures entry == Entry(gs.BusView(), i) && kept == Kept(gs.BusView(), i)
    {
      EntryAt(gs.BusView(), i);
      var objEntry := gs.GetOamEntry((i * 4) as Byte);
      entry := OamEntry(objEntry[0], objEntry[1], objEntry[2], objEntry[3]);
      kept := !Hidden(objEntry[0], spriteHeight) && OnLine(objEntry[0], spriteHeight, gs.io.ly);
    }

    /**
     * gen_scanline: the colour code of each of the 160 columns of line LY: the
     * window where it covers the column and the background elsewhere, under
     * the first buffered sprite with an opaque pixel in that column.
     */
    method GenScanline(gs: GameState) returns (line: seq<Byte>)
      requires gs.Valid() && activeSprites.Length == BufferSlots
      ensures line == LineCodes(gs.BusView(), activeSprites[..])
    {
      ghost var codes := LineCodes(gs.BusView(), activeSprites[..]);
      line := [];
      for xScreen := 0 to ScreenWidth
        invariant |line| == xScreen
        invariant forall x :: 0 <= x < xScreen ==> line[x] == codes[x]
      {
        var finalPix := ColumnPixel(gs, xScreen as Byte);
        LineCodesAt(gs.BusView(), activeSprites[..], xScreen);
        line := line + [finalPix];
      }
    }

    /** The body of gen_scanline's column loop: the colour code of column `x` of line LY. */
    method ColumnPixel(gs: GameState, x: Byte) returns (finalPix: Byte)
      requires gs.Valid() && activeSprites.Length == BufferSlots
      ensures finalPix == ScanlinePixel(gs.BusView(), activeSprites[..], x)
    {
      var b := gs.BusView();
      if WindowAt(gs.io.lcdc, gs.io.ly, gs.io.wy, gs.io.wx, x) {
        finalPix := WindowPixel(b, x);
      } else {
        finalPix := BackgroundPixel(b, x);
      }
      ghost var basePix := finalPix;
      ghost var sprites := activeSprites[..];
      var i := 0;
      while i < BufferSlots
        invariant 0 <= i <= BufferSlots
        invariant Composite(b, sprites, i, x, finalPix) == Composite(b, sprites, 0, x, basePix)
      {
        assert activeSprites[i] == sprites[i];
        if activeSprites[i].Some? {
          var sprite := activeSprites[i].value;
          var pixVal := SpritePixel(b, sprite, x);
          if pixVal.Some? {
            if sprite.attrs & SpritePriority == 0 {
              finalPix := pixVal.value;
            } else if finalPix == 0 {
              finalPix := pixVal.value;
            }
            break;
          }
        }
        i := i + 1;
      }
    }

    /**
     * The end of one line inside step: a visible line is drawn; LY advances;
     * the sprite buffer is emptied; the end of line 143 sets IF bit 0 and
     * reports a complete frame, and past line 153 LY returns to 0.
     */
    method FinishLine(gs: GameState) returns (frameReady: bool)
      requires gs.Valid() && activeSprites.Length == BufferSlots && currentFb.Length == ScreenSize
      requires forall j :: 0 <= j < BufferSlots ==> activeSprites[j] == None
      modifies activeSprites, currentFb, gs, gs.wram, gs.vram, gs.oam, gs.hram
      ensures gs.Valid() && gs.View() == old(gs.View()).(bus := gs.BusView())
      ensures forall j :: 0 <= j < BufferSlots ==> activeSprites[j] == None
      ensures var r := EndLine(old(currentFb[..]), old(gs.BusView()));
        currentFb[..] == r.fb && gs.BusView() == r.bus && frameReady == r.frameReady
    {
      if gs.io.ly < VisibleLines {
        DrawVisibleLine(gs);
      }
      frameReady := AdvanceLine(gs);
    }

    /**
     * The rest of the end of a line in step: LY advances, the sprite buffer
     * is emptied, and the end of line 143 sets IF bit 0 and reports a
     * complete frame, while past line 153 LY returns to 0.
     */
    method AdvanceLine(gs: GameState) returns (frameReady: bool)
      requires gs.Valid() && activeSprites.Length == BufferSlots
      modifies activeSprites, gs, gs.wram, gs.vram, gs.oam, gs.hram
      ensures gs.Valid() && gs.View() == old(gs.View()).(bus := EndLineBus(old(gs.BusView())))
      ensures forall j :: 0 <= j < BufferSlots ==> activeSprites[j] == None
      ensures frameReady <==> old(gs.io.ly) + 1 == VisibleLines
    {
      var ly := gs.io.ly;
      gs.IncLy(1);
      ResetActiveEntries();
      if ly + 1 == VisibleLines {
        var flags := gs.Read(0xFF0F);
        RequestVBlank(gs.BusView());
        gs.Write(flags | IntVBlank, 0xFF0F);
        return true;
      }
      if ly + 1 > MaxLine {
        gs.SetLy(0);
      }
      return false;
    }

    /** The drawing half of a visible line in step: oam_scan, gen_scanline, and the copy into the frame buffer. */
    method DrawVisibleLine(gs: GameState)
      requires gs.Valid() && activeSprites.Length == BufferSlots && currentFb.Length == ScreenSize
      requires forall j :: 0 <= j < BufferSlots ==> activeSprites[j] == None
      requires gs.io.ly < VisibleLines
      modifies activeSprites, currentFb
      ensures currentFb[..] == DrawLine(old(currentFb[..]), gs.BusView())
    {
      assert activeSprites[..] == seq(BufferSlots, _ => None);
      OamScan(gs);
      var nextScanline := GenScanline(gs);
      DrawRow(gs.io.ly, nextScanline);
    }

    /** Copies the host colours of a generated line into row `ly` of the frame buffer. */
    method DrawRow(ly: Byte, line: seq<Byte>)
      requires currentFb.Length == ScreenSize && ly < VisibleLines && |line| == ScreenWidth
      modifies currentFb
      ensures currentFb[..] == PutRow(old(currentFb[..]), ly, ColorsOf(line))
    {
      var start := ly as int * ScreenWidth;
      for i := 0 to ScreenWidth
        invariant forall k :: 0 <= k < ScreenSize ==>
          currentFb[k] == if start <= k < start + i then GbColor(line[k - start]) else old(currentFb[k])
      {
        currentFb[start + i] := GbColor(line[i]);
      }
      PutRowCells(old(currentFb[..]), ly, ColorsOf(line));
      assert forall k :: 0 <= k < ScreenSize ==> currentFb[k] == PutRow(old(currentFb[..]), ly, ColorsOf(line))[k];
    }

    /** One round of step's loop: a line's worth of dots is spent on ending the current line. */
    method EndOneLine(gs: GameState) returns (frameReady: bool)
      requires gs.Valid() && activeSprites.Length == BufferSlots && currentFb.Length == ScreenSize
      requires forall j :: 0 <= j < BufferSlots ==> activeSprites[j] == None
      requires dotCounter >= DotsPerLine
      modifies this, activeSprites, currentFb, gs, gs.wram, gs.vram, gs.oam, gs.hram
      ensures gs.Valid() && gs.View() == old(gs.View()).(bus := gs.BusView())
      ensures forall j :: 0 <= j < BufferSlots ==> activeSprites[j] == None
      ensures dotCounter == old(dotCounter) - DotsPerLine
      ensures RunLines(old(dotCounter), old(currentFb[..]), old(gs.BusView())) ==
        if frameReady then StepOutcome(dotCounter, currentFb[..], gs.BusView(), true)
        else RunLines(dotCounter, currentFb[..], gs.BusView())
    {
      dotCounter := dotCounter - DotsPerLine;
      frameReady := FinishLine(gs);
      RunLinesNext(old(dotCounter), old(currentFb[..]), old(gs.BusView()), dotCounter, currentFb[..], gs.BusView(), frameReady);
    }

    /**
     * step: counts `cycles` more dots and ends a line for each whole line of
     * 456 dots, returning as soon as a frame is complete; the result says
     * whether one is. As at most 255 cycles come in at a time, at most one
     * line ends per call.
     */
    method Step(cycles: Byte, gs: GameState) returns (frameReady: bool)
      requires Valid() && gs.Valid()
      modifies this, activeSprites, currentFb, gs, gs.wram, gs.vram, gs.oam, gs.hram
      ensures Valid() && gs.Valid() && gs.View() == old(gs.View()).(bus := gs.BusView())
      ensures var r := RunLines(old(dotCounter) + cycles as int, old(currentFb[..]), old(gs.BusView()));
        dotCounter == r.dots && currentFb[..] == r.fb && gs.BusView() == r.bus && frameReady == r.frameReady
    {
      AtMostOneLine(dotCounter, cycles, currentFb[..], gs.BusView());
      dotCounter := dotCounter + cycles as nat;
      while dotCounter >= DotsPerLine
        invariant activeSprites.Length == BufferSlots && currentFb.Length == ScreenSize
        invariant forall j :: 0 <= j < BufferSlots ==> activeSprites[j] == None
        invariant gs.Valid() && gs.View() == old(gs.View()).(bus := gs.BusView())
        invariant dotCounter < 2 * DotsPerLine
        invariant RunLines(dotCounter, currentFb[..], gs.BusView())
          == RunLines(old(dotCounter) + cycles as int, old(currentFb[..]), old(gs.BusView()))
        decreases dotCounter
      {
        var ready := EndOneLine(gs);
        if ready {
          return true;
        }
      }
      return false;
    }
  }
}
