/**
 * The picture-processing unit as values: the two-bit pixel of a tile, the host
 * colour of a pixel, the entries the OAM scan keeps, the pixel each column of a
 * scanline shows, and what the dot counter does to LY, IF and the frame buffer.
 * The `Ppu` class (module Ppu) is proved to do what these functions say.
 */
module PpuModel {
  import opened Bits
  import opened StateModel

  /** A host pixel, 0xAARRGGBB. */
  type Color = bv32

  /** DOTS_PER_SL, VISIBLE_SL and MAX_SL. */
  const DotsPerLine: nat := 456
  const VisibleLines: Byte := 144
  const MaxLine: Byte := 153

  const ScreenWidth: nat := 160
  const ScreenSize: nat := 144 * 160
  const BufferSlots: nat := 10

  /** The colour the host shows for a code outside 0..3. */
  const Magenta: Color := 0xFFFF00FF

  /** One four-byte object attribute entry. */
  datatype OamEntry = OamEntry(yPos: Byte, xPos: Byte, tileIndex: Byte, attrs: Byte)

  // ---------------------------------------------------------------- colours and tiles

  /** gb_color_to_u32: the host colour of a two-bit colour code. */
  function GbColor(code: Byte): (c: Color)
    ensures code <= 3 <==> c != Magenta
  {
    match code
    case 0 => 0xFFFFFFFF
    case 1 => 0xFF9BB7FF
    case 2 => 0xFF4863A0
    case 3 => 0xFF0A0A40
    case _ => Magenta
  }

  /** The four colour codes show four different colours. */
  lemma ColorsDistinct(c1: Byte, c2: Byte)
    requires c1 <= 3 && c2 <= 3 && c1 != c2
    ensures GbColor(c1) != GbColor(c2)
  {
  }

  /**
   * The tile address of get_tile_pixel. The branch for LCDC bit 4 clear (the
   * background's "0x9000" mode) computes the same address as the other one.
   * The 16-bit sums never wrap, so they are taken as integers.
   */
  function TileAddress(lcdc: Byte, tileIndex: Byte, sprite: bool): (addr: int)
    ensures addr == 0x8000 + 16 * tileIndex as int
  {
    if lcdc & LcdcTileBgData == 0 && !sprite then
      if tileIndex <= 127 then 0x8000 + tileIndex as int * 16
      else 0x8800 + (tileIndex - 128) as int * 16
    else
      0x8000 + tileIndex as int * 16
  }

  /** Bit `7 - x` of a byte: the bit of column `x`, the leftmost column being bit 7. */
  function ColumnBit(v: Byte, x: Byte): (bit: Byte)
    requires x < 8
    ensures bit <= 1
  {
    (v >> (7 - x)) & 1
  }

  /**
   * The colour code of column `x` in a tile row packed as get_tile_from_addr
   * packs it: the high byte gives the code's high bit, the low byte its low bit.
   */
  function RowPixel(tileRow: Word, x: Byte): (p: Byte)
    requires x < 8
    ensures p <= 3
    ensures p == 2 * ColumnBit(High(tileRow), x) + ColumnBit(Low(tileRow), x)
  {
    var upperByte := (tileRow & 0xFF00) >> 8;
    var lowerByte := tileRow & 0x00FF;
    var upperBit := (upperByte >> (7 - x)) & 1;
    var lowerBit := (lowerByte >> (7 - x)) & 1;
    ((upperBit << 1) | lowerBit) as Byte
  }

  /** Row y of the tile with index `tileIndex` is the pair of VRAM bytes at 16 * tileIndex + 2y. */
  lemma TileRowBytes(b: Bus, lcdc: Byte, tileIndex: Byte, y: Byte, sprite: bool)
    requires y < 8
    ensures var row := 16 * tileIndex as int + 2 * y as int;
      TileRow(b, TileAddress(lcdc, tileIndex, sprite), y as int) == Join(b.vram[row], b.vram[row + 1])
  {
  }

  /** get_tile_pixel: the colour code of column `xTile`, row `yTile` of the tile. */
  function TilePixel(b: Bus, lcdc: Byte, tileIndex: Byte, xTile: Byte, yTile: Byte, sprite: bool): (p: Byte)
    requires xTile < 8 && yTile < 8
    ensures p <= 3
  {
    RowPixel(TileRow(b, TileAddress(lcdc, tileIndex, sprite), yTile as int), xTile)
  }

  /**
   * Row y of a tile is the two bytes at offset `row` = 16 * tileIndex + 2y of
   * VRAM: the second gives the colour code's high bit, the first its low bit.
   */
  lemma TilePixelBytes(b: Bus, lcdc: Byte, tileIndex: Byte, xTile: Byte, yTile: Byte, sprite: bool, row: int)
    requires xTile < 8 && yTile < 8
    requires row == 16 * tileIndex as int + 2 * yTile as int
    ensures 0 <= row && row + 1 < |b.vram|
    ensures TilePixel(b, lcdc, tileIndex, xTile, yTile, sprite) ==
      2 * ColumnBit(b.vram[row + 1], xTile) + ColumnBit(b.vram[row], xTile)
  {
    TileRowInVram(tileIndex, yTile, row);
    TileRowBytes(b, lcdc, tileIndex, yTile, sprite);
    RowPixelOfJoin(b.vram[row], b.vram[row + 1], xTile);
  }

  /** The two bytes of any row of any of the 256 tiles lie inside the 8 KiB of VRAM. */
  lemma TileRowInVram(tileIndex: Byte, yTile: Byte, row: int)
    requires yTile < 8
    requires row == 16 * tileIndex as int + 2 * yTile as int
    ensures 0 <= row && row + 1 < 0x2000
  {
  }

  /** In the row packed from a low and a high byte, the high byte gives the code's high bit. */
  lemma RowPixelOfJoin(lo: Byte, hi: Byte, x: Byte)
    requires x < 8
    ensures RowPixel(Join(lo, hi), x) == 2 * ColumnBit(hi, x) + ColumnBit(lo, x)
  {
    SplitJoin(lo, hi);
  }

  // ---------------------------------------------------------------- OAM scan

  /** The sprite height minus one that LCDC bit 2 selects: 7 for 8x8 objects, 15 for 8x16. */
  function SpriteHeight(lcdc: Byte): (h: Byte)
    ensures h == 7 || h == 15
  {
    if lcdc & LcdcTileSize == 0 then 7 else 15
  }

  /** OAM entry `i` of the 40: the four bytes from offset 4i on. */
  function Entry(b: Bus, i: int): OamEntry
    requires 0 <= i < 40
  {
    OamEntry(b.oam[4 * i], b.oam[4 * i + 1], b.oam[4 * i + 2], b.oam[4 * i + 3])
  }

  /** The four bytes get_oam_entry returns for byte offset 4i (as oam_scan computes it) are entry `i`. */
  lemma EntryAt(b: Bus, i: int)
    requires 0 <= i < 40
    ensures (i * 4) as Byte % 0xA0 <= 0x9C
    ensures var e := Entry(b, i);
      OamEntryBytes(b, (i * 4) as Byte) == [e.yPos, e.xPos, e.tileIndex, e.attrs]
  {
    OamOffset(i);
  }

  /** Byte offset 4i of entry `i` survives both the cast to a byte and the reduction modulo 0xA0. */
  lemma OamOffset(i: int)
    requires 0 <= i < 40
    ensures (i * 4) as Byte % 0xA0 <= 0x9C
    ensures ((i * 4) as Byte % 0xA0) as int == 4 * i
  {
    SmallByte(i * 4);
    ByteBelow((i * 4) as Byte, 0xA0);
    BelowOamSize((i * 4) as Byte);
  }

  /**
   * The byte whose value is `n`, counted up from zero: a proof device for
   * SmallByte, not a model of any routine of the emulator.
   */
  ghost function ByteOf(n: int): (x: Byte)
    requires 0 <= n < 0x100
    ensures x as int == n
    decreases n
  {
    if n == 0 then 0 else ByteOf(n - 1) + 1
  }

  /** A number below 256 converts to a byte without loss. */
  lemma SmallByte(n: int)
    requires 0 <= n < 0x100
    ensures n as Byte as int == n
  {
    ValueCast(ByteOf(n));
  }

  /** Converting a byte's value back to a byte gives the byte. */
  lemma ValueCast(x: Byte)
    ensures (x as int) as Byte == x
  {
  }

  /** A byte compares with a bound as its value does. */
  lemma ByteBelow(x: Byte, bound: Byte)
    requires x as int < bound as int
    ensures x < bound
  {
  }

  /** Reducing an offset inside OAM modulo its size changes nothing. */
  lemma BelowOamSize(loc: Byte)
    requires loc < 0xA0
    ensures loc % 0xA0 == loc
  {
  }

  /** The entries the scan skips before it looks at LY. */
  predicate Hidden(y: Byte, height: Byte) {
    (y <= 8 && y + height < 16) || y >= 160
  }

  /** Line `ly` lies between the sprite's top row `y - 16` and bottom row, all in byte arithmetic. */
  predicate OnLine(y: Byte, height: Byte, ly: Byte) {
    var yMin := y - 16;
    var yMax := yMin + height;
    yMin <= ly && ly <= yMax
  }

  /** The scan keeps entry `i`. */
  predicate Kept(b: Bus, i: int)
    requires 0 <= i < 40
  {
    var h := SpriteHeight(b.io.lcdc);
    !Hidden(Entry(b, i).yPos, h) && OnLine(Entry(b, i).yPos, h, b.io.ly)
  }

  /**
   * The scan keeps an entry exactly when its top row y - 16 is a screen row
   * (16 <= y < 160) and LY lies between that row and the bottom row. An entry
   * that is partly above the screen (y below 16) is never kept: its top row
   * wraps round in the byte subtraction.
   */
  lemma KeptExactly(y: Byte, height: Byte, ly: Byte)
    requires height == 7 || height == 15
    ensures !Hidden(y, height) && OnLine(y, height, ly) <==>
      16 <= y as int < 160 && y as int - 16 <= ly as int <= y as int - 16 + height as int
  {
  }

  /** The scan's verdict on each of the 40 entries. */
  function KeptFlags(b: Bus): (keep: seq<bool>)
    ensures |keep| == 40
    ensures forall i :: 0 <= i < 40 ==> keep[i] == Kept(b, i)
  {
    seq(40, i requires 0 <= i < 40 => Kept(b, i))
  }

  /** The positions among the first `n` of `keep` that are set, in order. */
  function Selected(keep: seq<bool>, n: int): (s: seq<int>)
    requires 0 <= n <= |keep|
    ensures |s| <= n
    ensures forall k :: 0 <= k < |s| ==> 0 <= s[k] < n
  {
    if n == 0 then [] else Selected(keep, n - 1) + (if keep[n - 1] then [n - 1] else [])
  }

  /** Selected lists every set position and nothing else, in strictly increasing order. */
  lemma {:induction false} SelectedExactly(keep: seq<bool>, n: int)
    requires 0 <= n <= |keep|
    ensures forall k, l :: 0 <= k < l < |Selected(keep, n)| ==> Selected(keep, n)[k] < Selected(keep, n)[l]
    ensures forall j :: 0 <= j < n ==> (j in Selected(keep, n) <==> keep[j])
  {
    if n > 0 {
      SelectedExactly(keep, n - 1);
    }
  }

  /** Looking at further positions only appends to what was selected. */
  lemma {:induction false} SelectedGrows(keep: seq<bool>, m: int, n: int)
    requires 0 <= m <= n <= |keep|
    ensures Selected(keep, m) <= Selected(keep, n)
  {
    if m < n {
      SelectedGrows(keep, m, n - 1);
    }
  }

  /** The indices of the OAM entries the scan keeps, in table order. */
  function Scanned(b: Bus): (s: seq<int>)
    ensures forall k :: 0 <= k < |s| ==> 0 <= s[k] < 40
  {
    Selected(KeptFlags(b), 40)
  }

  /**
   * The scan keeps exactly the entries that pass its tests, each once, in
   * increasing order of their place in OAM.
   */
  lemma ScannedExactly(b: Bus)
    ensures forall k, l :: 0 <= k < l < |Scanned(b)| ==> Scanned(b)[k] < Scanned(b)[l]
    ensures forall j :: 0 <= j < 40 ==> (j in Scanned(b) <==> Kept(b, j))
  {
    SelectedExactly(KeptFlags(b), 40);
  }

  /**
   * The slots after the entries at positions `s` have been stored in order
   * from slot 0 on; the slots after them keep what they held.
   */
  function Fill(slots: seq<Option<OamEntry>>, b: Bus, s: seq<int>): (r: seq<Option<OamEntry>>)
    requires forall k :: 0 <= k < |s| ==> 0 <= s[k] < 40
    ensures |r| == |slots|
  {
    seq(|slots|, j requires 0 <= j < |slots| => if j < |s| then Some(Entry(b, s[j])) else slots[j])
  }

  /** Storing one more entry fills the next slot and changes no other. */
  lemma FillAppend(slots: seq<Option<OamEntry>>, b: Bus, s: seq<int>, i: int)
    requires forall k :: 0 <= k < |s| ==> 0 <= s[k] < 40
    requires |s| < |slots| && 0 <= i < 40
    ensures Fill(slots, b, s + [i]) == Fill(slots, b, s)[|s| := Some(Entry(b, i))]
  {
  }

  /** Once every slot is filled, entries past the first |slots| are not stored. */
  lemma FillFull(slots: seq<Option<OamEntry>>, b: Bus, s: seq<int>, t: seq<int>)
    requires forall k :: 0 <= k < |t| ==> 0 <= t[k] < 40
    requires s <= t && |s| == |slots|
    ensures Fill(slots, b, t) == Fill(slots, b, s)
  {
  }

  /** The sprite buffer after a scan into an empty buffer: the first ten kept entries, then empty slots. */
  function SpriteBuffer(b: Bus): (buffer: seq<Option<OamEntry>>)
    ensures |buffer| == BufferSlots
  {
    Fill(seq(BufferSlots, _ => None), b, Scanned(b))
  }

  // ---------------------------------------------------------------- background and window

  /**
   * The background pixel under column x sits at (SCX + x, SCY + LY) of the
   * 256x256 background, both wrapping at 256; this is its tile's position in
   * the 32x32 tile map. The sums are taken in 16 bits, where they never wrap.
   */
  function BackgroundMapIndex(scx: Byte, scy: Byte, ly: Byte, x: Byte): (i: int)
    ensures 0 <= i < 0x400
  {
    var bgX := (scx as int + x as int) % 256;
    var bgY := (scy as int + ly as int) % 256;
    bgY / 8 * 32 + bgX / 8
  }

  /** The background pixel at column x of line LY: the map scrolled by SCX and SCY, wrapping at 256. */
  function BackgroundPixel(b: Bus, x: Byte): (p: Byte)
    ensures p <= 3
  {
    var io := b.io;
    var bgX := (io.scx as Word + x as Word) % 256;
    var bgY := (io.scy as Word + io.ly as Word) % 256;
    var tileIndex := TileIndex(b, BackgroundMapIndex(io.scx, io.scy, io.ly, x));
    TilePixel(b, io.lcdc, tileIndex, (bgX % 8) as Byte, (bgY % 8) as Byte, false)
  }

  /** The window covers column x of line ly: LCDC bit 5, LY >= WY and x >= WX - 7 (a byte difference). */
  predicate WindowAt(lcdc: Byte, ly: Byte, wy: Byte, wx: Byte, x: Byte) {
    lcdc & LcdcWinOn != 0 && ly >= wy && x >= wx - 7
  }

  /**
   * Below the screen's right edge, the window covers column x exactly when it
   * is on, LY >= WY, WX >= 7 and x + 7 >= WX: with WX under 7 the byte WX - 7
   * wraps above every column and the window never shows.
   */
  lemma WindowColumns(lcdc: Byte, ly: Byte, wy: Byte, wx: Byte, x: Byte)
    requires x < 160
    ensures WindowAt(lcdc, ly, wy, wx, x) <==>
      lcdc & LcdcWinOn != 0 && ly >= wy && wx >= 7 && x as int + 7 >= wx as int
  {
  }

  /**
   * The window's tile-map position as the emulator computes it: the row
   * offset `t_y * 32` is a byte product, so it wraps modulo 256 from window
   * row 8 on.
   */
  function WindowMapIndexAsWritten(winX: Byte, winY: Byte): (i: int)
    ensures 0 <= i < 0x400
  {
    (winY as int / 8 * 32) % 256 + winX as int / 8
  }

  /** The window's tile-map position with the row offset taken in 16 bits. */
  function WindowMapIndex(winX: Byte, winY: Byte): (i: int)
    ensures 0 <= i < 0x400
  {
    winY as int / 8 * 32 + winX as int / 8
  }

  /** The two agree on the first eight tile rows of the window. */
  lemma WindowIndicesAgree(winX: Byte, winY: Byte)
    requires winY < 64
    ensures WindowMapIndexAsWritten(winX, winY) == WindowMapIndex(winX, winY)
  {
  }

  /** On line 64 with WY 0 the emulator reads tile-map row 0 where row 8 is meant. */
  lemma WindowRowEightWraps()
    ensures WindowMapIndexAsWritten(0, 64) == 0 && WindowMapIndex(0, 64) == 8 * 32
  {
  }

  /** The corrected position is the tile under window pixel (winX, winY): row winY / 8, column winX / 8. */
  lemma WindowMapIndexTile(winX: Byte, winY: Byte)
    ensures WindowMapIndex(winX, winY) / 32 == winY as int / 8
    ensures WindowMapIndex(winX, winY) % 32 == winX as int / 8
  {
  }

  /** The window pixel at column x of line LY, with the window's top-left corner at (WX - 7, WY). */
  function WindowPixel(b: Bus, x: Byte): (p: Byte)
    ensures p <= 3
  {
    var io := b.io;
    var winX := x - io.wx + 7;
    var winY := io.ly - io.wy;
    var tileIndex := TileIndex(b, WindowMapIndex(winX, winY));
    TilePixel(b, io.lcdc, tileIndex, winX % 8, winY % 8, false)
  }

  /** The background-or-window pixel of column x, before sprites. */
  function BasePixel(b: Bus, x: Byte): (p: Byte)
    ensures p <= 3
  {
    if WindowAt(b.io.lcdc, b.io.ly, b.io.wy, b.io.wx, x) then WindowPixel(b, x) else BackgroundPixel(b, x)
  }

  // ---------------------------------------------------------------- sprites

  /**
   * The pixel of an 8x8 or 8x16 object at row `v` (0..height) and column `h`
   * (0..7). An 8x16 object is the tile pair `tileIndex & 0xFE` and the tile
   * after it, and row v is row v % 8 of the upper tile for v < 8 and of the
   * lower one otherwise.
   */
  function SpriteTilePixel(b: Bus, lcdc: Byte, tileIndex: Byte, height: Byte, v: Byte, h: Byte): (p: Byte)
    requires height == 7 || height == 15
    requires v <= height && h < 8
    ensures p <= 3
  {
    var tile := if height == 7 then tileIndex else (tileIndex & 0xFE) + (if v >= 8 then 1 else 0);
    TilePixel(b, lcdc, tile, h, v % 8, true)
  }

  /**
   * Row v of an object is the pair of VRAM bytes at offset `row` = 16 * (its
   * first tile) + 2v: an 8x16 object's rows run on from its upper tile into its
   * lower one.
   */
  lemma SpriteTilePixelBytes(b: Bus, lcdc: Byte, tileIndex: Byte, height: Byte, v: Byte, h: Byte, row: int)
    requires height == 7 || height == 15
    requires v <= height && h < 8
    requires row == 16 * (if height == 7 then tileIndex else tileIndex & 0xFE) as int + 2 * v as int
    ensures 0 <= row && row + 1 < |b.vram|
    ensures SpriteTilePixel(b, lcdc, tileIndex, height, v, h) == 2 * ColumnBit(b.vram[row + 1], h) + ColumnBit(b.vram[row], h)
  {
    var tile := if height == 7 then tileIndex else (tileIndex & 0xFE) + (if v >= 8 then 1 else 0);
    TallSpriteTile(tileIndex, height, v);
    TilePixelBytes(b, lcdc, tile, h, v % 8, true, row);
  }

  /** Row v of an object is row v % 8 of its tile: 16 bytes on from the pair's first tile when v >= 8. */
  lemma TallSpriteTile(tileIndex: Byte, height: Byte, v: Byte)
    requires height == 7 || height == 15
    requires v <= height
    ensures var tile := if height == 7 then tileIndex else (tileIndex & 0xFE) + (if v >= 8 then 1 else 0);
      16 * tile as int + 2 * (v % 8) as int
        == 16 * (if height == 7 then tileIndex else tileIndex & 0xFE) as int + 2 * v as int
  {
    if height == 15 && v >= 8 {
      var pair := tileIndex & 0xFE;
      assert pair <= 0xFE;
      assert (pair + 1) as int == pair as int + 1;
      assert (v % 8) as int == v as int - 8;
    }
  }

  /**
   * The same lookup as the emulator writes it: the row handed to
   * get_tile_pixel is `v` itself, and a row of 8 or more indexes past the
   * eight rows of a tile, which panics (None here).
   */
  function SpriteTilePixelAsWritten(b: Bus, lcdc: Byte, tileIndex: Byte, height: Byte, v: Byte, h: Byte): (p: Option<Byte>)
    requires height == 7 || height == 15
    requires v <= height && h < 8
    ensures p.Some? <==> v < 8
  {
    var tile := if height == 7 then tileIndex else (tileIndex & 0xFE) + (if v >= 8 then 1 else 0);
    if v < 8 then Some(TilePixel(b, lcdc, tile, h, v, true)) else None
  }

  /**
   * The corrected lookup agrees with the emulator's wherever the emulator does
   * not panic, and the emulator panics on the whole lower half of every 8x16
   * object (row 8 of an object at the top of the screen, on line 8).
   */
  lemma TallSpriteLowerHalf(b: Bus, lcdc: Byte, tileIndex: Byte, height: Byte, v: Byte, h: Byte)
    requires height == 7 || height == 15
    requires v <= height && h < 8
    ensures v < 8 ==> SpriteTilePixelAsWritten(b, lcdc, tileIndex, height, v, h) == Some(SpriteTilePixel(b, lcdc, tileIndex, height, v, h))
    ensures height == 15 && v >= 8 ==> SpriteTilePixelAsWritten(b, lcdc, tileIndex, height, v, h).None?
  {
  }

  /** Column x lies within the eight columns of an object whose left column is xPos - 8, in byte arithmetic. */
  predicate ColumnIn(xPos: Byte, x: Byte) {
    var left := xPos - 8;
    left <= x && x <= left + 7
  }

  /** The object covers column x of line ly: the scan's line test, and the column test. */
  predicate Covers(e: OamEntry, height: Byte, ly: Byte, x: Byte) {
    OnLine(e.yPos, height, ly) && ColumnIn(e.xPos, x)
  }

  /** On a screen line, the scan's line test needs the object's top row y - 16 on the screen and the line within its rows. */
  lemma OnLineOnScreen(y: Byte, height: Byte, ly: Byte)
    requires height == 7 || height == 15
    requires ly < 154
    ensures OnLine(y, height, ly) <==> 16 <= y && y - 16 <= ly && ly <= y - 16 + height
  {
    if height == 7 { } else { }
  }

  /** On a screen column, the column test needs the object's left column x - 8 on the screen and x within its eight columns. */
  lemma ColumnInOnScreen(xPos: Byte, x: Byte)
    requires x < 160
    ensures ColumnIn(xPos, x) <==> 8 <= xPos && xPos - 8 <= x && x < xPos
  {
  }

  /** A byte within `span` of `lo` (wrapping round 255 or not) is at most `span` past it. */
  lemma WithinSpan(lo: Byte, v: Byte, span: Byte)
    requires span == 7 || span == 15
    requires lo <= v && v <= lo + span
    ensures v - lo <= span
  {
    if span == 7 {
      if lo > 248 { } else { }
    } else {
      if lo > 240 { } else { }
    }
  }

  /**
   * The object's row at line ly, counted from its top, or from its bottom when
   * the Y-flip bit is set.
   */
  function RowOffset(y: Byte, attrs: Byte, height: Byte, ly: Byte): Byte
    requires height == 7 || height == 15
  {
    Flip(attrs & SpriteYFlip != 0, height, ly - (y - 16))
  }

  /** On a line the object covers, the line is at most `height` rows below the object's top row. */
  lemma RowSpan(y: Byte, height: Byte, ly: Byte)
    requires height == 7 || height == 15
    requires OnLine(y, height, ly)
    ensures ly - (y - 16) <= height
  {
    WithinSpan(y - 16, ly, height);
  }

  /** A line at most `height` rows below the object's top row is one of its rows, flipped or not. */
  lemma RowOffsetInRange(y: Byte, attrs: Byte, height: Byte, ly: Byte)
    requires height == 7 || height == 15
    requires ly - (y - 16) <= height
    ensures RowOffset(y, attrs, height, ly) <= height
  {
    FlipBound(attrs & SpriteYFlip != 0, height, ly - (y - 16));
  }

  /** An offset `d` from one end of a span of `span + 1`, or from the other end when `flip` is set. */
  function Flip(flip: bool, span: Byte, d: Byte): Byte
    requires span == 7 || span == 15
  {
    if span == 7 then (if flip then 7 - d else d)
    else (if flip then 15 - d else d)
  }

  /** An offset within the span stays within it when counted from the other end. */
  lemma FlipBound(flip: bool, span: Byte, d: Byte)
    requires span == 7 || span == 15
    requires d <= span
    ensures Flip(flip, span, d) <= span
  {
  }

  /** The object's column at x, counted from its left edge, or from its right edge when the X-flip bit is set. */
  function ColumnOffset(xPos: Byte, attrs: Byte, x: Byte): Byte {
    Flip(attrs & SpriteXFlip != 0, 7, x - (xPos - 8))
  }

  /** On a column the object covers, the column is at most 7 columns right of the object's left column. */
  lemma ColumnSpan(xPos: Byte, x: Byte)
    requires ColumnIn(xPos, x)
    ensures x - (xPos - 8) <= 7
  {
    WithinSpan(xPos - 8, x, 7);
  }

  /** A column at most 7 right of the object's left column is one of its eight, flipped or not. */
  lemma ColumnOffsetInRange(xPos: Byte, attrs: Byte, x: Byte)
    requires x - (xPos - 8) <= 7
    ensures ColumnOffset(xPos, attrs, x) < 8
  {
    FlipBound(attrs & SpriteXFlip != 0, 7, x - (xPos - 8));
  }

  /**
   * The Y-flip bit mirrors an object vertically: flipped, its row is `height`
   * minus the unflipped row; unflipped, its top row is row 0.
   */
  lemma RowFlipMirrors(y: Byte, attrs: Byte, height: Byte, ly: Byte)
    requires height == 7 || height == 15
    ensures RowOffset(y, attrs | SpriteYFlip, height, ly) == height - RowOffset(y, attrs & !SpriteYFlip, height, ly)
    ensures ly == y - 16 ==> RowOffset(y, attrs & !SpriteYFlip, height, ly) == 0
  {
    if height == 7 { } else { }
  }

  /**
   * The X-flip bit mirrors an object horizontally: flipped, its column is 7
   * minus the unflipped column; unflipped, its left column is column 0.
   */
  lemma ColumnFlipMirrors(xPos: Byte, attrs: Byte, x: Byte)
    ensures ColumnOffset(xPos, attrs | SpriteXFlip, x) == 7 - ColumnOffset(xPos, attrs & !SpriteXFlip, x)
    ensures x == xPos - 8 ==> ColumnOffset(xPos, attrs & !SpriteXFlip, x) == 0
  {
  }

  /** The object's pixel at column x of line LY, when it covers that pixel and the pixel is not transparent (0). */
  function SpritePixel(b: Bus, e: OamEntry, x: Byte): (p: Option<Byte>)
    ensures p.Some? ==> 1 <= p.value <= 3
  {
    var height := SpriteHeight(b.io.lcdc);
    if Covers(e, height, b.io.ly, x) then
      var v := RowOffset(e.yPos, e.attrs, height, b.io.ly);
      var h := ColumnOffset(e.xPos, e.attrs, x);
      CoveredOffsets(e.yPos, e.xPos, e.attrs, height, b.io.ly, x);
      var pix := SpriteTilePixel(b, b.io.lcdc, e.tileIndex, height, v, h);
      if pix != 0 then Some(pix) else None
    else
      None
  }

  /** Where the object lies, its row and column at the pixel are within its tile rows and columns. */
  lemma CoveredOffsets(y: Byte, xPos: Byte, attrs: Byte, height: Byte, ly: Byte, x: Byte)
    requires height == 7 || height == 15
    requires OnLine(y, height, ly) && ColumnIn(xPos, x)
    ensures RowOffset(y, attrs, height, ly) <= height && ColumnOffset(xPos, attrs, x) < 8
  {
    RowSpan(y, height, ly);
    RowOffsetInRange(y, attrs, height, ly);
    ColumnSpan(xPos, x);
    ColumnOffsetInRange(xPos, attrs, x);
  }

  /**
   * An object contributes a pixel to column x of line LY only where it lies:
   * its top row y - 16 and left column x - 8 are on the screen, LY is one of
   * its rows and x one of its columns.
   */
  lemma SpriteDrawnWhereObjectIs(b: Bus, e: OamEntry, x: Byte)
    requires b.io.ly < 154 && x < 160
    ensures var height := SpriteHeight(b.io.lcdc);
      SpritePixel(b, e, x).Some? ==>
        16 <= e.yPos && e.yPos - 16 <= b.io.ly && b.io.ly <= e.yPos - 16 + height
        && 8 <= e.xPos && e.xPos - 8 <= x && x < e.xPos
  {
    OnLineOnScreen(e.yPos, SpriteHeight(b.io.lcdc), b.io.ly);
    ColumnInOnScreen(e.xPos, x);
  }

  /**
   * What an opaque object pixel `s` does to the pixel `pix` below it: with the
   * priority bit clear the object wins; with it set, only over colour 0.
   */
  function Overlay(e: OamEntry, s: Byte, pix: Byte): (p: Byte)
    ensures p == s || p == pix
    ensures e.attrs & SpritePriority == 0 ==> p == s
    ensures e.attrs & SpritePriority != 0 ==> (p == s <==> pix == 0 || s == pix)
  {
    if e.attrs & SpritePriority == 0 then s
    else if pix == 0 then s
    else pix
  }

  /** Buffer slot `slot` holds an object with an opaque pixel at column x. */
  predicate Decides(b: Bus, slot: Option<OamEntry>, x: Byte) {
    slot.Some? && SpritePixel(b, slot.value, x).Some?
  }

  /** The sprite pass of gen_scanline over buffer slots i.. on top of the pixel `pix`. */
  function Composite(b: Bus, sprites: seq<Option<OamEntry>>, i: int, x: Byte, pix: Byte): (p: Byte)
    requires 0 <= i <= |sprites|
    ensures pix <= 3 ==> p <= 3
    decreases |sprites| - i
  {
    if i == |sprites| then pix
    else if Decides(b, sprites[i], x) then Overlay(sprites[i].value, SpritePixel(b, sprites[i].value, x).value, pix)
    else Composite(b, sprites, i + 1, x, pix)
  }

  /** The first slot from i on with an opaque pixel at x alone decides the column. */
  lemma {:induction false} FirstSpriteDecides(b: Bus, sprites: seq<Option<OamEntry>>, i: int, j: int, x: Byte, pix: Byte)
    requires 0 <= i <= j < |sprites|
    requires Decides(b, sprites[j], x)
    requires forall k :: i <= k < j ==> !Decides(b, sprites[k], x)
    ensures Composite(b, sprites, i, x, pix) == Overlay(sprites[j].value, SpritePixel(b, sprites[j].value, x).value, pix)
    decreases j - i
  {
    if i < j {
      FirstSpriteDecides(b, sprites, i + 1, j, x, pix);
    }
  }

  /** With no slot from i on opaque at x, the column keeps its pixel. */
  lemma {:induction false} NoSpriteKeepsPixel(b: Bus, sprites: seq<Option<OamEntry>>, i: int, x: Byte, pix: Byte)
    requires 0 <= i <= |sprites|
    requires forall k :: i <= k < |sprites| ==> !Decides(b, sprites[k], x)
    ensures Composite(b, sprites, i, x, pix) == pix
    decreases |sprites| - i
  {
    if i < |sprites| {
      NoSpriteKeepsPixel(b, sprites, i + 1, x, pix);
    }
  }

  /** The colour code column x of line LY shows with the given sprite buffer. */
  function ScanlinePixel(b: Bus, sprites: seq<Option<OamEntry>>, x: Byte): (p: Byte)
    ensures p <= 3
  {
    Composite(b, sprites, 0, x, BasePixel(b, x))
  }

  // ---------------------------------------------------------------- dots, lines and frames

  /** The colour codes of the 160 columns of line LY over the sprite buffer `sprites`. */
  function LineCodes(b: Bus, sprites: seq<Option<OamEntry>>): (codes: seq<Byte>)
    ensures |codes| == ScreenWidth
    ensures forall x :: 0 <= x < ScreenWidth ==> codes[x] <= 3
  {
    seq(ScreenWidth, x requires 0 <= x < ScreenWidth => ScanlinePixel(b, sprites, x as Byte))
  }

  /** Column x of the line is the pixel ScanlinePixel gives it. */
  lemma LineCodesAt(b: Bus, sprites: seq<Option<OamEntry>>, x: int)
    requires 0 <= x < ScreenWidth
    ensures LineCodes(b, sprites)[x] == ScanlinePixel(b, sprites, x as Byte)
  {
  }

  /** The host colours of a row of colour codes. */
  function ColorsOf(codes: seq<Byte>): (row: seq<Color>)
    ensures |row| == |codes|
    ensures forall x :: 0 <= x < |codes| ==> (row[x] != Magenta <==> codes[x] <= 3)
  {
    seq(|codes|, x requires 0 <= x < |codes| => GbColor(codes[x]))
  }

  /** The host colours of the 160 pixels of line LY, with the sprites the scan keeps for it. */
  function LineColors(b: Bus): (row: seq<Color>)
    ensures |row| == ScreenWidth
    ensures forall x :: 0 <= x < ScreenWidth ==> row[x] != Magenta
  {
    ColorsOf(LineCodes(b, SpriteBuffer(b)))
  }

  /** Frame buffer `fb` with its row `ly` replaced by `row`. */
  function PutRow(fb: seq<Color>, ly: Byte, row: seq<Color>): (fb': seq<Color>)
    requires |fb| == ScreenSize && ly < VisibleLines && |row| == ScreenWidth
    ensures |fb'| == ScreenSize
  {
    var start := ly as int * ScreenWidth;
    fb[..start] + row + fb[start + ScreenWidth..]
  }

  /** PutRow rewrites the 160 pixels of its row with `row`, and nothing else. */
  lemma PutRowCells(fb: seq<Color>, ly: Byte, row: seq<Color>)
    requires |fb| == ScreenSize && ly < VisibleLines && |row| == ScreenWidth
    ensures var start := ly as int * ScreenWidth;
      forall k :: 0 <= k < ScreenSize ==>
        PutRow(fb, ly, row)[k] == if start <= k < start + ScreenWidth then row[k - start] else fb[k]
  {
    var start := ly as int * ScreenWidth;
    var fb' := PutRow(fb, ly, row);
    assert fb' == fb[..start] + row + fb[start + ScreenWidth..];
    forall k | 0 <= k < ScreenSize
      ensures fb'[k] == if start <= k < start + ScreenWidth then row[k - start] else fb[k]
    {
      if k < start {
        assert fb'[k] == fb[..start][k];
      } else if k < start + ScreenWidth {
        assert fb'[k] == row[k - start];
      } else {
        assert fb'[k] == fb[start + ScreenWidth..][k - start - ScreenWidth];
      }
    }
  }

  /** Frame buffer `fb` with row LY replaced by the host colours of line LY. */
  function DrawLine(fb: seq<Color>, b: Bus): (fb': seq<Color>)
    requires |fb| == ScreenSize && b.io.ly < VisibleLines
    ensures |fb'| == ScreenSize
  {
    PutRow(fb, b.io.ly, LineColors(b))
  }

  /** What one finished line does: the frame buffer, the bus, and whether a frame is complete. */
  datatype LineOutcome = LineOutcome(fb: seq<Color>, bus: Bus, frameReady: bool)

  /** What the state of a step is once the dot counter no longer holds a whole line. */
  datatype StepOutcome = StepOutcome(dots: nat, fb: seq<Color>, bus: Bus, frameReady: bool)

  /**
   * The end of a line: a visible line is drawn, LY advances, and the end of
   * line 143 requests the VBlank interrupt and ends the frame; past line 153
   * LY returns to 0.
   */
  function EndLine(fb: seq<Color>, b: Bus): (r: LineOutcome)
    requires |fb| == ScreenSize
    ensures |r.fb| == ScreenSize
    ensures r.frameReady <==> b.io.ly == VisibleLines - 1
  {
    var ly := b.io.ly;
    LineOutcome(if ly < VisibleLines then DrawLine(fb, b) else fb, EndLineBus(b), ly + 1 == VisibleLines)
  }

  /**
   * The bus after the end of a line: LY advanced, then the VBlank request
   * (IF bit 0, which the emulator sets by writing IF back with the bit added,
   * see RequestVBlank) or the return to line 0.
   */
  function EndLineBus(b: Bus): Bus {
    var ly := b.io.ly;
    var b1 := IncLy(b, 1);
    if ly + 1 == VisibleLines then b1.(iFlag := b1.iFlag | IntVBlank)
    else if ly + 1 > MaxLine then SetLy(b1, 0)
    else b1
  }

  /** Writing IF with bit 0 added sets the VBlank request and changes nothing else. */
  lemma RequestVBlank(b: Bus)
    ensures Write(b, Read(b, 0xFF0F) | IntVBlank, 0xFF0F) == b.(iFlag := b.iFlag | IntVBlank)
  {
  }

  /** The step loop: whole lines are taken off the dot counter until less than one is left or a frame ends. */
  function RunLines(dots: nat, fb: seq<Color>, b: Bus): (r: StepOutcome)
    requires |fb| == ScreenSize
    ensures |r.fb| == ScreenSize
    decreases dots
  {
    if dots < DotsPerLine then StepOutcome(dots, fb, b, false)
    else
      var line := EndLine(fb, b);
      if line.frameReady then StepOutcome(dots - DotsPerLine, line.fb, line.bus, true)
      else RunLines(dots - DotsPerLine, line.fb, line.bus)
  }

  /**
   * One round of the step loop: when a whole line of dots is pending, the
   * loop goes on from the frame buffer and bus the end of the line leaves.
   */
  lemma RunLinesNext(dots: nat, fb: seq<Color>, b: Bus, dots': nat, fb': seq<Color>, b': Bus, ready: bool)
    requires dots' == dots - DotsPerLine && |fb| == ScreenSize
    requires EndLine(fb, b) == LineOutcome(fb', b', ready)
    ensures |fb'| == ScreenSize
    ensures RunLines(dots, fb, b) ==
      if ready then StepOutcome(dots', fb', b', true) else RunLines(dots', fb', b')
  {
  }

  /**
   * From less than a line of dots, a step of at most 255 cycles finishes at
   * most one line and leaves less than a line of dots.
   */
  lemma AtMostOneLine(dots: nat, cycles: Byte, fb: seq<Color>, b: Bus)
    requires dots < DotsPerLine && |fb| == ScreenSize
    ensures var r := RunLines(dots + cycles as int, fb, b);
      r.dots < DotsPerLine
      && (dots + cycles as int < DotsPerLine ==> r == StepOutcome(dots + cycles as int, fb, b, false))
      && (dots + cycles as int >= DotsPerLine ==>
            r == StepOutcome(dots + cycles as int - DotsPerLine, EndLine(fb, b).fb, EndLine(fb, b).bus, EndLine(fb, b).frameReady))
  {
    var n := dots + cycles as int;
    if n >= DotsPerLine {
      var line := EndLine(fb, b);
      assert n - DotsPerLine < DotsPerLine;
      if !line.frameReady {
        assert RunLines(n, fb, b) == RunLines(n - DotsPerLine, line.fb, line.bus);
      }
    }
  }

  /** At the end of a line LY moves to the next line of the 154, whatever it held. */
  lemma EndLineAdvancesLy(b: Bus)
    ensures EndLineBus(b).io.ly == if b.io.ly < MaxLine then b.io.ly + 1 else 0
  {
    LineAfter(b.io.ly);
  }

  /** The line numbers the end of a line can produce from LY, before the return to line 0. */
  lemma LineAfter(ly: Byte)
    ensures ly + 1 == VisibleLines <==> ly == VisibleLines - 1
    ensures ly + 1 > MaxLine ==> ly >= MaxLine
    ensures !(ly + 1 > MaxLine) ==> NextLy(ly, 1) == if ly < MaxLine then ly + 1 else 0
  {
    if ly < MaxLine { } else if ly == 255 { } else { }
  }

  /** The end of line 143, and only that line, sets IF bit 0; IF is otherwise untouched. */
  lemma EndLineVBlank(b: Bus)
    ensures EndLineBus(b).iFlag == if b.io.ly == VisibleLines - 1 then b.iFlag | IntVBlank else b.iFlag
  {
    LineAfter(b.io.ly);
  }

  /** The end of a line changes nothing on the bus but LY and IF. */
  lemma EndLineBusFrame(b: Bus)
    ensures var b' := EndLineBus(b);
      b' == b.(io := b.io.(ly := b'.io.ly), iFlag := b'.iFlag)
  {
    var ly := b.io.ly;
    if ly + 1 == VisibleLines { } else if ly + 1 > MaxLine { } else { }
  }

  /**
   * A visible line rewrites exactly its own row of the frame buffer, with the
   * colours of the line's pixels; an invisible one leaves the buffer alone.
   */
  lemma EndLineDrawsRow(fb: seq<Color>, b: Bus)
    requires |fb| == ScreenSize
    ensures var fb' := EndLine(fb, b).fb; var start := b.io.ly as int * ScreenWidth;
      forall k :: 0 <= k < ScreenSize ==>
        fb'[k] == if b.io.ly < VisibleLines && start <= k < start + ScreenWidth
                  then LineColors(b)[k - start] else fb[k]
  {
    if b.io.ly < VisibleLines {
      PutRowCells(fb, b.io.ly, LineColors(b));
    }
  }
}
