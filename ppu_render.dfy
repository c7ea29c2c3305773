/**
 * ppu.go, rendering: how one pixel of a scanline is computed from VRAM, OAM
 * and the LCD registers.  These are the pure helpers of the PPU (tile data
 * addressing, tile pixel decoding, palettes, sprite selection); the render
 * loops that store their results into the framebuffer are in module `Ppu`.
 */
module PpuRender {
  import opened Bytes
  import opened Utils

  const SCREEN_WIDTH: nat := 160
  const SCREEN_HEIGHT: nat := 144
  const TILE_SIZE: nat := 8
  const TILE_MAP_SIZE: nat := 32
  const MAX_SPRITES: nat := 40
  const SPRITES_PER_LINE: nat := 10

  const VRAM_ADDRESS: Word := 0x8000
  const VRAM_END_ADDRESS: Word := 0x9FFF
  const OAM_ADDRESS: Word := 0xFE00
  const OAM_END_ADDRESS: Word := 0xFE9F

  /** LCDC bits. */
  const LCD_ENABLE: nat := 7
  const WINDOW_TILE_MAP: nat := 6
  const WINDOW_ENABLE: nat := 5
  const BG_WINDOW_TILE_DATA: nat := 4
  const BG_TILE_MAP: nat := 3
  const SPRITE_SIZE: nat := 2
  const SPRITE_ENABLE: nat := 1
  const BG_WINDOW_ENABLE: nat := 0

  /** Sprite flag bits. */
  const SPRITE_PRIORITY: nat := 7
  const SPRITE_Y_FLIP: nat := 6
  const SPRITE_X_FLIP: nat := 5
  const SPRITE_PALETTE: nat := 4

  datatype Sprite = Sprite(y: bv8, x: bv8, tileIndex: bv8, flags: bv8)

  /** Everything a scanline is drawn from: LY, the LCD registers, VRAM and OAM. */
  datatype Line = Line(
    ly: bv8, lcdc: bv8, scy: bv8, scx: bv8,
    bgp: bv8, obp0: bv8, obp1: bv8, wy: bv8, wx: bv8,
    vram: seq<bv8>, oam: seq<bv8>)

  predicate WellFormed(l: Line)
  {
    |l.vram| == 0x2000 && |l.oam| == 0xA0
  }

  /** readVram: addresses outside 0x8000-0x9FFF read 0xFF. */
  function ReadVram(vram: seq<bv8>, address: Word): (b: bv8)
    requires |vram| == 0x2000
    ensures !(VRAM_ADDRESS <= address <= VRAM_END_ADDRESS) ==> b == 0xFF
  {
    if VRAM_ADDRESS <= address <= VRAM_END_ADDRESS then vram[address - VRAM_ADDRESS] else 0xFF
  }

  /** Go's `int(int8(b))`. */
  function Signed(b: bv8): (i: int)
    ensures -128 <= i < 128 && (i - b as int) % 256 == 0
  {
    if b < 0x80 then b as int else b as int - 0x100
  }

  /**
   * getTileDataAddress: with LCDC bit 4 set, tile `i` starts at
   * 0x8000 + 16i; otherwise the index is signed and counted from 0x9000.
   * Either way the 16 bytes of the tile lie inside 0x8000-0x97FF.
   */
  function TileDataAddress(lcdc: bv8, tileIndex: bv8): (a: Word)
    ensures VRAM_ADDRESS <= a && a + 15 <= 0x97FF && a % 16 == 0
  {
    if IsBitSet(lcdc, BG_WINDOW_TILE_DATA) then VRAM_ADDRESS + tileIndex as int * 16
    else Wrap16(0x9000 + Signed(tileIndex) * 16)
  }

  /** Tiles 128-255 are at the same address in both addressing modes; tiles 0-127 are 0x1000 apart. */
  lemma TileAddressingModes(lcdc: bv8, tileIndex: bv8)
    ensures var unsigned := TileDataAddress(lcdc | 0x10, tileIndex);
      var signed := TileDataAddress(lcdc & 0xEF, tileIndex);
      && unsigned == VRAM_ADDRESS + 16 * tileIndex as int
      && (tileIndex >= 0x80 ==> signed == unsigned)
      && (tileIndex < 0x80 ==> signed == unsigned + 0x1000)
  {
    assert IsBitSet(lcdc | 0x10, BG_WINDOW_TILE_DATA);
    assert !IsBitSet(lcdc & 0xEF, BG_WINDOW_TILE_DATA);
  }

  /**
   * getPixelFromTileData: row `py` of the tile at `base` is the byte pair at
   * base + 2py; bit 7-px of the first byte is bit 0 of the colour and bit
   * 7-px of the second is bit 1.  A negative shift count panics in Go, so
   * `px` is at most 7; a column left of 0 shifts every bit out.
   */
  function PixelFromTileData(vram: seq<bv8>, base: Word, px: int, py: int): (color: bv8)
    requires |vram| == 0x2000 && px <= 7
    ensures color < 4
    ensures var lo := ReadVram(vram, Wrap16(base + Wrap16(py * 2)));
      var hi := ReadVram(vram, Wrap16(Wrap16(base + Wrap16(py * 2)) + 1));
      && (IsBitSet(color, 0) <==> px >= 0 && IsBitSet(lo, 7 - px))
      && (IsBitSet(color, 1) <==> px >= 0 && IsBitSet(hi, 7 - px))
  {
    var offset := Wrap16(py * 2);
    var lowByte := ReadVram(vram, Wrap16(base + offset));
    var highByte := ReadVram(vram, Wrap16(Wrap16(base + offset) + 1));
    var bitPosition := 7 - px;
    var lowBit := ShiftRight(lowByte, bitPosition) & 1;
    var highBit := ShiftRight(highByte, bitPosition) & 1;
    TwoBitColor(lowByte, highByte, bitPosition);
    (highBit << 1) | lowBit
  }

  lemma TwoBitColor(lowByte: bv8, highByte: bv8, n: nat)
    ensures var lowBit := ShiftRight(lowByte, n) & 1;
      var highBit := ShiftRight(highByte, n) & 1;
      var color := (highBit << 1) | lowBit;
      && color < 4
      && (IsBitSet(color, 0) <==> n < 8 && IsBitSet(lowByte, n))
      && (IsBitSet(color, 1) <==> n < 8 && IsBitSet(highByte, n))
  {
  }

  /** A palette maps colour c to its bits 2c+1..2c, Go's `(palette >> (c * 2)) & 3`. */
  function Shade(palette: bv8, color: bv8): (shade: bv8)
    ensures shade < 4
  {
    ShiftRight(palette, (color * 2) as nat) & 3
  }

  /** Shade c of a palette is its bit pair 2c+1..2c. */
  lemma ShadeBits(palette: bv8, color: bv8)
    requires color < 4
    ensures IsBitSet(Shade(palette, color), 0) <==> IsBitSet(palette, 2 * color as nat)
    ensures IsBitSet(Shade(palette, color), 1) <==> IsBitSet(palette, 2 * color as nat + 1)
  {
    if color == 0 {
    } else if color == 1 {
      assert Shade(palette, color) == (palette >> 2) & 3;
    } else if color == 2 {
      assert Shade(palette, color) == (palette >> 4) & 3;
    } else {
      assert Shade(palette, color) == (palette >> 6) & 3;
    }
  }

  /** getTilePixel: a background or window tile pixel, through the LCDC addressing mode. */
  function TilePixel(l: Line, tileIndex: bv8, px: int, py: int): (color: bv8)
    requires WellFormed(l) && px <= 7
    ensures color < 4
  {
    PixelFromTileData(l.vram, TileDataAddress(l.lcdc, tileIndex), px, py)
  }

  /** The background tile map: 0x9C00 with LCDC bit 3 set, else 0x9800. */
  function BackgroundMap(lcdc: bv8): Word
  {
    if IsBitSet(lcdc, BG_TILE_MAP) then 0x9C00 else 0x9800
  }

  /** The window tile map: 0x9C00 with LCDC bit 6 set, else 0x9800. */
  function WindowMap(lcdc: bv8): Word
  {
    if IsBitSet(lcdc, WINDOW_TILE_MAP) then 0x9C00 else 0x9800
  }

  /** The background pixel at scrolled position (sx, sy) of the 256x256 map. */
  function MapPixel(l: Line, sx: nat, sy: nat): (shade: bv8)
    requires WellFormed(l)
    ensures shade < 4
  {
    var tileRow := (sy / TILE_SIZE) % TILE_MAP_SIZE;
    var pixelRow := sy % TILE_SIZE;
    var tileCol := (sx / TILE_SIZE) % TILE_MAP_SIZE;
    var pixelCol := sx % TILE_SIZE;
    var tileMapAddress := BackgroundMap(l.lcdc) + tileRow * TILE_MAP_SIZE + tileCol;
    var tileIndex := ReadVram(l.vram, tileMapAddress);
    Shade(l.bgp, TilePixel(l, tileIndex, pixelCol, pixelRow))
  }

  /** renderBackground at screen column `x`: the map pixel at (x + SCX, LY + SCY). */
  function BackgroundPixel(l: Line, x: nat): (shade: bv8)
    requires WellFormed(l)
    ensures shade < 4
  {
    MapPixel(l, x + l.scx as int, l.ly as int + l.scy as int)
  }

  /** Tile and pixel coordinates along one axis depend only on the position modulo 256. */
  lemma MapCoordinateWraps(p: nat)
    ensures (p / 8) % 32 == ((p % 256) / 8) % 32 && p % 8 == (p % 256) % 8
  {
    var q, r := p / 256, p % 256;
    assert p == 256 * q + r;
    assert p / 8 == 32 * q + r / 8;
  }

  /** The background map repeats every 256 pixels in both directions. */
  lemma BackgroundWraps(l: Line, sx: nat, sy: nat)
    requires WellFormed(l)
    ensures MapPixel(l, sx, sy) == MapPixel(l, sx % 256, sy % 256)
  {
    MapCoordinateWraps(sx);
    MapCoordinateWraps(sy);
  }

  /** shouldRenderWindow: LY has reached WY and WX is at most 166. */
  predicate ShowsWindow(l: Line)
  {
    l.ly >= l.wy && l.wx <= 166
  }

  /** The first screen column of the window: WX - 7, but not below 0. */
  function WindowStart(wx: bv8): (x: nat)
    ensures x == if wx < 7 then 0 else wx as int - 7
  {
    if wx as int - 7 < 0 then 0 else wx as int - 7
  }

  /** renderWindow at screen column `x` >= WindowStart: the window's own tile map, not scrolled. */
  function WindowPixel(l: Line, x: nat): (shade: bv8)
    requires WellFormed(l) && l.ly >= l.wy && WindowStart(l.wx) <= x < SCREEN_WIDTH
    ensures shade < 4
  {
    var windowY := l.ly as int - l.wy as int;
    var tileRow := windowY / TILE_SIZE;
    var pixelRow := windowY % TILE_SIZE;
    var windowX := x - WindowStart(l.wx);
    var tileCol := windowX / TILE_SIZE;
    var pixelCol := windowX % TILE_SIZE;
    var tileMapAddress := WindowMap(l.lcdc) + tileRow * TILE_MAP_SIZE + tileCol;
    var tileIndex := ReadVram(l.vram, tileMapAddress);
    Shade(l.bgp, TilePixel(l, tileIndex, pixelCol, pixelRow))
  }

  /** getSpriteHeight: 16 with LCDC bit 2 set, else 8. */
  function SpriteHeight(lcdc: bv8): (h: nat)
    ensures h == 8 || h == 16
  {
    if IsBitSet(lcdc, SPRITE_SIZE) then 16 else 8
  }

  /** getSprite: the four OAM bytes of entry `index`: Y, X, tile, flags. */
  function SpriteAt(oam: seq<bv8>, index: nat): (s: Sprite)
    requires |oam| == 0xA0 && index < MAX_SPRITES
  {
    Sprite(oam[4 * index], oam[4 * index + 1], oam[4 * index + 2], oam[4 * index + 3])
  }

  /** isSpriteOnCurrentScanline: Y is neither 0 nor 160 or more, and LY lies in Y-16 .. Y-16+height-1. */
  predicate OnLine(s: Sprite, height: nat, ly: bv8)
  {
    s.y != 0 && s.y < 160 && s.y as int - 16 <= ly as int < s.y as int - 16 + height
  }

  /** The row of the sprite on LY, counted from its top, mirrored by the Y-flip flag. */
  function SpriteLine(s: Sprite, height: nat, ly: bv8): (line: int)
    requires OnLine(s, height, ly)
    ensures 0 <= line < height
  {
    var line := ly as int - (s.y as int - 16);
    if IsBitSet(s.flags, SPRITE_Y_FLIP) then height - 1 - line else line
  }

  /**
   * The tile and the row in it that renderSprite draws on LY: Y-flip mirrors
   * the row; 8x16 sprites use the even tile for the top half and the odd one
   * for the bottom half.
   */
  function SpriteRow(s: Sprite, height: nat, ly: bv8): (r: (bv8, int))
    requires OnLine(s, height, ly) && (height == 8 || height == 16)
    ensures 0 <= r.1 < 8
  {
    var flipped := SpriteLine(s, height, ly);
    if height == 16 then
      (TallTile(s.tileIndex, flipped >= 8), if flipped >= 8 then flipped - 8 else flipped)
    else (s.tileIndex, flipped)
  }

  /** An 8x16 sprite's tile for the top half (bit 0 cleared) or the bottom half (bit 0 set). */
  function TallTile(tileIndex: bv8, bottom: bool): bv8
  {
    if bottom then (tileIndex & 0xFE) | 0x01 else tileIndex & 0xFE
  }

  /** getSpriteTilePixel: sprites always use 0x8000-based tile addressing. */
  function SpriteTilePixel(l: Line, tileIndex: bv8, px: int, py: int): (color: bv8)
    requires WellFormed(l) && px <= 7
    ensures color < 4
  {
    PixelFromTileData(l.vram, VRAM_ADDRESS + tileIndex as int * 16, px, py)
  }

  /** The colour (before its palette) that sprite `s` has at screen column `x`, or 0 outside its 8 columns. */
  function SpriteColor(l: Line, s: Sprite, height: nat, x: int): (color: bv8)
    requires WellFormed(l) && OnLine(s, height, l.ly) && (height == 8 || height == 16)
    ensures color < 4
  {
    var px := x - (s.x as int - 8);
    if px < 0 || px >= 8 then 0
    else
      var spx := if IsBitSet(s.flags, SPRITE_X_FLIP) then 7 - px else px;
      var (tile, row) := SpriteRow(s, height, l.ly);
      SpriteTilePixel(l, tile, spx, row)
  }

  /** applySpritePalette: OBP1 with flag bit 4 set, else OBP0. */
  function SpriteShade(l: Line, s: Sprite, color: bv8): (shade: bv8)
    ensures shade < 4
  {
    Shade(if IsBitSet(s.flags, SPRITE_PALETTE) then l.obp1 else l.obp0, color)
  }

  /**
   * One sprite drawn over the framebuffer value `cur` at column `x`:
   * colour 0 is transparent, and a sprite with the priority flag stays
   * behind any nonzero pixel.
   */
  function SpriteOver(l: Line, s: Sprite, height: nat, x: int, cur: bv8): (r: bv8)
    requires WellFormed(l) && OnLine(s, height, l.ly) && (height == 8 || height == 16)
    ensures r == cur || r < 4
    ensures SpriteColor(l, s, height, x) == 0 ==> r == cur
    ensures IsBitSet(s.flags, SPRITE_PRIORITY) && cur != 0 ==> r == cur
    ensures SpriteColor(l, s, height, x) != 0 && (!IsBitSet(s.flags, SPRITE_PRIORITY) || cur == 0) ==>
      r == SpriteShade(l, s, SpriteColor(l, s, height, x))
  {
    var color := SpriteColor(l, s, height, x);
    if color == 0 then cur
    else if IsBitSet(s.flags, SPRITE_PRIORITY) && cur != 0 then cur
    else SpriteShade(l, s, color)
  }

  /** Columns outside the sprite's eight keep their value. */
  lemma OutsideSprite(l: Line, s: Sprite, height: nat, x: int, cur: bv8)
    requires WellFormed(l) && OnLine(s, height, l.ly) && (height == 8 || height == 16)
    requires x < s.x as int - 8 || x >= s.x as int
    ensures SpriteOver(l, s, height, x, cur) == cur
  {
    assert SpriteColor(l, s, height, x) == 0;
  }

  predicate AllOnLine(l: Line, sprites: seq<Sprite>, height: nat)
  {
    forall i :: 0 <= i < |sprites| ==> OnLine(sprites[i], height, l.ly)
  }

  /** Sprites drawn in order over the value `cur` at column `x`: later sprites paint over earlier ones. */
  function SpritesOver(l: Line, sprites: seq<Sprite>, height: nat, x: int, cur: bv8): bv8
    requires WellFormed(l) && AllOnLine(l, sprites, height) && (height == 8 || height == 16)
    decreases |sprites|
  {
    if sprites == [] then cur
    else SpritesOver(l, sprites[1..], height, x, SpriteOver(l, sprites[0], height, x, cur))
  }

  /**
   * The loop of renderSprites, from OAM entry `index` down to 0, having drawn
   * `count` sprites: an entry on the line is drawn while fewer than ten
   * have been.
   */
  function Selection(l: Line, height: nat, index: int, count: nat): (sprites: seq<Sprite>)
    requires WellFormed(l) && index < MAX_SPRITES
    ensures AllOnLine(l, sprites, height)
    decreases index + 1
  {
    if index < 0 || count >= SPRITES_PER_LINE then []
    else
      var s := SpriteAt(l.oam, index);
      if OnLine(s, height, l.ly) then [s] + Selection(l, height, index - 1, count + 1)
      else Selection(l, height, index - 1, count)
  }

  /** Every OAM entry from `index` down to 0 that is on the line, in that order. */
  function OnLineFrom(l: Line, height: nat, index: int): seq<Sprite>
    requires WellFormed(l) && index < MAX_SPRITES
    decreases index + 1
  {
    if index < 0 then []
    else
      var s := SpriteAt(l.oam, index);
      (if OnLine(s, height, l.ly) then [s] else []) + OnLineFrom(l, height, index - 1)
  }

  function Take<T>(s: seq<T>, n: nat): (r: seq<T>)
    ensures |r| <= n && r <= s
    ensures |s| <= n ==> r == s
  {
    if |s| <= n then s else s[..n]
  }

  lemma TakeCons<T>(x: T, s: seq<T>, n: nat)
    requires n >= 1
    ensures Take([x] + s, n) == [x] + Take(s, n - 1)
  {
    if |s| > n - 1 {
      assert ([x] + s)[..n] == [x] + s[..n - 1];
    }
  }

  /** An on-line entry is both selected and kept by the filter. */
  lemma SelectionKeeps(l: Line, height: nat, index: nat, count: nat)
    requires WellFormed(l) && index < MAX_SPRITES && count < SPRITES_PER_LINE
    requires OnLine(SpriteAt(l.oam, index), height, l.ly)
    requires Selection(l, height, index - 1, count + 1) == Take(OnLineFrom(l, height, index - 1), SPRITES_PER_LINE - count - 1)
    ensures Selection(l, height, index, count) == Take(OnLineFrom(l, height, index), SPRITES_PER_LINE - count)
  {
    var s := SpriteAt(l.oam, index);
    var rest := OnLineFrom(l, height, index - 1);
    assert Selection(l, height, index, count) == [s] + Selection(l, height, index - 1, count + 1);
    assert OnLineFrom(l, height, index) == [s] + rest;
    TakeCons(s, rest, SPRITES_PER_LINE - count);
  }

  /** An entry off the line is neither selected nor kept. */
  lemma SelectionSkips(l: Line, height: nat, index: nat, count: nat)
    requires WellFormed(l) && index < MAX_SPRITES && count < SPRITES_PER_LINE
    requires !OnLine(SpriteAt(l.oam, index), height, l.ly)
    requires Selection(l, height, index - 1, count) == Take(OnLineFrom(l, height, index - 1), SPRITES_PER_LINE - count)
    ensures Selection(l, height, index, count) == Take(OnLineFrom(l, height, index), SPRITES_PER_LINE - count)
  {
    var rest := OnLineFrom(l, height, index - 1);
    assert [] + rest == rest;
    assert OnLineFrom(l, height, index) == rest;
  }

  /** Entry `index` is selected and kept exactly when it is on the line. */
  lemma SelectionStep(l: Line, height: nat, index: nat, count: nat)
    requires WellFormed(l) && index < MAX_SPRITES && count < SPRITES_PER_LINE
    requires Selection(l, height, index - 1, count + 1) == Take(OnLineFrom(l, height, index - 1), SPRITES_PER_LINE - count - 1)
    requires Selection(l, height, index - 1, count) == Take(OnLineFrom(l, height, index - 1), SPRITES_PER_LINE - count)
    ensures Selection(l, height, index, count) == Take(OnLineFrom(l, height, index), SPRITES_PER_LINE - count)
  {
    if OnLine(SpriteAt(l.oam, index), height, l.ly) {
      SelectionKeeps(l, height, index, count);
    } else {
      SelectionSkips(l, height, index, count);
    }
  }

  /** Past entry 0, or with ten sprites taken, nothing more is selected or kept. */
  lemma SelectionEnds(l: Line, height: nat, index: int, count: nat)
    requires WellFormed(l) && index < MAX_SPRITES && count <= SPRITES_PER_LINE
    requires index < 0 || count == SPRITES_PER_LINE
    ensures Selection(l, height, index, count) == [] == Take(OnLineFrom(l, height, index), SPRITES_PER_LINE - count)
  {
  }

  /**
   * The sprites drawn on a line are the first ten (or fewer) on-line OAM
   * entries counting down from `index`, in that order.
   */
  lemma {:induction false} SelectionTakesFirst(l: Line, height: nat, index: int, count: nat)
    requires WellFormed(l) && index < MAX_SPRITES && count <= SPRITES_PER_LINE
    ensures Selection(l, height, index, count) == Take(OnLineFrom(l, height, index), SPRITES_PER_LINE - count)
    decreases index + 1
  {
    if index < 0 || count == SPRITES_PER_LINE {
      SelectionEnds(l, height, index, count);
    } else {
      SelectionTakesFirst(l, height, index - 1, count + 1);
      SelectionTakesFirst(l, height, index - 1, count);
      SelectionStep(l, height, index, count);
    }
  }

  /** At most ten sprites are drawn on a line, all of them on it. */
  lemma AtMostTenSprites(l: Line)
    requires WellFormed(l)
    ensures var drawn := Selection(l, SpriteHeight(l.lcdc), MAX_SPRITES - 1, 0);
      |drawn| <= SPRITES_PER_LINE && AllOnLine(l, drawn, SpriteHeight(l.lcdc))
  {
    SelectionTakesFirst(l, SpriteHeight(l.lcdc), MAX_SPRITES - 1, 0);
  }

  /** Drawing sprites keeps a framebuffer value in the palette range 0..3. */
  lemma {:induction false} SpritesKeepShades(l: Line, sprites: seq<Sprite>, height: nat, x: int, cur: bv8)
    requires WellFormed(l) && AllOnLine(l, sprites, height) && (height == 8 || height == 16)
    requires cur < 4
    ensures SpritesOver(l, sprites, height, x, cur) < 4
    decreases |sprites|
  {
    if sprites != [] {
      SpritesKeepShades(l, sprites[1..], height, x, SpriteOver(l, sprites[0], height, x, cur));
    }
  }

  /** The background layer at column `x`: the background if LCDC bit 0 is set, else 0. */
  function BackgroundLayer(l: Line, x: nat): (shade: bv8)
    requires WellFormed(l)
    ensures shade < 4
  {
    if IsBitSet(l.lcdc, BG_WINDOW_ENABLE) then BackgroundPixel(l, x) else 0
  }

  /**
   * renderWindow at column `x` over the value `cur`: the window from its
   * first column once LY has reached WY, `cur` everywhere else.
   */
  function WindowOver(l: Line, x: nat, cur: bv8): (shade: bv8)
    requires WellFormed(l) && x < SCREEN_WIDTH
    ensures shade == cur || shade < 4
  {
    if l.ly >= l.wy && x >= WindowStart(l.wx) then WindowPixel(l, x) else cur
  }

  /** The window over the background layer, when LCDC bit 5 is set and WX is at most 166. */
  function WindowLayer(l: Line, x: nat): (shade: bv8)
    requires WellFormed(l) && x < SCREEN_WIDTH
    ensures shade < 4
  {
    if IsBitSet(l.lcdc, WINDOW_ENABLE) && ShowsWindow(l) then WindowOver(l, x, BackgroundLayer(l, x))
    else BackgroundLayer(l, x)
  }

  /**
   * renderScanline at column `x`: 0, then the background, then the window,
   * then, if LCDC bit 1 is set, the selected sprites in the order they are drawn.
   */
  function ScanlinePixel(l: Line, x: nat): bv8
    requires WellFormed(l) && x < SCREEN_WIDTH
  {
    if IsBitSet(l.lcdc, SPRITE_ENABLE) then
      var height := SpriteHeight(l.lcdc);
      SpritesOver(l, Selection(l, height, MAX_SPRITES - 1, 0), height, x, WindowLayer(l, x))
    else WindowLayer(l, x)
  }

  /** The selection after drawing one more sprite on the line, in the loop's terms. */
  lemma SelectionAppend(l: Line, height: nat, drawn: seq<Sprite>, index: nat, count: nat)
    requires WellFormed(l) && index < MAX_SPRITES && count < SPRITES_PER_LINE
    requires OnLine(SpriteAt(l.oam, index), height, l.ly)
    requires Selection(l, height, MAX_SPRITES - 1, 0) == drawn + Selection(l, height, index, count)
    ensures Selection(l, height, MAX_SPRITES - 1, 0) == (drawn + [SpriteAt(l.oam, index)]) + Selection(l, height, index - 1, count + 1)
  {
    var rest := Selection(l, height, index - 1, count + 1);
    assert Selection(l, height, index, count) == [SpriteAt(l.oam, index)] + rest;
    assert drawn + ([SpriteAt(l.oam, index)] + rest) == (drawn + [SpriteAt(l.oam, index)]) + rest;
  }

  /** Every framebuffer value a scanline produces is a shade 0..3. */
  lemma ScanlineShades(l: Line, x: nat)
    requires WellFormed(l) && x < SCREEN_WIDTH
    ensures ScanlinePixel(l, x) < 4
  {
    var height := SpriteHeight(l.lcdc);
    SpritesKeepShades(l, Selection(l, height, MAX_SPRITES - 1, 0), height, x, WindowLayer(l, x));
  }

  /** Drawing one more sprite after a sequence of them. */
  lemma {:induction false} SpritesOverSnoc(l: Line, sprites: seq<Sprite>, s: Sprite, height: nat, x: int, cur: bv8)
    requires WellFormed(l) && AllOnLine(l, sprites, height) && OnLine(s, height, l.ly) && (height == 8 || height == 16)
    ensures AllOnLine(l, sprites + [s], height)
    ensures SpritesOver(l, sprites + [s], height, x, cur) == SpriteOver(l, s, height, x, SpritesOver(l, sprites, height, x, cur))
    decreases |sprites|
  {
    if sprites == [] {
      assert sprites + [s] == [s];
    } else {
      assert (sprites + [s])[1..] == sprites[1..] + [s];
      SpritesOverSnoc(l, sprites[1..], s, height, x, SpriteOver(l, sprites[0], height, x, cur));
    }
  }
}
