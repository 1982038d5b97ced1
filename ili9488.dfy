/**
 * The ILI9488 panel driver: rotation, full-screen fill and thick horizontal
 * or vertical lines. The driver's resolution constants are those of its
 * header (128 x 160); its MADCTL command and flag macros are not defined in
 * the driver's own files, so they are parameters of the model.
 */
module Ili9488 {
  import opened Bytes
  import opened Spi
  import Ili9341

  const HOR_RES: nat := 128
  const VER_RES: nat := 160
  const DISPLAY_SIZE: nat := HOR_RES * VER_RES

  /** Bytes in the line buffer (`CHUNK_SIZE`) and the pixels it holds. */
  const CHUNK_SIZE: nat := 1024
  const PIXELS_PER_CHUNK: nat := CHUNK_SIZE / 2

  /** The values of the MADCTL macros the driver is compiled against. */
  datatype MadctlConfig = MadctlConfig(command: Byte, mx: Byte, my: Byte, mv: Byte, rgb: Byte)

  /** The MADCTL byte chosen by `ili9488_set_rotation`, or None for an invalid rotation. */
  function Madctl(cfg: MadctlConfig, rotation: int): Option<Byte>
  {
    if rotation == 0 then Some(BitOr(cfg.mx, cfg.rgb))
    else if rotation == 1 then Some(BitOr(cfg.mv, cfg.rgb))
    else if rotation == 2 then Some(BitOr(cfg.my, cfg.rgb))
    else if rotation == 3 then Some(BitOr(BitOr(BitOr(cfg.mx, cfg.my), cfg.mv), cfg.rgb))
    else None
  }

  /**
   * With the usual MIPI bit positions and the colour-order bit set, the
   * rotation table is exactly the ILI9341 one: both drivers orient their
   * panels identically.
   */
  lemma MadctlAgreesWithIli9341(rotation: int)
    ensures Madctl(MadctlConfig(0x36, 0x40, 0x80, 0x20, 0x08), rotation) == Ili9341.Madctl(rotation)
  {
  }

  predicate OnPanel(x: Word, y: Word) { x < HOR_RES && y < VER_RES }

  predicate Covers(r: Rect, x: Word, y: Word) { r.x0 <= x <= r.x1 && r.y0 <= y <= r.y1 }

  /**
   * The window `ili9488_draw_thick_line` paints: the segment, widened by
   * `thickness / 2` on each side and cut at the panel edge. None for the
   * rejected calls (a point off the panel, zero thickness, a slanted line).
   */
  function LineWindow(x1: Word, y1: Word, x2: Word, y2: Word, thickness: Word): (r: Option<Rect>)
    ensures r.Some? <==> OnPanel(x1, y1) && OnPanel(x2, y2) && thickness > 0 && (y1 == y2 || x1 == x2)
    ensures r.Some? ==> var w := r.value;
      && Covers(w, x1, y1) && Covers(w, x2, y2) && w.x1 < HOR_RES && w.y1 < VER_RES
    ensures r.Some? && y1 == y2 ==> var w := r.value;
      && w.x0 == Min(x1, x2) && w.x1 == Max(x1, x2)
      && y1 - w.y0 <= thickness / 2 && (w.y0 == 0 || y1 - w.y0 == thickness / 2)
      && w.y1 - y1 <= thickness / 2 && (w.y1 == VER_RES - 1 || w.y1 - y1 == thickness / 2)
    ensures r.Some? && y1 != y2 ==> var w := r.value;
      && w.y0 == Min(y1, y2) && w.y1 == Max(y1, y2)
      && x1 - w.x0 <= thickness / 2 && (w.x0 == 0 || x1 - w.x0 == thickness / 2)
      && w.x1 - x1 <= thickness / 2 && (w.x1 == HOR_RES - 1 || w.x1 - x1 == thickness / 2)
  {
    if !(OnPanel(x1, y1) && OnPanel(x2, y2)) || thickness == 0 then None
    else if y1 == y2 then
      Some(Rect(if x1 < x2 then x1 else x2, if y1 > thickness / 2 then y1 - thickness / 2 else 0,
                if x1 < x2 then x2 else x1, if y1 + thickness / 2 < VER_RES then y1 + thickness / 2 else VER_RES - 1))
    else if x1 == x2 then
      Some(Rect(if x1 > thickness / 2 then x1 - thickness / 2 else 0, if y1 < y2 then y1 else y2,
                if x1 + thickness / 2 < HOR_RES then x1 + thickness / 2 else HOR_RES - 1, if y1 < y2 then y2 else y1))
    else None
  }

  /** The number of pixels in a window. */
  function Area(r: Rect): nat
    requires r.x0 <= r.x1 && r.y0 <= r.y1
  {
    (r.x1 - r.x0 + 1) * (r.y1 - r.y0 + 1)
  }

  /**
   * What `ili9488_draw_thick_line` returns and sends; `allocOk` is whether
   * the `malloc` of the line buffer succeeds. Pixels go out low byte first:
   * the byte-swapped colour's high byte is the colour's low byte.
   */
  function DrawThickLineLog(x1: Word, y1: Word, x2: Word, y2: Word, thickness: Word, color: Word, allocOk: bool)
    : (EspErr, seq<Transfer>)
  {
    match LineWindow(x1, y1, x2, y2, thickness)
    case None => (EspErrInvalidArg, [])
    case Some(w) =>
      if !allocOk then (EspErrNoMem, Window(w))
      else (EspOk, Window(w) + FillChunks(Area(w), PIXELS_PER_CHUNK, Lo(color), Hi(color)))
  }

  /**
   * A drawn line sends its window and then exactly one pixel for every
   * position of that window; a rejected line sends nothing; a failed
   * allocation leaves the window opened with no pixel written.
   */
  lemma DrawThickLineOutcome(x1: Word, y1: Word, x2: Word, y2: Word, thickness: Word, color: Word, allocOk: bool)
    ensures var (err, log) := DrawThickLineLog(x1, y1, x2, y2, thickness, color, allocOk);
      && (err == EspOk <==> LineWindow(x1, y1, x2, y2, thickness).Some? && allocOk)
      && (err == EspErrInvalidArg <==> LineWindow(x1, y1, x2, y2, thickness).None?)
      && (err == EspErrInvalidArg ==> log == [])
      && (err != EspErrInvalidArg ==> |log| >= 11 && DecodeWindow(log[..11]) == LineWindow(x1, y1, x2, y2, thickness))
      && (err == EspErrNoMem ==> |log| == 11)
      && (err == EspOk ==>
            Payload(log[11..]) == PairRepeat(Lo(color), Hi(color), Area(LineWindow(x1, y1, x2, y2, thickness).value)))
  {
    var (err, log) := DrawThickLineLog(x1, y1, x2, y2, thickness, color, allocOk);
    match LineWindow(x1, y1, x2, y2, thickness)
    case None =>
    case Some(w) =>
      WindowRoundTrip(w);
      assert |Window(w)| == 11;
      if allocOk {
        var rest := FillChunks(Area(w), PIXELS_PER_CHUNK, Lo(color), Hi(color));
        assert log == Window(w) + rest;
        assert log[..11] == Window(w);
        assert log[11..] == rest;
        FillChunksPayload(Area(w), PIXELS_PER_CHUNK, Lo(color), Hi(color));
      } else {
        assert log[..11] == log;
      }
  }

  /** The window `ili9488_fill_screen` opens: 320 columns by 480 rows. */
  const FULL_WINDOW: Rect := Rect(0, 0, 0x13F, 0x1DF)

  /** What `ili9488_fill_screen` sends: the window, then each pixel as two one-byte transactions. */
  function FillScreenLog(color: Word): seq<Transfer>
  {
    Window(FULL_WINDOW) + DataPairs(DISPLAY_SIZE, Lo(color), Hi(color))
  }

  /**
   * A full-screen fill writes `DISPLAY_SIZE` pixels into a window of 320 x 480:
   * the pixels cover the first 64 of its 480 rows and no more.
   */
  lemma FillScreenCoversTopRows(color: Word)
    ensures var log := FillScreenLog(color);
      && DecodeWindow(log[..11]) == Some(FULL_WINDOW)
      && Payload(log[11..]) == PairRepeat(Lo(color), Hi(color), 64 * (FULL_WINDOW.x1 + 1))
      && 64 * (FULL_WINDOW.x1 + 1) < Area(FULL_WINDOW)
  {
    var log := FillScreenLog(color);
    WindowRoundTrip(FULL_WINDOW);
    assert log[..11] == Window(FULL_WINDOW);
    assert log[11..] == DataPairs(DISPLAY_SIZE, Lo(color), Hi(color));
    DataPairsPayload(DISPLAY_SIZE, Lo(color), Hi(color));
  }

  class Driver {
    const bus: Bus
    const cfg: MadctlConfig

    constructor (bus: Bus, cfg: MadctlConfig)
      ensures this.bus == bus && this.cfg == cfg
    {
      this.bus := bus;
      this.cfg := cfg;
    }

    /** `ili9488_set_rotation`. */
    method SetRotation(rotation: int) returns (err: EspErr)
      modifies bus
      ensures Madctl(cfg, rotation).None? ==> err == EspErrInvalidArg && bus.log == old(bus.log)
      ensures Madctl(cfg, rotation).Some? ==>
        err == EspOk && bus.log == old(bus.log) + [Cmd(cfg.command), Dat(Madctl(cfg, rotation).value)]
    {
      var madctl: Byte;
      if rotation == 0 {
        madctl := BitOr(cfg.mx, cfg.rgb);
      } else if rotation == 1 {
        madctl := BitOr(cfg.mv, cfg.rgb);
      } else if rotation == 2 {
        madctl := BitOr(cfg.my, cfg.rgb);
      } else if rotation == 3 {
        madctl := BitOr(BitOr(BitOr(cfg.mx, cfg.my), cfg.mv), cfg.rgb);
      } else {
        return EspErrInvalidArg;
      }
      bus.SendCommand(cfg.command);
      bus.SendData(madctl);
      return EspOk;
    }

    /** Column set, row set and memory write for a window, one byte at a time. */
    method SendWindow(w: Rect)
      modifies bus
      ensures bus.log == old(bus.log) + Window(w)
    {
      bus.SendAxis(CASET, w.x0, w.x1);
      bus.SendAxis(RASET, w.y0, w.y1);
      bus.SendCommand(RAMWR);
    }

    /** `ili9488_fill_screen`. */
    method FillScreen(color: Word)
      modifies bus
      ensures bus.log == old(bus.log) + FillScreenLog(color)
    {
      bus.SendAxis(0x2A, 0x0000, 0x013F);
      bus.SendAxis(0x2B, 0x0000, 0x01DF);
      bus.SendCommand(0x2C);
      ghost var start := bus.log;
      assert start == old(bus.log) + Window(FULL_WINDOW);
      var colorBytes := Swap16(color);
      var colorHigh := Hi(colorBytes);
      var colorLow := Lo(colorBytes);
      for i := 0 to DISPLAY_SIZE
        invariant bus.log == start + DataPairs(i, Lo(color), Hi(color))
      {
        bus.SendData(colorHigh);
        bus.SendData(colorLow);
      }
    }

    /** `ili9488_fill_screen_white`. */
    method FillScreenWhite()
      modifies bus
      ensures bus.log == old(bus.log) + FillScreenLog(0xFFFF)
    {
      FillScreen(0xFFFF);
    }

    /** `ili9488_draw_thick_line`; `allocOk` stands for the outcome of `malloc`. */
    method DrawThickLine(x1: Word, y1: Word, x2: Word, y2: Word, thickness: Word, color: Word, allocOk: bool)
      returns (err: EspErr)
      modifies bus
      ensures err == DrawThickLineLog(x1, y1, x2, y2, thickness, color, allocOk).0
      ensures bus.log == old(bus.log) + DrawThickLineLog(x1, y1, x2, y2, thickness, color, allocOk).1
    {
      var valid, w := LineBounds(x1, y1, x2, y2, thickness);
      if !valid {
        return EspErrInvalidArg;
      }
      SendWindow(w);
      if !allocOk {
        return EspErrNoMem;
      }
      var buffer := NewLineBuffer(color);
      var totalPixels := (w.x1 - w.x0 + 1) * (w.y1 - w.y0 + 1);
      assert totalPixels == Area(w);
      SendLineChunks(buffer, totalPixels, color);
      return EspOk;
    }

    /** The argument checks of `ili9488_draw_thick_line` and its window bounds. */
    static method LineBounds(x1: Word, y1: Word, x2: Word, y2: Word, thickness: Word) returns (valid: bool, w: Rect)
      ensures valid <==> LineWindow(x1, y1, x2, y2, thickness).Some?
      ensures valid ==> w == LineWindow(x1, y1, x2, y2, thickness).value
    {
      w := Rect(0, 0, 0, 0);
      if x1 >= HOR_RES || x2 >= HOR_RES || y1 >= VER_RES || y2 >= VER_RES {
        return false, w;
      }
      if thickness == 0 {
        return false, w;
      }
      var xStart: Word, xEnd: Word, yStart: Word, yEnd: Word;
      var isHorizontal := y1 == y2;
      if isHorizontal {
        xStart := if x1 < x2 then x1 else x2;
        xEnd := if x1 < x2 then x2 else x1;
        yStart := if y1 > thickness / 2 then y1 - thickness / 2 else 0;
        yEnd := if y1 + thickness / 2 < VER_RES then y1 + thickness / 2 else VER_RES - 1;
      } else if x1 == x2 {
        yStart := if y1 < y2 then y1 else y2;
        yEnd := if y1 < y2 then y2 else y1;
        xStart := if x1 > thickness / 2 then x1 - thickness / 2 else 0;
        xEnd := if x1 + thickness / 2 < HOR_RES then x1 + thickness / 2 else HOR_RES - 1;
      } else {
        return false, w;
      }
      w := Rect(xStart, yStart, xEnd, yEnd);
      valid := true;
    }

    /** The successful `malloc` of the line buffer and its fill with the byte-swapped colour. */
    static method NewLineBuffer(color: Word) returns (buffer: array<Byte>)
      ensures fresh(buffer) && buffer.Length == CHUNK_SIZE
      ensures forall j :: 0 <= j < CHUNK_SIZE ==> buffer[j] == if j % 2 == 0 then Lo(color) else Hi(color)
    {
      buffer := new Byte[CHUNK_SIZE];
      var colorBytes := Swap16(color);
      for i := 0 to CHUNK_SIZE / 2
        invariant forall j :: 0 <= j < 2 * i ==> buffer[j] == if j % 2 == 0 then Lo(color) else Hi(color)
      {
        buffer[i * 2] := Hi(colorBytes);
        buffer[i * 2 + 1] := Lo(colorBytes);
      }
    }

    /**
     * The `for (i = 0; i < total_pixels; i += pixels_per_chunk)` loop of
     * `ili9488_draw_thick_line`: the prefilled buffer goes out 512 pixels at
     * a time, the last piece cut to what remains.
     */
    method SendLineChunks(buffer: array<Byte>, total: nat, color: Word)
      requires buffer.Length == CHUNK_SIZE
      requires forall j :: 0 <= j < CHUNK_SIZE ==> buffer[j] == if j % 2 == 0 then Lo(color) else Hi(color)
      modifies bus
      ensures bus.log == old(bus.log) + FillChunks(total, PIXELS_PER_CHUNK, Lo(color), Hi(color))
    {
      var i := 0;
      while i < total
        invariant 0 <= i
        invariant bus.log + FillChunks(Max(0, total - i), PIXELS_PER_CHUNK, Lo(color), Hi(color))
               == old(bus.log) + FillChunks(total, PIXELS_PER_CHUNK, Lo(color), Hi(color))
      {
        var pixelsToSend := if i + PIXELS_PER_CHUNK > total then total - i else PIXELS_PER_CHUNK;
        PairRepeatFromPattern(Lo(color), Hi(color), pixelsToSend, buffer[..pixelsToSend * 2]);
        assert FillChunks(total - i, PIXELS_PER_CHUNK, Lo(color), Hi(color))
            == [Transfer(DataLevel, buffer[..pixelsToSend * 2])]
               + FillChunks(Max(0, total - (i + PIXELS_PER_CHUNK)), PIXELS_PER_CHUNK, Lo(color), Hi(color));
        ghost var before := bus.log;
        bus.SendBuffer(buffer[..pixelsToSend * 2]);
        AppendAssoc(before, [Transfer(DataLevel, buffer[..pixelsToSend * 2])],
                    FillChunks(Max(0, total - (i + PIXELS_PER_CHUNK)), PIXELS_PER_CHUNK, Lo(color), Hi(color)));
        i := i + PIXELS_PER_CHUNK;
      }
    }
  }
}
