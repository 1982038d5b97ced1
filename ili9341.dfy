/**
 * The ILI9341 panel driver: rotation, drawing windows, colour byte order and
 * the chunked pixel transmits of full-screen fills, rectangle fills and the
 * graphics library's flush callback.
 */
module Ili9341 {
  import opened Bytes
  import opened Spi

  /** Panel size in its native portrait orientation. */
  const HOR_RES: nat := 240
  const VER_RES: nat := 320
  const DISPLAY_SIZE: nat := HOR_RES * VER_RES

  /** Pixels held by the DMA fill buffer (4096 bytes). */
  const DMA_FILL_PIXELS: nat := 2048

  /** Pixels per transaction in the flush callback. */
  const SPI_MAX_PIXELS_AT_ONCE: nat := 1024

  /** The enumerators of ili9341_rotation_t; any other int reaches the `default` branches. */
  const ROTATION_0: int := 0
  const ROTATION_90: int := 1
  const ROTATION_180: int := 2
  const ROTATION_270: int := 3

  /** MADCTL bits of the panel. */
  const MADCTL_MY: Byte := 0x80
  const MADCTL_MX: Byte := 0x40
  const MADCTL_MV: Byte := 0x20
  const MADCTL_BGR: Byte := 0x08

  /** The MADCTL byte chosen by `ili9341_set_rotation`, or None for an invalid rotation. */
  function Madctl(rotation: int): Option<Byte>
  {
    if rotation == ROTATION_0 then Some(0x48)
    else if rotation == ROTATION_90 then Some(0x28)
    else if rotation == ROTATION_180 then Some(0x88)
    else if rotation == ROTATION_270 then Some(0xE8)
    else None
  }

  /** The rotation a MADCTL byte selects: the inverse of Madctl. */
  function RotationOf(m: Byte): Option<int>
  {
    if m == 0x48 then Some(ROTATION_0)
    else if m == 0x28 then Some(ROTATION_90)
    else if m == 0x88 then Some(ROTATION_180)
    else if m == 0xE8 then Some(ROTATION_270)
    else None
  }

  lemma MadctlRoundTrip(rotation: int, m: Byte)
    ensures Madctl(rotation) == Some(m) <==> RotationOf(m) == Some(rotation)
  {
  }

  /** The four values are the flag combinations the panel's data sheet names. */
  lemma MadctlIsFlagCombination()
    ensures Madctl(ROTATION_0) == Some(BitOr(MADCTL_MX, MADCTL_BGR))
    ensures Madctl(ROTATION_90) == Some(BitOr(MADCTL_MV, MADCTL_BGR))
    ensures Madctl(ROTATION_180) == Some(BitOr(MADCTL_MY, MADCTL_BGR))
    ensures Madctl(ROTATION_270) == Some(BitOr(BitOr(BitOr(MADCTL_MX, MADCTL_MY), MADCTL_MV), MADCTL_BGR))
  {
  }

  /** The full-screen window `ili9341_fill_screen` selects for a rotation. */
  function FillWindow(rotation: int): Rect
  {
    if rotation == ROTATION_90 || rotation == ROTATION_270
    then Rect(0, 0, VER_RES - 1, HOR_RES - 1)
    else Rect(0, 0, HOR_RES - 1, VER_RES - 1)
  }

  /**
   * The fill window is landscape exactly for the rotations whose MADCTL byte
   * exchanges rows and columns, and it always covers the whole panel.
   */
  lemma FillWindowFollowsMadctl(rotation: int)
    requires Madctl(rotation).Some?
    ensures var w := FillWindow(rotation);
      (w.x1 == VER_RES - 1 <==> HasBits(Madctl(rotation).value, MADCTL_MV))
      && (w.x1 - w.x0 + 1) * (w.y1 - w.y0 + 1) == DISPLAY_SIZE
  {
  }

  /** What `ili9341_set_address_window` sends: nothing for an empty window. */
  function AddressWindow(x0: Word, y0: Word, x1: Word, y1: Word): seq<Transfer>
  {
    if x1 < x0 || y1 < y0 then [] else Window(Rect(x0, y0, x1, y1))
  }

  /**
   * The extent `ili9341_fill_rect_dma` keeps along one axis: a rectangle that
   * runs past the edge of the panel is cut at the edge.
   */
  function Clamp(origin: Word, extent: Word, limit: nat): (r: nat)
    requires origin < limit
    ensures r <= extent && origin + r <= limit
    ensures origin + extent <= limit ==> r == extent
    ensures origin + extent > limit ==> origin + r == limit
  {
    if origin + extent > limit then limit - origin else extent
  }

  /** `(uint32_t)w * h`, the pixel count of a clamped rectangle. */
  function PixelCount(w: nat, h: nat): nat
  {
    w * h
  }

  /** Everything `ili9341_fill_rect_dma` sends; nothing when the origin is off the panel. */
  function FillRectLog(x: Word, y: Word, w: Word, h: Word, color: Word): seq<Transfer>
  {
    if x >= HOR_RES || y >= VER_RES then []
    else
      var cw := Clamp(x, w, HOR_RES);
      var ch := Clamp(y, h, VER_RES);
      AddressWindow(x, y, ToWord(x + cw - 1), ToWord(y + ch - 1))
      + FillChunks(PixelCount(cw, ch), DMA_FILL_PIXELS, Hi(color), Lo(color))
  }

  /**
   * A rectangle that keeps some area is drawn in a window that decodes to
   * exactly the clamped rectangle, and the pixels sent fill that window.
   */
  lemma FillRectFillsItsWindow(x: Word, y: Word, w: Word, h: Word, color: Word)
    requires x < HOR_RES && y < VER_RES && w > 0 && h > 0
    ensures var cw := Clamp(x, w, HOR_RES);
      var ch := Clamp(y, h, VER_RES);
      var log := FillRectLog(x, y, w, h, color);
      && cw > 0 && ch > 0
      && DecodeWindow(log[..11]) == Some(Rect(x, y, x + cw - 1, y + ch - 1))
      && Payload(log[11..]) == PairRepeat(Hi(color), Lo(color), cw * ch)
  {
    var cw := Clamp(x, w, HOR_RES);
    var ch := Clamp(y, h, VER_RES);
    var r := Rect(x, y, x + cw - 1, y + ch - 1);
    var n := PixelCount(cw, ch);
    var fill := FillChunks(n, DMA_FILL_PIXELS, Hi(color), Lo(color));
    FillRectLogShape(x, y, w, h, color);
    var log := Window(r) + fill;
    assert |Window(r)| == 11;
    assert log[..11] == Window(r);
    assert log[11..] == fill;
    WindowRoundTrip(r);
    FillChunksPayload(n, DMA_FILL_PIXELS, Hi(color), Lo(color));
  }

  /** With some area left, the window sent is the clamped rectangle itself: no coordinate wraps. */
  lemma FillRectLogShape(x: Word, y: Word, w: Word, h: Word, color: Word)
    requires x < HOR_RES && y < VER_RES && w > 0 && h > 0
    ensures var cw := Clamp(x, w, HOR_RES);
      var ch := Clamp(y, h, VER_RES);
      FillRectLog(x, y, w, h, color)
      == Window(Rect(x, y, x + cw - 1, y + ch - 1)) + FillChunks(PixelCount(cw, ch), DMA_FILL_PIXELS, Hi(color), Lo(color))
  {
    var cw := Clamp(x, w, HOR_RES);
    var ch := Clamp(y, h, VER_RES);
    assert ToWord(x + cw - 1) == x + cw - 1;
    assert ToWord(y + ch - 1) == y + ch - 1;
  }

  /**
   * A zero-width rectangle at column 0 still sends a window: `x + w - 1` is -1,
   * which becomes column 0xFFFF as a uint16_t, so the guard of
   * `ili9341_set_address_window` lets it through. No pixel follows it.
   */
  lemma ZeroWidthAtOriginSendsWindow(y: Word, h: Word, color: Word)
    requires y < VER_RES && h > 0
    ensures FillRectLog(0, y, 0, h, color) == Window(Rect(0, y, 0xFFFF, y + Clamp(y, h, VER_RES) - 1))
  {
    var ch := Clamp(y, h, VER_RES);
    assert Clamp(0, 0, HOR_RES) == 0;
    assert ToWord(0 + 0 - 1) == 0xFFFF;
    assert ToWord(y + ch - 1) == y + ch - 1;
    assert PixelCount(0, ch) == 0;
    assert FillChunks(0, DMA_FILL_PIXELS, Hi(color), Lo(color)) == [];
  }

  /** One pass of the fill transmit loop sends the first piece of the fill from a buffer of swapped `color`. */
  lemma FillBufferChunk(buf: seq<Word>, color: Word, remaining: nat)
    requires |buf| == DMA_FILL_PIXELS && remaining > 0
    requires forall j :: 0 <= j < |buf| ==> buf[j] == Swap16(color)
    ensures var chunk := Min(remaining, DMA_FILL_PIXELS);
      FillChunks(remaining, DMA_FILL_PIXELS, Hi(color), Lo(color))
      == [Transfer(DataLevel, Pixels(buf[..chunk]))]
         + FillChunks(remaining - chunk, DMA_FILL_PIXELS, Hi(color), Lo(color))
  {
    var chunk := Min(remaining, DMA_FILL_PIXELS);
    assert buf[..chunk] == Repeat(Swap16(color), chunk);
    PixelsOfRepeat(Swap16(color), chunk);
  }

  /** The bytes the flush callback sends for a block of source pixels: each swapped, in order. */
  function SwapAll(ws: seq<Word>): (r: seq<Word>)
    ensures |r| == |ws|
    ensures forall i :: 0 <= i < |ws| ==> r[i] == Swap16(ws[i])
  {
    seq(|ws|, i requires 0 <= i < |ws| => Swap16(ws[i]))
  }

  /** The transactions of `ili9341_flush_spi` for the pixels `src`, `max` at a time. */
  function FlushChunks(src: seq<Word>, max: nat): seq<Transfer>
    requires max > 0
    decreases |src|
  {
    if src == [] then []
    else [Transfer(DataLevel, Pixels(SwapAll(src[..Min(|src|, max)])))] + FlushChunks(src[Min(|src|, max)..], max)
  }

  lemma {:induction false} PixelsOfSwapped(ws: seq<Word>)
    ensures Pixels(SwapAll(ws)) == BigEndian(ws)
    decreases |ws|
  {
    if ws != [] {
      assert SwapAll(ws)[1..] == SwapAll(ws[1..]);
      PixelsOfSwapped(ws[1..]);
    }
  }

  /**
   * The flush puts the source pixels on the wire in their order, each high
   * byte first.
   */
  lemma {:induction false} FlushChunksCarrySource(src: seq<Word>, max: nat)
    requires max > 0
    ensures Payload(FlushChunks(src, max)) == BigEndian(src)
    decreases |src|
  {
    if src != [] {
      var k := Min(|src|, max);
      var ts := FlushChunks(src, max);
      assert ts[0].bytes == Pixels(SwapAll(src[..k]));
      assert ts[1..] == FlushChunks(src[k..], max);
      assert Payload(ts) == ts[0].bytes + Payload(ts[1..]);
      FlushChunksCarrySource(src[k..], max);
      PixelsOfSwapped(src[..k]);
      assert src == src[..k] + src[k..];
      BigEndianAppend(src[..k], src[k..]);
    }
  }

  /** Every transaction of the flush is a data transaction of one to `max` pixels. */
  lemma {:induction false} FlushChunksBounded(src: seq<Word>, max: nat)
    requires max > 0
    ensures forall t :: t in FlushChunks(src, max) ==> t.dc == DataLevel && 2 <= |t.bytes| <= 2 * max
    decreases |src|
  {
    if src != [] {
      var k := Min(|src|, max);
      var ts := FlushChunks(src, max);
      assert ts[1..] == FlushChunks(src[k..], max);
      FlushChunksBounded(src[k..], max);
      PixelsLength(SwapAll(src[..k]));
      forall t | t in ts ensures t.dc == DataLevel && 2 <= |t.bytes| <= 2 * max {
        if t != ts[0] {
          assert t in ts[1..];
        }
      }
    }
  }

  lemma {:induction false} PixelsLength(ws: seq<Word>)
    ensures |Pixels(ws)| == 2 * |ws|
    decreases |ws|
  {
    if ws != [] {
      PixelsLength(ws[1..]);
    }
  }

  predicate IsInt32(v: int) { -0x8000_0000 <= v < 0x8000_0000 }

  /** The C `int` arithmetic of the flush callback stays defined (no signed overflow). */
  predicate FlushArithmeticDefined(x1: int, y1: int, x2: int, y2: int)
  {
    IsInt32(x1) && IsInt32(y1) && IsInt32(x2) && IsInt32(y2)
    && IsInt32(x2 - x1 + 1) && IsInt32(y2 - y1 + 1) && IsInt32((x2 - x1 + 1) * (y2 - y1 + 1))
  }

  /** The number of pixels the flush callback sends. */
  function FlushCount(x1: int, y1: int, x2: int, y2: int): nat
  {
    Max(0, (x2 - x1 + 1) * (y2 - y1 + 1))
  }

  class Driver {
    const bus: Bus
    /** `dma_fill_buf`, allocated once by `ili9341_alloc_dma_buffers`. */
    const fillBuf: array<Word>
    /** The static `tx_buf` of the flush callback. */
    const txBuf: array<Word>

    ghost predicate Valid()
      reads this
    {
      fillBuf.Length == DMA_FILL_PIXELS && txBuf.Length == SPI_MAX_PIXELS_AT_ONCE && fillBuf != txBuf
    }

    constructor (bus: Bus)
      ensures Valid() && this.bus == bus && fresh(fillBuf) && fresh(txBuf)
    {
      this.bus := bus;
      fillBuf := new Word[DMA_FILL_PIXELS];
      txBuf := new Word[SPI_MAX_PIXELS_AT_ONCE];
    }

    /** `ili9341_set_rotation`. */
    method SetRotation(rotation: int) returns (err: EspErr)
      modifies bus
      ensures Madctl(rotation).None? ==> err == EspErrInvalidArg && bus.log == old(bus.log)
      ensures Madctl(rotation).Some? ==>
        err == EspOk && bus.log == old(bus.log) + [Cmd(MADCTL), Dat(Madctl(rotation).value)]
    {
      var madctl: Byte;
      if rotation == ROTATION_0 {
        madctl := 0x48;
      } else if rotation == ROTATION_90 {
        madctl := 0x28;
      } else if rotation == ROTATION_180 {
        madctl := 0x88;
      } else if rotation == ROTATION_270 {
        madctl := 0xE8;
      } else {
        return EspErrInvalidArg;
      }
      bus.SendCommand(MADCTL);
      bus.SendData(madctl);
      return EspOk;
    }

    /** `ili9341_set_address_window`. */
    method SetAddressWindow(x0: Word, y0: Word, x1: Word, y1: Word)
      modifies bus
      ensures bus.log == old(bus.log) + AddressWindow(x0, y0, x1, y1)
    {
      if x1 < x0 || y1 < y0 {
        return;
      }
      bus.SendAxis(CASET, x0, x1);
      bus.SendAxis(RASET, y0, y1);
      bus.SendCommand(RAMWR);
    }

    /** The buffer fill loop shared by the two fills: every entry becomes `out`. */
    method FillDmaBuffer(out: Word)
      requires Valid()
      modifies fillBuf
      ensures forall j :: 0 <= j < fillBuf.Length ==> fillBuf[j] == out
    {
      for i := 0 to DMA_FILL_PIXELS
        invariant forall j :: 0 <= j < i ==> fillBuf[j] == out
      {
        fillBuf[i] := out;
      }
    }

    /**
     * The `while (total_pixels > 0)` transmit loop shared by the two fills:
     * the prefilled buffer goes out `DMA_FILL_PIXELS` pixels at a time.
     */
    method TransmitFill(total: nat, color: Word)
      requires Valid()
      requires forall j :: 0 <= j < fillBuf.Length ==> fillBuf[j] == Swap16(color)
      modifies bus
      ensures bus.log == old(bus.log) + FillChunks(total, DMA_FILL_PIXELS, Hi(color), Lo(color))
    {
      var out := Swap16(color);
      var remaining := total;
      while remaining > 0
        invariant 0 <= remaining <= total
        invariant bus.log + FillChunks(remaining, DMA_FILL_PIXELS, Hi(color), Lo(color))
               == old(bus.log) + FillChunks(total, DMA_FILL_PIXELS, Hi(color), Lo(color))
      {
        var chunk := if remaining > DMA_FILL_PIXELS then DMA_FILL_PIXELS else remaining;
        FillBufferChunk(fillBuf[..], color, remaining);
        assert fillBuf[..chunk] == fillBuf[..][..chunk];
        ghost var before := bus.log;
        bus.SendBuffer(Pixels(fillBuf[..chunk]));
        AppendAssoc(before, [Transfer(DataLevel, Pixels(fillBuf[..chunk]))],
                    FillChunks(remaining - chunk, DMA_FILL_PIXELS, Hi(color), Lo(color)));
        remaining := remaining - chunk;
      }
    }

    /** `ili9341_fill_screen`. */
    method FillScreen(rotation: int, color: Word)
      requires Valid()
      modifies bus, fillBuf
      ensures forall j :: 0 <= j < fillBuf.Length ==> fillBuf[j] == Swap16(color)
      ensures bus.log == old(bus.log) + Window(FillWindow(rotation))
                         + FillChunks(DISPLAY_SIZE, DMA_FILL_PIXELS, Hi(color), Lo(color))
    {
      if rotation == ROTATION_0 {
        SetAddressWindow(0, 0, HOR_RES - 1, VER_RES - 1);
      } else if rotation == ROTATION_90 {
        SetAddressWindow(0, 0, VER_RES - 1, HOR_RES - 1);
      } else if rotation == ROTATION_180 {
        SetAddressWindow(0, 0, HOR_RES - 1, VER_RES - 1);
      } else if rotation == ROTATION_270 {
        SetAddressWindow(0, 0, VER_RES - 1, HOR_RES - 1);
      } else {
        SetAddressWindow(0, 0, HOR_RES - 1, VER_RES - 1);
      }
      var total := HOR_RES * VER_RES;
      var out := Swap16(color);
      FillDmaBuffer(out);
      TransmitFill(total, color);
    }

    /** `ili9341_fill_screen_white`. */
    method FillScreenWhite(rotation: int)
      requires Valid()
      modifies bus, fillBuf
      ensures bus.log == old(bus.log) + Window(FillWindow(rotation))
                         + FillChunks(DISPLAY_SIZE, DMA_FILL_PIXELS, 0xFF, 0xFF)
    {
      FillScreen(rotation, 0xFFFF);
    }

    /** `ili9341_fill_rect_dma`; the rotation argument is unused by the source. */
    method FillRectDma(rotation: int, x: Word, y: Word, w: Word, h: Word, color: Word)
      requires Valid()
      modifies bus, fillBuf
      ensures bus.log == old(bus.log) + FillRectLog(x, y, w, h, color)
    {
      if x >= HOR_RES || y >= VER_RES {
        return;
      }
      var cw := Clamp(x, w, HOR_RES);
      var ch := Clamp(y, h, VER_RES);
      var total := PixelCount(cw, ch);
      ghost var before := bus.log;
      FillRectPixels(x, y, ToWord(x + cw - 1), ToWord(y + ch - 1), total, color);
      AppendAssoc(before, AddressWindow(x, y, ToWord(x + cw - 1), ToWord(y + ch - 1)),
                  FillChunks(total, DMA_FILL_PIXELS, Hi(color), Lo(color)));
    }

    /**
     * The part of `ili9341_fill_rect_dma` after the clamping: fill the buffer,
     * open the window, send `total` pixels.
     */
    method FillRectPixels(x0: Word, y0: Word, x1: Word, y1: Word, total: nat, color: Word)
      requires Valid()
      modifies bus, fillBuf
      ensures bus.log == old(bus.log) + AddressWindow(x0, y0, x1, y1)
                         + FillChunks(total, DMA_FILL_PIXELS, Hi(color), Lo(color))
    {
      var out := Swap16(color);
      FillDmaBuffer(out);
      SetAddressWindow(x0, y0, x1, y1);
      TransmitFill(total, color);
    }

    /** `ili9341_flush_spi`: `pxMap` is the graphics library's RGB565 block. */
    method FlushSpi(x1: int, y1: int, x2: int, y2: int, pxMap: seq<Word>)
      requires Valid()
      requires FlushArithmeticDefined(x1, y1, x2, y2)
      requires FlushCount(x1, y1, x2, y2) <= |pxMap|
      modifies bus, txBuf
      ensures bus.log == old(bus.log) + AddressWindow(ToWord(x1), ToWord(y1), ToWord(x2), ToWord(y2))
                         + FlushChunks(pxMap[..FlushCount(x1, y1, x2, y2)], SPI_MAX_PIXELS_AT_ONCE)
    {
      SetAddressWindow(ToWord(x1), ToWord(y1), ToWord(x2), ToWord(y2));
      var total := (x2 - x1 + 1) * (y2 - y1 + 1);
      SendSwapped(pxMap, total);
    }

    /** The inner copy loop of `ili9341_flush_spi`: `chunk` source pixels from `sent` on, byte-swapped into `tx_buf`. */
    method SwapInto(pxMap: seq<Word>, sent: nat, chunk: nat)
      requires Valid()
      requires sent + chunk <= |pxMap| && chunk <= txBuf.Length
      modifies txBuf
      ensures txBuf[..chunk] == SwapAll(pxMap[sent..sent + chunk])
    {
      for i := 0 to chunk
        invariant forall j :: 0 <= j < i ==> txBuf[j] == Swap16(pxMap[sent + j])
      {
        txBuf[i] := Swap16(pxMap[sent + i]);
      }
    }

    /**
     * The `while (sent < total_pixels)` loop of `ili9341_flush_spi`: up to
     * `SPI_MAX_PIXELS_AT_ONCE` source pixels are byte-swapped into `tx_buf`
     * and sent, until `total` pixels have gone (none when `total` is not positive).
     */
    method SendSwapped(pxMap: seq<Word>, total: int)
      requires Valid()
      requires Max(0, total) <= |pxMap|
      modifies bus, txBuf
      ensures bus.log == old(bus.log) + FlushChunks(pxMap[..Max(0, total)], SPI_MAX_PIXELS_AT_ONCE)
    {
      ghost var src := pxMap[..Max(0, total)];
      var sent := 0;
      assert src[sent..] == src;
      while sent < total
        invariant 0 <= sent <= |src|
        invariant total > 0 ==> |src| == total
        invariant bus.log + FlushChunks(src[sent..], SPI_MAX_PIXELS_AT_ONCE)
               == old(bus.log) + FlushChunks(src, SPI_MAX_PIXELS_AT_ONCE)
      {
        var chunk := total - sent;
        if chunk > SPI_MAX_PIXELS_AT_ONCE {
          chunk := SPI_MAX_PIXELS_AT_ONCE;
        }
        SwapInto(pxMap, sent, chunk);
        ghost var rest := src[sent..];
        assert chunk == Min(|rest|, SPI_MAX_PIXELS_AT_ONCE);
        assert rest[..chunk] == pxMap[sent..sent + chunk];
        assert rest[chunk..] == src[sent + chunk..];
        assert FlushChunks(rest, SPI_MAX_PIXELS_AT_ONCE)
            == [Transfer(DataLevel, Pixels(txBuf[..chunk]))] + FlushChunks(src[sent + chunk..], SPI_MAX_PIXELS_AT_ONCE);
        ghost var before := bus.log;
        bus.SendBuffer(Pixels(txBuf[..chunk]));
        AppendAssoc(before, [Transfer(DataLevel, Pixels(txBuf[..chunk]))],
                    FlushChunks(src[sent + chunk..], SPI_MAX_PIXELS_AT_ONCE));
        sent := sent + chunk;
      }
      assert src[sent..] == [];
    }
  }
}
