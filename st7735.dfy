/**
 * The ST7735 panel driver: the initialisation command order, rotation and the
 * two full-screen fills. The resolution macros the fills loop over and the
 * rotation enumerators are not defined in the driver's own files: the
 * resolution is a parameter of the model and the rotations are 0..3, in the
 * order the rotation switch lists them.
 */
module St7735 {
  import opened Bytes
  import opened Spi

  const SWRESET: Byte := 0x01
  const SLPOUT: Byte := 0x11
  const COLMOD: Byte := 0x3A
  const DISPON: Byte := 0x29

  /** The COLMOD argument selecting 16-bit RGB565 pixels. */
  const COLMOD_RGB565: Byte := 0x05

  /** The MV bit: rows and columns exchanged. */
  const MADCTL_MV: Byte := 0x20

  /** The MADCTL byte chosen by `st7735_set_rotation`, or None for an invalid rotation. */
  function Madctl(rotation: int): Option<Byte>
  {
    if rotation == 0 then Some(0x00)
    else if rotation == 1 then Some(0x60)
    else if rotation == 2 then Some(0xC0)
    else if rotation == 3 then Some(0xA0)
    else None
  }

  /** Exactly the quarter turns exchange rows and columns; the four bytes are distinct. */
  lemma MadctlQuarterTurns(rotation: int, other: int)
    requires Madctl(rotation).Some? && Madctl(other).Some?
    ensures HasBits(Madctl(rotation).value, MADCTL_MV) <==> rotation == 1 || rotation == 3
    ensures Madctl(rotation) == Madctl(other) <==> rotation == other
  {
  }

  /** The commands of `st7735_init`, in order; the delays between them are not modelled. */
  const INIT_SEQUENCE: seq<Transfer> :=
    [Cmd(SWRESET), Cmd(SLPOUT), Cmd(COLMOD), Dat(COLMOD_RGB565), Cmd(MADCTL), Dat(0x00), Cmd(DISPON)]

  /**
   * The panel is reset first and switched on last, and nothing else resets
   * it or switches it on; the pixel format and the orientation are each set,
   * with their argument as the next transfer, before that.
   */
  lemma InitOrder()
    ensures var s := INIT_SEQUENCE;
      && s[0] == Cmd(SWRESET) && s[|s| - 1] == Cmd(DISPON)
      && (forall i :: 0 < i < |s| ==> s[i] != Cmd(SWRESET))
      && (forall i :: 0 <= i < |s| - 1 ==> s[i] != Cmd(DISPON))
      && (forall i :: 0 <= i < |s| && s[i] == Cmd(COLMOD) ==> i + 1 < |s| && s[i + 1] == Dat(COLMOD_RGB565))
      && (forall i :: 0 <= i < |s| && s[i] == Cmd(MADCTL) ==> i + 1 < |s| && s[i + 1] == Dat(Madctl(0).value))
      && (exists i :: 0 <= i < |s| && s[i] == Cmd(COLMOD))
      && (exists i :: 0 <= i < |s| && s[i] == Cmd(MADCTL))
  {
    var s := INIT_SEQUENCE;
    assert s[2] == Cmd(COLMOD);
    assert s[4] == Cmd(MADCTL);
  }

  /** The window `st7735_fill_screen` opens: columns 0..0x9F, rows 0..0x7F. */
  const FILL_WINDOW: Rect := Rect(0, 0, 0x9F, 0x7F)

  /** The window `st7735_fill_screen_white` opens: columns 0..0x7F, rows 0..0x9F. */
  const WHITE_WINDOW: Rect := Rect(0, 0, 0x7F, 0x9F)

  /** Everything a fill sends for an opened window: each pixel high byte first, one byte per transaction. */
  function FillLog(window: Rect, pixels: nat, color: Word): seq<Transfer>
  {
    Window(window) + DataPairs(pixels, Hi(color), Lo(color))
  }

  /**
   * `st7735_fill_screen` as written: its window is 160 columns by 128 rows,
   * the transpose of the 128-column panel its own comments and
   * `st7735_fill_screen_white` describe, so a white fill through it differs
   * from `st7735_fill_screen_white`.
   */
  lemma FillScreenWindowTransposed(pixels: nat)
    ensures DecodeWindow(FillLog(FILL_WINDOW, pixels, 0xFFFF)[..11]) == Some(Rect(0, 0, 159, 127))
    ensures FillLog(FILL_WINDOW, pixels, 0xFFFF) != FillLog(WHITE_WINDOW, pixels, 0xFFFF)
  {
    WindowRoundTrip(FILL_WINDOW);
    assert FillLog(FILL_WINDOW, pixels, 0xFFFF)[..11] == Window(FILL_WINDOW);
    assert FillLog(FILL_WINDOW, pixels, 0xFFFF)[4] != FillLog(WHITE_WINDOW, pixels, 0xFFFF)[4];
  }

  /**
   * The fill with the window the comments state: 128 columns by 160 rows.
   * It opens the portrait window for every colour, and a white fill through
   * it is exactly `st7735_fill_screen_white`.
   */
  function IntendedFillLog(pixels: nat, color: Word): (r: seq<Transfer>)
    ensures |r| >= 11
    ensures DecodeWindow(r[..11]) == Some(Rect(0, 0, 127, 159))
    ensures Payload(r[11..]) == PairRepeat(Hi(color), Lo(color), pixels)
    ensures color == 0xFFFF ==> r == FillLog(WHITE_WINDOW, pixels, 0xFFFF)
  {
    WindowRoundTrip(WHITE_WINDOW);
    DataPairsPayload(pixels, Hi(color), Lo(color));
    var r := FillLog(WHITE_WINDOW, pixels, color);
    assert r[..11] == Window(WHITE_WINDOW);
    assert r[11..] == DataPairs(pixels, Hi(color), Lo(color));
    r
  }

  class Driver {
    const bus: Bus
    /** `ST7735_DISP_HOR_RES` and `ST7735_DISP_VER_RES`. */
    const horRes: nat
    const verRes: nat

    constructor (bus: Bus, horRes: nat, verRes: nat)
      ensures this.bus == bus && this.horRes == horRes && this.verRes == verRes
    {
      this.bus := bus;
      this.horRes := horRes;
      this.verRes := verRes;
    }

    /** `st7735_init`, after the SPI set-up and the reset pulse. */
    method Init()
      modifies bus
      ensures bus.log == old(bus.log) + INIT_SEQUENCE
    {
      bus.SendCommand(SWRESET);
      bus.SendCommand(SLPOUT);
      bus.SendCommand(COLMOD);
      bus.SendData(COLMOD_RGB565);
      var err := SetRotation(0);
      bus.SendCommand(DISPON);
    }

    /** `st7735_set_rotation`. */
    method SetRotation(rotation: int) returns (err: EspErr)
      modifies bus
      ensures Madctl(rotation).None? ==> err == EspErrInvalidArg && bus.log == old(bus.log)
      ensures Madctl(rotation).Some? ==>
        err == EspOk && bus.log == old(bus.log) + [Cmd(MADCTL), Dat(Madctl(rotation).value)]
    {
      var madctl: Byte;
      if rotation == 0 {
        madctl := 0x00;
      } else if rotation == 1 {
        madctl := 0x60;
      } else if rotation == 2 {
        madctl := 0xC0;
      } else if rotation == 3 {
        madctl := 0xA0;
      } else {
        return EspErrInvalidArg;
      }
      bus.SendCommand(0x36);
      bus.SendData(madctl);
      return EspOk;
    }

    /** The pixel loop both fills share in the source: high byte, then low byte, per pixel. */
    method SendPixels(color: Word)
      modifies bus
      ensures bus.log == old(bus.log) + DataPairs(horRes * verRes, Hi(color), Lo(color))
    {
      for i := 0 to horRes * verRes
        invariant bus.log == old(bus.log) + DataPairs(i, Hi(color), Lo(color))
      {
        bus.SendData(Hi(color));
        bus.SendData(Lo(color));
      }
    }

    /** `st7735_fill_screen`. */
    method FillScreen(color: Word)
      modifies bus
      ensures bus.log == old(bus.log) + FillLog(FILL_WINDOW, horRes * verRes, color)
    {
      bus.SendAxis(0x2A, 0x0000, 0x009F);
      bus.SendAxis(0x2B, 0x0000, 0x007F);
      bus.SendCommand(0x2C);
      SendPixels(color);
    }

    /** `st7735_fill_screen_white`. */
    method FillScreenWhite()
      modifies bus
      ensures bus.log == old(bus.log) + FillLog(WHITE_WINDOW, horRes * verRes, 0xFFFF)
    {
      var color: Word := 0xFFFF;
      bus.SendAxis(0x2A, 0x0000, 0x007F);
      bus.SendAxis(0x2B, 0x0000, 0x009F);
      bus.SendCommand(0x2C);
      SendPixels(color);
    }
  }
}
