/**
 * The XPT2046 resistive touch controller: one three-byte SPI exchange per
 * conversion, the decoding of its answer, and the pen-down test on the IRQ
 * pin. The bytes the chip answers with and the level of the IRQ pin are
 * inputs of the model; the READ_X / READ_Y command bytes are not defined in
 * the driver's own files and are parameters.
 */
module Xpt2046 {
  import opened Bytes

  /**
   * The value `xpt2046_read_cmd` makes of the answer bytes `rx[1]`, `rx[2]`:
   * `((rx[1] << 8) | rx[2]) >> 3`, that is `rx[1]` followed by the top five
   * bits of `rx[2]`.
   */
  function Decode(rx1: Byte, rx2: Byte): (r: Word)
    ensures r / 0x20 == rx1 && r % 0x20 == rx2 / 8
    ensures r < 0x2000
  {
    rx1 * 0x20 + rx2 / 8
  }

  /**
   * The three low bits of `rx[2]` are discarded, and the result fits the
   * controller's 12-bit range exactly when the first bit clocked back (the
   * converter's busy slot) is clear.
   */
  lemma DecodeDropsLowBits(rx1: Byte, rx2: Byte, rx2': Byte)
    ensures Decode(rx1, rx2) == Decode(rx1, rx2') <==> rx2 / 8 == rx2' / 8
    ensures Decode(rx1, rx2) < 0x1000 <==> rx1 < 0x80
  {
  }

  /** Different answers that differ above the three discarded bits decode differently. */
  lemma DecodeInjective(a1: Byte, a2: Byte, b1: Byte, b2: Byte)
    requires Decode(a1, a2) == Decode(b1, b2)
    ensures a1 == b1 && a2 / 8 == b2 / 8
  {
  }

  class Touch {
    /** `CMD_READ_X` and `CMD_READ_Y`. */
    const cmdReadX: Byte
    const cmdReadY: Byte
    /** The frames clocked out to the controller, in order. */
    var sent: seq<seq<Byte>>

    constructor (cmdReadX: Byte, cmdReadY: Byte)
      ensures this.cmdReadX == cmdReadX && this.cmdReadY == cmdReadY && sent == []
    {
      this.cmdReadX := cmdReadX;
      this.cmdReadY := cmdReadY;
      sent := [];
    }

    /** `xpt2046_read_cmd`: `rx` is what the controller answers during the exchange. */
    method ReadCmd(cmd: Byte, rx: seq<Byte>) returns (val: Word)
      requires |rx| == 3
      modifies this
      ensures sent == old(sent) + [[cmd, 0, 0]]
      ensures val == Decode(rx[1], rx[2])
    {
      var tx := [cmd, 0x00, 0x00];
      sent := sent + [tx];
      // `rx[2]` fits below bit 8, so the or of the shifted high byte is a sum.
      var word := (rx[1] as int) * 0x100 + (rx[2] as int);
      assert word == 8 * Decode(rx[1], rx[2]) + rx[2] % 8;
      val := word / 8;
    }

    /**
     * `xpt2046_read_raw`: the IRQ pin is low while the panel is pressed.
     * `x` and `y` are the values the caller's variables hold before the call;
     * they come back unchanged when the panel is not pressed.
     */
    method ReadRaw(irqLevel: int, rxX: seq<Byte>, rxY: seq<Byte>, x: Word, y: Word)
      returns (pressed: bool, x': Word, y': Word)
      requires |rxX| == 3 && |rxY| == 3
      modifies this
      ensures pressed <==> irqLevel != 1
      ensures !pressed ==> x' == x && y' == y && sent == old(sent)
      ensures pressed ==> x' == Decode(rxX[1], rxX[2]) && y' == Decode(rxY[1], rxY[2])
      ensures pressed ==> sent == old(sent) + [[cmdReadX, 0, 0], [cmdReadY, 0, 0]]
    {
      if irqLevel == 1 {
        return false, x, y;
      }
      x' := ReadCmd(cmdReadX, rxX);
      y' := ReadCmd(cmdReadY, rxY);
      pressed := true;
    }

    /** `xpt2046_read_xy`, a placeholder: it reports (0, 0) and returns 0 without touching the bus. */
    method ReadXY() returns (status: Word, touchX: Word, touchY: Word)
      ensures status == 0 && touchX == 0 && touchY == 0
    {
      touchX := 0;
      touchY := 0;
      status := 0;
    }
  }
}
