/**
 * The SPI link to a display panel, seen as a log of transactions. Every
 * `send_command`, `send_data` and buffer transmit of the drivers appends one
 * Transfer: the level of the D/C pin during the transaction and the bytes
 * clocked out, in order. The bus set-up and the DMA engine are not modelled.
 */
module Spi {
  import opened Bytes

  /** The D/C pin: low marks a command byte, high marks data. */
  datatype Level = CommandLevel | DataLevel

  datatype Transfer = Transfer(dc: Level, bytes: seq<Byte>)

  function Cmd(c: Byte): Transfer { Transfer(CommandLevel, [c]) }

  function Dat(b: Byte): Transfer { Transfer(DataLevel, [b]) }

  /** Regrouping a log built from three parts. */
  lemma AppendAssoc(a: seq<Transfer>, b: seq<Transfer>, c: seq<Transfer>)
    ensures a + b + c == a + (b + c)
  {
  }

  /** An SPI device handle together with the panel's D/C pin. */
  class Bus {
    var log: seq<Transfer>

    constructor ()
      ensures log == []
    {
      log := [];
    }

    /** `*_send_command`: D/C low, one byte. */
    method SendCommand(c: Byte)
      modifies this
      ensures log == old(log) + [Cmd(c)]
    {
      log := log + [Cmd(c)];
    }

    /** `*_send_data`: D/C high, one byte. */
    method SendData(b: Byte)
      modifies this
      ensures log == old(log) + [Dat(b)]
    {
      log := log + [Dat(b)];
    }

    /**
     * One axis of a window: the column or row command, then the start and the
     * end coordinate, each high byte first, as five separate transactions.
     */
    method SendAxis(c: Byte, a: Word, b: Word)
      modifies this
      ensures log == old(log) + [Cmd(c)] + Span(a, b)
    {
      SendCommand(c);
      SendData(Hi(a));
      SendData(Lo(a));
      SendData(Hi(b));
      SendData(Lo(b));
    }

    /** D/C high, then one transaction carrying a whole buffer. */
    method SendBuffer(bs: seq<Byte>)
      modifies this
      ensures log == old(log) + [Transfer(DataLevel, bs)]
    {
      log := log + [Transfer(DataLevel, bs)];
    }
  }

  /** The MIPI DCS command codes shared by the three panels. */
  const CASET: Byte := 0x2A
  const RASET: Byte := 0x2B
  const RAMWR: Byte := 0x2C
  const MADCTL: Byte := 0x36

  /** A drawing window: columns x0..x1, rows y0..y1. */
  datatype Rect = Rect(x0: Word, y0: Word, x1: Word, y1: Word)

  /** The two coordinates of one axis, each high byte first. */
  function Span(a: Word, b: Word): seq<Transfer>
  {
    [Dat(Hi(a)), Dat(Lo(a)), Dat(Hi(b)), Dat(Lo(b))]
  }

  /** Column set, row set and memory write. */
  function Window(r: Rect): seq<Transfer>
  {
    [Cmd(CASET)] + Span(r.x0, r.x1) + [Cmd(RASET)] + Span(r.y0, r.y1) + [Cmd(RAMWR)]
  }

  predicate IsDataByte(t: Transfer) { t.dc == DataLevel && |t.bytes| == 1 }

  /** The 16-bit value carried by two consecutive single-byte data transfers. */
  function WordAt(ts: seq<Transfer>, i: nat): Word
    requires i + 1 < |ts| && IsDataByte(ts[i]) && IsDataByte(ts[i + 1])
  {
    (ts[i].bytes[0] as int) * 0x100 + ts[i + 1].bytes[0] as int
  }

  /** What a panel makes of an eleven-transaction window sequence. */
  function DecodeWindow(ts: seq<Transfer>): Option<Rect>
  {
    if |ts| == 11 && ts[0] == Cmd(CASET) && ts[5] == Cmd(RASET) && ts[10] == Cmd(RAMWR)
       && (forall i :: 1 <= i <= 4 ==> IsDataByte(ts[i]))
       && (forall i :: 6 <= i <= 9 ==> IsDataByte(ts[i]))
    then Some(Rect(WordAt(ts, 1), WordAt(ts, 6), WordAt(ts, 3), WordAt(ts, 8)))
    else None
  }

  lemma WindowRoundTrip(r: Rect)
    ensures DecodeWindow(Window(r)) == Some(r)
  {
    var ts := Window(r);
    assert forall i :: 1 <= i <= 4 ==> IsDataByte(ts[i]);
    assert forall i :: 6 <= i <= 9 ==> IsDataByte(ts[i]);
  }

  /** The encoding is the only sequence that decodes to a given window. */
  lemma DecodeWindowUnique(ts: seq<Transfer>, r: Rect)
    requires DecodeWindow(ts) == Some(r)
    ensures ts == Window(r)
  {
    var w := Window(r);
    assert IsDataByte(ts[1]) && IsDataByte(ts[2]) && IsDataByte(ts[3]) && IsDataByte(ts[4]);
    assert IsDataByte(ts[6]) && IsDataByte(ts[7]) && IsDataByte(ts[8]) && IsDataByte(ts[9]);
    forall i | 0 <= i < 11 ensures ts[i] == w[i] {
      if i in {1, 2, 3, 4, 6, 7, 8, 9} {
        assert |ts[i].bytes| == 1;
        assert ts[i].bytes == [ts[i].bytes[0]];
      }
    }
  }

  /** All bytes put on the wire by a sequence of transactions. */
  function Payload(ts: seq<Transfer>): seq<Byte>
  {
    if ts == [] then [] else ts[0].bytes + Payload(ts[1..])
  }

  lemma {:induction false} PayloadAppend(a: seq<Transfer>, b: seq<Transfer>)
    ensures Payload(a + b) == Payload(a) + Payload(b)
  {
    if a == [] {
      assert a + b == b;
    } else {
      assert (a + b)[0] == a[0];
      assert (a + b)[1..] == a[1..] + b;
      PayloadAppend(a[1..], b);
    }
  }

  /**
   * The bytes of a uint16_t buffer in the memory of the little-endian ESP32,
   * the order in which a DMA transmit sends them: low byte, then high byte.
   */
  function Pixels(ws: seq<Word>): seq<Byte>
  {
    if ws == [] then [] else [Lo(ws[0]), Hi(ws[0])] + Pixels(ws[1..])
  }

  /** The order a panel expects RGB565 pixels in: high byte, then low byte. */
  function BigEndian(ws: seq<Word>): seq<Byte>
  {
    if ws == [] then [] else [Hi(ws[0]), Lo(ws[0])] + BigEndian(ws[1..])
  }

  lemma {:induction false} PixelsOfRepeat(w: Word, n: nat)
    ensures Pixels(Repeat(w, n)) == PairRepeat(Lo(w), Hi(w), n)
  {
    if n > 0 {
      var r := Repeat(w, n);
      assert r == Repeat(w, n - 1) + [w];
      PixelsAppend(Repeat(w, n - 1), [w]);
      PixelsOfRepeat(w, n - 1);
    }
  }

  lemma {:induction false} PixelsAppend(a: seq<Word>, b: seq<Word>)
    ensures Pixels(a + b) == Pixels(a) + Pixels(b)
  {
    if a == [] {
      assert a + b == b;
    } else {
      assert (a + b)[0] == a[0];
      assert (a + b)[1..] == a[1..] + b;
      PixelsAppend(a[1..], b);
    }
  }

  lemma {:induction false} BigEndianAppend(a: seq<Word>, b: seq<Word>)
    ensures BigEndian(a + b) == BigEndian(a) + BigEndian(b)
  {
    if a == [] {
      assert a + b == b;
    } else {
      assert (a + b)[0] == a[0];
      assert (a + b)[1..] == a[1..] + b;
      BigEndianAppend(a[1..], b);
    }
  }

  /**
   * A fill of `n` pixels of the byte pair (a, b) sent from a prefilled buffer of
   * `max` pixels: a full buffer at a time, then the remainder.
   */
  function FillChunks(n: nat, max: nat, a: Byte, b: Byte): seq<Transfer>
    requires max > 0
    decreases n
  {
    if n == 0 then []
    else [Transfer(DataLevel, PairRepeat(a, b, Min(n, max)))] + FillChunks(n - Min(n, max), max, a, b)
  }

  /** The pieces of a fill carry exactly the `n` pixels between them. */
  lemma {:induction false} FillChunksPayload(n: nat, max: nat, a: Byte, b: Byte)
    requires max > 0
    ensures Payload(FillChunks(n, max, a, b)) == PairRepeat(a, b, n)
    decreases n
  {
    if n > 0 {
      var k := Min(n, max);
      var ts := FillChunks(n, max, a, b);
      assert ts[1..] == FillChunks(n - k, max, a, b);
      FillChunksPayload(n - k, max, a, b);
      PairRepeatSplit(a, b, k, n - k);
    }
  }

  /** Every piece is data, none is empty, none exceeds the buffer, and all but the last are full. */
  lemma {:induction false} FillChunksShape(n: nat, max: nat, a: Byte, b: Byte)
    requires max > 0
    ensures var ts := FillChunks(n, max, a, b);
      (n == 0 <==> ts == [])
      && (forall i :: 0 <= i < |ts| ==> ts[i].dc == DataLevel && 2 <= |ts[i].bytes| <= 2 * max)
      && (forall i :: 0 <= i < |ts| - 1 ==> |ts[i].bytes| == 2 * max)
    decreases n
  {
    if n > 0 {
      var k := Min(n, max);
      var ts := FillChunks(n, max, a, b);
      FillChunksShape(n - k, max, a, b);
      PairRepeatLength(a, b, k);
      assert ts[1..] == FillChunks(n - k, max, a, b);
      if n > max {
        assert n - k > 0;
      }
      forall i | 0 <= i < |ts| ensures ts[i].dc == DataLevel && 2 <= |ts[i].bytes| <= 2 * max {
        if i > 0 {
          assert ts[i] == ts[1..][i - 1];
        }
      }
      forall i | 0 <= i < |ts| - 1 ensures |ts[i].bytes| == 2 * max {
        if i > 0 {
          assert ts[i] == ts[1..][i - 1];
        } else {
          assert ts[1..] != [];
        }
      }
    }
  }

  /** `n` pixels sent one byte per transaction: `send_data(a); send_data(b);` in a loop. */
  function DataPairs(n: nat, a: Byte, b: Byte): seq<Transfer>
    decreases n
  {
    if n == 0 then [] else DataPairs(n - 1, a, b) + [Dat(a), Dat(b)]
  }

  /** Byte-at-a-time pixel loops put the same bytes on the wire as one buffer of pairs. */
  lemma {:induction false} DataPairsPayload(n: nat, a: Byte, b: Byte)
    ensures Payload(DataPairs(n, a, b)) == PairRepeat(a, b, n)
    ensures |DataPairs(n, a, b)| == 2 * n
    ensures forall i :: 0 <= i < 2 * n ==> IsDataByte(DataPairs(n, a, b)[i])
    decreases n
  {
    if n > 0 {
      DataPairsPayload(n - 1, a, b);
      PayloadAppend(DataPairs(n - 1, a, b), [Dat(a), Dat(b)]);
      assert [Dat(a), Dat(b)][1..] == [Dat(b)];
      assert Payload([Dat(b)]) == [b];
    }
  }
}
