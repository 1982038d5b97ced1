/**
 * What the audio player's tasks share: the command and state enumerations,
 * the command queue (eight slots, never waited on), the byte ring buffer
 * (32 KiB, a send is accepted whole or not at all), and the WAV file as a
 * stream read in chunks.
 */
module AudioCore {
  import opened Bytes

  /** `audio_cmd_t`. */
  datatype Command = CmdNone | CmdPlay | CmdPause | CmdStop | CmdEof

  /** `audio_state_t`. */
  datatype State = Idle | Playing | Paused | Stopped

  /** The length `xQueueCreate` gives the command queue. */
  const QUEUE_LENGTH: nat := 8
  /** `AUDIO_RINGBUF_SIZE`. */
  const RINGBUF_SIZE: nat := 32 * 1024
  /** `AUDIO_READ_CHUNK`, the size of the reader's buffer. */
  const READ_CHUNK: nat := 2048
  /** `WAV_HEADER_SIZE`, the offset playback starts from. */
  const WAV_HEADER_SIZE: nat := 44

  /** `xQueueSend(q, &c, 0)`: the command is appended when a slot is free and dropped otherwise. */
  function QueueSend(items: seq<Command>, c: Command): (r: seq<Command>)
    ensures r == items || r == items + [c]
    ensures r == items + [c] <==> |items| < QUEUE_LENGTH
    ensures |items| <= QUEUE_LENGTH ==> |r| <= QUEUE_LENGTH
  {
    if |items| < QUEUE_LENGTH then items + [c] else items
  }

  /** `xRingbufferSend` on a byte buffer: the whole chunk is accepted if it fits, otherwise none of it. */
  function RingSend(bytes: seq<Byte>, chunk: seq<Byte>): (r: seq<Byte>)
    ensures r == bytes || r == bytes + chunk
    ensures r == bytes + chunk <==> |bytes| + |chunk| <= RINGBUF_SIZE || chunk == []
    ensures |bytes| <= RINGBUF_SIZE ==> |r| <= RINGBUF_SIZE
  {
    if |bytes| + |chunk| <= RINGBUF_SIZE then bytes + chunk else bytes
  }

  /** The command queue `audio_cmd_q`. */
  class CommandQueue {
    var items: seq<Command>

    constructor ()
      ensures items == []
    {
      items := [];
    }

    /** `xQueueSend(audio_cmd_q, &c, 0)`; the result is whether it returned `pdTRUE`. */
    method Send(c: Command) returns (ok: bool)
      modifies this
      ensures ok <==> |old(items)| < QUEUE_LENGTH
      ensures items == QueueSend(old(items), c)
    {
      ok := |items| < QUEUE_LENGTH;
      if ok {
        items := items + [c];
      }
    }

    /** `xQueueReceive`: the oldest command, or None where the task would block. */
    method Receive() returns (c: Option<Command>)
      modifies this
      ensures old(items) == [] ==> c == None && items == []
      ensures old(items) != [] ==> c == Some(old(items)[0]) && items == old(items)[1..]
    {
      if items == [] {
        return None;
      }
      c := Some(items[0]);
      items := items[1..];
    }
  }

  /** The ring buffer `audio_rb`. */
  class RingBuffer {
    var bytes: seq<Byte>

    constructor ()
      ensures bytes == []
    {
      bytes := [];
    }

    /** `xRingbufferSend(audio_rb, chunk, |chunk|, timeout)`, with nothing drained during the timeout. */
    method Send(chunk: seq<Byte>) returns (ok: bool)
      modifies this
      ensures ok <==> |old(bytes)| + |chunk| <= RINGBUF_SIZE
      ensures bytes == RingSend(old(bytes), chunk)
    {
      ok := |bytes| + |chunk| <= RINGBUF_SIZE;
      if ok {
        bytes := bytes + chunk;
      }
    }
  }

  /** An open file: its bytes and the position of the next read. */
  datatype Stream = Stream(data: seq<Byte>, pos: nat)

  /** The bytes from the position to the end; none once the position is at or past the end. */
  function Remaining(f: Stream): seq<Byte>
  {
    if f.pos < |f.data| then f.data[f.pos..] else []
  }

  /** `fread(buffer, 1, n, f)`: the bytes read and the stream after them. */
  function Read(f: Stream, n: nat): (r: (seq<Byte>, Stream))
    ensures r.1.data == f.data && r.1.pos == f.pos + |r.0|
    ensures |r.0| <= n && |r.0| <= |Remaining(f)| && r.0 == Remaining(f)[..|r.0|]
    ensures |r.0| < n ==> r.0 == Remaining(f)
    ensures Remaining(r.1) == Remaining(f)[|r.0|..]
  {
    var k := Min(n, |Remaining(f)|);
    (Remaining(f)[..k], f.(pos := f.pos + k))
  }

  /** `data` cut into consecutive pieces of `n` bytes, the last possibly shorter. */
  function Chunks(data: seq<Byte>, n: nat): (r: seq<seq<Byte>>)
    requires n > 0
    ensures forall k :: 0 <= k < |r| ==> 0 < |r[k]| <= n
    ensures forall k :: 0 <= k < |r| - 1 ==> |r[k]| == n
    decreases |data|
  {
    if data == [] then []
    else if |data| <= n then [data]
    else [data[..n]] + Chunks(data[n..], n)
  }

  /** The pieces laid end to end. */
  function Flatten(pieces: seq<seq<Byte>>): seq<Byte>
    decreases |pieces|
  {
    if pieces == [] then [] else pieces[0] + Flatten(pieces[1..])
  }

  /** Cutting into chunks loses nothing and adds nothing. */
  lemma {:induction false} ChunksFlatten(data: seq<Byte>, n: nat)
    requires n > 0
    ensures Flatten(Chunks(data, n)) == data
    decreases |data|
  {
    if |data| > n {
      ChunksFlatten(data[n..], n);
      assert Chunks(data, n)[1..] == Chunks(data[n..], n);
    }
  }

  /** One read of `n` bytes takes exactly the first chunk of what remains. */
  lemma ReadTakesFirstChunk(f: Stream, n: nat)
    requires n > 0 && Remaining(f) != []
    ensures Chunks(Remaining(f), n) == [Read(f, n).0] + Chunks(Remaining(Read(f, n).1), n)
  {
    var rem := Remaining(f);
    if |rem| <= n {
      assert Read(f, n).0 == rem;
      assert Chunks(rem, n) == [rem];
      assert Remaining(Read(f, n).1) == [];
    } else {
      assert Read(f, n).0 == rem[..n];
    }
  }

  /** The ring buffer after the chunks are sent one after another. */
  function Feed(ring: seq<Byte>, chunks: seq<seq<Byte>>): (r: seq<Byte>)
    ensures ring <= r
    ensures |ring| <= RINGBUF_SIZE ==> |r| <= RINGBUF_SIZE
    decreases |chunks|
  {
    if chunks == [] then ring else Feed(RingSend(ring, chunks[0]), chunks[1..])
  }

  /** When everything fits, the ring buffer receives all the chunks' bytes in order. */
  lemma {:induction false} FeedAllFits(ring: seq<Byte>, chunks: seq<seq<Byte>>)
    requires |ring| + |Flatten(chunks)| <= RINGBUF_SIZE
    ensures Feed(ring, chunks) == ring + Flatten(chunks)
    decreases |chunks|
  {
    if chunks != [] {
      assert Flatten(chunks) == chunks[0] + Flatten(chunks[1..]);
      FeedAllFits(ring + chunks[0], chunks[1..]);
      assert ring + chunks[0] + Flatten(chunks[1..]) == ring + Flatten(chunks);
    }
  }
}
