/**
 * The WAV player: `audio_player_start`, `audio_player_stop`,
 * `audio_player_is_playing` and the reader task, over the file-scope
 * `playing`, `stop_requested` and `audio_fp`.
 *
 * The tasks run concurrently, so the player is described first as a
 * `Session` value with one step function per atomic action. Any
 * interleaving of those actions is a sequence of `Event`s; `Inv` holds
 * after every such sequence. The `Player` class then does the same work on
 * fields, and each of its methods is tied to the step function it performs.
 */
module AudioPlayer {
  import opened Bytes
  import opened AudioCore

  /** `current_file`, the only track the control task plays. */
  const CURRENT_FILE: string := "/sdcard/TEST_00.WAV"

  /** Where a reader task is: about to test `stop_requested`, or holding a chunk it has read but not yet sent. */
  datatype ReaderPc = AtLoopTop | Holding(chunk: seq<Byte>)

  /** The player's shared state, the live reader tasks, and the contents of the ring buffer and the command queue. */
  datatype Session = Session(
    playing: bool,
    stopRequested: bool,
    file: Option<Stream>,
    readers: seq<ReaderPc>,
    ring: seq<Byte>,
    queue: seq<Command>)

  /** After `audio_player_init`: nothing playing, both buffers empty. */
  const INITIAL: Session := Session(false, false, None, [], [], [])

  /**
   * `audio_player_start`; `fp` is what `fopen` gives: the file's bytes, or
   * None for NULL. The result is what the call returns and the new state.
   */
  function StartStep(s: Session, fp: Option<seq<Byte>>): (bool, Session)
  {
    if s.playing then (false, s)
    else if fp.None? then (false, s.(file := None))
    else (true, s.(file := Some(Stream(fp.value, WAV_HEADER_SIZE)), playing := true,
                   readers := s.readers + [AtLoopTop]))
  }

  /** `audio_player_stop`. */
  function StopStep(s: Session): Session
  {
    if s.playing then s.(stopRequested := true) else s
  }

  /** The reader's cleanup section, taken as one step: flags cleared, file closed, task deleted. */
  function Teardown(s: Session, i: nat): Session
    requires i < |s.readers|
  {
    s.(stopRequested := false, playing := false, file := None,
       readers := s.readers[..i] + s.readers[i + 1..])
  }

  /**
   * One step of reader `i`. At the top of its loop it leaves when a stop is
   * requested; otherwise it reads a chunk, and a read of nothing queues EOF
   * (dropped if the queue is full) and leaves. Holding a chunk, it sends it
   * to the ring buffer and goes back to the top whether or not the send was
   * accepted.
   */
  function ReaderStep(s: Session, i: nat): Session
    requires i < |s.readers|
    requires s.readers[i] == AtLoopTop && !s.stopRequested ==> s.file.Some?
  {
    match s.readers[i]
    case AtLoopTop =>
      if s.stopRequested then Teardown(s, i)
      else
        var (chunk, f) := Read(s.file.value, READ_CHUNK);
        if chunk == [] then Teardown(s.(queue := QueueSend(s.queue, CmdEof)), i)
        else s.(file := Some(f), readers := s.readers[i := Holding(chunk)])
    case Holding(chunk) =>
      s.(ring := RingSend(s.ring, chunk), readers := s.readers[i := AtLoopTop])
  }

  /** What can happen next: a call from the control task, a reader step, the audio sink or the user interface. */
  datatype Event =
    | EvStart(fp: Option<seq<Byte>>)
    | EvStop
    | EvReader(i: nat)
    | EvConsume(n: nat)
    | EvSend(c: Command)
    | EvReceive

  /** A reader step can be taken when the task exists and, if it is about to read, has a file. */
  predicate ReaderCanStep(s: Session, i: nat)
  {
    i < |s.readers| && (s.readers[i] == AtLoopTop && !s.stopRequested ==> s.file.Some?)
  }

  /** The state after the event; an event no task can take leaves the state as it is. */
  function Apply(s: Session, e: Event): Session
  {
    match e
    case EvStart(fp) => StartStep(s, fp).1
    case EvStop => StopStep(s)
    case EvReader(i) => if ReaderCanStep(s, i) then ReaderStep(s, i) else s
    case EvConsume(n) => s.(ring := s.ring[Min(n, |s.ring|)..])
    case EvSend(c) => s.(queue := QueueSend(s.queue, c))
    case EvReceive => if s.queue == [] then s else s.(queue := s.queue[1..])
  }

  function Run(s: Session, es: seq<Event>): Session
    decreases |es|
  {
    if es == [] then s else Run(Apply(s, es[0]), es[1..])
  }

  /**
   * The player's invariant: at most one reader, which exists exactly while
   * `playing` holds; the file is open exactly while playing, positioned at
   * or after the header; a stop is pending only while playing; a held chunk
   * is never empty nor longer than the read buffer; and neither buffer
   * exceeds its capacity.
   */
  ghost predicate Inv(s: Session)
  {
    && |s.readers| <= 1
    && (s.playing <==> |s.readers| == 1)
    && (s.file.Some? <==> s.playing)
    && (s.file.Some? ==> s.file.value.pos >= WAV_HEADER_SIZE)
    && (s.stopRequested ==> s.playing)
    && (forall i :: 0 <= i < |s.readers| && s.readers[i].Holding? ==> 0 < |s.readers[i].chunk| <= READ_CHUNK)
    && |s.ring| <= RINGBUF_SIZE
    && |s.queue| <= QUEUE_LENGTH
  }

  lemma InvInitial()
    ensures Inv(INITIAL)
  {
  }

  /** Every event keeps the invariant; in particular a reader can always take its step. */
  lemma InvStep(s: Session, e: Event)
    requires Inv(s)
    ensures Inv(Apply(s, e))
    ensures e.EvReader? && e.i < |s.readers| ==> ReaderCanStep(s, e.i)
  {
    match e
    case EvReader(i) =>
      if ReaderCanStep(s, i) {
        var t := ReaderStep(s, i);
        if s.readers[i] == AtLoopTop && !s.stopRequested {
          var (chunk, f) := Read(s.file.value, READ_CHUNK);
          if chunk != [] {
            assert t.readers == [Holding(chunk)];
          }
        }
      }
    case _ =>
  }

  /** The invariant holds after every interleaving of the tasks' actions. */
  lemma {:induction false} InvRun(s: Session, es: seq<Event>)
    requires Inv(s)
    ensures Inv(Run(s, es))
    decreases |es|
  {
    if es != [] {
      InvStep(s, es[0]);
      InvRun(Apply(s, es[0]), es[1..]);
    }
  }

  /** From start-up, however the tasks interleave, at most one reader ever runs, and only while playing. */
  lemma AtMostOneReader(es: seq<Event>)
    ensures |Run(INITIAL, es).readers| <= 1
    ensures |Run(INITIAL, es).readers| == 1 <==> Run(INITIAL, es).playing
  {
    InvRun(INITIAL, es);
  }

  /**
   * `audio_player_start`: refused and without effect while playing; refused
   * with `audio_fp` cleared when the file does not open, leaving `playing`
   * false; otherwise it succeeds, positions the file at the end of the WAV
   * header whatever was played before, sets `playing` and adds exactly one
   * reader.
   */
  lemma StartOutcome(s: Session, fp: Option<seq<Byte>>)
    ensures s.playing ==> StartStep(s, fp) == (false, s)
    ensures !s.playing && fp.None? ==>
      var (ok, t) := StartStep(s, fp); !ok && !t.playing && t.file == None && t.readers == s.readers
    ensures !s.playing && fp.Some? ==>
      var (ok, t) := StartStep(s, fp);
      ok && t.playing && t.file == Some(Stream(fp.value, WAV_HEADER_SIZE))
      && |t.readers| == |s.readers| + 1 && t.readers[|s.readers|] == AtLoopTop
      && t.ring == s.ring && t.queue == s.queue
    ensures StartStep(s, fp).0 <==> !s.playing && fp.Some?
  {
  }

  /** `audio_player_stop` only raises the request flag, and only while playing; `playing` and the file are untouched. */
  lemma StopOutcome(s: Session)
    ensures !s.playing ==> StopStep(s) == s
    ensures s.playing ==> StopStep(s).stopRequested
    ensures StopStep(s).(stopRequested := s.stopRequested) == s
  {
  }

  /**
   * Every way out of the reader loop leaves the flags cleared, the file
   * closed and one reader fewer; the only exits are a pending stop and a read
   * of nothing, and the latter queues EOF with no wait.
   */
  lemma ReaderExitCleansUp(s: Session, i: nat)
    requires Inv(s) && i < |s.readers|
    ensures var t := ReaderStep(s, i);
      |t.readers| < |s.readers| ==>
        && !t.stopRequested && !t.playing && t.file == None && t.readers == []
        && s.readers[i] == AtLoopTop
        && (s.stopRequested || Remaining(s.file.value) == [])
        && t.queue == (if s.stopRequested then s.queue else QueueSend(s.queue, CmdEof))
  {
  }

  /**
   * A chunk the ring buffer refuses is dropped: the buffer is unchanged, the
   * reader is back at the top of its loop, and the file stays past the
   * chunk, so the next read starts after it.
   */
  lemma FailedSendDropsChunk(s: Session, i: nat)
    requires Inv(s) && i < |s.readers| && s.readers[i].Holding?
    requires |s.ring| + |s.readers[i].chunk| > RINGBUF_SIZE
    ensures var t := ReaderStep(s, i);
      t.ring == s.ring && t.file == s.file && t.readers[i] == AtLoopTop
  {
  }

  /** Each read takes the next bytes of the file, at most one buffer's worth. */
  lemma ReadTakesNextBytes(s: Session, i: nat)
    requires Inv(s) && i < |s.readers| && s.readers[i] == AtLoopTop && !s.stopRequested
    requires Remaining(s.file.value) != []
    ensures var t := ReaderStep(s, i);
      && t.readers[i].Holding?
      && 0 < |t.readers[i].chunk| <= READ_CHUNK
      && Remaining(s.file.value) == t.readers[i].chunk + Remaining(t.file.value)
  {
    var f := s.file.value;
    var (chunk, f') := Read(f, READ_CHUNK);
    assert Remaining(f) == Remaining(f)[..|chunk|] + Remaining(f)[|chunk|..];
  }

  /** Once a stop is requested the reader is gone within two of its own steps, whatever else happens between them. */
  lemma StopEndsReader(s: Session)
    requires Inv(s) && s.stopRequested
    ensures |s.readers| == 1
    ensures var t := ReaderStep(s, 0);
      if s.readers[0] == AtLoopTop then !t.playing && t.readers == []
      else Inv(t) && t.stopRequested && t.readers == [AtLoopTop]
  {
    if s.readers[0].Holding? {
      InvStep(s, EvReader(0));
    }
  }

  /** A Play that arrives after a Pause, before the reader has seen the stop, is refused: the track does not resume. */
  lemma StartRefusedWhileStopPending(s: Session, fp: Option<seq<Byte>>)
    requires Inv(s) && s.playing
    ensures StartStep(StopStep(s), fp) == (false, StopStep(s))
  {
  }

  /** Pause and, once the reader has gone, Play: the track restarts from the end of the header, not where it paused. */
  lemma PauseThenPlayRestarts(s: Session, data: seq<Byte>)
    requires Inv(s) && s.playing && s.readers[0] == AtLoopTop
    ensures var t := ReaderStep(StopStep(s), 0);
      var (ok, u) := StartStep(t, Some(data));
      ok && u.file == Some(Stream(data, WAV_HEADER_SIZE))
  {
  }

  /** What a reader running alone does, from the top of its loop to its deletion. */
  function SoloRun(s: Session, i: nat): Session
    requires i < |s.readers|
    requires s.stopRequested || s.file.Some?
  {
    if s.stopRequested then Teardown(s, i)
    else Teardown(s.(ring := Feed(s.ring, Chunks(Remaining(s.file.value), READ_CHUNK)),
                     queue := QueueSend(s.queue, CmdEof)), i)
  }

  /**
   * A reader that runs undisturbed streams the rest of the file into the ring
   * buffer, whole chunks or nothing, in order: all of it when it fits. It
   * then queues EOF and cleans up.
   */
  lemma SoloRunStreamsFile(s: Session)
    requires Inv(s) && s.playing && !s.stopRequested && s.readers == [AtLoopTop]
    ensures var t := SoloRun(s, 0);
      && Inv(t) && !t.playing && t.readers == []
      && s.ring <= t.ring
      && t.queue == QueueSend(s.queue, CmdEof)
      && (|s.ring| + |Remaining(s.file.value)| <= RINGBUF_SIZE ==> t.ring == s.ring + Remaining(s.file.value))
  {
    var rest := Remaining(s.file.value);
    ChunksFlatten(rest, READ_CHUNK);
    if |s.ring| + |rest| <= RINGBUF_SIZE {
      FeedAllFits(s.ring, Chunks(rest, READ_CHUNK));
    }
  }

  /**
   * An example of the chunking, not a further property: after the 44-byte
   * header, a 10000-byte file is read as four full chunks and one of 1764
   * bytes. `Chunks` and `ChunksFlatten` state the general case.
   */
  lemma TenThousandByteFile(data: seq<Byte>)
    requires |data| == 10000
    ensures var c := Chunks(Remaining(Stream(data, WAV_HEADER_SIZE)), READ_CHUNK);
      |c| == 5 && |c[0]| == |c[1]| == |c[2]| == |c[3]| == READ_CHUNK && |c[4]| == 1764
  {
    var rest := Remaining(Stream(data, WAV_HEADER_SIZE));
    assert |rest| == 9956;
    var c := Chunks(rest, READ_CHUNK);
    assert c == [rest[..2048]] + Chunks(rest[2048..], 2048);
    assert Chunks(rest[2048..], 2048) == [rest[2048..][..2048]] + Chunks(rest[2048..][2048..], 2048);
    assert rest[2048..][2048..] == rest[4096..];
    assert Chunks(rest[4096..], 2048) == [rest[4096..][..2048]] + Chunks(rest[4096..][2048..], 2048);
    assert rest[4096..][2048..] == rest[6144..];
    assert Chunks(rest[6144..], 2048) == [rest[6144..][..2048]] + Chunks(rest[6144..][2048..], 2048);
    assert rest[6144..][2048..] == rest[8192..];
    assert Chunks(rest[8192..], 2048) == [rest[8192..]];
  }

  class Player {
    /** The files `fopen` can open, by path; any other path gives NULL. */
    const files: map<string, seq<Byte>>
    const ring: RingBuffer
    const queue: CommandQueue
    var playing: bool
    var stopRequested: bool
    /** `audio_fp`. */
    var file: Option<Stream>
    var readers: seq<ReaderPc>

    function Snapshot(): Session
      reads this, ring, queue
    {
      Session(playing, stopRequested, file, readers, ring.bytes, queue.items)
    }

    /** What `fopen(path, "rb")` gives. */
    function Open(path: string): Option<seq<Byte>>
    {
      if path in files then Some(files[path]) else None
    }

    /** `audio_player_init` once the card is mounted: a new queue and ring buffer, nothing playing. */
    constructor (files: map<string, seq<Byte>>)
      ensures this.files == files && fresh(ring) && fresh(queue)
      ensures Snapshot() == INITIAL
    {
      this.files := files;
      ring := new RingBuffer();
      queue := new CommandQueue();
      playing := false;
      stopRequested := false;
      file := None;
      readers := [];
    }

    /** `audio_player_start(path)`. */
    method Start(path: string) returns (ok: bool)
      modifies this
      ensures (ok, Snapshot()) == StartStep(old(Snapshot()), Open(path))
    {
      if playing {
        return false;
      }
      var fp := Open(path);
      if fp.None? {
        file := None;
        return false;
      }
      file := Some(Stream(fp.value, 0));
      file := Some(file.value.(pos := WAV_HEADER_SIZE));
      playing := true;
      readers := readers + [AtLoopTop];
      return true;
    }

    /** `audio_player_stop`. */
    method Stop()
      modifies this
      ensures Snapshot() == StopStep(old(Snapshot()))
    {
      if !playing {
        return;
      }
      stopRequested := true;
    }

    /** `audio_player_is_playing`. */
    method IsPlaying() returns (b: bool)
      ensures b == playing
      ensures Inv(Snapshot()) ==> (b <==> |readers| == 1 && file.Some?)
    {
      return playing;
    }

    /** `audio_reader_task` for reader `i`, running with no other task interleaved. */
    method ReaderTask(i: nat)
      requires i < |readers| && readers[i] == AtLoopTop
      requires stopRequested || file.Some?
      modifies this, ring, queue
      ensures Snapshot() == SoloRun(old(Snapshot()), i)
    {
      ghost var target := if stopRequested then ring.bytes
                          else Feed(ring.bytes, Chunks(Remaining(file.value), READ_CHUNK));
      while !stopRequested
        invariant stopRequested == old(stopRequested) && unchanged(`playing, `readers)
        invariant stopRequested ==> unchanged(ring, queue) && file == old(file)
        invariant !stopRequested ==> file.Some? && queue.items == old(queue.items)
        invariant !stopRequested ==> Feed(ring.bytes, Chunks(Remaining(file.value), READ_CHUNK)) == target
        decreases if file.Some? then |file.value.data| - file.value.pos else 0
      {
        var (chunk, f) := Read(file.value, READ_CHUNK);
        if |chunk| == 0 {
          assert Remaining(file.value) == [];
          var ok := queue.Send(CmdEof);
          break;
        }
        ReadTakesFirstChunk(file.value, READ_CHUNK);
        file := Some(f);
        var sent := ring.Send(chunk);
      }
      assert ring.bytes == target;
      stopRequested := false;
      playing := false;
      if file.Some? {
        file := None;
      }
      readers := readers[..i] + readers[i + 1..];
    }
  }
}
