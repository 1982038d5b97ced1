/**
 * The reader's cleanup section as written: it clears `stop_requested` and
 * `playing` first and closes `audio_fp` after, in separate statements that
 * the control task, which has the higher priority, can run between. When a
 * Play is handled in that gap, `audio_player_start` sees `playing` false,
 * opens the track again and starts a second reader, and the first reader
 * then closes the new stream and clears `audio_fp` under it.
 *
 * `AudioPlayer` takes the cleanup as one step (`AudioPlayer.Teardown`);
 * there the invariant `AudioPlayer.Inv` holds over every interleaving.
 */
module TeardownRace {
  import opened Bytes
  import opened AudioCore

  /** A reader still in its loop, or one that has cleared the flags but not yet closed the file. */
  datatype RacePc = InLoop | FlagsCleared

  datatype RaceState = RaceState(playing: bool, stopRequested: bool, file: Option<Stream>, readers: seq<RacePc>)

  /** `audio_player_start`, as in `AudioPlayer.StartStep`. */
  function Start(s: RaceState, fp: Option<seq<Byte>>): RaceState
  {
    if s.playing then s
    else if fp.None? then s.(file := None)
    else s.(file := Some(Stream(fp.value, WAV_HEADER_SIZE)), playing := true, readers := s.readers + [InLoop])
  }

  /** `audio_player_stop`. */
  function Stop(s: RaceState): RaceState
  {
    if s.playing then s.(stopRequested := true) else s
  }

  /** The first statements of the cleanup: `stop_requested = false; playing = false;`. */
  function ClearFlags(s: RaceState, i: nat): RaceState
    requires i < |s.readers| && s.readers[i] == InLoop
  {
    s.(stopRequested := false, playing := false, readers := s.readers[i := FlagsCleared])
  }

  /** The rest: close whatever `audio_fp` now holds, clear it, and delete the task. */
  function CloseAndExit(s: RaceState, i: nat): RaceState
    requires i < |s.readers| && s.readers[i] == FlagsCleared
  {
    s.(file := None, readers := s.readers[..i] + s.readers[i + 1..])
  }

  /** The invariant the atomic cleanup keeps: a file is open exactly while playing. */
  predicate FileOpenWhilePlaying(s: RaceState)
  {
    s.file.Some? <==> s.playing
  }

  /**
   * Pause, the reader leaving its loop, Play, and the old reader finishing its
   * cleanup: the player is left playing with a live reader and no open file,
   * so that reader's next `fread` is on a NULL stream.
   */
  lemma TeardownClosesNewFile(first: seq<Byte>, again: seq<Byte>)
    ensures var s0 := RaceState(true, false, Some(Stream(first, WAV_HEADER_SIZE)), [InLoop]);
      var s1 := Stop(s0);
      var s2 := ClearFlags(s1, 0);
      var s3 := Start(s2, Some(again));
      var s4 := CloseAndExit(s3, 0);
      && FileOpenWhilePlaying(s0)
      && s3.readers == [FlagsCleared, InLoop] && s3.file == Some(Stream(again, WAV_HEADER_SIZE))
      && s4.playing && s4.file == None && s4.readers == [InLoop]
      && !FileOpenWhilePlaying(s4)
  {
  }
}
