/**
 * The control task: it takes commands off the queue one at a time and
 * drives the player through a four-state machine, calling
 * `audio_player_start`, `audio_player_stop` and `ui_reset_play_button`.
 */
module AudioControl {
  import opened Bytes
  import opened AudioCore
  import opened AudioPlayer
  import opened PlayerUi

  /** The calls a command makes, besides the state change. */
  datatype Effect = NoCall | CallStart | CallStop | CallStopAndReset

  /** The state after `cmd` arrives in `state`. */
  function Next(state: State, cmd: Command): State
  {
    match state
    case Idle => if cmd == CmdPlay then Playing else state
    case Stopped => if cmd == CmdPlay then Playing else state
    case Playing =>
      if cmd == CmdPause then Paused
      else if cmd == CmdEof then Stopped
      else state
    case Paused =>
      if cmd == CmdPlay then Playing
      else if cmd == CmdStop then Stopped
      else state
  }

  /** The calls made when `cmd` arrives in `state`. */
  function EffectOf(state: State, cmd: Command): Effect
  {
    match state
    case Idle => if cmd == CmdPlay then CallStart else NoCall
    case Stopped => if cmd == CmdPlay then CallStart else NoCall
    case Playing =>
      if cmd == CmdPause then CallStop
      else if cmd == CmdEof then CallStopAndReset
      else NoCall
    case Paused => if cmd == CmdPlay then CallStart else NoCall
  }

  /** Play from any state but Playing leads to Playing, whatever `audio_player_start` returns. */
  lemma PlayLeadsToPlaying(state: State)
    ensures Next(state, CmdPlay) == Playing
    ensures EffectOf(state, CmdPlay) == (if state == Playing then NoCall else CallStart)
  {
  }

  /** The machine never returns to Idle, and it leaves Idle only on Play. */
  lemma IdleNeverReentered(state: State, cmd: Command)
    ensures Next(state, cmd) == Idle <==> state == Idle && cmd != CmdPlay
  {
  }

  /** `audio_player_start` is called exactly on entering Playing. */
  lemma StartExactlyOnEnteringPlaying(state: State, cmd: Command)
    ensures EffectOf(state, cmd) == CallStart <==> state != Playing && Next(state, cmd) == Playing
  {
  }

  /**
   * `audio_player_stop` is called exactly on leaving Playing, and the button
   * is reset exactly when the track ended; a Stop while playing is ignored.
   */
  lemma StopExactlyOnLeavingPlaying(state: State, cmd: Command)
    ensures (EffectOf(state, cmd) == CallStop || EffectOf(state, cmd) == CallStopAndReset)
      <==> state == Playing && Next(state, cmd) != Playing
    ensures EffectOf(state, cmd) == CallStopAndReset <==> state == Playing && cmd == CmdEof
    ensures Next(Playing, CmdStop) == Playing && EffectOf(Playing, CmdStop) == NoCall
  {
  }

  /** Only Stop from Paused changes the state without a call; every other change calls the player. */
  lemma SilentChangeOnlyPausedStop(state: State, cmd: Command)
    ensures Next(state, cmd) != state && EffectOf(state, cmd) == NoCall <==> state == Paused && cmd == CmdStop
  {
  }

  /** The whole machine as seen from outside: control state and the button. */
  datatype Screen = Screen(state: State, view: View)

  /** A command handled by the control task, seen on the state and the button. */
  function Handle(sc: Screen, cmd: Command): Screen
  {
    Screen(Next(sc.state, cmd),
           if EffectOf(sc.state, cmd) == CallStopAndReset then Reset(sc.view) else sc.view)
  }

  /**
   * The end of the track racing a pause click: the reader has queued EOF when
   * the user clicks pause. The control task takes EOF first, moves to Stopped
   * and flips the flag back on; the Pause that follows is ignored. The
   * button then shows PLAY with the flag set, so the next click sends Pause,
   * which Stopped ignores too: it takes a third click to play again.
   */
  lemma EofRacingPauseDesyncs()
    ensures var v1 := Click(View(true, SymbolPause), BtnPlay);
      var sc := Handle(Handle(Screen(Playing, v1.0), CmdEof), v1.1.value);
      var v2 := Click(sc.view, BtnPlay);
      var v3 := Click(v2.0, BtnPlay);
      && v1.1 == Some(CmdPause)
      && sc == Screen(Stopped, View(true, SymbolPlay))
      && v2.1 == Some(CmdPause) && Next(sc.state, CmdPause) == Stopped
      && v3.1 == Some(CmdPlay) && Next(Next(sc.state, CmdPause), CmdPlay) == Playing
  {
  }

  class Controller {
    const player: Player
    const ui: PlayerUi
    /** The task's local `state`. */
    var state: State

    constructor (player: Player, ui: PlayerUi)
      ensures this.player == player && this.ui == ui && state == Idle
    {
      this.player := player;
      this.ui := ui;
      state := Idle;
    }

    /** The body of the task's loop once `xQueueReceive` has produced `cmd`. */
    method HandleCommand(cmd: Command)
      modifies this, player, ui
      ensures state == Next(old(state), cmd)
      ensures EffectOf(old(state), cmd) == CallStart ==>
        player.Snapshot() == StartStep(old(player.Snapshot()), player.Open(CURRENT_FILE)).1
      ensures EffectOf(old(state), cmd) in {CallStop, CallStopAndReset} ==>
        player.Snapshot() == StopStep(old(player.Snapshot()))
      ensures EffectOf(old(state), cmd) == NoCall ==> player.Snapshot() == old(player.Snapshot())
      ensures ui.CurrentView() ==
        (if EffectOf(old(state), cmd) == CallStopAndReset then Reset(old(ui.CurrentView())) else old(ui.CurrentView()))
    {
      match state
      case Idle =>
        if cmd == CmdPlay {
          var ok := player.Start(CURRENT_FILE);
          state := Playing;
        }
      case Stopped =>
        if cmd == CmdPlay {
          var ok := player.Start(CURRENT_FILE);
          state := Playing;
        }
      case Playing =>
        if cmd == CmdPause {
          player.Stop();
          state := Paused;
        } else if cmd == CmdEof {
          player.Stop();
          state := Stopped;
          ui.ResetPlayButton();
        }
      case Paused =>
        if cmd == CmdPlay {
          var ok := player.Start(CURRENT_FILE);
          state := Playing;
        } else if cmd == CmdStop {
          state := Stopped;
        }
    }

    /** One turn of the task's loop: take the oldest command, if any, and handle it. */
    method Step()
      modifies this, player, player.queue, ui
      ensures old(player.queue.items) == [] ==>
        && state == old(state) && player.queue.items == []
        && player.Snapshot() == old(player.Snapshot()) && ui.CurrentView() == old(ui.CurrentView())
      ensures old(player.queue.items) != [] ==>
        state == Next(old(state), old(player.queue.items)[0]) && player.queue.items == old(player.queue.items)[1..]
      ensures old(player.queue.items) != [] ==>
        var c := old(player.queue.items)[0];
        var s0 := old(player.Snapshot()).(queue := old(player.queue.items)[1..]);
        && (EffectOf(old(state), c) == CallStart ==> player.Snapshot() == StartStep(s0, player.Open(CURRENT_FILE)).1)
        && (EffectOf(old(state), c) in {CallStop, CallStopAndReset} ==> player.Snapshot() == StopStep(s0))
        && (EffectOf(old(state), c) == NoCall ==> player.Snapshot() == s0)
        && ui.CurrentView() ==
             (if EffectOf(old(state), c) == CallStopAndReset then Reset(old(ui.CurrentView())) else old(ui.CurrentView()))
    {
      var c := player.queue.Receive();
      if c.Some? {
        HandleCommand(c.value);
      }
    }
  }
}
