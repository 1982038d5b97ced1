/**
 * The player screen's play button: the `is_playing` flag it toggles, the
 * icon it shows, and the commands its callbacks put on the audio command
 * queue. Widget construction and styling are not modelled.
 */
module PlayerUi {
  import opened Bytes
  import opened AudioCore

  /** The label text of `icon_play`. */
  datatype Icon = SymbolPlay | SymbolPause

  /** The target of a click event. */
  datatype Button = BtnPlay | BtnNext | BtnPrev

  /** The button's state as the user sees it: the `is_playing` flag and the icon. */
  datatype View = View(isPlaying: bool, icon: Icon)

  /** The screen as `audio_player_ui_init` leaves it. */
  const INITIAL_VIEW: View := View(false, SymbolPlay)

  /**
   * `player_btn_event_cb`: the new view and the command the click puts on the
   * queue. A play click flips the flag, shows PAUSE exactly when it is now
   * set, and sends PLAY when it is now set and PAUSE otherwise; prev and next
   * clicks change nothing and send nothing.
   */
  function Click(v: View, b: Button): (r: (View, Option<Command>))
    ensures b == BtnPlay ==> r.0.isPlaying == !v.isPlaying
    ensures b == BtnPlay ==> (r.0.icon == SymbolPause <==> r.0.isPlaying)
    ensures b == BtnPlay ==> r.1 == Some(if r.0.isPlaying then CmdPlay else CmdPause)
    ensures b != BtnPlay ==> r.0 == v && r.1 == None
  {
    match b
    case BtnPlay =>
      var now := !v.isPlaying;
      (View(now, if now then SymbolPause else SymbolPlay), Some(if now then CmdPlay else CmdPause))
    case BtnNext => (v, None)
    case BtnPrev => (v, None)
  }

  /** `ui_reset_play_button`: the icon goes back to PLAY, and the flag is flipped rather than cleared. */
  function Reset(v: View): (r: View)
    ensures r.icon == SymbolPlay
    ensures r.isPlaying != v.isPlaying
  {
    View(!v.isPlaying, SymbolPlay)
  }

  /** Two play clicks in a row restore the view and send PLAY and PAUSE, one of each. */
  lemma TwoClicksRestore(v: View)
    requires v.icon == SymbolPause <==> v.isPlaying
    ensures Click(Click(v, BtnPlay).0, BtnPlay).0 == v
    ensures {Click(v, BtnPlay).1, Click(Click(v, BtnPlay).0, BtnPlay).1} == {Some(CmdPlay), Some(CmdPause)}
  {
  }

  /**
   * A reset while the flag is clear sets it: the icon then shows PLAY while
   * the flag says playing, and the next play click sends PAUSE.
   */
  lemma ResetWhenClearDesyncs(v: View)
    requires !v.isPlaying
    ensures Reset(v).isPlaying && Reset(v).icon == SymbolPlay
    ensures Click(Reset(v), BtnPlay).1 == Some(CmdPause)
  {
  }

  class PlayerUi {
    /** The queue the callbacks send on. */
    const queue: CommandQueue
    /** The file-scope `is_playing`. */
    var isPlaying: bool
    /** The text of `icon_play`. */
    var icon: Icon

    function CurrentView(): View
      reads this
    {
      View(isPlaying, icon)
    }

    /** The state `audio_player_ui_init` leaves behind. */
    constructor (queue: CommandQueue)
      ensures this.queue == queue && CurrentView() == INITIAL_VIEW
    {
      this.queue := queue;
      isPlaying := false;
      icon := SymbolPlay;
    }

    /** `ui_play_cb`. */
    method PlayCb()
      modifies queue
      ensures queue.items == QueueSend(old(queue.items), CmdPlay)
    {
      var ok := queue.Send(CmdPlay);
    }

    /** `ui_pause_cb`. */
    method PauseCb()
      modifies queue
      ensures queue.items == QueueSend(old(queue.items), CmdPause)
    {
      var ok := queue.Send(CmdPause);
    }

    /** `ui_reset_play_button`. */
    method ResetPlayButton()
      modifies this
      ensures CurrentView() == Reset(old(CurrentView()))
    {
      isPlaying := !isPlaying;
      icon := SymbolPlay;
    }

    /** `player_btn_event_cb` for a click on `target`. */
    method OnClick(target: Button)
      modifies this, queue
      ensures CurrentView() == Click(old(CurrentView()), target).0
      ensures Click(old(CurrentView()), target).1 == None ==> queue.items == old(queue.items)
      ensures Click(old(CurrentView()), target).1 == Some(CmdPlay) ==> queue.items == QueueSend(old(queue.items), CmdPlay)
      ensures Click(old(CurrentView()), target).1 == Some(CmdPause) ==> queue.items == QueueSend(old(queue.items), CmdPause)
    {
      if target == BtnPlay {
        isPlaying := !isPlaying;
        icon := if isPlaying then SymbolPause else SymbolPlay;
        if isPlaying {
          PlayCb();
        } else {
          PauseCb();
        }
      } else if target == BtnNext {
      } else {
      }
    }
  }
}
