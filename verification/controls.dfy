/** PlaybackControlView: seek-target arithmetic, the state-to-button mapping, and the controller's
    visibility and auto-hide bookkeeping. */
module Controls {
  import opened Types
  import opened PlaybackState
  import opened Mailbox
  import opened Listeners
  import opened Player

  const DEFAULT_FAST_FORWARD_MS: int := 15000
  const DEFAULT_REWIND_MS: int := 5000
  const DEFAULT_SHOW_TIMEOUT_MS: int := 5000

  /** "No time": Java's Long.MIN_VALUE + 1. */
  const TIME_UNSET: int := -0x8000_0000_0000_0000 + 1

  function Min(a: int, b: int): int {
    if a <= b then a else b
  }

  function Max(a: int, b: int): int {
    if a >= b then a else b
  }

  /** Where fast-forward seeks from `positionMs`: `fastForwardMs` further on, but never past a known
      duration; no seek at all when the increment is not positive. */
  function FastForwardTarget(fastForwardMs: int, positionMs: int, durationMs: int): (r: Option<int>)
    ensures r.None? <==> fastForwardMs <= 0
    ensures r.Some? ==> r.value <= positionMs + fastForwardMs
    ensures r.Some? && durationMs != TIME_UNSET ==> r.value <= durationMs
    ensures r.Some? ==> r.value == positionMs + fastForwardMs || (durationMs != TIME_UNSET && r.value == durationMs)
    ensures r.Some? && (durationMs == TIME_UNSET || positionMs <= durationMs) ==> r.value >= positionMs
  {
    if fastForwardMs <= 0 then None
    else
      var seekPositionMs := positionMs + fastForwardMs;
      Some(if durationMs != TIME_UNSET then Min(seekPositionMs, durationMs) else seekPositionMs)
  }

  /** Where rewind seeks from `positionMs`: `rewindMs` back, but never before zero; no seek at all when
      the increment is not positive. */
  function RewindTarget(rewindMs: int, positionMs: int): (r: Option<int>)
    ensures r.None? <==> rewindMs <= 0
    ensures r.Some? ==> r.value >= 0 && r.value >= positionMs - rewindMs
    ensures r.Some? ==> r.value == positionMs - rewindMs || r.value == 0
    ensures r.Some? && positionMs >= 0 ==> r.value <= positionMs
  {
    if rewindMs <= 0 then None else Some(Max(positionMs - rewindMs, 0))
  }

  /** Visibility of the play, pause and repeat buttons. */
  datatype Buttons = Buttons(play: bool, pause: bool, repeat: bool)

  /** Exactly one of the three buttons is visible. */
  predicate ExactlyOne(b: Buttons) {
    (if b.play then 1 else 0) + (if b.pause then 1 else 0) + (if b.repeat then 1 else 0) == 1
  }

  /** The buttons shown for a playback state: pause while playing, repeat once stopped or ended, play in
      every other state. */
  function ButtonsFor(state: int): (b: Buttons)
    ensures ExactlyOne(b)
    ensures b.pause <==> state == STATE_PLAYING
    ensures b.repeat <==> state == STATE_ENDED || state == STATE_STOP
  {
    if state == STATE_PLAYING then Buttons(false, true, false)
    else if state == STATE_ENDED || state == STATE_STOP then Buttons(false, false, true)
    else Buttons(true, false, false)
  }

  /** The player a (possibly null) reference denotes, as a set for frames. */
  function Players(p: SimpleConePlayer?): set<SimpleConePlayer> {
    if p == null then {} else {p}
  }

  /** A pending hide time is reached at `now`. */
  predicate HideIsDue(hideAtMs: int, now: int) {
    hideAtMs != TIME_UNSET && hideAtMs - now <= 0
  }

  class PlaybackControlView {
    /** Identity of the controller's own state listener. */
    const listener: ListenerId
    var player: SimpleConePlayer?
    var visible: bool
    var attachedToWindow: bool
    var hideAtMs: int
    var rewindMs: int
    var fastForwardMs: int
    var showTimeoutMs: int
    var buttons: Buttons
    /** Delays of the hide actions posted to the view and not removed since, in posting order. */
    var scheduledHides: seq<int>

    /** A new controller: visible, not attached, no player; the increments and timeout come from the layout
        attributes (the DEFAULT_ constants when absent) and `layoutButtons` from the inflated layout. */
    constructor (listener: ListenerId, rewindMs: int, fastForwardMs: int, showTimeoutMs: int, layoutButtons: Buttons)
      ensures this.listener == listener && player == null
      ensures visible && !attachedToWindow && hideAtMs == 0 && scheduledHides == []
      ensures this.rewindMs == rewindMs && this.fastForwardMs == fastForwardMs && this.showTimeoutMs == showTimeoutMs
      ensures buttons == layoutButtons
    {
      this.listener := listener;
      player := null;
      visible := true;
      attachedToWindow := false;
      hideAtMs := 0;
      this.rewindMs := rewindMs;
      this.fastForwardMs := fastForwardMs;
      this.showTimeoutMs := showTimeoutMs;
      buttons := layoutButtons;
      scheduledHides := [];
    }

    method Hide()
      modifies this`visible, this`scheduledHides, this`hideAtMs
      ensures old(visible) ==> !visible && scheduledHides == [] && hideAtMs == TIME_UNSET
      ensures !old(visible) ==> !visible && scheduledHides == old(scheduledHides) && hideAtMs == old(hideAtMs)
    {
      if visible {
        visible := false;
        scheduledHides := [];
        hideAtMs := TIME_UNSET;
      }
    }

    /** Re-arms the auto-hide: the hide time is `showTimeoutMs` from now (none when the timeout is not
        positive), and a hide action is posted only while attached. */
    method HideAfterTimeout(now: int)
      modifies this`scheduledHides, this`hideAtMs
      ensures hideAtMs == if showTimeoutMs > 0 then now + showTimeoutMs else TIME_UNSET
      ensures scheduledHides == if showTimeoutMs > 0 && attachedToWindow then [showTimeoutMs] else []
    {
      scheduledHides := [];
      if showTimeoutMs > 0 {
        hideAtMs := now + showTimeoutMs;
        if attachedToWindow {
          scheduledHides := scheduledHides + [showTimeoutMs];
        }
      } else {
        hideAtMs := TIME_UNSET;
      }
    }

    /** Makes the controller visible (refreshing the buttons if it was hidden) and restarts the timeout
        even if it was already visible. */
    method Show(now: int)
      requires !visible && attachedToWindow ==> player != null
      modifies this`visible, this`buttons, this`scheduledHides, this`hideAtMs
      ensures visible
      ensures hideAtMs == if showTimeoutMs > 0 then now + showTimeoutMs else TIME_UNSET
      ensures scheduledHides == if showTimeoutMs > 0 && attachedToWindow then [showTimeoutMs] else []
      ensures buttons == if !old(visible) && attachedToWindow then ButtonsFor(player.state) else old(buttons)
    {
      if !visible {
        visible := true;
        UpdateButtons();
      }
      HideAfterTimeout(now);
    }

    /** Changes the player: nothing if it is the same one; otherwise the controller's state listener leaves
        the old player before it joins the new one, so it is registered with at most one player. */
    method SetPlayer(p: SimpleConePlayer?)
      requires p == null && player != null ==> !(visible && attachedToWindow)
      modifies this`player, this`buttons, Players(player)`playerStateChangeListeners, Players(p)`playerStateChangeListeners
      ensures player == p
      ensures old(player) == p ==> buttons == old(buttons)
      ensures old(player) == p && p != null ==> p.playerStateChangeListeners == old(p.playerStateChangeListeners)
      ensures old(player) != p && old(player) != null ==>
        old(player).playerStateChangeListeners == old(player.playerStateChangeListeners) - {listener}
      ensures old(player) != p && p != null ==>
        p.playerStateChangeListeners == old(p.playerStateChangeListeners) + {listener}
      ensures old(player) != p ==> buttons == if visible && attachedToWindow then ButtonsFor(p.state) else old(buttons)
    {
      if player == p {
        return;
      }
      if player != null {
        player.RemovePlayerStateChangeListener(listener);
      }
      player := p;
      if p != null {
        p.AddPlayerStateChangeListener(listener);
      }
      UpdateButtons();
    }

    /** Shows exactly the button the player's state calls for, but only while visible and attached. */
    method UpdateButtons()
      requires visible && attachedToWindow ==> player != null
      modifies this`buttons
      ensures buttons == if visible && attachedToWindow then ButtonsFor(player.state) else old(buttons)
      ensures visible && attachedToWindow ==> ExactlyOne(buttons)
    {
      if !visible || !attachedToWindow {
        return;
      }
      var state := player.state;
      buttons := ButtonsFor(state);
    }

    /** The controller's state listener: any state change refreshes the buttons. */
    method OnPlayerStateChanged(state: int)
      requires visible && attachedToWindow ==> player != null
      modifies this`buttons
      ensures buttons == if visible && attachedToWindow then ButtonsFor(player.state) else old(buttons)
    {
      UpdateButtons();
    }

    /** Attaching to the window: a pending hide time that is already due hides the controller at once,
        one still ahead is posted with exactly the remaining delay; then the buttons are refreshed. */
    method OnAttachedToWindow(now: int)
      requires visible && !HideIsDue(hideAtMs, now) ==> player != null
      modifies this`attachedToWindow, this`visible, this`scheduledHides, this`hideAtMs, this`buttons
      ensures attachedToWindow
      ensures HideIsDue(old(hideAtMs), now) ==> !visible
      ensures HideIsDue(old(hideAtMs), now) && old(visible) ==> scheduledHides == [] && hideAtMs == TIME_UNSET
      ensures !(HideIsDue(old(hideAtMs), now) && old(visible)) ==> hideAtMs == old(hideAtMs)
      ensures !HideIsDue(old(hideAtMs), now) ==> visible == old(visible)
      ensures old(hideAtMs) != TIME_UNSET && !HideIsDue(old(hideAtMs), now) ==>
        scheduledHides == old(scheduledHides) + [old(hideAtMs) - now]
      ensures old(hideAtMs) == TIME_UNSET || (HideIsDue(old(hideAtMs), now) && !old(visible)) ==>
        scheduledHides == old(scheduledHides)
      ensures buttons == if visible then ButtonsFor(player.state) else old(buttons)
    {
      attachedToWindow := true;
      if hideAtMs != TIME_UNSET {
        var delayMs := hideAtMs - now;
        if delayMs <= 0 {
          Hide();
        } else {
          scheduledHides := scheduledHides + [delayMs];
        }
      }
      UpdateButtons();
    }

    method SetShowTimeoutMs(showTimeoutMs: int)
      modifies this`showTimeoutMs
      ensures this.showTimeoutMs == showTimeoutMs
    {
      this.showTimeoutMs := showTimeoutMs;
    }

    method Play()
      requires player != null
      modifies Players(player)`queue
      ensures player.queue == old(player.queue) + [Message(MSG_PLAY, NoPayload)]
    {
      player.Play();
    }

    method Pause()
      requires player != null
      modifies Players(player)`queue
      ensures player.queue == old(player.queue) + [Message(MSG_PAUSE, NoPayload)]
    {
      player.Pause();
    }

    method Repeat()
      requires player != null
      modifies Players(player)`queue
      ensures player.queue == old(player.queue) + [Message(MSG_REPEAT, NoPayload)]
    {
      player.Repeat();
    }

    /** Sends the player one seek to the fast-forward target, or nothing when the increment is not
        positive; `positionMs` and `durationMs` are what the player reports. */
    method FastForward(positionMs: int, durationMs: int)
      requires fastForwardMs > 0 ==> player != null
      modifies Players(player)`queue
      ensures var t := FastForwardTarget(fastForwardMs, positionMs, durationMs);
              t.Some? ==> player.queue == old(player.queue) + [Message(MSG_SEEK, PositionPayload(t.value))]
    ensures FastForwardTarget(fastForwardMs, positionMs, durationMs).None? && player != null ==>
      player.queue == old(player.queue)
    {
      if fastForwardMs <= 0 {
        return;
      }
      var seekPositionMs := positionMs + fastForwardMs;
      if durationMs != TIME_UNSET {
        seekPositionMs := Min(seekPositionMs, durationMs);
      }
      player.SeekTo(seekPositionMs);
    }

    /** Sends the player one seek to the rewind target, or nothing when the increment is not positive. */
    method Rewind(positionMs: int)
      requires rewindMs > 0 ==> player != null
      modifies Players(player)`queue
      ensures var t := RewindTarget(rewindMs, positionMs);
              t.Some? ==> player.queue == old(player.queue) + [Message(MSG_SEEK, PositionPayload(t.value))]
    ensures RewindTarget(rewindMs, positionMs).None? && player != null ==> player.queue == old(player.queue)
    {
      if rewindMs <= 0 {
        return;
      }
      player.SeekTo(Max(positionMs - rewindMs, 0));
    }
  }
}
