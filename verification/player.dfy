/** SimpleConePlayer: the player object whose fields engine events, control calls, the command handler and
    the video-view binding update in place. */
module Player {
  import opened Types
  import opened Listeners
  import opened PlaybackState
  import opened Mailbox
  import opened SurfaceBinding

  class SimpleConePlayer {
    var state: int
    var onRenderFirstFrame: bool
    var videoListeners: set<ListenerId>
    var playerStateChangeListeners: set<ListenerId>
    var completionListeners: set<ListenerId>
    var videoView: Option<Sink>
    /** Messages sent to the handler and not yet handled, oldest first. */
    var queue: seq<Message>
    /** Every call made into the native engine, in order. */
    var engineLog: seq<EngineCall>
    /** Every install or removal of the readiness callback on a view, in order. */
    var sinkCalls: seq<SinkCall>
    /** Every listener callback made, in order. */
    var notifications: seq<Notification>
    /** The engine events delivered so far. */
    ghost var events: seq<Event>

    /** The state is one of the five constants and is what the delivered events make it; the readiness
        callback is installed on the current view and on no other. */
    ghost predicate Valid()
      reads this`state, this`onRenderFirstFrame, this`events, this`sinkCalls, this`videoView
    {
      StatusValid() && BindingValid()
    }

    /** The state and the first-frame flag are what the delivered events make them. */
    ghost predicate StatusValid()
      reads this`state, this`onRenderFirstFrame, this`events
    {
      IsState(state) && CurrentStatus() == Run(Initial, events)
    }

    /** The readiness callback is installed on the current view and on no other. */
    ghost predicate BindingValid()
      reads this`sinkCalls, this`videoView
    {
      Registered(sinkCalls) == AsSet(videoView)
    }

    function CurrentStatus(): Status
      reads this`state, this`onRenderFirstFrame
    {
      Status(state, onRenderFirstFrame)
    }

    constructor ()
      ensures Valid()
      ensures state == STATE_IDLE && !onRenderFirstFrame && events == []
      ensures videoListeners == {} && playerStateChangeListeners == {} && completionListeners == {}
      ensures videoView.None? && queue == [] && engineLog == [] && sinkCalls == [] && notifications == []
    {
      state := STATE_IDLE;
      onRenderFirstFrame := false;
      videoListeners, playerStateChangeListeners, completionListeners := {}, {}, {};
      videoView := None;
      queue, engineLog, sinkCalls, notifications := [], [], [], [];
      events := [];
    }

    // ---------------------------------------------------------------- engine events

    /** Translates one media-player event: updates the state and the first-frame flag, dispatches the
        first-frame or completion callback where the event calls for it, then tells every state listener
        the (possibly unchanged) state. */
    method OnEvent(e: Event) returns (ghost fanout: seq<Notification>, ghost stateRound: seq<Notification>)
      requires Valid()
      modifies this`state, this`onRenderFirstFrame, this`notifications, this`events
      ensures Valid()
      ensures CurrentStatus() == Step(old(CurrentStatus()), e) && events == old(events) + [e]
      ensures notifications == old(notifications) + fanout + stateRound
      ensures FiresComplete(e) ==> IsRound(fanout, completionListeners, Complete)
      ensures FiresFirstFrame(old(CurrentStatus()), e) ==> IsRound(fanout, videoListeners, RenderedFirstFrame)
      ensures !FiresComplete(e) && !FiresFirstFrame(old(CurrentStatus()), e) ==> fanout == []
      ensures IsRound(stateRound, playerStateChangeListeners, PlayerStateChanged(state))
    {
      fanout := [];
      match e {
        case Opening =>
          state := STATE_IDLE;
          OnIdle();
        case Playing =>
          state := STATE_PLAYING;
        case Paused =>
          state := STATE_PAUSE;
        case EndReached =>
          state := STATE_ENDED;
          fanout := OnEndReached();
        case Stopped =>
          state := STATE_STOP;
        case PositionChanged =>
          fanout := OnRenderedFirstFrame();
        case Other(_) =>
      }
      stateRound := Broadcast(playerStateChangeListeners, PlayerStateChanged(state));
      events := events + [e];
      RunAppend(Initial, old(events), [e]);
    }

    method OnIdle()
      modifies this`onRenderFirstFrame
      ensures !onRenderFirstFrame
    {
      onRenderFirstFrame := false;
    }

    /** Dispatches the first-frame callback to the video listeners unless it was already dispatched. */
    method OnRenderedFirstFrame() returns (ghost batch: seq<Notification>)
      modifies this`onRenderFirstFrame, this`notifications
      ensures onRenderFirstFrame
      ensures notifications == old(notifications) + batch
      ensures old(onRenderFirstFrame) ==> batch == []
      ensures !old(onRenderFirstFrame) ==> IsRound(batch, videoListeners, RenderedFirstFrame)
    {
      batch := [];
      if onRenderFirstFrame {
        return;
      }
      batch := Broadcast(videoListeners, RenderedFirstFrame);
      onRenderFirstFrame := true;
    }

    method OnEndReached() returns (ghost batch: seq<Notification>)
      modifies this`notifications
      ensures notifications == old(notifications) + batch
      ensures IsRound(batch, completionListeners, Complete)
    {
      batch := Broadcast(completionListeners, Complete);
    }

    /** The video output reports a new layout: every video listener hears the new size, with no comparison
        against the size reported before. */
    method OnNewLayout(width: int, height: int, visibleWidth: int, visibleHeight: int, sarNum: int, sarDen: int)
      returns (ghost batch: seq<Notification>)
      modifies this`notifications
      ensures notifications == old(notifications) + batch
      ensures IsRound(batch, videoListeners, VideoSizeChanged(width, height))
    {
      batch := Broadcast(videoListeners, VideoSizeChanged(width, height));
    }

    /** The for-each loop over a listener set: one callback per member, in whatever order the set yields
        them. */
    method Broadcast(ls: set<ListenerId>, c: Callback) returns (ghost batch: seq<Notification>)
      modifies this`notifications
      ensures notifications == old(notifications) + batch
      ensures IsRound(batch, ls, c)
    {
      batch := [];
      var rest := ls;
      while rest != {}
        invariant rest <= ls
        invariant notifications == old(notifications) + batch
        invariant IsRound(batch, ls - rest, c)
        decreases rest
      {
        var l :| l in rest;
        var n := Notification(l, c);
        notifications := notifications + [n];
        batch := batch + [n];
        rest := rest - {l};
      }
    }

    // ---------------------------------------------------------------- listener registry

    method AddVideoListener(l: ListenerId)
      modifies this`videoListeners
      ensures videoListeners == old(videoListeners) + {l}
    {
      videoListeners := videoListeners + {l};
    }

    method RemoveVideoListener(l: ListenerId)
      modifies this`videoListeners
      ensures videoListeners == old(videoListeners) - {l}
    {
      videoListeners := videoListeners - {l};
    }

    method ClearVideoListeners()
      modifies this`videoListeners
      ensures videoListeners == {}
    {
      videoListeners := {};
    }

    method AddPlayerStateChangeListener(l: ListenerId)
      modifies this`playerStateChangeListeners
      ensures playerStateChangeListeners == old(playerStateChangeListeners) + {l}
    {
      playerStateChangeListeners := playerStateChangeListeners + {l};
    }

    method RemovePlayerStateChangeListener(l: ListenerId)
      modifies this`playerStateChangeListeners
      ensures playerStateChangeListeners == old(playerStateChangeListeners) - {l}
    {
      playerStateChangeListeners := playerStateChangeListeners - {l};
    }

    method ClearPlayerStateChangeListeners()
      modifies this`playerStateChangeListeners
      ensures playerStateChangeListeners == {}
    {
      playerStateChangeListeners := {};
    }

    method AddCompletionListener(l: ListenerId)
      modifies this`completionListeners
      ensures completionListeners == old(completionListeners) + {l}
    {
      completionListeners := completionListeners + {l};
    }

    method RemoveCompletionListener(l: ListenerId)
      modifies this`completionListeners
      ensures completionListeners == old(completionListeners) - {l}
    {
      completionListeners := completionListeners - {l};
    }

    method ClearCompletionListener()
      modifies this`completionListeners
      ensures completionListeners == {}
    {
      completionListeners := {};
    }

    // ---------------------------------------------------------------- control calls (send only)

    method Prepare(media: Media)
      modifies this`queue
      ensures queue == old(queue) + [Message(MSG_PREPARE, MediaPayload(media))]
    {
      queue := queue + [Message(MSG_PREPARE, MediaPayload(media))];
    }

    method Play()
      modifies this`queue
      ensures queue == old(queue) + [Message(MSG_PLAY, NoPayload)]
    {
      queue := queue + [Message(MSG_PLAY, NoPayload)];
    }

    method Pause()
      modifies this`queue
      ensures queue == old(queue) + [Message(MSG_PAUSE, NoPayload)]
    {
      queue := queue + [Message(MSG_PAUSE, NoPayload)];
    }

    method Repeat()
      modifies this`queue
      ensures queue == old(queue) + [Message(MSG_REPEAT, NoPayload)]
    {
      queue := queue + [Message(MSG_REPEAT, NoPayload)];
    }

    method Stop()
      modifies this`queue
      ensures queue == old(queue) + [Message(MSG_STOP, NoPayload)]
    {
      queue := queue + [Message(MSG_STOP, NoPayload)];
    }

    method Release()
      modifies this`queue
      ensures queue == old(queue) + [Message(MSG_RELEASE, NoPayload)]
    {
      queue := queue + [Message(MSG_RELEASE, NoPayload)];
    }

    method SeekTo(positionMs: int)
      modifies this`queue
      ensures queue == old(queue) + [Message(MSG_SEEK, PositionPayload(positionMs))]
    {
      queue := queue + [Message(MSG_SEEK, PositionPayload(positionMs))];
    }

    method GetPlaybackState() returns (s: int)
      requires Valid()
      ensures s == state && IsState(s)
    {
      s := state;
    }

    // ---------------------------------------------------------------- the handler

    /** One call into the engine, the k-th call of the running command; `raised` when it throws. */
    method Invoke(c: EngineCall, k: nat, fault: Fault) returns (raised: bool)
      modifies this`engineLog
      ensures engineLog == old(engineLog) + [c]
      ensures raised <==> fault == RaisesAt(k)
    {
      engineLog := engineLog + [c];
      raised := fault == RaisesAt(k);
    }

    /** Handles one message: runs its command against the engine, swallows whatever is thrown, and says
        whether the tag was known. */
    method HandleMessage(m: Message, fault: Fault) returns (handled: bool)
      modifies this`engineLog
      ensures engineLog == old(engineLog) + Execute(m, fault).calls
      ensures handled == Execute(m, fault).handled
    {
      var raised := false;
      if m.what == MSG_PREPARE {
        if m.obj.MediaPayload? {
          raised := Invoke(SetMedia(m.obj.media.path), 0, fault);
        }
        handled := true;
      } else if m.what == MSG_PLAY {
        raised := Invoke(EngineCall.Play, 0, fault);
        handled := true;
      } else if m.what == MSG_PAUSE {
        raised := Invoke(EngineCall.Pause, 0, fault);
        handled := true;
      } else if m.what == MSG_SEEK {
        if m.obj.PositionPayload? {
          raised := Invoke(SetTime(m.obj.positionMs), 0, fault);
        }
        handled := true;
      } else if m.what == MSG_REPEAT {
        raised := Invoke(ReloadMedia, 0, fault);
        if !raised {
          raised := Invoke(EngineCall.Play, 1, fault);
        }
        handled := true;
      } else if m.what == MSG_STOP {
        raised := Invoke(EngineCall.Stop, 0, fault);
        handled := true;
      } else if m.what == MSG_RELEASE {
        raised := Invoke(ReleasePlayer, 0, fault);
        if !raised {
          raised := Invoke(ReleaseLibrary, 1, fault);
        }
        handled := true;
      } else if m.what == MSG_ATTACH_VIEW {
        if m.obj.SurfacePayload? {
          AttachViewInternal(m.obj.descriptor, fault);
        }
        handled := true;
      } else {
        handled := false;
      }
    }

    /** Binds a ready surface to the engine: window size, then surface, then attach. */
    method AttachViewInternal(d: SurfaceDescriptor, fault: Fault)
      modifies this`engineLog
      ensures engineLog == old(engineLog) + Attempted([SetWindowSize(d.width, d.height), SetVideoSurface(d.surface), AttachViews], fault)
    {
      var raised := Invoke(SetWindowSize(d.width, d.height), 0, fault);
      if !raised {
        raised := Invoke(SetVideoSurface(d.surface), 1, fault);
        if !raised {
          raised := Invoke(AttachViews, 2, fault);
        }
      }
    }

    /** The handler thread takes the oldest queued message and handles it; control calls on other
        threads may run between two such steps. */
    method HandleNext(fault: Fault) returns (handled: bool)
      requires queue != []
      modifies this`queue, this`engineLog
      ensures queue == old(queue)[1..]
      ensures engineLog == old(engineLog) + Execute(old(queue)[0], fault).calls
      ensures handled == Execute(old(queue)[0], fault).handled
    {
      var m := queue[0];
      queue := queue[1..];
      handled := HandleMessage(m, fault);
    }

    /** The handler thread's loop: handles every queued message, oldest first, going on past any message
        that fails; message i meets fault `FaultAt(faults, i)`. */
    method Drain(faults: seq<Fault>) returns (handled: seq<bool>)
      modifies this`queue, this`engineLog
      ensures queue == []
      ensures engineLog == old(engineLog) + Drained(old(queue), faults)
      ensures |handled| == |old(queue)|
      ensures forall i :: 0 <= i < |handled| ==> handled[i] == Execute(old(queue)[i], FaultAt(faults, i)).handled
    {
      ghost var q0 := queue;
      var i := 0;
      handled := [];
      while queue != []
        invariant 0 <= i <= |q0| && queue == q0[i..]
        invariant engineLog == old(engineLog) + Drained(q0[..i], faults)
        invariant |handled| == i
        invariant forall j :: 0 <= j < i ==> handled[j] == Execute(q0[j], FaultAt(faults, j)).handled
        decreases |queue|
      {
        var h := HandleNext(FaultAt(faults, i));
        assert q0[..i + 1] == q0[..i] + [q0[i]];
        DrainedSnoc(q0[..i], q0[i], faults);
        handled := handled + [h];
        i := i + 1;
      }
      assert q0[..i] == q0;
    }

    // ---------------------------------------------------------------- video views

    /** Queues an attach command for a surface that is ready. */
    method SetSurfaceInternal(d: SurfaceDescriptor)
      modifies this`queue
      ensures queue == old(queue) + [AttachMessage(d)]
    {
      queue := queue + [AttachMessage(d)];
    }

    /** Removes the readiness callback from the current view, if there is one. */
    method RemoveVideoViewListener()
      modifies this`sinkCalls
      ensures sinkCalls == old(sinkCalls) + (if videoView.Some? then [Unregister(videoView.value)] else [])
    {
      if videoView.None? {
        return;
      }
      sinkCalls := sinkCalls + [Unregister(videoView.value)];
    }

    /** Binds a sink: nothing when it is the current one; otherwise the old sink loses the callback, the
        new one becomes current, an attach is queued if its surface is ready, and it gets the callback. */
    method SetSink(target: Option<Sink>, ready: Option<SurfaceDescriptor>)
      requires Valid()
      modifies this`videoView, this`sinkCalls, this`queue
      ensures Valid()
      ensures var step := SurfaceBinding.SetSink(old(videoView), target, ready);
              videoView == step.view && sinkCalls == old(sinkCalls) + step.sinkCalls && queue == old(queue) + step.queued
    {
      if target == videoView {
        assert sinkCalls == old(sinkCalls) + [];
        return;
      }
      ghost var step := SurfaceBinding.SetSink(videoView, target, ready);
      ghost var unregister := if videoView.Some? then [Unregister(videoView.value)] else [];
      ghost var register := if target.Some? then [Register(target.value)] else [];
      assert step.sinkCalls == unregister + register;
      SetSinkKeepsOneRegistration(sinkCalls, videoView, target, ready);
      RemoveVideoViewListener();
      ghost var removed := sinkCalls;
      videoView := target;
      if target.Some? {
        if ready.Some? {
          SetSurfaceInternal(ready.value);
        }
        sinkCalls := sinkCalls + [Register(target.value)];
      }
      calc {
        sinkCalls;
      ==
        removed + register;
      ==
        (old(sinkCalls) + unregister) + register;
      ==
        old(sinkCalls) + (unregister + register);
      ==
        old(sinkCalls) + step.sinkCalls;
      }
    }

    /** `ready` is the holder's surface when it exists and is valid, with the view's width and height. */
    method SetVideoSurfaceView(view: Option<nat>, ready: Option<SurfaceDescriptor>)
      requires Valid()
      modifies this`videoView, this`sinkCalls, this`queue
      ensures Valid()
      ensures var step := SurfaceBinding.SetSink(old(videoView), SurfaceViewOf(view), ready);
              videoView == step.view && sinkCalls == old(sinkCalls) + step.sinkCalls && queue == old(queue) + step.queued
    {
      SetSink(SurfaceViewOf(view), ready);
    }

    /** `ready` is the view's surface texture when it exists, with the view's width and height. */
    method SetVideoTextureView(view: Option<nat>, ready: Option<SurfaceDescriptor>)
      requires Valid()
      modifies this`videoView, this`sinkCalls, this`queue
      ensures Valid()
      ensures var step := SurfaceBinding.SetSink(old(videoView), TextureViewOf(view), ready);
              videoView == step.view && sinkCalls == old(sinkCalls) + step.sinkCalls && queue == old(queue) + step.queued
    {
      SetSink(TextureViewOf(view), ready);
    }

    /** Unbinds a sink if, and only if, it is the current one: its callback goes, the current view is
        cleared and the engine detaches its views, right away on the caller's thread. */
    method ClearSink(target: Option<Sink>)
      requires Valid()
      modifies this`videoView, this`sinkCalls, this`engineLog
      ensures Valid()
      ensures var step := SurfaceBinding.ClearSink(old(videoView), target);
              videoView == step.view && sinkCalls == old(sinkCalls) + step.sinkCalls && engineLog == old(engineLog) + step.engine
    {
      if target.Some? && videoView == target {
        sinkCalls := sinkCalls + [Unregister(target.value)];
        videoView := None;
        engineLog := engineLog + [DetachViews];
      } else {
        assert sinkCalls == old(sinkCalls) + [] && engineLog == old(engineLog) + [];
      }
      ClearSinkKeepsOneRegistration(old(sinkCalls), old(videoView), target);
      assert sinkCalls == old(sinkCalls) + SurfaceBinding.ClearSink(old(videoView), target).sinkCalls;
      assert videoView == SurfaceBinding.ClearSink(old(videoView), target).view;
    }

    method ClearVideoSurfaceView(view: Option<nat>)
      requires Valid()
      modifies this`videoView, this`sinkCalls, this`engineLog
      ensures Valid()
      ensures var step := SurfaceBinding.ClearSink(old(videoView), SurfaceViewOf(view));
              videoView == step.view && sinkCalls == old(sinkCalls) + step.sinkCalls && engineLog == old(engineLog) + step.engine
    {
      ClearSink(SurfaceViewOf(view));
    }

    method ClearVideoTextureView(view: Option<nat>)
      requires Valid()
      modifies this`videoView, this`sinkCalls, this`engineLog
      ensures Valid()
      ensures var step := SurfaceBinding.ClearSink(old(videoView), TextureViewOf(view));
              videoView == step.view && sinkCalls == old(sinkCalls) + step.sinkCalls && engineLog == old(engineLog) + step.engine
    {
      ClearSink(TextureViewOf(view));
    }

    /** Readiness callback of a TextureView: its surface texture became available. The callback only fires
        on a view it is installed on, and by the object invariant that view is the current one. */
    method OnSurfaceTextureAvailable(view: nat, surface: SurfaceId, width: int, height: int)
      requires Valid() && TextureViewSink(view) in Registered(sinkCalls)
      modifies this`queue
      ensures Valid()
      ensures videoView == Some(TextureViewSink(view))
      ensures queue == old(queue) + [AttachMessage(SurfaceDescriptor(surface, width, height))]
    {
      SetSurfaceInternal(SurfaceDescriptor(surface, width, height));
    }

    /** Readiness callback of a SurfaceView's holder: the surface was created, with the holder's frame size.
        As for a TextureView, only the current view can fire it. */
    method SurfaceCreated(view: nat, surface: SurfaceId, frameWidth: int, frameHeight: int)
      requires Valid() && SurfaceViewSink(view) in Registered(sinkCalls)
      modifies this`queue
      ensures Valid()
      ensures videoView == Some(SurfaceViewSink(view))
      ensures queue == old(queue) + [AttachMessage(SurfaceDescriptor(surface, frameWidth, frameHeight))]
    {
      SetSurfaceInternal(SurfaceDescriptor(surface, frameWidth, frameHeight));
    }
  }

  /** The sink a (possibly null) SurfaceView or TextureView reference denotes. */
  function SurfaceViewOf(view: Option<nat>): Option<Sink> {
    if view.Some? then Some(SurfaceViewSink(view.value)) else None
  }

  function TextureViewOf(view: Option<nat>): Option<Sink> {
    if view.Some? then Some(TextureViewSink(view.value)) else None
  }
}
