/** Client code that drives a player only through its public contracts, the way an activity would. */
module Scenarios {
  import opened Types
  import opened Listeners
  import opened PlaybackState
  import opened Mailbox
  import opened SurfaceBinding
  import opened Player

  /** A TextureView bound before its texture exists queues nothing, binding it again changes nothing, and
      the readiness callback then queues the one attach. */
  method AttachWaitsForReadiness() {
    var p := new SimpleConePlayer();
    p.SetVideoTextureView(Some(1), None);
    assert p.queue == [] && p.videoView == Some(TextureViewSink(1));
    p.SetVideoTextureView(Some(1), Some(SurfaceDescriptor(7, 640, 360)));
    assert p.queue == [];
    p.OnSurfaceTextureAvailable(1, 7, 640, 360);
    assert p.queue == [AttachMessage(SurfaceDescriptor(7, 640, 360))];
  }

  /** A TextureView whose texture is already there queues its attach at once; draining it sizes, binds and
      attaches in that order. */
  method AttachRunsInOrder() {
    var attach := AttachMessage(SurfaceDescriptor(7, 640, 360));
    var calls := [SetWindowSize(640, 360), SetVideoSurface(7), AttachViews];
    assert Drained([attach], []) == calls by {
      DrainedSnoc([], attach, []);
      assert [] + [attach] == [attach];
      assert Execute(attach, NoFault).calls == calls;
    }
    var p := new SimpleConePlayer();
    p.SetVideoTextureView(Some(1), Some(SurfaceDescriptor(7, 640, 360)));
    assert p.queue == [attach] && p.engineLog == [];
    var handled := p.Drain([]);
    assert p.engineLog == calls;
  }

  /** Clearing a SurfaceView that is not the bound view leaves the bound TextureView and the engine alone,
      even when the two views share an identity number. */
  /** An attach queued while the surface was ready still runs after the view has been cleared: the
      clear's detach reaches the engine first, and nothing drops the queued attach. */
  method StaleAttachRunsAfterClear() {
    var attach := AttachMessage(SurfaceDescriptor(7, 640, 360));
    var calls := [SetWindowSize(640, 360), SetVideoSurface(7), AttachViews];
    assert Drained([attach], []) == calls by {
      DrainedSnoc([], attach, []);
      assert [] + [attach] == [attach];
      assert Execute(attach, NoFault).calls == calls;
    }
    var p := new SimpleConePlayer();
    p.SetVideoSurfaceView(Some(1), Some(SurfaceDescriptor(7, 640, 360)));
    p.ClearVideoSurfaceView(Some(1));
    assert p.queue == [attach] && p.engineLog == [DetachViews];
    var handled := p.Drain([]);
    assert p.engineLog == [DetachViews] + calls;
    assert p.videoView == None;
  }

  /** The handler thread takes one message at a time, so a clear can land between two queued commands:
      the detach then sits between the attach and the play in the engine's log. */
  method ClearBetweenMessages() {
    var d := SurfaceDescriptor(7, 640, 360);
    var p := new SimpleConePlayer();
    p.SetVideoTextureView(Some(1), Some(d));
    p.Play();
    assert p.queue == [AttachMessage(d), Message(MSG_PLAY, NoPayload)];
    var h1 := p.HandleNext(NoFault);
    assert p.engineLog == [SetWindowSize(640, 360), SetVideoSurface(7), AttachViews];
    p.ClearVideoTextureView(Some(1));
    var h2 := p.HandleNext(NoFault);
    assert h1 && h2 && p.queue == [];
    assert p.engineLog == [SetWindowSize(640, 360), SetVideoSurface(7), AttachViews, DetachViews, EngineCall.Play];
  }

  method ClearOtherViewKeepsBinding() {
    var p := new SimpleConePlayer();
    p.SetVideoTextureView(Some(1), None);
    p.ClearVideoSurfaceView(Some(1));
    assert p.videoView == Some(TextureViewSink(1)) && p.engineLog == [];
    p.ClearVideoTextureView(Some(1));
    assert p.videoView == None && p.engineLog == [DetachViews];
  }

  /** Prepare, seek and play, with the engine raising inside the prepare: the seek and the play still run,
      after it and in the order they were sent. */
  method CommandsRunInOrder() {
    var p := new SimpleConePlayer();
    p.Prepare(Media("a.mp4"));
    p.SeekTo(5000);
    p.Play();
    var ms := p.queue;
    var handled := p.Drain([RaisesAt(0)]);
    FailureDoesNotStopDraining(ms, [RaisesAt(0)], 0);
    assert ms[1..] == [Message(MSG_SEEK, PositionPayload(5000)), Message(MSG_PLAY, NoPayload)];
    assert Shift([RaisesAt(0)], 1) == [];
    DrainedWithoutFaults(ms[1..]);
    assert ms[1..][..1] == [ms[1]] && ms[1..][..1][..0] == [];
    var rest := ms[1..];
    assert Command(rest[0]) == Runs([SetTime(5000)]) && Command(rest[1]) == Runs([EngineCall.Play]);
    assert Intended(rest[..1]) == Intended(rest[..1][..0]) + [SetTime(5000)];
    assert Intended(rest) == Intended(rest[..1]) + [EngineCall.Play];
    assert Execute(ms[0], RaisesAt(0)).calls == [SetMedia("a.mp4")];
    assert p.engineLog == [SetMedia("a.mp4"), SetTime(5000), EngineCall.Play];
  }

  /** A listener added twice is one member; removing it once leaves none. */
  method ListenerAddedTwice() {
    var p := new SimpleConePlayer();
    p.AddVideoListener(3);
    p.AddVideoListener(3);
    assert p.videoListeners == {3};
    p.RemoveVideoListener(3);
    assert p.videoListeners == {};
  }

  /** After an Opening, the first PositionChanged tells the video listener about the first frame and the
      second one does not; the state stays Idle throughout. */
  method FirstFrameOnce() {
    var p := new SimpleConePlayer();
    p.AddVideoListener(3);
    var f1, s1 := p.OnEvent(Opening);
    var f2, s2 := p.OnEvent(PositionChanged);
    var f3, s3 := p.OnEvent(PositionChanged);
    RoundLength(f2, {3}, RenderedFirstFrame);
    assert multiset(f2)[Notification(3, RenderedFirstFrame)] == 1;
    assert f3 == [];
    var s := p.GetPlaybackState();
    assert s == STATE_IDLE;
  }

  /** The engine delivers a whole sequence of events, one `onEvent` call each. Every completion listener
      hears one completion per EndReached event, and every video listener hears the first frame once per
      first-frame dispatch the events cause. */
  method DeliverEvents(p: SimpleConePlayer, es: seq<Event>)
    requires p.Valid()
    modifies p`state, p`onRenderFirstFrame, p`notifications, p`events
    ensures p.Valid() && p.events == old(p.events) + es
    ensures p.CurrentStatus() == Run(old(p.CurrentStatus()), es)
    ensures Count(p.notifications, Complete) ==
      old(Count(p.notifications, Complete)) + |p.completionListeners| * CompleteRounds(old(p.CurrentStatus()), es)
    ensures Count(p.notifications, Complete) ==
      old(Count(p.notifications, Complete)) + |p.completionListeners| * multiset(es)[EndReached]
    ensures Count(p.notifications, RenderedFirstFrame) ==
      old(Count(p.notifications, RenderedFirstFrame)) + |p.videoListeners| * FirstFrameRounds(old(p.CurrentStatus()), es)
    decreases |es|
  {
    if es == [] {
      assert old(p.events) + es == old(p.events);
      return;
    }
    ghost var s0, c0, f0 := p.CurrentStatus(), Count(p.notifications, Complete), Count(p.notifications, RenderedFirstFrame);
    DeliverEvent(p, es[0]);
    DeliverEvents(p, es[1..]);
    Advance(c0 + |p.completionListeners| * CompleteRounds(Step(s0, es[0]), es[1..]), Count(p.notifications, Complete), c0,
            |p.completionListeners|, CompleteRounds(Step(s0, es[0]), es[1..]), FiresComplete(es[0]));
    Advance(f0 + |p.videoListeners| * FirstFrameRounds(Step(s0, es[0]), es[1..]), Count(p.notifications, RenderedFirstFrame), f0,
            |p.videoListeners|, FirstFrameRounds(Step(s0, es[0]), es[1..]), FiresFirstFrame(s0, es[0]));
    assert p.events == old(p.events) + es by {
      assert es == [es[0]] + es[1..];
    }
    CompleteOncePerEnd(s0, es);
  }

  /** One `onEvent` call, seen through the completion and first-frame counts of the log. */
  method DeliverEvent(p: SimpleConePlayer, e: Event)
    requires p.Valid()
    modifies p`state, p`onRenderFirstFrame, p`notifications, p`events
    ensures p.Valid() && p.events == old(p.events) + [e]
    ensures p.CurrentStatus() == Step(old(p.CurrentStatus()), e)
    ensures Count(p.notifications, Complete) ==
      old(Count(p.notifications, Complete)) + (if FiresComplete(e) then |p.completionListeners| else 0)
    ensures Count(p.notifications, RenderedFirstFrame) ==
      old(Count(p.notifications, RenderedFirstFrame)) + (if FiresFirstFrame(old(p.CurrentStatus()), e) then |p.videoListeners| else 0)
  {
    ghost var before, log := p.CurrentStatus(), p.notifications;
    var fanout, stateRound := p.OnEvent(e);
    CountDispatch(log, fanout, stateRound, before, e,
                  p.completionListeners, p.videoListeners, p.playerStateChangeListeners, p.state);
  }

  /** What one `onEvent` call, in status `s`, adds to the completion and first-frame counts of the log. */
  lemma CountDispatch(log: seq<Notification>, fanout: seq<Notification>, stateRound: seq<Notification>, s: Status, e: Event,
                      completion: set<ListenerId>, video: set<ListenerId>, stateListeners: set<ListenerId>, state: int)
    requires FiresComplete(e) ==> IsRound(fanout, completion, Complete)
    requires FiresFirstFrame(s, e) ==> IsRound(fanout, video, RenderedFirstFrame)
    requires !FiresComplete(e) && !FiresFirstFrame(s, e) ==> fanout == []
    requires IsRound(stateRound, stateListeners, PlayerStateChanged(state))
    ensures Count(log + fanout + stateRound, Complete) == Count(log, Complete) + (if FiresComplete(e) then |completion| else 0)
    ensures Count(log + fanout + stateRound, RenderedFirstFrame) ==
      Count(log, RenderedFirstFrame) + (if FiresFirstFrame(s, e) then |video| else 0)
  {
    CountAppend(log + fanout, stateRound, Complete);
    CountAppend(log + fanout, stateRound, RenderedFirstFrame);
    CountAppend(log, fanout, Complete);
    CountAppend(log, fanout, RenderedFirstFrame);
    RoundCount(stateRound, stateListeners, PlayerStateChanged(state), Complete);
    RoundCount(stateRound, stateListeners, PlayerStateChanged(state), RenderedFirstFrame);
    if FiresComplete(e) {
      RoundCount(fanout, completion, Complete, Complete);
      RoundCount(fanout, completion, Complete, RenderedFirstFrame);
    } else if FiresFirstFrame(s, e) {
      RoundCount(fanout, video, RenderedFirstFrame, Complete);
      RoundCount(fanout, video, RenderedFirstFrame, RenderedFirstFrame);
    }
  }

  /** A count that was `k` per round over `r` rounds and grows by `k` for one more round, or by nothing. */
  lemma Advance(before: int, after: int, base: int, k: nat, r: nat, fires: bool)
    requires before == base + k * r && after == before + (if fires then k else 0)
    ensures after == base + k * (r + if fires then 1 else 0)
  {
  }
}
