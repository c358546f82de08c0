/** The surface-sink binding protocol: which video view is current, where the readiness callback is
    installed, and which attach commands binding a view queues. */
module SurfaceBinding {
  import opened Types
  import opened Mailbox

  /** Installing or removing the player's readiness callback on a view (the surface-holder callback of a
      SurfaceView, the surface-texture listener of a TextureView). */
  datatype SinkCall = Unregister(sink: Sink) | Register(sink: Sink)

  /** The views that hold the player's readiness callback after the calls of `log`. */
  function Registered(log: seq<SinkCall>): set<Sink>
    decreases |log|
  {
    if log == [] then {}
    else
      var before := Registered(log[..|log| - 1]);
      match log[|log| - 1]
      case Register(s) => before + {s}
      case Unregister(s) => before - {s}
  }

  /** The current view as a set: empty when there is none. */
  function AsSet(view: Option<Sink>): set<Sink> {
    if view.Some? then {view.value} else {}
  }

  /** The attach command for a surface that is ready. */
  function AttachMessage(d: SurfaceDescriptor): (m: Message)
    ensures Command(m).Runs? && Command(m).calls == [SetWindowSize(d.width, d.height), SetVideoSurface(d.surface), AttachViews]
  {
    Message(MSG_ATTACH_VIEW, SurfacePayload(d))
  }

  /** The effect of one binding call: the new current view, the callback calls on views, the messages
      queued and the engine calls made directly on the caller's thread. */
  datatype BindStep = BindStep(view: Option<Sink>, sinkCalls: seq<SinkCall>, queued: seq<Message>, engine: seq<EngineCall>)

  /** Nothing happens. */
  function NoOp(current: Option<Sink>): BindStep {
    BindStep(current, [], [], [])
  }

  /** Binding `target` (None for null) when `current` is bound and `ready` is the surface the target
      exposes right now, if any. */
  function SetSink(current: Option<Sink>, target: Option<Sink>, ready: Option<SurfaceDescriptor>): (r: BindStep)
    ensures target == current ==> r == NoOp(current)
    ensures r.view == target && r.engine == []
    ensures target != current && current.Some? ==> |r.sinkCalls| > 0 && r.sinkCalls[0] == Unregister(current.value)
    ensures target != current && target.Some? ==> |r.sinkCalls| > 0 && r.sinkCalls[|r.sinkCalls| - 1] == Register(target.value)
    ensures r.queued == if target != current && target.Some? && ready.Some? then [AttachMessage(ready.value)] else []
  {
    if target == current then NoOp(current)
    else
      BindStep(target,
               (if current.Some? then [Unregister(current.value)] else []) + (if target.Some? then [Register(target.value)] else []),
               if target.Some? && ready.Some? then [AttachMessage(ready.value)] else [],
               [])
  }

  /** Unbinding `target` (None for null) when `current` is bound. */
  function ClearSink(current: Option<Sink>, target: Option<Sink>): (r: BindStep)
    ensures target.None? || target != current ==> r == NoOp(current)
    ensures target.Some? && target == current ==>
      r.view.None? && r.sinkCalls == [Unregister(target.value)] && r.queued == [] && r.engine == [DetachViews]
  {
    if target.Some? && target == current then BindStep(None, [Unregister(target.value)], [], [DetachViews])
    else NoOp(current)
  }

  /** Registered over a log extended by some calls. */
  lemma {:induction false} RegisteredAppend(log: seq<SinkCall>, more: seq<SinkCall>)
    ensures more == [] ==> Registered(log + more) == Registered(log)
    ensures |more| == 1 && more[0].Register? ==> Registered(log + more) == Registered(log) + {more[0].sink}
    ensures |more| == 1 && more[0].Unregister? ==> Registered(log + more) == Registered(log) - {more[0].sink}
  {
    if more == [] {
      assert log + more == log;
    } else if |more| == 1 {
      assert (log + more)[..|log + more| - 1] == log;
    }
  }

  /** Binding keeps the readiness callback on exactly the current view: a view that was replaced holds no
      callback, so it can never queue an attach for a view no longer in use. */
  lemma SetSinkKeepsOneRegistration(log: seq<SinkCall>, current: Option<Sink>, target: Option<Sink>, ready: Option<SurfaceDescriptor>)
    requires Registered(log) == AsSet(current)
    ensures Registered(log + SetSink(current, target, ready).sinkCalls) == AsSet(target)
  {
    var calls := SetSink(current, target, ready).sinkCalls;
    if target == current {
      RegisteredAppend(log, []);
    } else {
      var first := if current.Some? then [Unregister(current.value)] else [];
      var second := if target.Some? then [Register(target.value)] else [];
      assert calls == first + second;
      assert log + calls == (log + first) + second;
      RegisteredAppend(log, first);
      RegisteredAppend(log + first, second);
      assert Registered(log + first) == {};
    }
  }

  /** Unbinding keeps the readiness callback on exactly the current view too. */
  lemma ClearSinkKeepsOneRegistration(log: seq<SinkCall>, current: Option<Sink>, target: Option<Sink>)
    requires Registered(log) == AsSet(current)
    ensures Registered(log + ClearSink(current, target).sinkCalls) == AsSet(ClearSink(current, target).view)
  {
    RegisteredAppend(log, ClearSink(current, target).sinkCalls);
  }

  /** Binding the same view twice in a row never attaches twice: the second call does nothing, and the
      two together queue at most one attach. */
  lemma SetSameSinkTwice(current: Option<Sink>, target: Option<Sink>, ready1: Option<SurfaceDescriptor>, ready2: Option<SurfaceDescriptor>)
    ensures var first := SetSink(current, target, ready1);
            SetSink(first.view, target, ready2) == NoOp(target) &&
            |first.queued + SetSink(first.view, target, ready2).queued| <= 1
  {
  }
}
