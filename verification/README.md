# ConePlayer control layer in Dafny

A model of the control layer of ConePlayer, an Android video player built on LibVLC, with proofs about it.
There are two classes.

- `SimpleConePlayer` turns media-player events into a five-valued playback state. It fans callbacks out to
  three listener sets. Every public control call is turned into one tagged message on a handler queue,
  and one handler thread drains that queue against the native engine. It also binds one video view at a
  time, and queues an attach command once the view's surface is ready.
- `PlaybackControlView` is the on-screen controller. It computes fast-forward and rewind seek targets,
  shows the one button that fits the player's state, and keeps track of when it should hide itself.

The model is sequential. One interleaving of control calls, engine events, readiness callbacks and
handled messages is one sequence of method calls on the objects: `HandleNext` is the handler thread
taking one message, so other calls can fall between two messages, and `Drain` is that step repeated
until the queue is empty. Every call the native engine receives from the
command handler or from clearing a view is appended to an engine-call log. Every listener callback is appended to a notification log. Every install
or removal of the readiness callback on a view is appended to a view-callback log.

Modules, one per component:

- `Types` (types.dfy): media, surfaces, sinks (the two kinds of video view) and engine calls.
- `Listeners` (listeners.dfy): callbacks, and `IsRound`. That is the shape of one for-each dispatch over
  a listener set: each member gets the callback exactly once, in any order, and nobody else gets it.
- `PlaybackState` (playback_state.dfy): the state constants, the event translation `Step`, and the
  lemmas about whole event sequences.
- `Mailbox` (mailbox.dfy): message tags and payloads, `Execute` (what handling one message does) and
  `Drained` (what draining a queue does), with the queue-order lemmas.
- `SurfaceBinding` (surface_binding.dfy): the binding protocol as functions `SetSink` and `ClearSink`,
  with the lemma that the readiness callback is only ever installed on the current view.
- `Player` (player.dfy): the class `SimpleConePlayer`. Its fields are the Java fields that hold state,
  plus the queue, the three logs and a ghost history of the delivered events. `Valid()` holds three facts. The state is one of the five constants. The state and
  the first-frame flag are what `Run` over the delivered events gives. The readiness callback is
  installed on exactly the current view.
- `Controls` (controls.dfy): seek targets, the button mapping and the class `PlaybackControlView`.
- `Scenarios` (scenarios.dfy): client code that drives a player through its contracts only. One binds a
  view before its surface exists. One drains an attach. One drains an attach queued before its view was
  cleared. One clears a view between two handled messages. One clears a view that is not bound. One runs
  commands past a failing one. One adds a listener twice. One checks that the first-frame callback comes
  once. `DeliverEvents` plays the engine's part: it feeds a whole sequence of events to `onEvent` and
  counts the completion and first-frame callbacks in the notification log.

Engine exceptions are an input. Each drained message meets a `Fault`: `RaisesAt(k)` makes its k-th
engine call throw, after the call was issued. The clock (`SystemClock.uptimeMillis`) is a `now`
parameter. The position and duration the player reports are parameters of `FastForward` and
`Rewind`. Posting the hide action is recorded as its delay in `scheduledHides`, and removing the
callbacks empties that list.

Four behaviours of the code worth noting:

- Draining `release` sets no flag, so later commands still reach the engine: there is no terminal
  state. `Mailbox.SeekAfterReleaseStillRuns` shows a seek queued after a release reaching the engine.
- `clearVideoSurfaceView` and `clearVideoTextureView` call `detachViews` straight away on the
  caller's thread. They do not queue a command.
- The readiness callbacks do not check which view fired them. The callback is installed only on the
  current view, so only the current view can fire it. The model proves the first part and takes the
  second as the callbacks' precondition.
- Clearing a view does not take back an attach already queued for it. If a view is bound while its
  surface is ready and cleared before the handler reaches the attach, the engine gets `detachViews`
  first and then the window size, surface and `attachViews` of the view that is gone.
  `Scenarios.StaleAttachRunsAfterClear` shows this sequence.

## Model

| member | source | states |
|---|---|---|
| `Listeners.RoundLength` | coneplayer/src/main/java/org/noobs2d/coneplayer/SimpleConePlayer.java:332-333 | one dispatch over a listener set makes exactly as many callbacks as the set has members |
| `Listeners.EmptyRound` | coneplayer/src/main/java/org/noobs2d/coneplayer/SimpleConePlayer.java:159-162 | once a set is cleared, a dispatch over it calls nobody |
| `Listeners.RoundCount` | coneplayer/src/main/java/org/noobs2d/coneplayer/SimpleConePlayer.java:332-333 | one dispatch of a callback over a listener set puts exactly as many of that callback in the log as the set has members, and none of any other kind |
| `PlaybackState.TargetState` | coneplayer/src/main/java/org/noobs2d/coneplayer/ConePlayer.java:8-16 | an event that sets the state sets one of the five constants; Opening is the only one giving Idle and EndReached the only one giving Ended |
| `PlaybackState.Step` | coneplayer/src/main/java/org/noobs2d/coneplayer/SimpleConePlayer.java:303-330 | one event keeps the state among the five constants; Opening, Playing, Paused, Stopped and EndReached set their state, and any other event leaves it; Opening clears the first-frame flag, PositionChanged sets it, and other events keep it |
| `PlaybackState.RunAppend` | coneplayer/src/main/java/org/noobs2d/coneplayer/SimpleConePlayer.java:303-335 | translating events one batch after another is the same as translating the whole sequence |
| `PlaybackState.RoundsAppend` | coneplayer/src/main/java/org/noobs2d/coneplayer/SimpleConePlayer.java:302-354 | the completion and first-frame dispatch counts of two batches of events add up, the second batch counted from the status the first one left |
| `PlaybackState.RoundsSnoc` | coneplayer/src/main/java/org/noobs2d/coneplayer/SimpleConePlayer.java:302-354 | one more event moves the status by one step and adds its own completion and first-frame dispatches, judged in the status the earlier events left |
| `PlaybackState.RunStaysInRange` | coneplayer/src/main/java/org/noobs2d/coneplayer/SimpleConePlayer.java:47 | starting from a valid state, any sequence of events leaves the state among the five constants |
| `PlaybackState.RunWithoutStateEvents` | coneplayer/src/main/java/org/noobs2d/coneplayer/SimpleConePlayer.java:327-329 | PositionChanged and unknown events never change the state |
| `PlaybackState.LastStateEventWins` | coneplayer/src/main/java/org/noobs2d/coneplayer/SimpleConePlayer.java:303-330 | after any sequence of events, the state is the one set by the most recent state-setting event |
| `PlaybackState.FirstFrameAtMostOnce` | coneplayer/src/main/java/org/noobs2d/coneplayer/SimpleConePlayer.java:337-349 | between two Opening events the first-frame callback is dispatched at most once. It is dispatched once exactly when the flag was clear and some PositionChanged arrives |
| `PlaybackState.OpeningThenPositionsOnce` | coneplayer/src/main/java/org/noobs2d/coneplayer/SimpleConePlayer.java:305-308 | an Opening followed by one or more PositionChanged events dispatches the first-frame callback exactly once |
| `PlaybackState.CompleteOncePerEnd` | coneplayer/src/main/java/org/noobs2d/coneplayer/SimpleConePlayer.java:318-321 | the number of completion dispatches equals the number of EndReached events, and no other event dispatches it |
| `Mailbox.Command` | coneplayer/src/main/java/org/noobs2d/coneplayer/SimpleConePlayer.java:71-108 | a tag outside 0..7 is unknown; a known tag runs its command exactly when the payload is of the kind its case casts to (a media for prepare, a position for seek, a surface for attach) and is malformed exactly when it is not; a command that runs makes at least one engine call |
| `Mailbox.Attempted` | coneplayer/src/main/java/org/noobs2d/coneplayer/SimpleConePlayer.java:109-111 | a fault cuts a command's calls short to a prefix, and the whole list runs only when nothing raises before the last call |
| `Mailbox.Execute` | coneplayer/src/main/java/org/noobs2d/coneplayer/SimpleConePlayer.java:68-112 | handling reports true exactly for the eight known tags, even when the command threw; the calls made are a prefix of the command's calls; no engine call is made exactly when the tag is unknown or the payload is of the wrong kind |
| `Mailbox.DrainedAppend` | coneplayer/src/main/java/org/noobs2d/coneplayer/SimpleConePlayer.java:68-112 | draining two queues back to back equals draining their concatenation, so messages run in queue order, each meeting its own fault |
| `Mailbox.FailureDoesNotStopDraining` | coneplayer/src/main/java/org/noobs2d/coneplayer/SimpleConePlayer.java:109-111 | whatever one message does, every later message still runs after it, in order |
| `Mailbox.DrainedWithoutFaults` | coneplayer/src/main/java/org/noobs2d/coneplayer/SimpleConePlayer.java:356-405 | without faults, draining makes exactly the calls the queued commands ask for, in queue order |
| `Mailbox.SeekAfterReleaseStillRuns` | coneplayer/src/main/java/org/noobs2d/coneplayer/SimpleConePlayer.java:381-384 | a seek drained after a release still reaches the engine; there is no terminal state after release |
| `SurfaceBinding.AttachMessage` | coneplayer/src/main/java/org/noobs2d/coneplayer/SimpleConePlayer.java:386-401 | an attach command sets the window size, then the video surface, then attaches the views |
| `SurfaceBinding.SetSink` | coneplayer/src/main/java/org/noobs2d/coneplayer/SimpleConePlayer.java:194-227 | binding the current view again does nothing. Binding another view makes it current, removes the old view's callback first and installs the new view's callback last. One attach is queued exactly when the new view exists and its surface is ready. The engine is never called directly |
| `SurfaceBinding.ClearSink` | coneplayer/src/main/java/org/noobs2d/coneplayer/SimpleConePlayer.java:242-258 | clearing a view that is not current, or null, does nothing; clearing the current one removes its callback, clears the current view and detaches the engine's views |
| `SurfaceBinding.SetSinkKeepsOneRegistration` | coneplayer/src/main/java/org/noobs2d/coneplayer/SimpleConePlayer.java:229-240 | after a bind, the readiness callback is installed on exactly the new current view, so a replaced view holds no callback |
| `SurfaceBinding.ClearSinkKeepsOneRegistration` | coneplayer/src/main/java/org/noobs2d/coneplayer/SimpleConePlayer.java:242-258 | after a clear, the readiness callback is installed on exactly the current view, if any |
| `SurfaceBinding.SetSameSinkTwice` | coneplayer/src/main/java/org/noobs2d/coneplayer/SimpleConePlayer.java:196-197 | binding the same view twice in a row queues at most one attach, and the second call does nothing |
| `Player.SimpleConePlayer.constructor` | coneplayer/src/main/java/org/noobs2d/coneplayer/SimpleConePlayer.java:47-66 | a new player is Idle with the first-frame flag clear, no listeners, no view, an empty queue and empty logs |
| `Player.SimpleConePlayer.OnEvent` | coneplayer/src/main/java/org/noobs2d/coneplayer/SimpleConePlayer.java:302-335 | the new state and flag are `Step` of the old ones; the object invariant is kept. EndReached dispatches completion to every completion listener. A PositionChanged with the flag clear dispatches the first frame to every video listener. No other event dispatches either. Then every state listener gets the post-event state exactly once |
| `Player.SimpleConePlayer.OnIdle` | coneplayer/src/main/java/org/noobs2d/coneplayer/SimpleConePlayer.java:337-339 | clears the first-frame flag |
| `Player.SimpleConePlayer.OnRenderedFirstFrame` | coneplayer/src/main/java/org/noobs2d/coneplayer/SimpleConePlayer.java:341-349 | dispatches the first frame to every video listener only if the flag was clear, and leaves the flag set |
| `Player.SimpleConePlayer.OnEndReached` | coneplayer/src/main/java/org/noobs2d/coneplayer/SimpleConePlayer.java:351-354 | every completion listener gets one completion callback |
| `Player.SimpleConePlayer.OnNewLayout` | coneplayer/src/main/java/org/noobs2d/coneplayer/SimpleConePlayer.java:275-285 | every video listener gets the new width and height once, with no check against the previous size |
| `Player.SimpleConePlayer.Broadcast` | coneplayer/src/main/java/org/noobs2d/coneplayer/SimpleConePlayer.java:332-333 | the for-each loop appends one callback per member of the set and nothing else |
| `Player.SimpleConePlayer.AddVideoListener` | coneplayer/src/main/java/org/noobs2d/coneplayer/SimpleConePlayer.java:149-152 | adds to the video set with set semantics, so adding twice leaves one member |
| `Player.SimpleConePlayer.RemoveVideoListener` | coneplayer/src/main/java/org/noobs2d/coneplayer/SimpleConePlayer.java:154-157 | removes only that listener from the video set |
| `Player.SimpleConePlayer.ClearVideoListeners` | coneplayer/src/main/java/org/noobs2d/coneplayer/SimpleConePlayer.java:159-162 | empties the video set and no other |
| `Player.SimpleConePlayer.AddPlayerStateChangeListener` | coneplayer/src/main/java/org/noobs2d/coneplayer/SimpleConePlayer.java:164-167 | adds to the state set with set semantics |
| `Player.SimpleConePlayer.RemovePlayerStateChangeListener` | coneplayer/src/main/java/org/noobs2d/coneplayer/SimpleConePlayer.java:169-172 | removes only that listener from the state set |
| `Player.SimpleConePlayer.ClearPlayerStateChangeListeners` | coneplayer/src/main/java/org/noobs2d/coneplayer/SimpleConePlayer.java:174-177 | empties the state set and no other |
| `Player.SimpleConePlayer.AddCompletionListener` | coneplayer/src/main/java/org/noobs2d/coneplayer/SimpleConePlayer.java:179-182 | adds to the completion set with set semantics |
| `Player.SimpleConePlayer.RemoveCompletionListener` | coneplayer/src/main/java/org/noobs2d/coneplayer/SimpleConePlayer.java:184-187 | removes only that listener from the completion set |
| `Player.SimpleConePlayer.ClearCompletionListener` | coneplayer/src/main/java/org/noobs2d/coneplayer/SimpleConePlayer.java:189-192 | empties the completion set and no other |
| `Player.SimpleConePlayer.Prepare` | coneplayer/src/main/java/org/noobs2d/coneplayer/SimpleConePlayer.java:114-117 | appends one prepare message carrying the media to the end of the queue and changes nothing else, the engine included |
| `Player.SimpleConePlayer.Play` | coneplayer/src/main/java/org/noobs2d/coneplayer/SimpleConePlayer.java:119-122 | appends one play message and changes nothing else |
| `Player.SimpleConePlayer.Pause` | coneplayer/src/main/java/org/noobs2d/coneplayer/SimpleConePlayer.java:124-127 | appends one pause message and changes nothing else |
| `Player.SimpleConePlayer.Repeat` | coneplayer/src/main/java/org/noobs2d/coneplayer/SimpleConePlayer.java:129-132 | appends one repeat message and changes nothing else |
| `Player.SimpleConePlayer.Stop` | coneplayer/src/main/java/org/noobs2d/coneplayer/SimpleConePlayer.java:134-137 | appends one stop message and changes nothing else |
| `Player.SimpleConePlayer.Release` | coneplayer/src/main/java/org/noobs2d/coneplayer/SimpleConePlayer.java:139-142 | appends one release message and changes nothing else |
| `Player.SimpleConePlayer.SeekTo` | coneplayer/src/main/java/org/noobs2d/coneplayer/SimpleConePlayer.java:144-147 | appends one seek message carrying the position and changes nothing else |
| `Player.SimpleConePlayer.GetPlaybackState` | coneplayer/src/main/java/org/noobs2d/coneplayer/SimpleConePlayer.java:260-263 | returns the state, which is always one of the five constants |
| `Player.SimpleConePlayer.HandleMessage` | coneplayer/src/main/java/org/noobs2d/coneplayer/SimpleConePlayer.java:68-112 | the engine log grows by exactly the calls `Execute` gives, and the result is whether the tag was known |
| `Player.SimpleConePlayer.AttachViewInternal` | coneplayer/src/main/java/org/noobs2d/coneplayer/SimpleConePlayer.java:386-393 | window size, then surface, then attach views, cut short at a raising call |
| `Player.SimpleConePlayer.HandleNext` | coneplayer/src/main/java/org/noobs2d/coneplayer/SimpleConePlayer.java:68-112 | the oldest message leaves the queue and nothing else does; the engine log grows by exactly what `Execute` gives for that message, and the result is whether its tag was known |
| `Player.SimpleConePlayer.Drain` | coneplayer/src/main/java/org/noobs2d/coneplayer/SimpleConePlayer.java:68-112 | empties the queue. The engine log grows by `Drained` of the old queue, so commands run oldest first and keep going past failures. It reports per message whether its tag was known |
| `Player.SimpleConePlayer.SetSurfaceInternal` | coneplayer/src/main/java/org/noobs2d/coneplayer/SimpleConePlayer.java:395-401 | appends one attach message for the surface and its size |
| `Player.SimpleConePlayer.RemoveVideoViewListener` | coneplayer/src/main/java/org/noobs2d/coneplayer/SimpleConePlayer.java:229-240 | removes the callback from the current view if there is one, and does nothing otherwise |
| `Player.SimpleConePlayer.SetSink` | coneplayer/src/main/java/org/noobs2d/coneplayer/SimpleConePlayer.java:194-227 | the new view, callback calls and queued messages are those of `SurfaceBinding.SetSink`, and the object invariant is kept |
| `Player.SimpleConePlayer.SetVideoSurfaceView` | coneplayer/src/main/java/org/noobs2d/coneplayer/SimpleConePlayer.java:194-210 | binds a SurfaceView, or null, per `SurfaceBinding.SetSink`; the surface counts as ready when it exists and is valid |
| `Player.SimpleConePlayer.SetVideoTextureView` | coneplayer/src/main/java/org/noobs2d/coneplayer/SimpleConePlayer.java:212-227 | binds a TextureView, or null, per `SurfaceBinding.SetSink`; the surface counts as ready when the texture exists |
| `Player.SimpleConePlayer.ClearSink` | coneplayer/src/main/java/org/noobs2d/coneplayer/SimpleConePlayer.java:242-258 | the new view, callback calls and engine calls are those of `SurfaceBinding.ClearSink`, and the object invariant is kept |
| `Player.SimpleConePlayer.ClearVideoSurfaceView` | coneplayer/src/main/java/org/noobs2d/coneplayer/SimpleConePlayer.java:251-258 | unbinds a SurfaceView only if it is the current view |
| `Player.SimpleConePlayer.ClearVideoTextureView` | coneplayer/src/main/java/org/noobs2d/coneplayer/SimpleConePlayer.java:242-249 | unbinds a TextureView only if it is the current view |
| `Player.SimpleConePlayer.OnSurfaceTextureAvailable` | coneplayer/src/main/java/org/noobs2d/coneplayer/SimpleConePlayer.java:411-414 | fired by a TextureView that holds the callback, which the object invariant makes the current view, it queues exactly one attach with the texture's surface and size |
| `Player.SimpleConePlayer.SurfaceCreated` | coneplayer/src/main/java/org/noobs2d/coneplayer/SimpleConePlayer.java:431-435 | fired by a SurfaceView that holds the callback, which the object invariant makes the current view, it queues exactly one attach with the holder's frame size |
| `Scenarios.DeliverEvents` | coneplayer/src/main/java/org/noobs2d/coneplayer/SimpleConePlayer.java:302-354 | after any sequence of events, the state and flag are `Run` of the old ones. The log gains one completion per completion listener for each EndReached event. It gains one first frame per video listener for each first-frame dispatch the events cause |
| `Scenarios.DeliverEvent` | coneplayer/src/main/java/org/noobs2d/coneplayer/SimpleConePlayer.java:302-335 | one event moves the status by `Step`. The log gains one completion per completion listener when the event is EndReached. It gains one first frame per video listener when the event fires it, and nothing else of either kind |
| `Scenarios.CountDispatch` | coneplayer/src/main/java/org/noobs2d/coneplayer/SimpleConePlayer.java:302-354 | a completion round, a first-frame round or no round, followed by the state round, adds exactly the listener count of the round fired to that callback's count |
| `Controls.FastForwardTarget` | coneplayer/src/main/java/org/noobs2d/coneplayer/ui/PlaybackControlView.java:211-222 | no seek when the increment is not positive. Otherwise the target is the minimum of position plus increment and the duration. The duration is ignored when unset. The target is never behind the position while the position is within the duration |
| `Controls.RewindTarget` | coneplayer/src/main/java/org/noobs2d/coneplayer/ui/PlaybackControlView.java:224-230 | no seek when the increment is not positive; otherwise the maximum of position minus increment and zero, so it is never negative and never ahead of a non-negative position |
| `Controls.ButtonsFor` | coneplayer/src/main/java/org/noobs2d/coneplayer/ui/PlaybackControlView.java:153-171 | exactly one of play, pause and repeat is visible: pause when playing, repeat when ended or stopped, play otherwise |
| `Controls.PlaybackControlView.constructor` | coneplayer/src/main/java/org/noobs2d/coneplayer/ui/PlaybackControlView.java:53-102 | a new controller is visible and not attached, with no player, hideAtMs at Java's default 0 and the configured increments and timeout |
| `Controls.PlaybackControlView.Hide` | coneplayer/src/main/java/org/noobs2d/coneplayer/ui/PlaybackControlView.java:104-110 | a visible controller becomes hidden, its pending hides are removed and hideAtMs is unset; a hidden one is left as it was |
| `Controls.PlaybackControlView.HideAfterTimeout` | coneplayer/src/main/java/org/noobs2d/coneplayer/ui/PlaybackControlView.java:112-122 | hideAtMs becomes now plus the timeout if the timeout is positive, else unset. Earlier hides are removed, and one hide after the timeout is posted only while attached |
| `Controls.PlaybackControlView.Show` | coneplayer/src/main/java/org/noobs2d/coneplayer/ui/PlaybackControlView.java:124-132 | always leaves the controller visible and re-arms the timeout; the buttons are refreshed only if it was hidden |
| `Controls.PlaybackControlView.SetPlayer` | coneplayer/src/main/java/org/noobs2d/coneplayer/ui/PlaybackControlView.java:135-147 | the same player changes nothing. Otherwise the controller's listener leaves the old player's state set and joins the new player's, so it is never on two players. Then the buttons are refreshed |
| `Controls.PlaybackControlView.UpdateButtons` | coneplayer/src/main/java/org/noobs2d/coneplayer/ui/PlaybackControlView.java:153-171 | while visible and attached, exactly the button for the player's state is shown; otherwise the buttons are untouched |
| `Controls.PlaybackControlView.OnPlayerStateChanged` | coneplayer/src/main/java/org/noobs2d/coneplayer/ui/PlaybackControlView.java:240-243 | every state change refreshes the buttons |
| `Controls.PlaybackControlView.OnAttachedToWindow` | coneplayer/src/main/java/org/noobs2d/coneplayer/ui/PlaybackControlView.java:184-197 | a pending hide that is already due hides the controller at once. One still ahead is posted with exactly the remaining delay. Then the controller is attached and its buttons are refreshed |
| `Controls.PlaybackControlView.SetShowTimeoutMs` | coneplayer/src/main/java/org/noobs2d/coneplayer/ui/PlaybackControlView.java:199-201 | sets the timeout used by the next show |
| `Controls.PlaybackControlView.Play` | coneplayer/src/main/java/org/noobs2d/coneplayer/ui/PlaybackControlView.java:203-205 | queues one play message on the player |
| `Controls.PlaybackControlView.Pause` | coneplayer/src/main/java/org/noobs2d/coneplayer/ui/PlaybackControlView.java:207-209 | queues one pause message on the player |
| `Controls.PlaybackControlView.Repeat` | coneplayer/src/main/java/org/noobs2d/coneplayer/ui/PlaybackControlView.java:232-234 | queues one repeat message on the player |
| `Controls.PlaybackControlView.FastForward` | coneplayer/src/main/java/org/noobs2d/coneplayer/ui/PlaybackControlView.java:211-222 | queues one seek to `FastForwardTarget` on the player, or nothing when the increment is not positive |
| `Controls.PlaybackControlView.Rewind` | coneplayer/src/main/java/org/noobs2d/coneplayer/ui/PlaybackControlView.java:224-230 | queues one seek to `RewindTarget` on the player, or nothing when the increment is not positive |

## Left out

- Threads: the handler thread and its looper, and the snapshot iteration of the copy-on-write listener sets. One sequential interleaving is modelled. Concurrency itself is not.
- The native engine: LibVLC, `MediaPlayer` and the video output are only entries in the engine-call log. `getDuration` and `getCurrentPosition` are not modelled; their values are parameters of `FastForward` and `Rewind`. Creating and releasing the native media object inside prepare and repeat is folded into `SetMedia` and `ReloadMedia`.
- Which engine calls throw: an injected `Fault` per drained message stands for it.
- Empty callbacks: `onSurfacesCreated`, `onSurfacesDestroyed`, `onHardwareAccelerationError`, the size-changed, destroyed and updated texture callbacks, and `surfaceChanged` and `surfaceDestroyed`. They do nothing, so they are not modelled.
- Android plumbing: building `Surface` and `Bundle` objects, the message pool, layout inflation, attribute parsing and the dummy buttons. The increments, the timeout and the initial buttons are constructor parameters. `postDelayed` and `removeCallbacks` are recorded only as delays.
- The controller's click dispatch (`PlaybackControlView.java` lines 246-252) only routes to the modelled methods, so it is not modelled.
- Player.SimpleConePlayer.constructor: the engine setup it performs is not logged. That is creating the `MediaPlayer`, fetching its video output, and installing the player as event listener and video-output callback, so the new player's engine log is empty.
- The fields that hold Android and engine handles (`internalPlaybackThread`, `handler`, `componentListener`, `libVLC`, `mediaPlayer`, `vlcVout`) are not modelled. They never change after construction, and calls through them appear only as engine-log entries.
- `ConePlayerView`, `ConePlayerFactory` and the sample activity are not part of this model.
- Player.SimpleConePlayer.SetSink: the attach message and the callback install go to separate logs. The model does not record that the attach is queued just before the callback is installed.
- Controls.FastForwardTarget: integers are unbounded, so the 64-bit overflow of position plus increment is not modelled.
- Controls.RewindTarget: integers are unbounded, so the 64-bit wrap of position minus increment is not modelled.
- Controls.PlaybackControlView.HideAfterTimeout: `now` plus the timeout is unbounded, so 64-bit overflow is not modelled.
- Controls.PlaybackControlView.OnAttachedToWindow: `hideAtMs - now` is unbounded, so 64-bit overflow is not modelled. The method requires a player when the controller stays visible, because `updateButtons` dereferences the player without a null check.
- Controls.PlaybackControlView.SetPlayer: requires that a visible, attached controller is not given a null player in place of a real one, because `updateButtons` would dereference null.
- Controls.PlaybackControlView.Show: requires a player when a hidden, attached controller is shown, for the same reason.
- Controls.PlaybackControlView.UpdateButtons: requires a player while visible and attached, for the same reason.
- Controls.PlaybackControlView.OnPlayerStateChanged: requires a player while visible and attached, because it calls `updateButtons`.
- Controls.PlaybackControlView.FastForward: requires a player when the increment is positive, because the Java code would throw a NullPointerException without one.
- Controls.PlaybackControlView.Rewind: requires a player when the increment is positive, for the same reason.
- Controls.PlaybackControlView.Play: requires a player, because `play` dereferences it without a null check.
- Controls.PlaybackControlView.Pause: requires a player, because `pause` dereferences it without a null check.
- Controls.PlaybackControlView.Repeat: requires a player, because `repeat` dereferences it without a null check.
- Player.SimpleConePlayer.OnSurfaceTextureAvailable: requires that the firing TextureView holds the readiness callback. Android only calls a listener installed on the view, and Android is outside this model.
- Player.SimpleConePlayer.SurfaceCreated: requires that the firing SurfaceView holds the readiness callback, for the same reason.
