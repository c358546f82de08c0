/** The five-valued playback state and its translation from engine events. */
module PlaybackState {

  const STATE_IDLE: int := 1
  const STATE_PLAYING: int := 2
  const STATE_PAUSE: int := 3
  const STATE_STOP: int := 4
  const STATE_ENDED: int := 5

  /** One of the five state constants. */
  predicate IsState(s: int) {
    STATE_IDLE <= s <= STATE_ENDED
  }

  /** Media-player events; `Other` stands for every event type the translation has no case for. */
  datatype Event = Opening | Playing | Paused | Stopped | EndReached | PositionChanged | Other(code: int)

  /** The two fields that engine events change: the state and the first-frame flag. */
  datatype Status = Status(state: int, firstFrameRendered: bool)

  /** The status a new player starts in. */
  const Initial: Status := Status(STATE_IDLE, false)

  /** Whether `e` assigns the state, and the state it assigns. */
  predicate SetsState(e: Event) {
    !e.PositionChanged? && !e.Other?
  }

  function TargetState(e: Event): (s: int)
    requires SetsState(e)
    ensures IsState(s)
    ensures e.Opening? <==> s == STATE_IDLE
    ensures e.EndReached? <==> s == STATE_ENDED
  {
    match e
    case Opening => STATE_IDLE
    case Playing => STATE_PLAYING
    case Paused => STATE_PAUSE
    case EndReached => STATE_ENDED
    case Stopped => STATE_STOP
  }

  /** The effect of one event on the status. */
  function Step(s: Status, e: Event): (r: Status)
    ensures IsState(s.state) ==> IsState(r.state)
    ensures SetsState(e) ==> r.state == TargetState(e)
    ensures !SetsState(e) ==> r.state == s.state
    ensures r.firstFrameRendered == (if e.Opening? then false else if e.PositionChanged? then true else s.firstFrameRendered)
  {
    match e
    case Opening => Status(STATE_IDLE, false)
    case Playing => s.(state := STATE_PLAYING)
    case Paused => s.(state := STATE_PAUSE)
    case EndReached => s.(state := STATE_ENDED)
    case Stopped => s.(state := STATE_STOP)
    case PositionChanged => s.(firstFrameRendered := true)
    case Other(_) => s
  }

  /** `e`, arriving in status `s`, dispatches the first-frame callback to the video listeners. */
  predicate FiresFirstFrame(s: Status, e: Event) {
    e.PositionChanged? && !s.firstFrameRendered
  }

  /** `e` dispatches the completion callback to the completion listeners. */
  predicate FiresComplete(e: Event) {
    e.EndReached?
  }

  /** The status after a whole sequence of events, in delivery order. */
  function Run(s: Status, es: seq<Event>): Status
    decreases |es|
  {
    if es == [] then s else Run(Step(s, es[0]), es[1..])
  }

  /** How many first-frame dispatches a sequence of events causes. */
  function FirstFrameRounds(s: Status, es: seq<Event>): nat
    decreases |es|
  {
    if es == [] then 0
    else (if FiresFirstFrame(s, es[0]) then 1 else 0) + FirstFrameRounds(Step(s, es[0]), es[1..])
  }

  /** How many completion dispatches a sequence of events causes. */
  function CompleteRounds(s: Status, es: seq<Event>): nat
    decreases |es|
  {
    if es == [] then 0
    else (if FiresComplete(es[0]) then 1 else 0) + CompleteRounds(Step(s, es[0]), es[1..])
  }

  /** Running two sequences one after the other is running their concatenation. */
  lemma {:induction false} RunAppend(s: Status, a: seq<Event>, b: seq<Event>)
    ensures Run(s, a + b) == Run(Run(s, a), b)
    decreases |a|
  {
    if a != [] {
      assert (a + b)[1..] == a[1..] + b;
      RunAppend(Step(s, a[0]), a[1..], b);
    } else {
      assert a + b == b;
    }
  }

  /** Dispatch counts add up over consecutive batches of events. */
  lemma {:induction false} RoundsAppend(s: Status, a: seq<Event>, b: seq<Event>)
    ensures CompleteRounds(s, a + b) == CompleteRounds(s, a) + CompleteRounds(Run(s, a), b)
    ensures FirstFrameRounds(s, a + b) == FirstFrameRounds(s, a) + FirstFrameRounds(Run(s, a), b)
    decreases |a|
  {
    if a != [] {
      assert (a + b)[1..] == a[1..] + b;
      RoundsAppend(Step(s, a[0]), a[1..], b);
    } else {
      assert a + b == b;
    }
  }

  /** One more event adds its own dispatches, judged in the status the earlier events left. */
  lemma RoundsSnoc(s: Status, es: seq<Event>, e: Event)
    ensures Run(s, es + [e]) == Step(Run(s, es), e)
    ensures CompleteRounds(s, es + [e]) == CompleteRounds(s, es) + (if FiresComplete(e) then 1 else 0)
    ensures FirstFrameRounds(s, es + [e]) == FirstFrameRounds(s, es) + (if FiresFirstFrame(Run(s, es), e) then 1 else 0)
  {
    RunAppend(s, es, [e]);
    RoundsAppend(s, es, [e]);
    assert [e][1..] == [];
  }

  /** Whatever the events, a state that starts among the five constants stays among them. */
  lemma {:induction false} RunStaysInRange(s: Status, es: seq<Event>)
    requires IsState(s.state)
    ensures IsState(Run(s, es).state)
    decreases |es|
  {
    if es != [] {
      RunStaysInRange(Step(s, es[0]), es[1..]);
    }
  }

  /** Events that assign no state leave the state alone. */
  lemma {:induction false} RunWithoutStateEvents(s: Status, es: seq<Event>)
    requires forall i :: 0 <= i < |es| ==> !SetsState(es[i])
    ensures Run(s, es).state == s.state
    decreases |es|
  {
    if es != [] {
      RunWithoutStateEvents(Step(s, es[0]), es[1..]);
    }
  }

  /** The state is the one assigned by the most recent state-assigning event, whatever came after it. */
  lemma LastStateEventWins(s: Status, es: seq<Event>, i: nat)
    requires i < |es| && SetsState(es[i])
    requires forall j :: i < j < |es| ==> !SetsState(es[j])
    ensures Run(s, es).state == TargetState(es[i])
  {
    assert es == es[..i] + [es[i]] + es[i + 1..];
    RunAppend(s, es[..i] + [es[i]], es[i + 1..]);
    RunAppend(s, es[..i], [es[i]]);
    RunWithoutStateEvents(Run(s, es[..i] + [es[i]]), es[i + 1..]);
  }

  /** Between two Opening events the first-frame callback is dispatched at most once: exactly once if the
      flag was clear and some PositionChanged arrives, never otherwise. */
  lemma {:induction false} FirstFrameAtMostOnce(s: Status, es: seq<Event>)
    requires forall i :: 0 <= i < |es| ==> !es[i].Opening?
    ensures FirstFrameRounds(s, es) ==
      if !s.firstFrameRendered && exists i :: 0 <= i < |es| && es[i].PositionChanged? then 1 else 0
    decreases |es|
  {
    if es != [] {
      var t := Step(s, es[0]);
      FirstFrameAtMostOnce(t, es[1..]);
      if es[0].PositionChanged? {
        assert t.firstFrameRendered;
      } else {
        assert t.firstFrameRendered == s.firstFrameRendered;
        assert (exists i :: 0 <= i < |es| && es[i].PositionChanged?) <==>
               (exists i :: 0 <= i < |es[1..]| && es[1..][i].PositionChanged?) by {
          if exists i :: 0 <= i < |es| && es[i].PositionChanged? {
            var i :| 0 <= i < |es| && es[i].PositionChanged?;
            assert es[1..][i - 1] == es[i];
          }
        }
      }
    }
  }

  /** An Opening followed by any positive number of PositionChanged events dispatches the first-frame
      callback exactly once, whatever the flag was before. */
  lemma OpeningThenPositionsOnce(s: Status, ps: seq<Event>)
    requires |ps| >= 1 && forall i :: 0 <= i < |ps| ==> ps[i] == PositionChanged
    ensures FirstFrameRounds(s, [Opening] + ps) == 1
  {
    assert ([Opening] + ps)[1..] == ps;
    assert ps[0].PositionChanged?;
    FirstFrameAtMostOnce(Step(s, Opening), ps);
  }

  /** Completion is dispatched once per EndReached event and for no other event. */
  lemma {:induction false} CompleteOncePerEnd(s: Status, es: seq<Event>)
    ensures CompleteRounds(s, es) == multiset(es)[EndReached]
    decreases |es|
  {
    if es != [] {
      assert es == [es[0]] + es[1..];
      assert multiset(es) == multiset{es[0]} + multiset(es[1..]);
      CompleteOncePerEnd(Step(s, es[0]), es[1..]);
    }
  }
}
