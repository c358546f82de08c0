/** The command mailbox: tagged messages, what executing one does to the engine, and draining in order. */
module Mailbox {
  import opened Types

  const MSG_PREPARE: int := 0
  const MSG_PLAY: int := 1
  const MSG_PAUSE: int := 2
  const MSG_SEEK: int := 3
  const MSG_REPEAT: int := 4
  const MSG_STOP: int := 5
  const MSG_RELEASE: int := 6
  const MSG_ATTACH_VIEW: int := 7

  /** The object a message carries; `NoPayload` is Java's null. */
  datatype Payload = NoPayload | MediaPayload(media: Media) | PositionPayload(positionMs: int) | SurfacePayload(descriptor: SurfaceDescriptor)

  datatype Message = Message(what: int, obj: Payload)

  /** Whether the engine raises while one message runs: `RaisesAt(k)` makes the call with index k raise
      (after the call was issued); an index past the command's last call means nothing raises. */
  datatype Fault = NoFault | RaisesAt(index: nat)

  /** What the dispatch switch does with a message before any engine call can fail: the tag is unknown, the
      payload is of the wrong kind (the cast or unboxing throws), or the engine calls of the command. */
  datatype Dispatch = Unhandled | Malformed | Runs(calls: seq<EngineCall>)

  /** The tags whose handler takes an argument find one of the kind they cast it to. */
  predicate PayloadFits(m: Message)
  {
    && (m.what == MSG_PREPARE ==> m.obj.MediaPayload?)
    && (m.what == MSG_SEEK ==> m.obj.PositionPayload?)
    && (m.what == MSG_ATTACH_VIEW ==> m.obj.SurfacePayload?)
  }

  function Command(m: Message): (d: Dispatch)
    ensures d.Unhandled? <==> !(MSG_PREPARE <= m.what <= MSG_ATTACH_VIEW)
    ensures d.Runs? <==> MSG_PREPARE <= m.what <= MSG_ATTACH_VIEW && PayloadFits(m)
    ensures d.Malformed? <==> MSG_PREPARE <= m.what <= MSG_ATTACH_VIEW && !PayloadFits(m)
    ensures d.Runs? ==> |d.calls| > 0
  {
    if m.what == MSG_PREPARE then
      (if m.obj.MediaPayload? then Runs([SetMedia(m.obj.media.path)]) else Malformed)
    else if m.what == MSG_PLAY then Runs([Play])
    else if m.what == MSG_PAUSE then Runs([Pause])
    else if m.what == MSG_SEEK then
      (if m.obj.PositionPayload? then Runs([SetTime(m.obj.positionMs)]) else Malformed)
    else if m.what == MSG_REPEAT then Runs([ReloadMedia, Play])
    else if m.what == MSG_STOP then Runs([Stop])
    else if m.what == MSG_RELEASE then Runs([ReleasePlayer, ReleaseLibrary])
    else if m.what == MSG_ATTACH_VIEW then
      (if m.obj.SurfacePayload? then
         var d := m.obj.descriptor;
         Runs([SetWindowSize(d.width, d.height), SetVideoSurface(d.surface), AttachViews])
       else Malformed)
    else Unhandled
  }

  /** The calls that reach the engine when `f` may interrupt `cs`: everything up to and including the
      raising call. */
  function Attempted(cs: seq<EngineCall>, f: Fault): (r: seq<EngineCall>)
    ensures r <= cs
    ensures r == cs <==> f.NoFault? || f.index >= |cs| - 1
  {
    match f
    case NoFault => cs
    case RaisesAt(k) => if k < |cs| then cs[..k + 1] else cs
  }

  /** The outcome of handling one message: the engine calls made and the handler's return value. */
  datatype Execution = Execution(calls: seq<EngineCall>, handled: bool)

  /** The fault met by the message at position i of a drain; positions past the list meet none. */
  function FaultAt(faults: seq<Fault>, i: nat): Fault {
    if i < |faults| then faults[i] else NoFault
  }

  /** Handling one message: the switch, with every exception caught and the message reported as handled. */
  function Execute(m: Message, f: Fault): (r: Execution)
    ensures r.handled <==> MSG_PREPARE <= m.what <= MSG_ATTACH_VIEW
    ensures Command(m).Runs? ==> r.calls <= Command(m).calls && |r.calls| > 0
    ensures !Command(m).Runs? ==> r.calls == []
    ensures r.calls == [] <==> !(MSG_PREPARE <= m.what <= MSG_ATTACH_VIEW && PayloadFits(m))
  {
    match Command(m)
    case Unhandled => Execution([], false)
    case Malformed => Execution([], true)
    case Runs(cs) => Execution(Attempted(cs, f), true)
  }

  /** The engine calls made by draining `ms` in order, message i meeting fault `FaultAt(faults, i)`. */
  function Drained(ms: seq<Message>, faults: seq<Fault>): seq<EngineCall>
    decreases |ms|
  {
    if ms == [] then []
    else Drained(ms[..|ms| - 1], faults) + Execute(ms[|ms| - 1], FaultAt(faults, |ms| - 1)).calls
  }

  /** The faults that remain for the messages after the first n. */
  function Shift(faults: seq<Fault>, n: nat): seq<Fault> {
    if n <= |faults| then faults[n..] else []
  }

  lemma FaultAtShift(faults: seq<Fault>, n: nat, i: nat)
    ensures FaultAt(Shift(faults, n), i) == FaultAt(faults, n + i)
  {
  }

  /** Draining one more message appends exactly that message's calls. */
  lemma DrainedSnoc(ms: seq<Message>, m: Message, faults: seq<Fault>)
    ensures Drained(ms + [m], faults) == Drained(ms, faults) + Execute(m, FaultAt(faults, |ms|)).calls
  {
    assert (ms + [m])[..|ms|] == ms;
  }

  /** Draining two queues back to back is draining their concatenation: messages run in queue order, and
      each sees its own fault. */
  lemma {:induction false} DrainedAppend(a: seq<Message>, b: seq<Message>, faults: seq<Fault>)
    ensures Drained(a + b, faults) == Drained(a, faults) + Drained(b, Shift(faults, |a|))
    decreases |b|
  {
    if b == [] {
      assert a + b == a;
    } else {
      var b', last := b[..|b| - 1], b[|b| - 1];
      var x := Execute(last, FaultAt(faults, |a| + |b'|)).calls;
      var d1, d2 := Drained(a, faults), Drained(b', Shift(faults, |a|));
      calc {
        Drained(a + b, faults);
      == { assert a + b == (a + b') + [last]; DrainedSnoc(a + b', last, faults); }
        Drained(a + b', faults) + x;
      == { DrainedAppend(a, b', faults); }
        (d1 + d2) + x;
      ==
        d1 + (d2 + x);
      == { assert b == b' + [last]; DrainedSnoc(b', last, Shift(faults, |a|)); FaultAtShift(faults, |a|, |b'|); }
        d1 + Drained(b, Shift(faults, |a|));
      }
    }
  }

  /** A message whose command raises, or whose payload or tag is bad, does not stop the queue: every later
      message is still executed, after it and in order. */
  lemma FailureDoesNotStopDraining(ms: seq<Message>, faults: seq<Fault>, i: nat)
    requires i < |ms|
    ensures Drained(ms, faults) ==
      Drained(ms[..i], faults) + Execute(ms[i], FaultAt(faults, i)).calls + Drained(ms[i + 1..], Shift(faults, i + 1))
  {
    assert ms == (ms[..i] + [ms[i]]) + ms[i + 1..];
    DrainedAppend(ms[..i] + [ms[i]], ms[i + 1..], faults);
    assert (ms[..i] + [ms[i]])[..i] == ms[..i];
  }

  /** Draining only appends to the engine log: each message contributes at most the calls its command asks
      for, and without faults exactly those. */
  lemma {:induction false} DrainedWithoutFaults(ms: seq<Message>)
    ensures Drained(ms, []) == Intended(ms)
    decreases |ms|
  {
    if ms != [] {
      DrainedWithoutFaults(ms[..|ms| - 1]);
    }
  }

  /** The calls the commands of `ms` ask for, in order. */
  function Intended(ms: seq<Message>): seq<EngineCall>
    decreases |ms|
  {
    if ms == [] then []
    else Intended(ms[..|ms| - 1]) + (match Command(ms[|ms| - 1]) case Runs(cs) => cs case _ => [])
  }

  /** Release does not close the mailbox: a seek queued after a release still reaches the engine. */
  lemma SeekAfterReleaseStillRuns(p: int)
    ensures Drained([Message(MSG_RELEASE, NoPayload), Message(MSG_SEEK, PositionPayload(p))], [])
            == [ReleasePlayer, ReleaseLibrary, SetTime(p)]
  {
    var ms := [Message(MSG_RELEASE, NoPayload), Message(MSG_SEEK, PositionPayload(p))];
    assert ms[..1] == [ms[0]];
    assert ms[..1][..0] == [];
    assert Execute(ms[0], NoFault).calls == [ReleasePlayer, ReleaseLibrary];
    assert Execute(ms[1], NoFault).calls == [SetTime(p)];
    assert Drained(ms[..1], []) == [ReleasePlayer, ReleaseLibrary];
  }
}
