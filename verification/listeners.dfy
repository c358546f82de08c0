/** The listener registry: who is told what, and the "exactly once each" shape of one dispatch. */
module Listeners {

  /** Identity of a listener object (Java reference identity). */
  type ListenerId = nat

  /** The callbacks of the three listener interfaces. */
  datatype Callback =
    | VideoSizeChanged(width: int, height: int)
    | RenderedFirstFrame
    | PlayerStateChanged(state: int)
    | Complete

  /** One callback invocation on one listener, as it appears in the notification log. */
  datatype Notification = Notification(listener: ListenerId, callback: Callback)

  /** `batch` is one dispatch of `c` over the set `ls`: every member of `ls` gets `c` exactly once, in
      some order, and nobody gets anything else. */
  ghost predicate IsRound(batch: seq<Notification>, ls: set<ListenerId>, c: Callback) {
    forall n :: multiset(batch)[n] == (if n.listener in ls && n.callback == c then 1 else 0)
  }

  /** A dispatch makes as many calls as there are listeners in the set. */
  lemma {:induction false} RoundLength(batch: seq<Notification>, ls: set<ListenerId>, c: Callback)
    requires IsRound(batch, ls, c)
    ensures |batch| == |ls|
    decreases ls
  {
    if ls != {} {
      var l :| l in ls;
      var n := Notification(l, c);
      assert n in multiset(batch);
      var i :| 0 <= i < |batch| && batch[i] == n;
      var rest := batch[..i] + batch[i + 1..];
      assert batch == batch[..i] + [n] + batch[i + 1..];
      assert multiset(batch) == multiset(rest) + multiset{n};
      assert IsRound(rest, ls - {l}, c) by {
        forall m: Notification ensures multiset(rest)[m] == (if m.listener in ls - {l} && m.callback == c then 1 else 0) {
          assert multiset(batch)[m] == multiset(rest)[m] + (if m == n then 1 else 0);
        }
      }
      RoundLength(rest, ls - {l}, c);
    }
  }

  /** A dispatch over an empty set makes no call at all. */
  lemma EmptyRound(batch: seq<Notification>, c: Callback)
    requires IsRound(batch, {}, c)
    ensures batch == []
  {
    RoundLength(batch, {}, c);
  }

  /** How many notifications in `ns` carry the callback `c`. */
  function Count(ns: seq<Notification>, c: Callback): nat
    decreases |ns|
  {
    if ns == [] then 0 else Count(ns[..|ns| - 1], c) + (if ns[|ns| - 1].callback == c then 1 else 0)
  }

  /** Counting over a log that grew is counting over its two parts. */
  lemma {:induction false} CountAppend(a: seq<Notification>, b: seq<Notification>, c: Callback)
    ensures Count(a + b, c) == Count(a, c) + Count(b, c)
    decreases |b|
  {
    if b == [] {
      assert a + b == a;
    } else {
      assert (a + b)[..|a + b| - 1] == a + b[..|b| - 1];
      CountAppend(a, b[..|b| - 1], c);
    }
  }

  lemma {:induction false} CountUniform(batch: seq<Notification>, c: Callback, d: Callback)
    requires forall i :: 0 <= i < |batch| ==> batch[i].callback == c
    ensures Count(batch, d) == if d == c then |batch| else 0
    decreases |batch|
  {
    if batch != [] {
      CountUniform(batch[..|batch| - 1], c, d);
    }
  }

  /** One dispatch of `c` over `ls` makes exactly |ls| callbacks `c` and no callback of any other kind. */
  lemma RoundCount(batch: seq<Notification>, ls: set<ListenerId>, c: Callback, d: Callback)
    requires IsRound(batch, ls, c)
    ensures Count(batch, d) == if d == c then |ls| else 0
  {
    forall i | 0 <= i < |batch|
      ensures batch[i].callback == c
    {
      assert batch[i] in multiset(batch);
    }
    CountUniform(batch, c, d);
    RoundLength(batch, ls, c);
  }
}
