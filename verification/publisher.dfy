/** The player's event-publisher table: one callback slot per event kind, each
    overwritten by its own `on…` registration method, and the events those
    callbacks are invoked with. */
module Publisher {
  import opened Wrappers
  import opened Errors

  /** A registered closure, identified only by its identity. `NoOp` is the
      `{ _ in }` every slot holds before anything is registered. */
  datatype Callback = NoOp | Closure(id: nat)

  /** The ten callback slots, named after their registration methods. */
  datatype Slot =
    | OnCreated | OnInitCompleted | OnPlaybackReady | OnError | OnPlaybackCompleted
    | OnBitrateChanged | OnPlaybackStarted | OnPlaybackAborted | OnPlaybackPaused
    | OnPlaybackResumed

  /** The callback table: exactly one callback per slot. */
  datatype Callbacks = Callbacks(
    created: Callback,
    initCompleted: Callback,
    playbackReady: Callback,
    error: Callback,
    playbackCompleted: Callback,
    bitrateChanged: Callback,
    playbackStarted: Callback,
    playbackAborted: Callback,
    playbackPaused: Callback,
    playbackResumed: Callback)

  /** The table of a freshly constructed player: every slot holds the no-op closure. */
  const Defaults: Callbacks :=
    Callbacks(NoOp, NoOp, NoOp, NoOp, NoOp, NoOp, NoOp, NoOp, NoOp, NoOp)

  /** The callback currently registered in slot `s`. */
  function Handler(t: Callbacks, s: Slot): Callback {
    match s
    case OnCreated => t.created
    case OnInitCompleted => t.initCompleted
    case OnPlaybackReady => t.playbackReady
    case OnError => t.error
    case OnPlaybackCompleted => t.playbackCompleted
    case OnBitrateChanged => t.bitrateChanged
    case OnPlaybackStarted => t.playbackStarted
    case OnPlaybackAborted => t.playbackAborted
    case OnPlaybackPaused => t.playbackPaused
    case OnPlaybackResumed => t.playbackResumed
  }

  /** The table after one `on…` setter: slot `s` now holds `cb`, every other slot
      still holds what it held. */
  function WithHandler(t: Callbacks, s: Slot, cb: Callback): (r: Callbacks)
    ensures Handler(r, s) == cb
    ensures forall s' :: s' != s ==> Handler(r, s') == Handler(t, s')
  {
    match s
    case OnCreated => t.(created := cb)
    case OnInitCompleted => t.(initCompleted := cb)
    case OnPlaybackReady => t.(playbackReady := cb)
    case OnError => t.(error := cb)
    case OnPlaybackCompleted => t.(playbackCompleted := cb)
    case OnBitrateChanged => t.(bitrateChanged := cb)
    case OnPlaybackStarted => t.(playbackStarted := cb)
    case OnPlaybackAborted => t.(playbackAborted := cb)
    case OnPlaybackPaused => t.(playbackPaused := cb)
    case OnPlaybackResumed => t.(playbackResumed := cb)
  }

  /** Two tables that agree on every slot are the same table: the slots are all
      there is to it. */
  lemma HandlersDetermineTable(a: Callbacks, b: Callbacks)
    requires forall s :: Handler(a, s) == Handler(b, s)
    ensures a == b
  {
    assert Handler(a, OnCreated) == Handler(b, OnCreated);
    assert Handler(a, OnInitCompleted) == Handler(b, OnInitCompleted);
    assert Handler(a, OnPlaybackReady) == Handler(b, OnPlaybackReady);
    assert Handler(a, OnError) == Handler(b, OnError);
    assert Handler(a, OnPlaybackCompleted) == Handler(b, OnPlaybackCompleted);
    assert Handler(a, OnBitrateChanged) == Handler(b, OnBitrateChanged);
    assert Handler(a, OnPlaybackStarted) == Handler(b, OnPlaybackStarted);
    assert Handler(a, OnPlaybackAborted) == Handler(b, OnPlaybackAborted);
    assert Handler(a, OnPlaybackPaused) == Handler(b, OnPlaybackPaused);
    assert Handler(a, OnPlaybackResumed) == Handler(b, OnPlaybackResumed);
  }

  /** Registering twice on one slot is the same as registering only the second
      callback: last write wins, no multicast. */
  lemma LastWriteWins(t: Callbacks, s: Slot, first: Callback, second: Callback)
    ensures WithHandler(WithHandler(t, s, first), s, second) == WithHandler(t, s, second)
  {
    HandlersDetermineTable(WithHandler(WithHandler(t, s, first), s, second), WithHandler(t, s, second));
  }

  /** Registrations on different slots do not interfere, so their order is irrelevant. */
  lemma DistinctSlotsCommute(t: Callbacks, s1: Slot, s2: Slot, a: Callback, b: Callback)
    requires s1 != s2
    ensures WithHandler(WithHandler(t, s1, a), s2, b) == WithHandler(WithHandler(t, s2, b), s1, a)
  {
    HandlersDetermineTable(WithHandler(WithHandler(t, s1, a), s2, b), WithHandler(WithHandler(t, s2, b), s1, a));
  }

  /** The events the player publishes, each with its payload. */
  datatype Event =
    | Created
    | InitCompleted
    | PlaybackReady
    | Error(error: PlayerError)
    | PlaybackCompleted
    | BitrateChanged(previousRate: Option<int>, currentRate: int)
    | PlaybackStarted
    | PlaybackAborted
    | PlaybackPaused
    | PlaybackResumed

  /** The slot whose callback is invoked for an event. */
  function SlotOf(e: Event): Slot {
    match e
    case Created => OnCreated
    case InitCompleted => OnInitCompleted
    case PlaybackReady => OnPlaybackReady
    case Error(_) => OnError
    case PlaybackCompleted => OnPlaybackCompleted
    case BitrateChanged(_, _) => OnBitrateChanged
    case PlaybackStarted => OnPlaybackStarted
    case PlaybackAborted => OnPlaybackAborted
    case PlaybackPaused => OnPlaybackPaused
    case PlaybackResumed => OnPlaybackResumed
  }

  /** One invocation of a callback: which closure ran, with which event. */
  datatype Emission = Emission(callback: Callback, event: Event)

  /** The invocations publishing `events` in order through table `t`: each event
      goes to the callback registered in its own slot. */
  function Deliver(t: Callbacks, events: seq<Event>): (r: seq<Emission>)
    ensures |r| == |events|
    ensures forall i :: 0 <= i < |events| ==> r[i].event == events[i]
    ensures forall i :: 0 <= i < |events| ==> r[i].callback == Handler(t, SlotOf(events[i]))
  {
    seq(|events|, i requires 0 <= i < |events| => Emission(Handler(t, SlotOf(events[i])), events[i]))
  }

  /** Publishing two batches of events one after the other is publishing their
      concatenation. */
  lemma DeliverAppend(t: Callbacks, a: seq<Event>, b: seq<Event>)
    ensures Deliver(t, a + b) == Deliver(t, a) + Deliver(t, b)
  {
    var lhs := Deliver(t, a + b);
    var rhs := Deliver(t, a) + Deliver(t, b);
    assert |lhs| == |rhs|;
    forall i | 0 <= i < |lhs|
      ensures lhs[i] == rhs[i]
    {
      if i < |a| {
        assert (a + b)[i] == a[i];
      } else {
        assert (a + b)[i] == b[i - |a|];
      }
    }
  }
}
