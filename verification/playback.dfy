/** `play()`, `pause()`, `stop()` and `isPlaying`: the playback state machine over
    the cached state and the engine's rate. */
module Playback {
  import opened Wrappers
  import opened Publisher
  import opened PlayerCore

  /** The rate `AVPlayer.play()` sets. */
  const PlayRate: real := 1.0

  /** `isPlaying`: read from the engine's rate, never from the cached state. */
  predicate IsPlaying(p: Player) {
    p.rate != 0.0
  }

  /** `play()`. From `notStarted` the engine starts, the state becomes `playing` and
      the started callback runs; from `paused` the engine resumes, the resumed
      callback runs and the state becomes `playing`; from `playing` nothing happens,
      whatever the engine's rate. */
  function Play(p: Player): (r: Player)
    ensures p.state == Playing ==> r == p
    ensures p.state != Playing ==> r.state == Playing && IsPlaying(r)
    ensures p.state != Playing ==> r.engineCalls == p.engineCalls + [EnginePlay]
    ensures p.state == NotStarted ==>
      r.trace == p.trace + [Emission(Handler(p.callbacks, OnPlaybackStarted), PlaybackStarted)]
    ensures p.state == Paused ==>
      r.trace == p.trace + [Emission(Handler(p.callbacks, OnPlaybackResumed), PlaybackResumed)]
    ensures r == p.(state := r.state, rate := r.rate, engineCalls := r.engineCalls, trace := r.trace)
  {
    match p.state
    case NotStarted =>
      var started := p.(rate := PlayRate, engineCalls := p.engineCalls + [EnginePlay]);
      Emit(started.(state := Playing), PlaybackStarted)
    case Paused =>
      var resumed := p.(rate := PlayRate, engineCalls := p.engineCalls + [EnginePlay]);
      Emit(resumed, PlaybackResumed).(state := Playing)
    case Playing => p
  }

  /** `pause()`. Guarded by the engine's rate only: with the engine idle nothing
      happens; otherwise the engine pauses, the state becomes `paused` and the paused
      callback runs, even when the cached state was `notStarted`. */
  function Pause(p: Player): (r: Player)
    ensures !IsPlaying(p) ==> r == p
    ensures IsPlaying(p) ==> r.state == Paused && !IsPlaying(r)
    ensures IsPlaying(p) ==> r.engineCalls == p.engineCalls + [EnginePause]
    ensures IsPlaying(p) ==>
      r.trace == p.trace + [Emission(Handler(p.callbacks, OnPlaybackPaused), PlaybackPaused)]
    ensures r == p.(state := r.state, rate := r.rate, engineCalls := r.engineCalls, trace := r.trace)
  {
    if !IsPlaying(p) then p
    else
      Emit(p.(rate := 0.0, engineCalls := p.engineCalls + [EnginePause], state := Paused), PlaybackPaused)
  }

  /** `stop()`. Unconditional: the engine pauses, the state becomes `paused` and the
      aborted callback runs; the paused callback never does. */
  function Stop(p: Player): (r: Player)
    ensures r.state == Paused && !IsPlaying(r)
    ensures r.engineCalls == p.engineCalls + [EnginePause]
    ensures r.trace == p.trace + [Emission(Handler(p.callbacks, OnPlaybackAborted), PlaybackAborted)]
    ensures r == p.(state := r.state, rate := r.rate, engineCalls := r.engineCalls, trace := r.trace)
  {
    Emit(p.(rate := 0.0, engineCalls := p.engineCalls + [EnginePause], state := Paused), PlaybackAborted)
  }

  /** The three playback operations a caller can invoke. */
  datatype Op = PlayOp | PauseOp | StopOp

  function Step(p: Player, op: Op): Player {
    match op
    case PlayOp => Play(p)
    case PauseOp => Pause(p)
    case StopOp => Stop(p)
  }

  /** A sequence of playback calls, applied left to right. */
  function Run(p: Player, ops: seq<Op>): Player
    decreases |ops|
  {
    if |ops| == 0 then p else Run(Step(p, ops[0]), ops[1..])
  }

  /** The transition table, written independently of the player record: the cached
      state, whether the engine is running, and the event published. */
  datatype Transition = Transition(state: PlaybackState, running: bool, events: seq<Event>)

  function Table(s: PlaybackState, running: bool, op: Op): Transition {
    match (op, s)
    case (PlayOp, NotStarted) => Transition(Playing, true, [PlaybackStarted])
    case (PlayOp, Paused) => Transition(Playing, true, [PlaybackResumed])
    case (PlayOp, Playing) => Transition(Playing, running, [])
    case (PauseOp, _) =>
      if running then Transition(Paused, false, [PlaybackPaused]) else Transition(s, running, [])
    case (StopOp, _) => Transition(Paused, false, [PlaybackAborted])
  }

  /** The table applied to a sequence of calls; `events` collects every event published. */
  function TableRun(s: PlaybackState, running: bool, ops: seq<Op>): Transition
    decreases |ops|
  {
    if |ops| == 0 then Transition(s, running, [])
    else
      var t := Table(s, running, ops[0]);
      var rest := TableRun(t.state, t.running, ops[1..]);
      Transition(rest.state, rest.running, t.events + rest.events)
  }

  /** One playback call does what the table says, publishes through the current
      callback table and leaves everything but the state, the engine and the trace alone. */
  lemma StepFollowsTable(p: Player, op: Op)
    ensures var t := Table(p.state, IsPlaying(p), op);
      var r := Step(p, op);
      && r.state == t.state
      && IsPlaying(r) == t.running
      && r.trace == p.trace + Deliver(p.callbacks, t.events)
      && r.callbacks == p.callbacks
      && r.currentAsset == p.currentAsset && r.observers == p.observers
      && r.engineItem == p.engineItem
  {
  }

  /** Any sequence of `play()`/`pause()`/`stop()` calls ends in the state the table
      gives, with the engine running as the table says, and touches neither the
      callbacks nor the asset and its observations. */
  lemma {:induction false} RunStateFollowsTable(p: Player, ops: seq<Op>)
    ensures var t := TableRun(p.state, IsPlaying(p), ops);
      var r := Run(p, ops);
      && r.state == t.state
      && IsPlaying(r) == t.running
      && r.callbacks == p.callbacks
      && r.currentAsset == p.currentAsset && r.observers == p.observers
    decreases |ops|
  {
    if |ops| > 0 {
      StepFollowsTable(p, ops[0]);
      RunStateFollowsTable(Step(p, ops[0]), ops[1..]);
    }
  }

  /** Any sequence of `play()`/`pause()`/`stop()` calls publishes exactly the table's
      events, in order, each to the callback registered for it. */
  lemma {:induction false} RunFollowsTable(p: Player, ops: seq<Op>)
    ensures Run(p, ops).trace == p.trace + Deliver(p.callbacks, TableRun(p.state, IsPlaying(p), ops).events)
    decreases |ops|
  {
    if |ops| > 0 {
      var q := Step(p, ops[0]);
      var t := Table(p.state, IsPlaying(p), ops[0]);
      var rest := TableRun(t.state, t.running, ops[1..]);
      StepFollowsTable(p, ops[0]);
      RunFollowsTable(q, ops[1..]);
      DeliverAppend(p.callbacks, t.events, rest.events);
    }
  }

  /** The cached state and the engine agree: `playing` exactly when the rate is nonzero. */
  predicate Consistent(p: Player) {
    (p.state == Playing) == IsPlaying(p)
  }

  /** As long as nothing changes the engine's rate out of band, the playback calls
      keep the cached state and the engine in agreement. */
  lemma {:induction false} RunKeepsConsistent(p: Player, ops: seq<Op>)
    requires Consistent(p)
    ensures Consistent(Run(p, ops))
    decreases |ops|
  {
    if |ops| > 0 {
      assert Consistent(Step(p, ops[0]));
      RunKeepsConsistent(Step(p, ops[0]), ops[1..]);
    }
  }

  /** `isPlaying` reads the engine, not the cached state: changing the state alone
      never changes it. After any call sequence from a consistent player it is true
      exactly when the state is `playing`, and exactly when the table says the engine
      runs. */
  lemma IsPlayingAfterRun(p: Player, ops: seq<Op>)
    requires Consistent(p)
    ensures forall s: PlaybackState :: IsPlaying(p.(state := s)) == IsPlaying(p)
    ensures IsPlaying(Run(p, ops)) <==> Run(p, ops).state == Playing
    ensures IsPlaying(Run(p, ops)) == TableRun(p.state, IsPlaying(p), ops).running
  {
    RunKeepsConsistent(p, ops);
    RunStateFollowsTable(p, ops);
  }

  /** The number of occurrences of `e` in a sequence of events. */
  function Occurrences(events: seq<Event>, e: Event): nat {
    if |events| == 0 then 0
    else (if events[0] == e then 1 else 0) + Occurrences(events[1..], e)
  }

  /** Over any sequence of playback calls the started event is published at most
      once, and never once playback has left `notStarted`. */
  lemma {:induction false} StartedAtMostOnce(s: PlaybackState, running: bool, ops: seq<Op>)
    ensures Occurrences(TableRun(s, running, ops).events, PlaybackStarted)
      <= (if s == NotStarted then 1 else 0)
    decreases |ops|
  {
    if |ops| > 0 {
      var t := Table(s, running, ops[0]);
      var rest := TableRun(t.state, t.running, ops[1..]);
      StartedAtMostOnce(t.state, t.running, ops[1..]);
      OccurrencesAppend(t.events, rest.events, PlaybackStarted);
      assert t.state == NotStarted ==> s == NotStarted && t.events == [];
      assert Occurrences(t.events, PlaybackStarted) == (if t.events == [PlaybackStarted] then 1 else 0);
    }
  }

  lemma {:induction false} OccurrencesAppend(a: seq<Event>, b: seq<Event>, e: Event)
    ensures Occurrences(a + b, e) == Occurrences(a, e) + Occurrences(b, e)
  {
    if |a| == 0 {
      assert a + b == b;
    } else {
      assert (a + b)[1..] == a[1..] + b;
      OccurrencesAppend(a[1..], b, e);
    }
  }

  /** The started callback runs at most once over any sequence of playback calls on
      a newly constructed player. */
  lemma StartedOnceFromInit(ops: seq<Op>)
    ensures var t := TableRun(NotStarted, false, ops);
      Run(Init(), ops).trace == Deliver(Defaults, t.events)
      && Occurrences(t.events, PlaybackStarted) <= 1
  {
    RunFollowsTable(Init(), ops);
    assert [] + Deliver(Defaults, TableRun(NotStarted, false, ops).events) == Deliver(Defaults, TableRun(NotStarted, false, ops).events);
    StartedAtMostOnce(NotStarted, false, ops);
  }
}
