/** The state of one `Player`: the cached playback state, what the underlying
    engine (`AVPlayer`) has been told and reports, the current media asset, the
    asset-owned observations, the callback table and the trace of callback
    invocations so far. */
module PlayerCore {
  import opened Wrappers
  import opened Publisher
  import opened Registry

  /** The cached playback state; private to the player, so callbacks cannot read it. */
  datatype PlaybackState = NotStarted | Playing | Paused

  /** A `MediaAsset`: its own identity and the identity of the `AVPlayerItem` it built. */
  datatype MediaAsset = MediaAsset(id: AssetId, item: ItemId)

  /** A command the player issued to the engine. */
  datatype EngineCall = EnginePlay | EnginePause | EngineReplace(item: ItemId)

  datatype Player = Player(
    state: PlaybackState,
    /** `avPlayer.rate`; 0 means the engine is not playing. */
    rate: real,
    /** `avPlayer.currentItem`. */
    engineItem: Option<ItemId>,
    /** The commands sent to the engine, oldest first. */
    engineCalls: seq<EngineCall>,
    currentAsset: Option<MediaAsset>,
    /** Observations registered through the item observers of media assets. */
    observers: seq<Observation>,
    callbacks: Callbacks,
    /** Every callback invocation so far, oldest first. */
    trace: seq<Emission>)

  /** A newly constructed player: not started, an idle engine with no item, no
      asset, no observations, every callback slot holding the no-op closure. */
  function Init(): (p: Player)
    ensures p.state == NotStarted && p.rate == 0.0
    ensures p.engineItem.None? && p.currentAsset.None?
    ensures p.observers == [] && p.trace == [] && p.engineCalls == []
    ensures forall s :: Handler(p.callbacks, s) == NoOp
  {
    Player(NotStarted, 0.0, None, [], None, [], Defaults, [])
  }

  /** Publishing one event: the callback registered in the event's slot runs once. */
  function Emit(p: Player, e: Event): Player {
    p.(trace := p.trace + [Emission(Handler(p.callbacks, SlotOf(e)), e)])
  }

  /** One `on…` registration method: it overwrites its own slot, leaves the other
      nine and the rest of the player untouched, and hands back the same player. */
  function Register(p: Player, slot: Slot, cb: Callback): (r: Player)
    ensures Handler(r.callbacks, slot) == cb
    ensures forall s :: s != slot ==> Handler(r.callbacks, s) == Handler(p.callbacks, s)
    ensures r.(callbacks := p.callbacks) == p
  {
    p.(callbacks := WithHandler(p.callbacks, slot, cb))
  }

  /** After registering `cb` for an event's slot, publishing that event runs `cb`,
      whatever was registered there before. */
  lemma RegisteredCallbackReceives(p: Player, cb: Callback, e: Event)
    ensures Emit(Register(p, SlotOf(e), cb), e).trace == p.trace + [Emission(cb, e)]
  {
  }

  /** Registering on a different slot does not change who receives an event. */
  lemma OtherSlotDoesNotRedirect(p: Player, slot: Slot, cb: Callback, e: Event)
    requires slot != SlotOf(e)
    ensures Emit(Register(p, slot, cb), e).trace == Emit(p, e).trace
  {
  }
}
