/** `stream(url:using:)`, the asset-preparation completion it installs,
    `readyPlayback(with:)`, and the two item observers `readyPlayback` registers.
    Asset construction and preparation are inputs: `stream` receives what the
    constructor produced, and the completion receives what preparation reported.
    The completion runs as a separate step, so other calls may come in between. */
module Session {
  import opened Wrappers
  import opened Errors
  import opened Publisher
  import opened Registry
  import opened PlayerCore

  /** `AVPlayerItemStatus`. */
  datatype ItemStatus = Unknown | ReadyToPlay | Failed

  /** `AVPlayerItemStatus.rawValue`. */
  function StatusRawValue(s: ItemStatus): int {
    match s
    case Unknown => 0
    case ReadyToPlay => 1
    case Failed => 2
  }

  /** The status observer's decoding: the change's new value must be an `Int` and a
      valid `AVPlayerItemStatus` raw value, else the handler does nothing. */
  function DecodeStatus(raw: Option<int>): (r: Option<ItemStatus>)
    ensures r.Some? <==> raw.Some? && 0 <= raw.value <= 2
    ensures r.Some? ==> StatusRawValue(r.value) == raw.value
  {
    match raw
    case None => None
    case Some(n) =>
      if n == 0 then Some(Unknown)
      else if n == 1 then Some(ReadyToPlay)
      else if n == 2 then Some(Failed)
      else None
  }

  /** Every status decodes back from its raw value. */
  lemma DecodeStatusRoundTrip(s: ItemStatus)
    ensures DecodeStatus(Some(StatusRawValue(s))) == Some(s)
  {
  }

  /** The event one status change publishes: nothing for `unknown`. */
  function StatusEvent(s: ItemStatus, itemError: Option<Cause>): (e: Option<Event>)
    ensures e.None? <==> s == Unknown
    ensures s == ReadyToPlay ==> e == Some(PlaybackReady)
    ensures s == Failed ==> e == Some(Error(Asset(FailedToReady(itemError))))
  {
    match s
    case Unknown => None
    case ReadyToPlay => Some(PlaybackReady)
    case Failed => Some(Error(Asset(FailedToReady(itemError))))
  }

  /** `n` copies of one callback invocation. */
  function Repeat(e: Emission, n: nat): (r: seq<Emission>)
    ensures |r| == n && forall i :: 0 <= i < n ==> r[i] == e
  {
    seq(n, _ => e)
  }

  /** The two observations `readyPlayback` registers for an asset, in registration order. */
  function NewObservations(asset: MediaAsset): seq<Observation> {
    [Observation(asset.id, asset.item, StatusObservation), Observation(asset.id, asset.item, EndNotification)]
  }

  /** Whether observation `o` belongs to the asset `current` (if any). */
  predicate OwnedBy(o: Observation, current: Option<MediaAsset>) {
    current.Some? && o.owner == current.value.id
  }

  /** `stream(url:using:)`, up to the point where asset preparation is under way.
      A failed construction publishes only the classified error and leaves the
      current asset alone; a successful one becomes the current asset at once and
      publishes `created`. */
  function Stream(p: Player, built: Result<MediaAsset, Thrown>): (r: Player)
    ensures built.Failure? ==> r == p.(trace := r.trace)
    ensures built.Failure? ==>
      r.trace == p.trace + [Emission(Handler(p.callbacks, OnError), Error(Classify(built.error)))]
    ensures built.Success? ==> r == p.(currentAsset := Some(built.value), trace := r.trace)
    ensures built.Success? ==>
      r.trace == p.trace + [Emission(Handler(p.callbacks, OnCreated), Created)]
  {
    match built
    case Failure(t) => Emit(p, Error(Classify(t)))
    case Success(asset) => Emit(p.(currentAsset := Some(asset)), Created)
  }

  /** The completion `stream` passes to `prepare(loading:)`. A preparation error is
      published as it is and nothing else happens; on success `initCompleted` is
      published and playback is readied with whatever asset is current when the
      completion runs. That asset must exist (the code force-unwraps it). */
  function PreparationCompleted(p: Player, error: Option<PlayerError>): (r: Player)
    requires error.None? ==> p.currentAsset.Some?
    ensures error.Some? ==> r == p.(trace := r.trace)
    ensures error.Some? ==>
      r.trace == p.trace + [Emission(Handler(p.callbacks, OnError), Error(error.value))]
    ensures error.None? ==> r.currentAsset == p.currentAsset
    ensures error.None? ==>
      r.trace == p.trace + [Emission(Handler(p.callbacks, OnInitCompleted), InitCompleted)]
    ensures error.None? ==> r.engineItem == Some(p.currentAsset.value.item)
    ensures error.None? ==> r.callbacks == p.callbacks && r.state == p.state && r.rate == p.rate
    ensures error.None? && p.engineItem == Some(p.currentAsset.value.item) ==> r.engineCalls == p.engineCalls
    ensures error.None? && p.engineItem != Some(p.currentAsset.value.item) ==>
      r.engineCalls == p.engineCalls + [EngineReplace(p.currentAsset.value.item)]
    ensures error.None? ==>
      r.observers == ClearOwned(p.observers, p.currentAsset) + NewObservations(p.currentAsset.value)
  {
    match error
    case Some(e) => Emit(p, Error(e))
    case None => ReadyPlayback(Emit(p, InitCompleted), p.currentAsset.value)
  }

  /** The registrations left once the asset `current` (if any) has stopped all of
      its key-value observations and unsubscribed all of its notifications. */
  function ClearOwned(obs: seq<Observation>, current: Option<MediaAsset>): (r: seq<Observation>)
    ensures forall o :: o in r <==> o in obs && !OwnedBy(o, current)
  {
    match current
    case None => obs
    case Some(a) => Cancel(Cancel(obs, a.id, StatusObservation), a.id, EndNotification)
  }

  /** `readyPlayback(with:)`. Cancels the observations of the asset that is current
      on entry, makes `asset` current, registers its status observation and then its
      end notification, and hands its item to the engine unless the engine already
      holds that very item. Publishes nothing and leaves playback state alone. */
  function ReadyPlayback(p: Player, asset: MediaAsset): (r: Player)
    ensures r.currentAsset == Some(asset)
    ensures r == p.(currentAsset := r.currentAsset, observers := r.observers,
                    engineItem := r.engineItem, engineCalls := r.engineCalls)
    ensures r.observers == ClearOwned(p.observers, p.currentAsset) + NewObservations(asset)
    ensures r.engineItem == Some(asset.item)
    ensures r.engineCalls == p.engineCalls <==> p.engineItem == Some(asset.item)
    ensures p.engineItem != Some(asset.item) ==>
      r.engineCalls == p.engineCalls + [EngineReplace(asset.item)]
  {
    var q := p.(currentAsset := Some(asset),
                observers := ClearOwned(p.observers, p.currentAsset) + NewObservations(asset));
    if p.engineItem == Some(asset.item) then q
    else q.(engineItem := Some(asset.item), engineCalls := p.engineCalls + [EngineReplace(asset.item)])
  }

  /** The status observer firing for `item`: every status observation registered on
      that item runs its handler once. `unknown` or an undecodable value publishes
      nothing; `readyToPlay` publishes `playbackReady`; `failed` publishes an asset
      error carrying the item's error. */
  function StatusChanged(p: Player, item: ItemId, raw: Option<int>, itemError: Option<Cause>): (r: Player)
    ensures r == p.(trace := r.trace)
    ensures CountWatching(p.observers, StatusObservation, item) == 0 ==> r == p
    ensures DecodeStatus(raw) in {None, Some(Unknown)} ==> r == p
    ensures DecodeStatus(raw) == Some(ReadyToPlay) ==>
      r.trace == p.trace + Repeat(Emission(Handler(p.callbacks, OnPlaybackReady), PlaybackReady),
                                  CountWatching(p.observers, StatusObservation, item))
    ensures DecodeStatus(raw) == Some(Failed) ==>
      r.trace == p.trace + Repeat(Emission(Handler(p.callbacks, OnError), Error(Asset(FailedToReady(itemError)))),
                                  CountWatching(p.observers, StatusObservation, item))
  {
    match DecodeStatus(raw)
    case None => p
    case Some(s) =>
      match StatusEvent(s, itemError)
      case None => p
      case Some(e) =>
        var n := CountWatching(p.observers, StatusObservation, item);
        p.(trace := p.trace + Repeat(Emission(Handler(p.callbacks, SlotOf(e)), e), n))
  }

  /** `AVPlayerItemDidPlayToEndTime` posted for `item`: every end subscription on that
      item publishes `playbackCompleted` once. */
  function DidPlayToEnd(p: Player, item: ItemId): (r: Player)
    ensures r == p.(trace := r.trace)
    ensures r.trace == p.trace + Repeat(Emission(Handler(p.callbacks, OnPlaybackCompleted), PlaybackCompleted),
                                        CountWatching(p.observers, EndNotification, item))
  {
    var n := CountWatching(p.observers, EndNotification, item);
    p.(trace := p.trace + Repeat(Emission(Handler(p.callbacks, OnPlaybackCompleted), PlaybackCompleted), n))
  }

  /** No registration of `p` watches `item`: the item was built by a fresh asset. */
  predicate Unwatched(p: Player, item: ItemId) {
    forall o :: o in p.observers ==> o.target != item
  }

  /** Readying an asset whose item nobody watches leaves exactly one status
      observation and one end subscription on that item. */
  lemma ReadyPlaybackWatchesOnce(p: Player, asset: MediaAsset)
    requires Unwatched(p, asset.item)
    ensures CountWatching(ReadyPlayback(p, asset).observers, StatusObservation, asset.item) == 1
    ensures CountWatching(ReadyPlayback(p, asset).observers, EndNotification, asset.item) == 1
  {
    var cleared := ClearOwned(p.observers, p.currentAsset);
    CountWatchingAppend(cleared, NewObservations(asset), StatusObservation, asset.item);
    CountWatchingAppend(cleared, NewObservations(asset), EndNotification, asset.item);
  }

  /** Once a fresh asset has been readied, its item playing to the end publishes
      `playbackCompleted` exactly once. */
  lemma CompletionPublishedOnce(p: Player, asset: MediaAsset)
    requires Unwatched(p, asset.item)
    ensures DidPlayToEnd(ReadyPlayback(p, asset), asset.item).trace
      == p.trace + [Emission(Handler(p.callbacks, OnPlaybackCompleted), PlaybackCompleted)]
  {
    ReadyPlaybackWatchesOnce(p, asset);
  }

  /** Streaming a fresh asset that constructs and prepares successfully publishes
      `created` then `initCompleted`, attaches its item to the engine with one status
      observation on it, and leaves playback state and callbacks alone. */
  lemma StreamThenPrepare(p: Player, asset: MediaAsset)
    requires Unwatched(p, asset.item)
    ensures var c := PreparationCompleted(Stream(p, Success(asset)), None);
      && c.trace == p.trace + [Emission(Handler(p.callbacks, OnCreated), Created),
                               Emission(Handler(p.callbacks, OnInitCompleted), InitCompleted)]
      && c.callbacks == p.callbacks
      && CountWatching(c.observers, StatusObservation, asset.item) == 1
      && c.engineItem == Some(asset.item)
      && c.state == p.state && c.rate == p.rate
  {
    var s := Stream(p, Success(asset));
    var i := Emit(s, InitCompleted);
    assert i.observers == p.observers;
    ReadyPlaybackWatchesOnce(i, asset);
  }

  /** Streaming a fresh asset that constructs and prepares successfully and then
      becomes ready publishes `created`, `initCompleted`, `playbackReady` in that
      order, attaches its item to the engine, and does not start playback. */
  lemma StreamHappyPath(p: Player, asset: MediaAsset)
    requires Unwatched(p, asset.item)
    ensures var r := StatusChanged(PreparationCompleted(Stream(p, Success(asset)), None), asset.item, Some(1), None);
      && r.trace == p.trace + [Emission(Handler(p.callbacks, OnCreated), Created),
                               Emission(Handler(p.callbacks, OnInitCompleted), InitCompleted),
                               Emission(Handler(p.callbacks, OnPlaybackReady), PlaybackReady)]
      && r.engineItem == Some(asset.item)
      && r.state == p.state && r.rate == p.rate
  {
    StreamThenPrepare(p, asset);
  }

  /** Clearing an asset's registrations right after they were appended to a list
      that holds none of its own gives that list back. */
  lemma ClearJustRegistered(cleared: seq<Observation>, asset: MediaAsset)
    requires forall o :: o in cleared ==> o.owner != asset.id
    ensures ClearOwned(cleared + NewObservations(asset), Some(asset)) == cleared
  {
    var n := NewObservations(asset);
    var endOnly := [Observation(asset.id, asset.item, EndNotification)];
    CancelAppend(cleared, n, asset.id, StatusObservation);
    CancelNothingToCancel(cleared, asset.id, StatusObservation);
    assert Cancel(n, asset.id, StatusObservation) == endOnly;
    CancelAppend(cleared, endOnly, asset.id, EndNotification);
    CancelNothingToCancel(cleared, asset.id, EndNotification);
    assert Cancel(endOnly, asset.id, EndNotification) == [];
  }

  /** Readying the asset that is already current and attached changes nothing: its
      observations are cancelled and registered again, and the engine's item is not
      replaced a second time. Needs only that no registration of the asset survives
      the first call's cancellation. */
  lemma ReadyPlaybackIdempotent(p: Player, asset: MediaAsset)
    requires forall o :: o in p.observers && o.owner == asset.id ==> OwnedBy(o, p.currentAsset)
    ensures ReadyPlayback(ReadyPlayback(p, asset), asset) == ReadyPlayback(p, asset)
  {
    var r := ReadyPlayback(p, asset);
    var cleared := ClearOwned(p.observers, p.currentAsset);
    ClearJustRegistered(cleared, asset);
    assert ReadyPlayback(r, asset).observers == r.observers;
  }

  /** As written, `stream` makes the new asset current before preparation finishes,
      so the completion's `readyPlayback` cancels the incoming asset's registrations
      instead of the previous asset's: every registration not owned by the incoming
      asset survives the swap. */
  lemma AsWrittenKeepsPreviousObservers(p: Player, next: MediaAsset)
    ensures var r := PreparationCompleted(Stream(p, Success(next)), None);
      forall o :: o in p.observers && o.owner != next.id ==> o in r.observers
  {
  }

  /** As written, after a first and then a second asset have been streamed and
      prepared, the first asset's status observation is still registered. */
  lemma AsWrittenStaleObservationRemains(p: Player, first: MediaAsset, second: MediaAsset)
    requires first.id != second.id
    ensures var q := PreparationCompleted(Stream(p, Success(first)), None);
      var r := PreparationCompleted(Stream(q, Success(second)), None);
      Observation(first.id, first.item, StatusObservation) in r.observers
  {
    var q := PreparationCompleted(Stream(p, Success(first)), None);
    var stale := Observation(first.id, first.item, StatusObservation);
    assert q.observers[|q.observers| - 2] == stale;
    AsWrittenKeepsPreviousObservers(q, second);
  }

  /** The consequence: once a second asset has been streamed and prepared after a
      first one, a `failed` status on the first asset's item still publishes an
      error, at least once. */
  lemma AsWrittenStaleStatusFires(p: Player, first: MediaAsset, second: MediaAsset, itemError: Option<Cause>)
    requires first.id != second.id
    ensures var q := PreparationCompleted(Stream(p, Success(first)), None);
      var r := PreparationCompleted(Stream(q, Success(second)), None);
      var fired := StatusChanged(r, first.item, Some(2), itemError);
      && |fired.trace| > |r.trace|
      && fired.trace[|r.trace|] == Emission(Handler(p.callbacks, OnError), Error(Asset(FailedToReady(itemError))))
  {
    AsWrittenStaleObservationRemains(p, first, second);
    var q := PreparationCompleted(Stream(p, Success(first)), None);
    var r := PreparationCompleted(Stream(q, Success(second)), None);
    var n := CountWatching(r.observers, StatusObservation, first.item);
    assert n > 0;
    assert r.callbacks == p.callbacks;
  }

  /** The first `stream` of two: the later one replaces the current asset before any
      preparation completes, so only `created` has been published twice. */
  lemma TwoStreams(p: Player, first: MediaAsset, second: MediaAsset)
    ensures var s := Stream(Stream(p, Success(first)), Success(second));
      && s.currentAsset == Some(second)
      && s.callbacks == p.callbacks
      && s.engineCalls == p.engineCalls
      && s.trace == p.trace + [Emission(Handler(p.callbacks, OnCreated), Created),
                               Emission(Handler(p.callbacks, OnCreated), Created)]
  {
  }

  /** The events of two `stream` calls whose preparations both complete afterwards. */
  lemma RapidStreamsEvents(p: Player, first: MediaAsset, second: MediaAsset)
    ensures var s := Stream(Stream(p, Success(first)), Success(second));
      PreparationCompleted(PreparationCompleted(s, None), None).trace
        == p.trace + [Emission(Handler(p.callbacks, OnCreated), Created),
                      Emission(Handler(p.callbacks, OnCreated), Created),
                      Emission(Handler(p.callbacks, OnInitCompleted), InitCompleted),
                      Emission(Handler(p.callbacks, OnInitCompleted), InitCompleted)]
  {
    TwoStreams(p, first, second);
  }

  /** Two `stream` calls before either preparation completes: both completions ready
      the asset that is current when they run, the later one, so the earlier asset's
      item is never attached and the engine's item is replaced at most once. */
  lemma AsWrittenRapidStreams(p: Player, first: MediaAsset, second: MediaAsset)
    ensures var s := Stream(Stream(p, Success(first)), Success(second));
      var r := PreparationCompleted(PreparationCompleted(s, None), None);
      && r.currentAsset == Some(second)
      && r.engineItem == Some(second.item)
      && (r.engineCalls == p.engineCalls || r.engineCalls == p.engineCalls + [EngineReplace(second.item)])
      && r.trace == p.trace + [Emission(Handler(p.callbacks, OnCreated), Created),
                               Emission(Handler(p.callbacks, OnCreated), Created),
                               Emission(Handler(p.callbacks, OnInitCompleted), InitCompleted),
                               Emission(Handler(p.callbacks, OnInitCompleted), InitCompleted)]
  {
    TwoStreams(p, first, second);
    RapidStreamsEvents(p, first, second);
  }

  /** Every registration belongs to the current asset: no observer outlives the
      asset it was registered for. */
  predicate OwnedByCurrent(p: Player) {
    forall o :: o in p.observers ==> OwnedBy(o, p.currentAsset)
  }

  /** `stream` as evidently intended: the constructed asset stays with the
      preparation completion and only becomes current inside `readyPlayback`.
      Construction failures are handled as written. */
  function StreamIntended(p: Player, built: Result<MediaAsset, Thrown>): (r: Player)
    ensures r == p.(trace := r.trace)
    ensures built.Failure? ==>
      r.trace == p.trace + [Emission(Handler(p.callbacks, OnError), Error(Classify(built.error)))]
    ensures built.Success? ==>
      r.trace == p.trace + [Emission(Handler(p.callbacks, OnCreated), Created)]
  {
    match built
    case Failure(t) => Emit(p, Error(Classify(t)))
    case Success(_) => Emit(p, Created)
  }

  /** The preparation completion as evidently intended: it readies the asset it was
      created for, so `readyPlayback` cancels the registrations of the asset that was
      current until then. */
  function PreparationCompletedIntended(p: Player, asset: MediaAsset, error: Option<PlayerError>): (r: Player)
    ensures error.Some? ==> r == p.(trace := r.trace)
    ensures error.Some? ==>
      r.trace == p.trace + [Emission(Handler(p.callbacks, OnError), Error(error.value))]
    ensures error.None? ==> r.currentAsset == Some(asset)
    ensures error.None? ==>
      r.trace == p.trace + [Emission(Handler(p.callbacks, OnInitCompleted), InitCompleted)]
    ensures error.None? ==> forall o :: o in r.observers ==> !OwnedBy(o, p.currentAsset) || o.owner == asset.id
  {
    match error
    case Some(e) => Emit(p, Error(e))
    case None => ReadyPlayback(Emit(p, InitCompleted), asset)
  }

  /** With the intended ordering, streaming and preparing a new asset keeps every
      registration owned by the current asset, leaves exactly the new asset's two
      registrations, and so no later status change or end notification on any other
      item publishes anything. */
  lemma IntendedCancelsPrevious(p: Player, next: MediaAsset, item: ItemId, raw: Option<int>, itemError: Option<Cause>)
    requires OwnedByCurrent(p)
    requires item != next.item
    ensures var r := PreparationCompletedIntended(StreamIntended(p, Success(next)), next, None);
      && OwnedByCurrent(r)
      && r.observers == NewObservations(next)
      && StatusChanged(r, item, raw, itemError) == r
      && DidPlayToEnd(r, item) == r
  {
    var s := StreamIntended(p, Success(next));
    var cleared := ClearOwned(s.observers, s.currentAsset);
    NoMembersIsEmpty(cleared);
    var r := PreparationCompletedIntended(s, next, None);
  }
}
