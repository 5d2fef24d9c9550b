# Player playback-session model

A Dafny model of the core of `Player` (an iOS playback coordinator built on
`AVPlayer`). The model covers four things:

- The playback state machine: `play()`, `pause()`, `stop()` and `isPlaying`.
- The event-publisher table: ten callback slots, each set by its own `on…` method.
- The `stream(url:using:)` / `readyPlayback(with:)` orchestration, including the item observers it registers.
- The bitrate-change handler that runs on every new access-log entry.

The player is an immutable record (`PlayerCore.Player`). Each public operation is a
pure function from one record to the next. The record holds:

- the cached playback state and the engine's rate and current item;
- the commands sent to the engine;
- the current media asset;
- the observations registered by media assets;
- the callback table;
- a trace of every callback invocation, as (callback, event) pairs.

Callbacks are opaque closure identities. The trace therefore shows which registered
closure ran for each event, and last-write-wins is visible in it.

Modules:

| file | module | content |
|---|---|---|
| wrappers.dfy | `Wrappers` | `Option`, `Result` |
| errors.dfy | `Errors` | `PlayerError`, what asset construction throws, and its classification |
| publisher.dfy | `Publisher` | slots, callback table, events, delivery to the registered callback |
| registry.dfy | `Registry` | observations owned by assets, cancel by owner and kind, counting watchers |
| player.dfy | `PlayerCore` | the player record, a new player, publishing, the `on…` setters |
| playback.dfy | `Playback` | `play`/`pause`/`stop`/`isPlaying`, a reference transition table, call sequences |
| session.dfy | `Session` | `stream`, the preparation completion, `readyPlayback`, status and end observers |
| bitrate.dfy | `Bitrate` | access-log bitrate derivation and the handler installed by `init()` |

Points where the code's behaviour is easy to misread:

- **Pause guard.** `pause()` is guarded by the engine's rate, not by the cached state. So it pauses and publishes "paused" even from `notStarted` when the rate is nonzero.
- **`currentAsset` write.** `stream` writes `currentAsset` as soon as construction succeeds. This happens before preparation completes. See Findings.
- **One-entry access log.** The handler traps on a one-entry access log. The `previousIndex != nil ? … : nil` conditional at Player/Player.swift:33 shows that an absent previous rate was expected there. See Findings.
- **No duplicate suppression.** The handler re-derives an event on every notification. Nothing suppresses a duplicate emission when no entry was added.

Inputs that stand for code outside the model:

- **Asset construction.** `stream` receives `Result<MediaAsset, Thrown>`: the constructed asset, or what the `MediaAsset` initializer threw.
- **Preparation.** The completion receives the `Option<PlayerError>` that `prepare(loading:)` reported.
- **Item status.** The status observer receives the raw `status` value and the item's `error`.
- **Access log.** The handler receives the posting item's access log, or `None` when the notification carries no item or the item has no access log.
- **`AVPlayer.play()`.** Modelled as setting the engine rate to 1.0.

## Model

| member | source | states |
|---|---|---|
| `PlayerCore.Init` | Player/Player.swift:56-77 | A new player is `notStarted` with an idle engine and no item. It has no asset and no observations, and every slot holds the no-op closure. |
| `PlayerCore.Register` | Player/Player.swift:86-147 | An `on…` setter puts the callback in its own slot and leaves the other nine slots unchanged. The rest of the player is untouched and the same player comes back. |
| `Publisher.LastWriteWins` | Player/Player.swift:86-147 | Registering twice on a slot equals registering only the second callback. |
| `Publisher.DistinctSlotsCommute` | Player/Player.swift:86-147 | Registrations on different slots can be made in either order. |
| `PlayerCore.RegisteredCallbackReceives` | Player/Player.swift:86-147 | After registering a callback on an event's slot, publishing that event runs exactly that callback. |
| `PlayerCore.OtherSlotDoesNotRedirect` | Player/Player.swift:86-147 | Registering on another slot does not change which callback receives an event. |
| `Playback.Play` | Player/Player.swift:189-202 | From `notStarted`: engine plays, state becomes `playing`, one "started" emission. From `paused`: one "resumed" emission, state becomes `playing`. From `playing`: nothing changes, whatever the rate. |
| `Playback.Pause` | Player/Player.swift:204-220 | With the engine rate at 0, nothing changes. Otherwise, whatever the cached state (even `notStarted`), the engine pauses, the state becomes `paused` and one "paused" emission follows. |
| `Playback.Stop` | Player/Player.swift:211-216 | From any state the engine pauses and the state becomes `paused`. Exactly one "aborted" emission follows, never "paused". |
| `Playback.StepFollowsTable` | Player/Player.swift:189-220 | Each call matches an independent transition table in state, engine running flag and events. Events go to the registered callbacks. |
| `Playback.RunStateFollowsTable` | Player/Player.swift:189-220 | Any sequence of `play`/`pause`/`stop` calls ends in the table's state and engine running flag. Callbacks, asset and observations are unchanged. |
| `Playback.RunFollowsTable` | Player/Player.swift:189-220 | Any sequence of `play`/`pause`/`stop` calls publishes exactly the table's events, in order, each to the callback registered for it. |
| `Playback.IsPlayingAfterRun` | Player/Player.swift:218-220 | `isPlaying` reads the engine rate, so changing the cached state alone never changes it. After any call sequence from a consistent player, it holds exactly when the state is `playing` and exactly when the table says the engine runs. |
| `Playback.RunKeepsConsistent` | Player/Player.swift:189-220 | If the cached state says `playing` exactly when the rate is nonzero, every sequence of calls keeps it so. |
| `Playback.StartedAtMostOnce` | Player/Player.swift:189-194 | Over any sequence of calls, "started" is published at most once. It is never published once the state has left `notStarted`. |
| `Playback.StartedOnceFromInit` | Player/Player.swift:189-194 | On a new player, any call sequence publishes the table's events to the no-op callbacks, and "started" at most once. |
| `Registry.Cancel` | Player/Player.swift:254-255 | Cancelling an asset's observations of one kind removes exactly those and keeps every other one. |
| `Registry.CancelIdempotent` | Player/Player.swift:254-255 | A second cancellation removes nothing. |
| `Session.ClearOwned` | Player/Player.swift:253-255 | Stopping an asset's key-value observations and unsubscribing its notifications removes exactly the registrations that asset owns. |
| `Errors.Classify` | Player/Player.swift:242-249 | A thrown `PlayerError` is reported unchanged. Any other error is wrapped as `generalError` carrying it. |
| `Session.Stream` | Player/Player.swift:226-250 | Construction failure: only `onError` runs, with the classified error, and the current asset is unchanged. Success: the asset becomes current at once and only `created` runs. |
| `Session.PreparationCompleted` | Player/Player.swift:231-240 | A preparation error runs `onError` once, with no `initCompleted` and no change to the asset, observers or engine item. Success runs `initCompleted` only, then readies the asset current at that moment and attaches its item. The observations become the previous list minus that asset's own registrations, followed by its new status and end observations. |
| `Session.ReadyPlayback` | Player/Player.swift:252-300 | Cancels the observations of the asset current on entry, before registering the new status and end observations. The engine item is replaced only when it is not already identical to the new item. Nothing is published. |
| `Session.DecodeStatus` | Player/Player.swift:263 | A raw value decodes exactly when it is 0, 1 or 2, and decodes to the status with that raw value. |
| `Session.DecodeStatusRoundTrip` | Player/Player.swift:263 | Every status decodes back from its raw value. |
| `Session.StatusEvent` | Player/Player.swift:264-275 | `unknown` maps to no event, `readyToPlay` to `playbackReady`, and `failed` to an asset `failedToReady` error with the item's error. |
| `Session.DidPlayToEnd` | Player/Player.swift:285-288 | Each end subscription on the item publishes `playbackCompleted` once, to the callback registered when the notification fires. Nothing else changes, and an item nobody subscribed to publishes nothing. |
| `Session.StatusChanged` | Player/Player.swift:262-277 | Each status observation on the item publishes that status's event once. Nothing is published when no observation watches the item, or when the value is `unknown` or undecodable. |
| `Session.ReadyPlaybackWatchesOnce` | Player/Player.swift:261-288 | After readying a fresh asset, exactly one status observation and one end subscription watch its item. |
| `Session.CompletionPublishedOnce` | Player/Player.swift:286-288 | After a fresh asset is readied, its item playing to the end publishes `playbackCompleted` exactly once. |
| `Session.StreamThenPrepare` | Player/Player.swift:226-240 | Streaming a fresh asset that constructs and prepares successfully publishes `created` then `initCompleted`. It leaves one status observation on the new item and attaches that item to the engine. |
| `Session.StreamHappyPath` | Player/Player.swift:226-277 | Streaming, preparing and readying a fresh asset publishes `created`, `initCompleted`, `playbackReady` in that order. Its item is attached and playback does not start. |
| `Session.ReadyPlaybackIdempotent` | Player/Player.swift:252-300 | Readying the current, attached asset again changes nothing. There is no second replacement and no double registration. |
| `Session.AsWrittenKeepsPreviousObservers` | Player/Player.swift:228-257 | As written, streaming and preparing a new asset keeps every observation that the new asset does not own. |
| `Session.AsWrittenStaleObservationRemains` | Player/Player.swift:228-262 | As written, after asset A and then asset B are streamed and prepared, A's status observation is still registered. |
| `Session.AsWrittenStaleStatusFires` | Player/Player.swift:228-275 | As written, streaming asset A and then asset B leaves A's observers in place. A `failed` status on A's item then still publishes an error. |
| `Session.TwoStreams` | Player/Player.swift:226-229 | Two `stream` calls in a row leave the later asset current and publish `created` twice. They send nothing to the engine. |
| `Session.RapidStreamsEvents` | Player/Player.swift:226-240 | Two `stream` calls followed by both completions publish `created`, `created`, `initCompleted`, `initCompleted`. |
| `Session.AsWrittenRapidStreams` | Player/Player.swift:226-300 | Two `stream` calls before either preparation completes: both completions ready the later asset. The engine item is replaced at most once, with the later item. Events are `created`, `created`, `initCompleted`, `initCompleted`. |
| `Session.StreamIntended` | Player/Player.swift:226-250 | The corrected `stream`: it publishes as written but does not change the current asset before preparation completes. |
| `Session.PreparationCompletedIntended` | Player/Player.swift:231-257 | The corrected completion readies its own asset. No observation of the previously current asset survives. |
| `Session.IntendedCancelsPrevious` | Player/Player.swift:252-288 | With the corrected ordering, only the new asset's two observations remain. No status change or end notification on any other item publishes anything. |
| `Bitrate.IndexOf` | Player/Player.swift:29-31 | `index(of:)` gives the first index holding the event, and gives none exactly when the event is absent. |
| `Bitrate.DeriveAsWritten` | Player/Player.swift:28-36 | The handler as written publishes nothing exactly when the log is empty. Otherwise the current rate is the last event's. The previous rate is that of the event just before the first occurrence of the last event. When that first occurrence is at index 0, the lookup traps at index -1. |
| `Bitrate.AsWrittenTrapsIff` | Player/Player.swift:29-33 | The handler traps exactly when a nonempty log's first event is also its last, and then at index -1. |
| `Bitrate.AsWrittenSingleEventTraps` | Player/Player.swift:29-33 | A one-entry log reaches index -1 and traps. |
| `Bitrate.AsWrittenReportsLastTwo` | Player/Player.swift:28-36 | For two or more distinct events, the handler reports the second-to-last bitrate as previous and the last as current. |
| `Bitrate.DeriveIntended` | Player/Player.swift:28-36 | The corrected handler never traps. A one-entry log reports no previous rate, and a nonempty log always reports the last bitrate as current. |
| `Bitrate.IntendedAgreesUnlessTrap` | Player/Player.swift:29-33 | The corrected handler agrees with the written one wherever the written one does not trap. |
| `Bitrate.NewAccessLogEntry` | Player/Player.swift:26-39 | No item/log or an empty log: nothing happens. One entry: a trap at index -1. Two or more distinct entries: exactly one bitrate emission with the last two rates. |
| `Bitrate.TwoSamplesReportTransition` | Player/Player.swift:26-39 | For a log `[b1, b2]`, exactly one emission has previous rate b1 and current rate b2. |

## Left out

- `configure(playerView:)` (UIKit layout) is not modelled; it is purely presentational.
- The `currentItem` observer registered in `init()` only prints, so it is not modelled. The player-level `stopObservingAll()` in `deinit` is left out too.
- AVFoundation internals are inputs, not models. This covers `AVPlayer`/`AVPlayerItem` behaviour, key-value observation and notification delivery, the `MediaAsset` initializer, `prepare(loading:)` and the FairPlay requester.
- Threading is not modelled. Every callback runs to completion in sequence. A callback that re-enters the player (e.g. calls `play()` while being invoked) is not modelled.
- `replaceCurrentItem(with:)` is asynchronous in the engine. The model updates the engine's current item at the call.
- The engine rate is an exact `real`. `indicatedBitrate` (a `Double`) is an `int`. No floating-point behaviour is modelled.
- The `item != nil` test before `playbackReady` always holds for an observed item, so it is not a separate branch.
- `Playback.Play`: from `paused`, the code runs the resumed callback before setting the state to `playing`. The contract states only the end state and the single emission. The cached state is private, and re-entrant callbacks are not modelled, so the order is not observable in this model.
- Deallocation of a superseded `MediaAsset` is not modelled. In Swift, overwriting `currentAsset` (Player/Player.swift:228 and :257) may drop the last strong reference to the previous asset, and its `itemObserver` would go with it. The model keeps every registration until it is cancelled explicitly. `Session.AsWrittenKeepsPreviousObservers`, `Session.AsWrittenStaleObservationRemains` and `Session.AsWrittenStaleStatusFires` depend on this. They hold only if something else keeps the previous asset alive.
- `Session.PreparationCompleted`: requires a current asset on the success path, because the code force-unwraps `currentAsset` there.
- The ten `on…` setters are one function, `PlayerCore.Register`, taking the slot as an argument. The callbacks' different Swift signatures are abstracted to closure identities.
- Player/Context/Manifest/ManifestContext.swift and Player/Tech/HLS/Observation/RateObserver.swift are not part of this model. They hold value types, and a deprecated wrapper over an observer not shown here.

## Findings

| source | as written | input that shows it | evidently intended | confidence | as-written member | corrected member |
|---|---|---|---|---|---|---|
| Player/Player.swift:29-33 | the previous index is `index(of: last)` advanced by -1, and `events[previousIndex!]` runs unchecked; the index is never `nil` | an access log holding one entry: index -1, a trap | no previous rate when the current event is first in the log (what the `previousIndex != nil ? … : nil` conditional is there for) | high; not executed | `Bitrate.DeriveAsWritten` with `Bitrate.AsWrittenSingleEventTraps` | `Bitrate.DeriveIntended` with `Bitrate.IntendedAgreesUnlessTrap` |
| Player/Player.swift:228-255 | `currentAsset` is replaced at construction, so `readyPlayback` cancels the observers of the incoming asset and not those of the asset it supersedes | stream A, A prepares, stream B, B prepares, then A's item reports `failed`: `onError` still runs | `readyPlayback` cancels the observers of the previously current asset before registering the new one | low: the lifetime of `MediaAsset`'s item observer is not visible and may end them; not executed | `Session.PreparationCompleted` with `Session.AsWrittenStaleStatusFires` | `Session.PreparationCompletedIntended` with `Session.IntendedCancelsPrevious` |
