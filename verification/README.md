# Ocarina Android plugin core, modelled in Dafny

Ocarina is a Flutter audio plugin. On Android, `OcarinaPlugin` keeps a process-wide
registry of `OcarinaPlayer`s keyed by integer ids, a process-wide map of subscribers
that want "is playing" notifications, and forwards each method-channel call
(`load`, `play`, `stop`, `pause`, `resume`, `seek`, `position`, `volume`, `dispose`)
to the player under the given id. Each player wraps one ExoPlayer instance.

This project models that core as immutable state and pure transitions:

- `Backend` — an abstract ExoPlayer: playback state (Idle, Buffering, Ready, Ended),
  `playWhenReady`, position in milliseconds, repeat mode, the prepared media source,
  the volume last set, how many `addListener` calls were made since the last `removeListener`, and
  whether it was released. Each ExoPlayer call the plugin makes is one function.
- `Player` — `OcarinaPlayer` with its two `lateinit` fields folded into one
  `Uninitialized | Initialized(backend, source)` state, the asset/file media URI
  choice, and every lifecycle operation behind `checkInitialized`.
- `Registry` — the plugin state: the 32-bit id counter `playerIds`, the `players`
  map and the `listeners` map; `load`, `dispose` and the forwarding operations.
  Each operation returns the next state together with the result the caller gets,
  so "a failure changes nothing" is part of the contracts.
- `ListenerHub` — `addListener`, `removeListener` and `notifyListeners`.
- `Engines` — several plugin instances over the shared companion maps (see Findings).
- `Traces` — arbitrary sequences of calls interleaved with backend progress, the id-freshness theorem, the
  observation invariant over runs, and three concrete scenarios.

The central invariant, `Registry.Valid`, says every stored player is loaded and
not released, and its listener is registered exactly once when there is at least one
subscriber and not at all otherwise. Every operation preserves it. `Traces.RunFreshIds`
shows that along any run with fewer loads than the distance to the counter's wrap point, the ids `load` returns
strictly increase and none was in use when it was handed out.

Behaviour worth knowing, as the code is written:

- `load` stores the requested volume in the player's field but never passes it to
  ExoPlayer. The backend keeps its own default (`volume == None` in the model)
  until the first `volume` call.
- `removeListener` on an unknown id while there are no subscribers detaches every
  player again. This is harmless, because detaching removes every registration.
- `dispose` does not detach the listener explicitly. ExoPlayer's `release` drops
  it together with the instance.
- `OcarinaPlayer.load` throws only on a null context, which a plugin-built player
  never has. So a plugin `load` fails only when `onAttachedToEngine` never ran: the
  `lateinit` context and assets are unset (`EngineDetached`).

Backend assumptions (ExoPlayer 2.x behaviour that the plugin relies on, not part of
this repository): the deprecated `prepare(mediaSource)` installs the source, resets
the position to 0 and starts buffering. `seekTo` outside Idle re-enters buffering at the new position, while in Idle only the position moves.
`stop` returns to Idle. `release` drops all listeners. `removeListener` removes every
registration of that listener.

## Model

| member | source | states |
|---|---|---|
| Ints.Inc | android/src/main/kotlin/xyz/erick/ocarina/OcarinaPlugin.kt:255 | `playerIds++` on a Kotlin `Int`: the successor modulo 2^32 in two's-complement range, so one higher below the maximum and the minimum after it |
| Player.Create | android/src/main/kotlin/xyz/erick/ocarina/OcarinaPlugin.kt:32-38 | the constructor records kind, url, volume, loop and whether a context was given, and leaves the player uninitialised |
| Player.MediaUri | android/src/main/kotlin/xyz/erick/ocarina/OcarinaPlugin.kt:137-158 | a file player plays its url unchanged; an asset player plays `file:///android_asset/` followed by exactly the asset lookup of (url, package) |
| Player.AssetUriInjective | android/src/main/kotlin/xyz/erick/ocarina/OcarinaPlugin.kt:145-148 | two asset players with the same package play the same URI iff the asset lookup maps their urls to the same path |
| Player.Load | android/src/main/kotlin/xyz/erick/ocarina/OcarinaPlugin.kt:80-92 | fails iff the context is null; otherwise the player is initialised with a fresh idle, non-playing, unobserved backend whose repeat mode is ALL iff `loop`, and a source for the subclass's URI; configuration and volume unchanged |
| Player.Guarded | android/src/main/kotlin/xyz/erick/ocarina/OcarinaPlugin.kt:41-48 | `checkInitialized`: fails with NotInitialized iff the player is not loaded; otherwise only the backend changes |
| Player.Play | android/src/main/kotlin/xyz/erick/ocarina/OcarinaPlugin.kt:55-63 | fails iff not loaded; afterwards playWhenReady holds and the backend is neither Idle nor Ended; from Ended the position is 0; from Idle the player's own source is prepared at position 0; from any other state only playWhenReady changes |
| Player.Stop | android/src/main/kotlin/xyz/erick/ocarina/OcarinaPlugin.kt:65-68 | fails iff not loaded; otherwise the backend goes Idle and nothing else changes |
| Player.Pause | android/src/main/kotlin/xyz/erick/ocarina/OcarinaPlugin.kt:70-73 | fails iff not loaded; otherwise playWhenReady is false and every other backend field is unchanged |
| Player.Resume | android/src/main/kotlin/xyz/erick/ocarina/OcarinaPlugin.kt:75-78 | fails iff not loaded; otherwise playWhenReady is true and every other backend field is unchanged (no prepare, no rewind) |
| Player.Seek | android/src/main/kotlin/xyz/erick/ocarina/OcarinaPlugin.kt:94-97 | fails iff not loaded; otherwise the position is exactly the requested milliseconds, the state becomes Buffering unless it was Idle, and every other backend field is unchanged |
| Player.Position | android/src/main/kotlin/xyz/erick/ocarina/OcarinaPlugin.kt:99-102 | fails iff not loaded; otherwise returns the backend position |
| Player.SetVolume | android/src/main/kotlin/xyz/erick/ocarina/OcarinaPlugin.kt:104-108 | fails iff not loaded; otherwise both the field and the backend hold exactly `v`, and nothing else changes |
| Player.Dispose | android/src/main/kotlin/xyz/erick/ocarina/OcarinaPlugin.kt:50-53 | fails iff not loaded; otherwise the backend is released with no listener left |
| Player.Attach | android/src/main/kotlin/xyz/erick/ocarina/OcarinaPlugin.kt:110-112 | adds exactly one listener registration; nothing else changes |
| Player.Detach | android/src/main/kotlin/xyz/erick/ocarina/OcarinaPlugin.kt:114-116 | leaves no listener registration; nothing else changes |
| Player.Progress | android/src/main/kotlin/xyz/erick/ocarina/OcarinaPlugin.kt:57-60 | the environment's backend progress (the states `play` branches on): a loaded player's backend reaches the given state and position with everything else kept; an unloaded player is unchanged |
| Player.SeekThenPosition | android/src/main/kotlin/xyz/erick/ocarina/OcarinaPlugin.kt:94-102 | `seek(ms)` followed by `position()` returns `ms` |
| Player.PauseResumeIdempotent | android/src/main/kotlin/xyz/erick/ocarina/OcarinaPlugin.kt:70-78 | pausing twice equals pausing once; resuming twice equals resuming once |
| Player.PauseThenResume | android/src/main/kotlin/xyz/erick/ocarina/OcarinaPlugin.kt:70-78 | a resume after a pause gives the same player as a resume alone |
| Player.PlayIdempotent | android/src/main/kotlin/xyz/erick/ocarina/OcarinaPlugin.kt:55-63 | a second `play` leaves the player as the first one did |
| Player.StopThenPlay | android/src/main/kotlin/xyz/erick/ocarina/OcarinaPlugin.kt:55-68 | after `stop`, `play` prepares the player's source again from position 0 and plays |
| Player.LoadThenPlay | android/src/main/kotlin/xyz/erick/ocarina/OcarinaPlugin.kt:55-92 | after `load`, `play` prepares the URI the subclass resolved, from 0, with repeat ALL iff `loop` |
| Player.PlayAfterEnd | android/src/main/kotlin/xyz/erick/ocarina/OcarinaPlugin.kt:55-63 | once the media has run to its end, `play` rewinds to 0, keeps the prepared media and sets playWhenReady |
| Player.UnloadedRejects | android/src/main/kotlin/xyz/erick/ocarina/OcarinaPlugin.kt:41-108 | before `load`, play, stop, pause, resume, seek, position, volume and dispose all fail with NotInitialized |
| Registry.EmptyValid | android/src/main/kotlin/xyz/erick/ocarina/OcarinaPlugin.kt:169-183 | the initial state (counter 0, both maps empty) satisfies the observation invariant and id freshness, the base case for every reachable registry |
| Registry.NewPlayer | android/src/main/kotlin/xyz/erick/ocarina/OcarinaPlugin.kt:246-250 | builds an asset player (with the package) iff `isAsset`, else a file player, carrying the request's url, volume and loop, not yet loaded |
| Registry.Load | android/src/main/kotlin/xyz/erick/ocarina/OcarinaPlugin.kt:238-262 | fails iff the engine is not attached, and then nothing changes; on success it returns the counter's old value, advances the counter by one with wrap-around, stores a loaded player under exactly that id with no other entry changed, leaves the listeners alone, and registers the new player's listener exactly once iff subscribers exist; the stored backend is fresh: Idle, not playing, at position 0, with no media and the default volume |
| Registry.Forward | android/src/main/kotlin/xyz/erick/ocarina/OcarinaPlugin.kt:264-270 | `players[id]!!`: a missing id fails with UnknownPlayer; a failing player operation changes nothing; otherwise only the entry under `id` is replaced |
| Registry.Play | android/src/main/kotlin/xyz/erick/ocarina/OcarinaPlugin.kt:264-270 | fails exactly on an unknown id or an unloaded player; only the entry under `id` changes, and it becomes exactly what `Player.Play` promises: the three-way rule, with config and source kept |
| Registry.Stop | android/src/main/kotlin/xyz/erick/ocarina/OcarinaPlugin.kt:272-278 | same failure rule; only the entry under `id` changes, and it becomes what `Player.Stop` promises: backend Idle, everything else kept |
| Registry.Pause | android/src/main/kotlin/xyz/erick/ocarina/OcarinaPlugin.kt:280-286 | same failure rule; only the entry under `id` changes, and it becomes what `Player.Pause` promises: playWhenReady false, everything else kept |
| Registry.Resume | android/src/main/kotlin/xyz/erick/ocarina/OcarinaPlugin.kt:288-294 | same failure rule; only the entry under `id` changes, and it becomes what `Player.Resume` promises: playWhenReady true, everything else kept |
| Registry.Seek | android/src/main/kotlin/xyz/erick/ocarina/OcarinaPlugin.kt:296-303 | same failure rule; only the entry under `id` changes, and it becomes what `Player.Seek` promises, with the position equal to the channel's `Int` widened without loss |
| Registry.Volume | android/src/main/kotlin/xyz/erick/ocarina/OcarinaPlugin.kt:313-320 | same failure rule; only the entry under `id` changes, and it becomes what `Player.SetVolume` promises: field and backend hold `v`, everything else kept |
| Registry.Position | android/src/main/kotlin/xyz/erick/ocarina/OcarinaPlugin.kt:305-311 | an unknown id fails with UnknownPlayer; a known unloaded player fails with NotInitialized; otherwise it returns the position |
| Registry.Dispose | android/src/main/kotlin/xyz/erick/ocarina/OcarinaPlugin.kt:322-329 | an absent id fails with UnknownPlayer; an unloaded player fails with NotInitialized and keeps its id; a loaded player always succeeds, and exactly its id is removed with counter and listeners unchanged |
| Registry.Progress | android/src/main/kotlin/xyz/erick/ocarina/OcarinaPlugin.kt:57-60 | backend progress of one stored player between calls: only that entry's backend state and position change |
| Registry.LoadPreserves | android/src/main/kotlin/xyz/erick/ocarina/OcarinaPlugin.kt:253-259 | `load` keeps every player observed iff subscribers exist, and keeps every id below the counter as long as the counter does not wrap |
| Registry.ForwardPreserves | android/src/main/kotlin/xyz/erick/ocarina/OcarinaPlugin.kt:264-320 | an operation that changes one entry, keeps it loaded and leaves its listener registrations alone keeps the invariant |
| Registry.ProgressPreserves | android/src/main/kotlin/xyz/erick/ocarina/OcarinaPlugin.kt:198-211 | backend progress keeps every player observed iff subscribers exist, and keeps id freshness |
| Registry.DisposePreserves | android/src/main/kotlin/xyz/erick/ocarina/OcarinaPlugin.kt:322-329 | dispose keeps the observation invariant and id freshness |
| Registry.SeekThenPosition | android/src/main/kotlin/xyz/erick/ocarina/OcarinaPlugin.kt:296-311 | through the plugin, `seek(id, p)` then `position(id)` returns `p` |
| ListenerHub.MapPlayers | android/src/main/kotlin/xyz/erick/ocarina/OcarinaPlugin.kt:198-211 | `players.values.forEach { addListener/removeListener }`: the same ids, each player's listener registered once more or removed, nothing else changed |
| ListenerHub.AddListener | android/src/main/kotlin/xyz/erick/ocarina/OcarinaPlugin.kt:198-203 | the entry is inserted or replaced; if subscribers already existed no player changes; if none did, every player gains one registration |
| ListenerHub.RemoveListener | android/src/main/kotlin/xyz/erick/ocarina/OcarinaPlugin.kt:205-211 | the entry is removed; if subscribers remain no player changes; if none remain, every player loses all registrations |
| ListenerHub.AddListenerPreserves | android/src/main/kotlin/xyz/erick/ocarina/OcarinaPlugin.kt:198-203 | subscribing keeps every player observed exactly once iff subscribers exist |
| ListenerHub.RemoveListenerPreserves | android/src/main/kotlin/xyz/erick/ocarina/OcarinaPlugin.kt:205-211 | unsubscribing keeps every player observed exactly once iff subscribers exist |
| ListenerHub.ResubscribeReplaces | android/src/main/kotlin/xyz/erick/ocarina/OcarinaPlugin.kt:198-203 | re-adding a known subscriber id replaces its callback, keeps the id set, and attaches no player again |
| ListenerHub.Notify | android/src/main/kotlin/xyz/erick/ocarina/OcarinaPlugin.kt:192-195 | every current callback is invoked exactly once, all with the same `(url, isPlaying)`, and nothing else is invoked |
| Engines.LoadAsWritten | android/src/main/kotlin/xyz/erick/ocarina/OcarinaPlugin.kt:169-183 | `load` on one of several plugin instances: the returned id is that instance's own counter, the shared map afterwards holds it, and only that instance's counter advances; a failed load changes nothing |
| Engines.TwoEnginesCollide | android/src/main/kotlin/xyz/erick/ocarina/OcarinaPlugin.kt:239-255 | two freshly attached instances each load once: both get id 0, and the shared map keeps only the second player |
| Engines.SharedCounterKeepsBoth | android/src/main/kotlin/xyz/erick/ocarina/OcarinaPlugin.kt:238-262 | with one counter beside the shared maps (as `Registry.Load` keeps it), two loads from any engines get distinct fresh ids and both players remain stored |
| Traces.Apply | android/src/main/kotlin/xyz/erick/ocarina/OcarinaPlugin.kt:214-236 | one dispatched call keeps every player loaded; only a successful `load` yields an id, which is the old counter, and only it moves the counter |
| Traces.Run | android/src/main/kotlin/xyz/erick/ocarina/OcarinaPlugin.kt:214-236 | running a sequence of dispatched calls keeps every stored player loaded and yields at most one id per call |
| Traces.ApplyPreserves | android/src/main/kotlin/xyz/erick/ocarina/OcarinaPlugin.kt:214-236 | every dispatched call keeps the observation invariant, and keeps id freshness below the wrap point |
| Traces.RunFreshIds | android/src/main/kotlin/xyz/erick/ocarina/OcarinaPlugin.kt:238-262 | across any sequence of calls whose number of loads stays below the wrap point (other calls unbounded), returned ids strictly increase, each lies between the start and end counter, none was in use at the start, and the invariant holds at the end |
| Traces.LoadWrapsAtMax | android/src/main/kotlin/xyz/erick/ocarina/OcarinaPlugin.kt:253-255 | a `load` at the top of the `Int` range returns the maximum and leaves the counter at the minimum |
| Traces.SubscribeLoadTwiceUnsubscribe | android/src/main/kotlin/xyz/erick/ocarina/OcarinaPlugin.kt:198-259 | subscribe with no players, load two, and each player is registered once; after unsubscribing, neither has a registration left |
| Traces.PlayToEndThenReplay | android/src/main/kotlin/xyz/erick/ocarina/OcarinaPlugin.kt:55-63 | load, play, let the backend reach Ended, play again: the call succeeds, the position is 0 and playWhenReady holds |
| Traces.LoadPlayDisposePosition | android/src/main/kotlin/xyz/erick/ocarina/OcarinaPlugin.kt:238-329 | load returns id 0 and play succeeds; after dispose, position, play and dispose on id 0 fail with UnknownPlayer |

## Left out

- Method-channel dispatch, `onAttachedToEngine`, `onDetachedFromEngine` and `registerWith` are transport glue. Operations are modelled as functions taking the decoded arguments.
- The `!!` failures on missing channel arguments (`url`, `volume`, `loop`, `isAsset`, `playerId`, `position`) are not modelled. The arguments always arrive decoded.
- ExoPlayer internals are not modelled: decoding, `ProgressiveMediaSource`, `DefaultDataSourceFactory` and user agents. `Backend` is an abstract record, and the asset lookup is a function parameter.
- The `FlutterAssets is not initialized` check in `AssetOcarinaPlayer` is not modelled. The only constructor the plugin calls always sets the assets.
- Player.Guarded: the two messages of `checkInitialized` (player vs. media source unset) become one NotInitialized. A player with only the ExoPlayer set is never stored or reachable.
- ListenerHub.AddListener and ListenerHub.RemoveListener require every stored player to be loaded and not released. An unloaded player would make the `lateinit` access throw midway through the `forEach`. Every reachable registry satisfies this (`Registry.Valid`, preserved by every operation).
- Player.SetVolume: the value stored on the backend is the given real, without the single-precision rounding of `volume.toFloat()`.
- The `isPlaying` edge detection (`OcarinaListener.onIsPlayingChanged`) belongs to ExoPlayer. The model represents an attached listener by its registration count, and `Notify` models only the fan-out.
- Backend timing is not modelled. ExoPlayer's own progress between calls (buffering finishing, the playhead moving, reaching the end) is one environment step, `Traces.BackendMoves`. It may set any playback state and position on a stored player. Playback errors and the timing of these steps are not modelled.
- Thread safety of the companion maps is not modelled. The code has no locking, so calls are sequential.
- Traces.RunFreshIds holds only while the number of loads in the run keeps the counter at or below MaxInt32. Once the counter reaches MaxInt32 the next load wraps it (`Traces.LoadWrapsAtMax`), and ids can eventually be reused.
- The iOS plugin only echoes the OS version and has no player logic.

## Findings

| source | as written | input that shows it | evidently intended | confidence | as-written member | corrected member |
|---|---|---|---|---|---|---|
| android/src/main/kotlin/xyz/erick/ocarina/OcarinaPlugin.kt:169-183 | `playerIds` is a field of each plugin instance, while `players` is a companion map shared by all instances | two Flutter engines attach the plugin, and each calls `load` once: both get id 0, and the second player silently replaces the first, which is never released | player ids unique within the process, one counter beside the shared map | medium, not executed | Engines.TwoEnginesCollide | Engines.SharedCounterKeepsBoth |

The rest of the model (`Registry`, `Traces`) keeps the counter beside the maps,
as `Engines.SharedCounterKeepsBoth` assumes. For a single plugin instance this is exactly the code as written.
