# Session controller of the player, in Dafny

This project models the session controller of an embeddable media player: the `Model` object
of `src/js/controller/model.js`. The controller owns the live playback state: state, position,
duration, buffer, volume, mute, fullscreen, dragging, the playlist and the selected item. It
picks and rebinds the active provider (the media backend) when the selected playlist item
changes. It turns provider events into the player's own event stream, and it couples volume
and mute.

Layout (one module per concept of the source):

- `wrappers.dfy` (`Wrappers`): `Option` (JavaScript's `undefined`) and `Outcome` (an error raised).
- `states.dfy` (`States`): the playback states. `Collapse` maps the provider-only states LOADING and STALLED to BUFFERING.
- `playlist.dfy` (`Playlist`): playlist entries and their sources.
- `events.dfy` (`Events`): the events received and published. `Translate` is the rewrite applied before re-publishing.
- `config.dfy` (`Config`): the default option table, the merge of defaults, saved settings and caller options, and the loop that normalises every value.
- `controller.dfy` (`Controller`): the `Model` class, the `Provider` class and the specification functions the methods are proved against.
- `scenarios.dfy` (`Scenarios`): client methods. They chain controller calls and prove what the chain promises, using the method contracts only.

How the model is built:

- Every side effect goes into one ghost trace, `Model.trace`, in the order it happens. An effect is an event published (`Publish`), a cookie saved (`Save`) or a call on a provider (`Invoke`). `Published(trace)` is the event stream alone.
- A provider is an object with a constant type tag and a container slot. The runtime type test of the source is a comparison of tags. `ContainerOf` reads the slot of a possibly absent provider; it stands for `_provider.getContainer()` (model.js:101).
- `provider` is the bound provider (`_provider`). `current` is the provider `setItem` last constructed (`_currentProvider`). It starts as `null`, which stands for the `utils.noop` placeholder: no provider type matches it.
- `item` is an `Option<int>`. The source copies whatever the configuration holds under `item`, or leaves it `undefined`. A value that is not a number differs from every index at the `newItem !== this.item` test, just as `undefined` does, so the model keeps a numeric `item` and writes `None` for both other cases. In the `None` case the first `setItem` always selects.
- `setVolume` and `setMute` call each other, as in the source. Termination is proved by a `decreases` rank: a call that mutes ranks 2, `setVolume` ranks 1, an unmute ranks 0.
- Three behaviours of the code a reader may not expect; the model follows the code:
  - Muting at volume 0 ends unmuted, at volume 20. The `setVolume(20)` that muting runs unmutes again, yet the provider's last call is `mute(true)` (`Scenarios.MuteAtZeroVolume`).
  - `destroy` is not idempotent. Each call detaches and destroys the bound provider again, and the provider slot is never cleared.
  - `setPlaylist` with an empty filtered result replaces the playlist but leaves `item` as it was, which need not be `-1`.

## Model

| member | source | states |
|---|---|---|
| States.Collapse | src/js/controller/model.js:77-84 | the state stored and re-published is always public; a public state is kept, LOADING and STALLED become BUFFERING |
| Events.Translate | src/js/controller/model.js:69-95 | the re-published event has the type the provider gave it; a state change carries a public state (BUFFERING for LOADING/STALLED); every other event passes unchanged |
| Config.Defaults | src/js/controller/model.js:13-31 | the built-in table alone gives volume a number and mute, fullscreen and dragging booleans, and holds no `item` |
| Config.Merge | src/js/controller/model.js:56 | every default key is present; caller options override saved settings, which override defaults |
| Config.Serialized | src/js/controller/model.js:47-51 | same keys as the input, each value passed through the normalisation step |
| Config.ParseConfig | src/js/controller/model.js:47-52 | the loop over the configuration rewrites every entry through the normalisation step and keeps the keys |
| Controller.InitialItem | src/js/controller/model.js:58-63 | the selected index is the configuration's `item` when that is a number, and absent (`undefined`, or a value no index equals) otherwise |
| Controller.NormalizeIndex | src/js/controller/model.js:162-171 | repeat exactly when the index is the length or below -1, then item 0; -1 or past the length gives the last entry; an index inside the playlist is kept; for a non-empty playlist the item is always a valid position |
| Controller.FirstSource | src/js/controller/model.js:180-185 | a source exists exactly when the entry exists and has sources, and it is the entry's first |
| Controller.InitCall | src/js/controller/model.js:198-201 | the effect is the single call `init(entry)` on that provider exactly when its type has the hook, and nothing otherwise; it publishes nothing |
| Controller.BindCalls | src/js/controller/model.js:97-112 | binding a provider publishes no event |
| Controller.BindCallsOrder | src/js/controller/model.js:97-112 | the old listener is detached first; when the old provider has a container, `remove()` and the hand-over to the new provider come next; volume, mute and attaching the listener are always the last three calls, in that order |
| Controller.SetVolumeEffects | src/js/controller/model.js:205-217 | setting the volume publishes no event |
| Controller.SetVolumeEffectsOrder | src/js/controller/model.js:205-217 | a positive volume while muted saves mute=false first; the volume is saved exactly when not muted after that step; the provider is told the new volume last |
| Controller.SetMuteEffects | src/js/controller/model.js:219-234 | setting mute publishes no event |
| Controller.SetMuteEffectsOrder | src/js/controller/model.js:219-234 | every call saves the mute value first and tells a bound provider that value last; volume 20 is saved exactly when muting at volume 0 |
| Controller.MuteAtZeroEffects | src/js/controller/model.js:205-234 | muting at volume 0 yields exactly: save mute=true, save mute=false, provider mute(false), save volume=20, provider volume(20), provider mute(true) |
| Controller.Provider.constructor | src/js/controller/model.js:193 | a new provider has the chosen type and no container yet |
| Controller.Model.constructor | src/js/controller/model.js:33-65 | the configuration is the normalised merge; volume, mute, fullscreen and dragging come from it; state IDLE, duration -1, position 0, buffer 0, empty playlist, no provider, nothing published |
| Controller.Model.VideoEventHandler | src/js/controller/model.js:69-95 | mute, volume, state, buffer and position/duration events update only their own fields (state collapsed); the event is published exactly once, translated; the state stays public |
| Controller.Model.SetVideoProvider | src/js/controller/model.js:97-112 | the new provider is bound; it receives the old provider's container if there was one; the calls made are exactly those of `BindCalls` |
| Controller.Model.Destroy | src/js/controller/model.js:114-119 | with a bound provider, its listener is removed and then it is destroyed; otherwise nothing happens |
| Controller.Model.SeekDrag | src/js/controller/model.js:125-132 | the dragging flag takes the value; the provider is paused when a drag starts and played when it ends |
| Controller.Model.SetFullscreen | src/js/controller/model.js:134-142 | the flag takes the value; a fullscreen event is published only when it changed |
| Controller.Model.SetPlaylist | src/js/controller/model.js:145-159 | the playlist is the filtered one; an empty one publishes exactly one error event and nothing else, with item and providers unchanged; otherwise playlist-loaded then item 0 are published, item becomes 0, and provider selection follows |
| Controller.Model.SetItem | src/js/controller/model.js:161-203 | selects the normalised index only on a repeat or a different index, publishing exactly that item event; then nothing without a first source, an error when no provider type fits, otherwise a provider of the chosen type serves the entry; a repeated same index changes nothing |
| Controller.Model.UseProvider | src/js/controller/model.js:191-201 | a new provider is constructed and bound only when the last constructed one has another type; then its item hook runs; no event is published |
| Controller.Model.SetVolume | src/js/controller/model.js:205-217 | volume becomes the value; a positive value unmutes; the effects are those of `SetVolumeEffects` |
| Controller.Model.SetMute | src/js/controller/model.js:219-234 | the mute value is the argument, or the toggled flag without one; the flag ends as that value unless muting at volume 0, which ends unmuted at volume 20; the effects are those of `SetMuteEffects` |
| Scenarios.SelectSameItemTwice | src/js/controller/model.js:161-177 | two selections of the same valid index leave it selected and publish its item event at most once; the second call succeeds |
| Scenarios.RepeatFromFirst | src/js/controller/model.js:164-177 | asking for the index past the end while on the first entry publishes item 0 again |
| Scenarios.MuteAtZeroVolume | src/js/controller/model.js:205-234 | muting at volume 0 ends at volume 20 and unmuted, with `mute(true)` the provider's last call |
| Scenarios.MuteThenToggle | src/js/controller/model.js:219-234 | at an audible volume, mute then toggle ends unmuted at the same volume |
| Scenarios.HandOver | src/js/controller/model.js:97-112 | replacing a bound provider that owns a container hands the container over, with the exact call order |

## Left out

- Event dispatch: subscribing, unsubscribing and delivering events are not modelled. A published event is an entry in the trace. `VideoEventHandler` stands for the listener that providers call.
- Provider internals: what `remove`, `destroy`, `play`, `pause`, `volume`, `mute` and `init` do inside a provider is not modelled; only the calls are recorded. `setContainer` stores the container and `getContainer` returns it. The view may also attach containers, outside this model.
- The provider registry (`new Providers(config.primary)`) is the constant `choose` given to the constructor. The provider constructor's player id argument is not modelled.
- `Playlist.filterPlaylist` is the `filter` parameter of `SetPlaylist`. The registry and the `androidhls` flag it also receives are taken to be captured inside it.
- Reading saved settings (`utils.getCookies`) is the constructor's `saved` parameter. `utils.serialize` is its `serialize` parameter. Saving a setting is a `Save` effect.
- The payload of the playlist-loaded event comes from the global player registry (`jwplayer(id).getPlaylist()`). It is the `loaded` parameter of `SetPlaylist`.
- `Math.round` and floating point: a volume is an `int`. The rounding at model.js:209 is not modelled; as in the source, nothing is clamped. Position and duration are `real` values that are only copied.
- JavaScript truthiness: `setFullscreen`, `seekDrag` and `setMute` take booleans, so the `!!state` coercion has nothing to do.
- Controller.Model.constructor: requires the normalised configuration to hold a number under `volume` and booleans under `mute`, `fullscreen` and `dragging`. The source copies any value.
- Configuration options other than `volume`, `mute`, `fullscreen`, `dragging` and `item` stay in `config` and are not copied into their own fields.
- Controller.Model.SeekDrag: requires a bound provider. Without one the source dereferences `undefined`.
- `componentConfig` (a lookup into two empty objects) and `getVideo` (returns the bound provider, a public field here) are not modelled.
- Exceptions thrown by collaborators are not modelled. The only failure modelled is the fault raised when no provider type fits. It is an `Outcome` that `SetItem` returns and `SetPlaylist` passes on, after the changes the source makes before the throw.
- Events carry only the fields the controller reads.
