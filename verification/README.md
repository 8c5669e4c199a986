# Murmur ambient-sound mixer: a Dafny model

Murmur is a React application that mixes eight looping ambient sounds (rain,
thunder, fire, forest, waves, cafe, wind, night). Each sound plays from a media
file. When the file cannot load or cannot play, the sound is synthesised
instead by a Web Audio "fallback": a graph of noise sources, filters, gains and
low-frequency oscillators. Five presets switch on a fixed set of sounds at fixed
volumes. The page shows a backdrop for the dominant sound, highlights the
preset that matches what plays, and draws a master-volume icon and a pause-all
button.

The model covers the playback core and the selectors the page draws from:

| file | module | what it models |
|---|---|---|
| `wrappers.dfy` | `Wrappers` | `Option` |
| `records.dfy` | `Records` | plain JavaScript objects with insertion-ordered keys, spread updates, `Object.keys(..).filter` |
| `catalog.dfy` | `Catalog` | `sounds`, `defaultVolumes` and `presets`, with the facts the rest relies on |
| `noise.dfy` | `Noise` | `createNoiseBuffer`: white, brown and pink generators over reals, with the random draws as input |
| `graph.dfy` | `Graphs` | fallback signal graphs as units and links, built by `Add` / `Also` under a well-formedness invariant |
| `recipes.dfy` | `Recipes` | the eight `create*` recipes and the `soundCreators` table |
| `fallback.dfy` | `Fallback` | `createFallbackSound`, the handle's `play` / `pause` / `setVolume` / `stop`, `cleanupAllFallbackSounds` and the `soundInstances` registry |
| `manager.dfy` | `Manager` | `useAudioManager` as a state machine whose transitions return the next state and the audio effects they issue |
| `scene.dfy` | `Scene` | `getDominantScene`, `getBaseGradient` and the backdrop |
| `preset_match.dfy` | `PresetMatch` | `getActivePreset` |
| `controls.dfy` | `Controls` | `getVolumeIcon` and the pause-all button |
| `session.dfy` | `Session` | the wiring in `App.jsx`: user actions followed through the manager into the views |

Modelling choices:

- A JavaScript object is a `Record`: a sequence of distinct keys in insertion order plus a map of their values. Key order matters here. For keys that do not look like array indices, which covers every key the application writes, JavaScript enumerates in insertion order too. `Object.entries(playing)` order breaks ties between equally loud scenes. A spread update `{ ...prev, [id]: v }` keeps an existing key in its place and appends a new one.
- Volumes are integers, as the sliders produce them (0 to 100). The model does not restrict them to that range: see `Manager.SetVolume` under "## Left out". Gains, effective volumes and samples are reals.
- A manager transition returns a `Step`: the next state and the ordered effects it issues. An effect is a setting or a `play()` / `pause()` call on a media element, or a gain ramp scheduled on a fallback instance.
- The media elements are not modelled. One exists for every sound id. Their `canplaythrough` and `error` events and rejected `play()` promises are transitions of their own: `ElementLoaded`, `ElementFailed` and `PlayRejected`. A rejection carries which call made the `play()`: only those from `toggleSound` and the preset timer switch the sound to its fallback, while `pauseAll`'s resume only logs.
- A fallback is started with `setVolume` and then `play`. Both schedule ramps at once, and `play`'s 0.8 s ramp ends after the 0.1 s one, so a started fallback settles at its full base volume rather than at the slider-scaled level an element gets (`Manager.FallbackStartSettlesAtBase`). The volume effect that runs right after the start also ends its ramp within 0.1 s, so it does not change this; only a ramp scheduled once `play`'s has nearly run, such as one from a later slider move, brings the level back in line.
- A fallback instance lives in an audio context. Contexts are numbered in creation order. The registry records which contexts are open and which are closed.
- A ramp is recorded as its target value and its length in seconds.
- `applyPreset` is two transitions. The immediate half stops everything. The deferred half runs when the 100 ms timer fires, with the `masterVolume` and `useFallback` values its callback closed over.
- A recipe's graph lists its units sink-first: the master gain, then each layer from its gain back to its source, then the modulators. Every link goes to a lower-numbered unit. So every graph the builder accepts is acyclic, and everything routes to the master gain.

## Model

| member | source | states |
|---|---|---|
| Records.Put | src/hooks/useAudioManager.js:159-161 | a spread update sets one key and keeps every other value; old keys keep their positions and a new key is appended |
| Records.PutAll | src/hooks/useAudioManager.js:222-224 | putting entries one by one: each listed key ends at its new value, every other key keeps its old one, and the old key order is a prefix |
| Records.Spread | src/hooks/useAudioManager.js:23 | `{ ...a, ...b }`: b's keys take b's values, the rest keep a's, and a's key order is a prefix |
| Records.OnKeys | src/components/Presets.jsx:9 | the filtered key list holds exactly the keys whose value is true, without repeats |
| Catalog.SoundTable | src/data/sounds.js:1-10 | eight sounds whose ids, in list order, are `SoundIds`, pairwise distinct |
| Catalog.DefaultVolumesTable | src/data/sounds.js:12-21 | the default-volume keys are exactly the sound ids in list order, each volume within 0..100 |
| Catalog.PresetGood | src/data/presets.js:1-27 | every preset is a non-empty, well-formed record of known sounds at volumes within 0..100 |
| Catalog.PresetTable | src/data/presets.js:1-27 | five presets with pairwise-distinct ids, each well formed as above |
| Catalog.PresetSoundSetsDistinct | src/data/presets.js:5-25 | no two presets use the same set of sounds |
| Noise.FillWhite | src/hooks/useWebAudioFallback.js:37-41 | the white loop emits the reference generator's channel: `2r - 1` per draw |
| Noise.FillBrown | src/hooks/useWebAudioFallback.js:16-23 | the brown loop emits the reference leaky integrator's channel, with `lastOut` reset to 0 |
| Noise.FillPink | src/hooks/useWebAudioFallback.js:24-36 | the pink loop emits the reference Kellet filter's channel, with the seven terms reset to 0 and `b6` lagging one draw |
| Noise.FillChannel | src/hooks/useWebAudioFallback.js:16-41 | each branch of the per-type dispatch produces that kind's reference channel |
| Noise.CreateNoiseBuffer | src/hooks/useWebAudioFallback.js:9-45 | two channels of `4 * sampleRate` samples, the first from the first block of draws and the second from the next; with draws in [0, 1), white samples lie in [-1, 1) and brown ones in [-3.5, 3.5] |
| Noise.ChannelBounds | src/hooks/useWebAudioFallback.js:13-41 | a channel generated from any block of draws in [0, 1) keeps its kind's range |
| Noise.WhiteSamples | src/hooks/useWebAudioFallback.js:38-39 | white sample i is `2 * r_i - 1`, so draws in [0, 1) give samples in [-1, 1) |
| Noise.BrownSamples | src/hooks/useWebAudioFallback.js:17-22 | with draws in [0, 1], so white inputs in [-1, 1], the brown state `lastOut` stays in [-1, 1], and each sample is exactly 3.5 times that state, so it lies in [-3.5, 3.5] |
| Graphs.Start | src/hooks/useWebAudioFallback.js:49-50 | a graph holding only the silent master gain is well formed |
| Graphs.Add | src/hooks/useWebAudioFallback.js:65-96 | connecting a new unit to an existing one that accepts the link keeps the graph well formed and appends exactly that unit |
| Graphs.Also | src/hooks/useWebAudioFallback.js:444-446 | a second connection from an existing unit (fan-out) keeps the graph well formed, appends the link to that unit's links and leaves every other unit as it was |
| Graphs.RouteToMaster | src/hooks/useWebAudioFallback.js:65-98 | every unit has a walk along links to the master gain; for a noise source or filter it uses audio links only |
| Graphs.PathsDescend | src/hooks/useWebAudioFallback.js:65-98 | every walk of two or more units ends lower than it starts, so no unit is on a cycle |
| Graphs.OnlyMasterFeedsDestination | src/hooks/useWebAudioFallback.js:98 | the master gain is the only unit connected to the destination, and it connects nowhere else |
| Recipes.RecipeFor | src/hooks/useWebAudioFallback.js:621-630 | a recipe exists exactly for the eight table keys, with a base volume in (0, 1] |
| Recipes.RecipeGraphs | src/hooks/useWebAudioFallback.js:48-619 | every recipe's graph is well formed and its master gain starts at 0 |
| Recipes.RecipesCoverSounds | src/hooks/useWebAudioFallback.js:621-630 | the recipe ids are the sound ids in the same order, so every listed sound has a fallback |
| Recipes.Rain | src/hooks/useWebAudioFallback.js:48-105 | the rain graph is well formed |
| Recipes.Thunder | src/hooks/useWebAudioFallback.js:108-153 | the thunder graph is well formed |
| Recipes.Fire | src/hooks/useWebAudioFallback.js:156-219 | the fire graph is well formed |
| Recipes.Forest | src/hooks/useWebAudioFallback.js:222-295 | the forest graph, including its two bird oscillators sharing one frequency LFO, is well formed |
| Recipes.Waves | src/hooks/useWebAudioFallback.js:298-367 | the waves graph, whose swell LFO drives two gains, is well formed |
| Recipes.Cafe | src/hooks/useWebAudioFallback.js:370-471 | the cafe graph, whose voice source feeds three formant filters, is well formed |
| Recipes.Wind | src/hooks/useWebAudioFallback.js:474-546 | the wind graph, with LFOs on two filter frequencies, is well formed |
| Recipes.Cricket | src/hooks/useWebAudioFallback.js:554-578 | one cricket adds four units on top of any well-formed graph and keeps it well formed |
| Recipes.Night | src/hooks/useWebAudioFallback.js:549-619 | the night graph of three crickets and the ambient layer is well formed |
| Fallback.Install | src/hooks/useWebAudioFallback.js:636-639 | registering opens a fresh context, maps the id to the new instance, leaves every other entry alone, and keeps the registry consistent |
| Fallback.CreateFallbackSound | src/hooks/useWebAudioFallback.js:632-640 | `null` with the registry unchanged exactly when the id has no recipe; otherwise the recipe installed under the id, with a base volume in (0, 1] |
| Fallback.CreatedGraphOk | src/hooks/useWebAudioFallback.js:636-639 | a created instance's graph is well formed and starts silent |
| Fallback.RampTargets | src/hooks/useWebAudioFallback.js:642-656 | pause targets 0 over 0.5 s and play the base volume over 0.8 s; setVolume over 0.1 s lies between them, reaches them at 0 and 100, and grows with the volume |
| Fallback.Stop | src/hooks/useWebAudioFallback.js:657-660 | stop closes the handle's context, removes its id, and leaves other ids' entries alone |
| Fallback.StopIdempotent | src/hooks/useWebAudioFallback.js:657-660 | stopping twice is the same as stopping once |
| Fallback.CleanupAll | src/hooks/useWebAudioFallback.js:664-674 | cleanup closes every registered context, closes nothing else, and keeps every entry |
| Fallback.CleanupClosesEverything | src/hooks/useWebAudioFallback.js:664-674 | when every open context is registered, cleanup leaves none open |
| Fallback.InstallKeepsTracked | src/hooks/useWebAudioFallback.js:639 | installing under an id whose entry is closed or absent keeps every open context registered |
| Fallback.OverwriteLeaks | src/hooks/useWebAudioFallback.js:639 | installing over an id whose instance is still open leaves that context open and unregistered, so cleanup cannot close it |
| Fallback.StopKeepsTracked | src/hooks/useWebAudioFallback.js:657-660 | stopping an id's current handle keeps every open context registered |
| Fallback.StaleStopLeaks | src/hooks/useWebAudioFallback.js:657-660 | stopping an old handle deletes the newer instance's entry without closing its context, which then escapes cleanup |
| Manager.InitialVolumes | src/hooks/useAudioManager.js:21-24 | the initial volumes are well formed, cover every sound, and start with the sound ids in list order |
| Manager.InitialVolumesMerge | src/hooks/useAudioManager.js:21-24 | without saved volumes they are the defaults; with them each saved key overrides its default and every other default survives |
| Manager.InitialMasterVolume | src/hooks/useAudioManager.js:27-30 | the saved master volume when defined, otherwise 80 |
| Manager.Mount | src/hooks/useAudioManager.js:36-41 | the mounted state satisfies the invariant, plays nothing, is not paused, and has a volume for every sound |
| Manager.EffectiveVolumeRange | src/hooks/useAudioManager.js:97 | slider volumes give an effective volume in [0, 1] that grows with either slider; 0 on either gives 0, both at 100 give 1 |
| Manager.FallbackComposes | src/hooks/useAudioManager.js:101 | the fallback's ramp target for `volume * (masterVolume / 100)` is its base volume times the element's effective volume |
| Manager.StartsMeans | src/hooks/useAudioManager.js:124-152 | a start sets and plays the element at the effective volume, or ramps the fallback to its base volume times the effective volume in 0.1 s and then to its full base volume in 0.8 s |
| Manager.FallbackStartSettlesAtBase | src/hooks/useWebAudioFallback.js:643-652 | of a fallback start's two ramps `play`'s ends last and targets the full base volume, which equals the slider-scaled level only when the base volume is 0 or the effective volume is 1 |
| Manager.PauseOneStops | src/hooks/useAudioManager.js:115-120 | pausing one sound issues a single pause for that sound: a ramp to silence on its fallback exactly when `useFallback[id]` is set and a fallback is kept, otherwise `pause()` on its element |
| Manager.CreateInto | src/hooks/useAudioManager.js:63 | storing `createFallbackSound(id)` keeps a fresh handle for a sound id, drops the entry for any other id, and leaves other handles alone |
| Manager.KeepFallback | src/hooks/useAudioManager.js:128-130 | a fallback is created only when none is kept; kept handles never change |
| Manager.EnsureFallback | src/hooks/useAudioManager.js:128-130 | the same on a state: only the handles and the registry change |
| Manager.StartSound | src/hooks/useAudioManager.js:124-152 | starting a sound issues a start for that sound only, through its fallback exactly when `viaFallback` is set and through its element otherwise, and changes only the handles and the registry |
| Manager.ToggleSound | src/hooks/useAudioManager.js:112-157 | toggling flips the id's `playing` entry and no other; a playing sound is paused, through its fallback exactly when `useFallback[id]` is set and a fallback is kept, and keeps `isPaused`; any other is started, through its fallback exactly when `useFallback[id]` is set, and lifts the pause; volumes and flags are unchanged |
| Manager.ToggleTwice | src/hooks/useAudioManager.js:112-157 | toggling twice restores whether the sound plays and every other entry |
| Manager.SetVolume | src/hooks/useAudioManager.js:159-161 | only `volumes[id]` changes |
| Manager.SetMasterVolume | src/hooks/useAudioManager.js:38 | only the master volume changes |
| Manager.PauseAllOne | src/hooks/useAudioManager.js:165-189 | one sound gets effects exactly when it plays: a pause when not paused, a start at its current volume when paused, through its fallback exactly when `useFallback[id]` is set and a fallback is kept, otherwise through its element |
| Manager.PauseAllEffects | src/hooks/useAudioManager.js:164-190 | over a list of ids, effects reach every playing id and only playing ids, all pauses or all starts |
| Manager.PauseAll | src/hooks/useAudioManager.js:163-192 | pause-all flips `isPaused`, changes nothing else, and pauses or resumes exactly the playing sounds |
| Manager.PauseAllTwice | src/hooks/useAudioManager.js:163-192 | pausing all twice restores the state |
| Manager.StopEffects | src/hooks/useAudioManager.js:195-202 | every listed sound is paused, and only pauses are issued |
| Manager.StopAll | src/hooks/useAudioManager.js:194-205 | stop-all pauses every sound, empties `playing`, lifts the pause, and changes nothing else |
| Manager.StopAllIdempotent | src/hooks/useAudioManager.js:194-205 | a second stop-all leaves the state as the first left it |
| Manager.ApplyPreset | src/hooks/useAudioManager.js:207-222 | the immediate half is stop-all, and it snapshots the master volume and fallback flags for the timer |
| Manager.ApplyEntry | src/hooks/useAudioManager.js:223-254 | one preset entry sets its volume, starts it through its fallback exactly when the snapshot's `useFallback[id]` is set and through its element otherwise, and marks it playing; nothing else changes |
| Manager.ApplyEntries | src/hooks/useAudioManager.js:222-256 | for a list of entries, exactly those volumes are set and those sounds added to `playing`; the pause, master volume and flags are unchanged |
| Manager.PresetTimerFired | src/hooks/useAudioManager.js:222-256 | when the timer fires, every preset sound is set to its preset volume and marked playing; every other volume and entry, the pause flag, the master volume, the fallback flags and the audio errors are kept; every effect is for a preset sound |
| Manager.ApplyPresetPlaysExactly | src/hooks/useAudioManager.js:207-257 | after both halves exactly the preset's sounds play, at its volumes, unpaused; every other volume is kept |
| Manager.ElementLoaded | src/hooks/useAudioManager.js:55-57 | a loaded element clears its sound's fallback flag and changes nothing else |
| Manager.ElementFailed | src/hooks/useAudioManager.js:59-64 | a failed element sets its error and fallback flags and keeps a new fallback in a fresh context; the master volume, every other sound's flags and kept handles, and the rest of the state are unchanged |
| Manager.PlayRejected | src/hooks/useAudioManager.js:139-177 | a rejected play from `toggleSound` or the preset timer switches the sound to its fallback, creating one only if none is kept, then sets its level and plays it, keeping every other handle, flag and the master volume; one from `pauseAll`'s resume changes nothing |
| Manager.AppliesMeans | src/hooks/useAudioManager.js:99-107 | a volume push reaches the element at the effective volume or the fallback at its base volume times it |
| Manager.SyncOne | src/hooks/useAudioManager.js:96-108 | one volume is pushed exactly when its sound plays and nothing is paused, through the backend it uses |
| Manager.SyncEffects | src/hooks/useAudioManager.js:96-109 | over a key list, pushes reach every playing sound when not paused, and only playing sounds |
| Manager.SyncVolumes | src/hooks/useAudioManager.js:95-110 | the volume effect pushes nothing while paused, otherwise pushes each playing sound's level through its backend and touches no other sound |
| Manager.AnyOn | src/hooks/useAudioManager.js:259 | `some(Boolean)` over a key list holds exactly when one of those keys is true |
| Manager.HasActiveSounds | src/hooks/useAudioManager.js:259 | true exactly when some sound is marked playing |
| Scene.Weight | src/components/VisualScene.jsx:42 | a missing volume and a volume of 0 weigh 50; any other volume weighs itself |
| Scene.Scan | src/components/VisualScene.jsx:46-48 | the reduction finds nothing exactly when no listed key plays, and otherwise keeps the first of the heaviest playing keys |
| Scene.DominantScene | src/components/VisualScene.jsx:39-49 | none exactly when nothing plays; otherwise a playing id at least as heavy as every playing id and strictly heavier than every earlier one |
| Scene.DominantIsFirstHeaviest | src/components/VisualScene.jsx:46-48 | the first heaviest playing key is the dominant scene, and it is the only such key |
| Scene.GradientTable | src/components/VisualScene.jsx:92-104 | the gradient table covers exactly the sound ids, and the neutral gradient is returned exactly for other ids |
| Scene.GradientsDistinct | src/components/VisualScene.jsx:93-102 | no two sounds share a gradient |
| Scene.BackgroundNeutral | src/components/VisualScene.jsx:56-62 | the backdrop is neutral exactly when nothing plays or the dominant id is unknown; with only sounds playing, exactly when nothing plays |
| PresetMatch.MatchesMeans | src/components/Presets.jsx:8-14 | the equal-count-and-all-playing test holds exactly when the preset's sound set is the playing set |
| PresetMatch.FirstMatch | src/components/Presets.jsx:7-17 | the loop returns the first preset that passes the test, or none when none does |
| PresetMatch.ActivePreset | src/components/Presets.jsx:6-18 | a returned id is one whose preset has exactly the playing sounds; none exactly when no preset does |
| PresetMatch.ActiveIsThatPreset | src/components/Presets.jsx:6-18 | when the playing sounds are exactly a preset's, that preset is the active one |
| PresetMatch.NothingPlayingNoPreset | src/components/Presets.jsx:9-12 | with nothing playing no preset is active |
| Controls.IconBands | src/components/MasterControls.jsx:10-15 | muted exactly at 0; low for any other volume below 30; medium from 30 to 69; high from 70 |
| Controls.IconMonotone | src/components/MasterControls.jsx:10-15 | on the slider's range a louder volume never shows a quieter icon |
| Controls.GlyphsDistinct | src/components/MasterControls.jsx:11-14 | the four icons render as four different glyphs |
| Controls.PauseButtonStates | src/components/MasterControls.jsx:32-40 | the button is disabled exactly when nothing plays; its label, glyph and caption offer to resume exactly when paused |
| Session.PressPauseAll | src/components/MasterControls.jsx:34-35 | a click does nothing while the button is disabled; otherwise it flips the pause and keeps whether anything plays |
| Session.PressPauseAllTwice | src/App.jsx:40-46 | two clicks restore the state |
| Session.AppliedPresetPlays | src/App.jsx:38 | after a preset is applied and its timer fires, the playing set is the preset's, each at the preset's weight |
| Session.AppliedPresetIsActive | src/App.jsx:38 | applying one of the presets makes its button the active one |
| Session.AppliedPresetLeadsScene | src/App.jsx:25 | after a non-empty preset is applied, the backdrop follows one of its sounds, and none of its sounds outweighs that one |
| Session.StoppedViewIsAtRest | src/App.jsx:25-46 | after `stopAll` (exposed by the hook, called by no control) the backdrop is neutral, no preset is active, and the pause button is disabled and reads "Pause" |

## Left out

- React scheduling and batching: every setter call takes effect in the transition that issues it. Rendering beyond the backdrop, active preset, volume icon and pause button is not modelled, and neither are `Header`, `SoundCard` and `SoundsGrid`.
- `localStorage` and JSON: the saved state is an `Option<Saved>` input. The save effect (src/hooks/useAudioManager.js:81-92) writes storage only and changes no state.
- The `HTMLAudioElement` lifecycle: loading, `canplaythrough`, `error` and a rejected `play()` are events given to the model.
- The unmount cleanup (src/hooks/useAudioManager.js:71-77) is not a transition. Its fallback half is `Fallback.CleanupAll`. `Manager.Mount` starts from an empty fallback registry, so only the first mount is modelled: `soundInstances` (src/hooks/useWebAudioFallback.js:6) is module state and keeps its entries across a remount.
- Manager.InitialVolumes: a saved volume key that looks like an array index ("0", "42") comes after the sound ids here, while JavaScript enumerates such keys first in ascending order. `Records` keeps insertion order for every key, which is JavaScript's order for every key the application writes.
- Web Audio rendering: filtering, oscillator waveforms and how `linearRampToValueAtTime` renders are foreign to the model. Only the scheduled ramp target and length are kept.
- `AudioContext` resume inside `play` (src/hooks/useWebAudioFallback.js:643-645) depends on browser state and is not modelled. Closing a context only marks it closed.
- `Math.random`: the draws are an input sequence. Samples are reals, so float32 storage and rounding are not modelled.
- Noise.FillPink: states that the loop equals the reference pink generator, not an amplitude bound. Pink noise has no simple closed bound over reals.
- Recipes.RecipeFor: states that every base volume lies in (0, 1], not the value of each recipe. The eight values (0.5, 0.45, 0.5, 0.4, 0.5, 0.4, 0.45, 0.35) are the literals the function returns.
- Timers: the thunder flash in `VisualScene.jsx` and all CSS are left out. The 100 ms preset delay is the split into `ApplyPreset` and `PresetTimerFired`.
- Keys inherited from `Object.prototype` are treated as absent. In the source, `soundCreators["toString"]` or `gradients["constructor"]` would find a function.
- Manager.SetVolume: a volume or master volume outside 0..100 is accepted, and so is one loaded from storage. In the source, assigning an effective volume outside [0, 1] to `audio.volume` (src/hooks/useAudioManager.js:105, 138, 176, 239) throws, so the steps after it in that call do not run; the model instead emits the `ElementVolume` effect and completes the transition. The sliders only produce 0..100, and `Manager.EffectiveVolumeRange` shows every such pair gives a value in [0, 1].
- Fallback.CreateFallbackSound: always succeeds for a recipe id. In the source, `new AudioContext()` (src/hooks/useWebAudioFallback.js:636) can throw when the browser refuses a context; that failure is left out with the rest of the browser's audio state.
- Manager.ToggleSound: an id with no volume entry starts at volume 0. In the source `volumes[id] / 100` would be `NaN`. Only sound ids can be toggled from the page, and every sound has a volume.
- Stale closures: only the preset timer's snapshot (`Pending`) and the volume captured by a rejected `play()` are modelled. The callbacks themselves always see the current state.
- `stop` is modelled in `Fallback`, but the manager never calls it, and neither does the source. `Fallback.OverwriteLeaks` shows that an `error` event on a sound whose fallback is still open leaves the old context open.
