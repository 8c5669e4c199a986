/**
 * The playback controller of src/hooks/useAudioManager.js as a state machine.
 *
 * The state holds the hook's React state (`playing`, `volumes`,
 * `masterVolume`, `isPaused`, `audioError`, `useFallback`), the handles kept
 * in `fallbackRefs` and the fallback registry they live in. Every operation
 * returns the next state together with the audio effects it issues, in issue
 * order: settings and play/pause calls on the sound's media element, or ramps
 * scheduled on its fallback instance. The media elements themselves are not
 * modelled: one exists for every sound id (the mount effect creates them), and
 * their loading outcome and rejected `play()` promises arrive as events.
 */
module Manager {
  import opened Wrappers
  import opened Records
  import opened Catalog
  import Recipes
  import Fallback

  /** What `loadSavedState` can return: `null`, or an object with optional fields. */
  datatype Saved = Saved(volumes: Option<Record<int>>, masterVolume: Option<int>)

  const DefaultMasterVolume: int := 80

  datatype State = State(
    playing: Record<bool>,
    volumes: Record<int>,
    masterVolume: int,
    isPaused: bool,
    audioError: Record<bool>,
    useFallback: Record<bool>,
    fallbacks: map<string, Fallback.Handle>,   // `fallbackRefs.current`, without its `null` entries
    registry: Fallback.Registry)

  datatype Effect =
    | ElementVolume(id: string, volume: real)  // `audio.volume = volume`
    | ElementPlay(id: string)                  // `audio.play()`
    | ElementPause(id: string)                 // `audio.pause()`
    | Schedule(id: string, context: nat, ramp: Fallback.Ramp)

  /** A transition's next state and the effects it issues. */
  datatype Step = Step(state: State, effects: seq<Effect>)

  /** Well-formed records, a volume for every sound, element flags only for sounds (element events set them). */
  ghost predicate RecordsOk(s: State) {
    && Valid(s.playing) && Valid(s.volumes) && Valid(s.audioError) && Valid(s.useFallback)
    && (forall k :: k in SoundIds ==> k in s.volumes.values)
    && (forall k :: k in s.useFallback.values ==> k in SoundIds)
    && (forall k :: k in s.audioError.values ==> k in SoundIds)
  }

  /** Each kept handle belongs to a sound and is the registry's current instance for it. */
  ghost predicate FallbacksOk(fallbacks: map<string, Fallback.Handle>, reg: Fallback.Registry) {
    && Fallback.RegistryOk(reg)
    && (forall k :: k in fallbacks ==>
          && k in SoundIds
          && fallbacks[k].id == k
          && k in reg.instances
          && reg.instances[k].context == fallbacks[k].context
          && reg.instances[k].baseVolume == fallbacks[k].baseVolume)
  }

  /** What every reachable state satisfies. */
  ghost predicate Inv(s: State) {
    RecordsOk(s) && FallbacksOk(s.fallbacks, s.registry)
  }

  /** Keeping a freshly installed handle for a sound keeps the handles consistent with the registry. */
  lemma KeepInstalled(fallbacks: map<string, Fallback.Handle>, reg: Fallback.Registry, id: string, recipe: Recipes.Recipe)
    requires FallbacksOk(fallbacks, reg) && id in SoundIds
    ensures var (h, reg') := Fallback.Install(reg, id, recipe);
      FallbacksOk(fallbacks[id := h], reg')
  {
    var (h, reg') := Fallback.Install(reg, id, recipe);
    var fs := fallbacks[id := h];
    forall k | k in fs
      ensures k in SoundIds && fs[k].id == k && k in reg'.instances
      ensures reg'.instances[k].context == fs[k].context && reg'.instances[k].baseVolume == fs[k].baseVolume
    {
      if k != id {
        assert reg'.instances[k] == reg.instances[k];
      }
    }
  }

  // ---------------------------------------------------------------- mount

  /** `getInitialVolumes`: the saved volumes spread over the defaults. */
  function InitialVolumes(saved: Option<Saved>): (r: Record<int>)
    requires saved.Some? && saved.value.volumes.Some? ==> Valid(saved.value.volumes.value)
    ensures Valid(r)
    ensures forall k :: k in SoundIds ==> k in r.values
    ensures |SoundIds| <= |r.keys| && r.keys[..|SoundIds|] == SoundIds
  {
    DefaultVolumesTable();
    match saved
    case Some(Saved(Some(vs), _)) => Spread(DefaultVolumes, vs)
    case _ => DefaultVolumes
  }

  /**
   * Without saved volumes the defaults are used as they are; with them, every
   * saved key overrides its default and every other default survives.
   */
  lemma InitialVolumesMerge(saved: Option<Saved>)
    requires saved.Some? && saved.value.volumes.Some? ==> Valid(saved.value.volumes.value)
    ensures saved.None? || saved.value.volumes.None? ==> InitialVolumes(saved) == DefaultVolumes
    ensures saved.Some? && saved.value.volumes.Some? ==>
      forall k :: Get(InitialVolumes(saved), k) ==
        (if k in saved.value.volumes.value.values then Get(saved.value.volumes.value, k) else Get(DefaultVolumes, k))
  {
    DefaultVolumesTable();
  }

  /** `getInitialMasterVolume`: the saved value when it is defined, otherwise 80. */
  function InitialMasterVolume(saved: Option<Saved>): (m: int)
    ensures saved.Some? && saved.value.masterVolume.Some? ==> m == saved.value.masterVolume.value
    ensures saved.None? || saved.value.masterVolume.None? ==> m == DefaultMasterVolume
  {
    match saved
    case Some(Saved(_, Some(m))) => m
    case _ => DefaultMasterVolume
  }

  /** The state right after mounting: nothing plays, nothing is paused, no element has reported yet. */
  function Mount(saved: Option<Saved>): (s: State)
    requires saved.Some? && saved.value.volumes.Some? ==> Valid(saved.value.volumes.value)
    ensures Inv(s)
    ensures forall k :: !IsOn(s.playing, k) && !IsOn(s.useFallback, k)
    ensures !s.isPaused && s.fallbacks == map[]
    ensures forall k :: k in SoundIds ==> k in s.volumes.values
  {
    State(Empty(), InitialVolumes(saved), InitialMasterVolume(saved), false,
          Empty(), Empty(), map[], Fallback.EmptyRegistry)
  }

  // ---------------------------------------------------------------- volume arithmetic

  /** `(volume / 100) * (masterVolume / 100)`: what a media element is set to. */
  function EffectiveVolume(volume: int, master: int): real {
    (volume as real / 100.0) * (master as real / 100.0)
  }

  /** `volume * (masterVolume / 100)`: what a fallback's `setVolume` receives. */
  function FallbackLevel(volume: int, master: int): real {
    volume as real * (master as real / 100.0)
  }

  /** Slider volumes give an effective volume in [0, 1], growing with either slider. */
  lemma EffectiveVolumeRange(v: int, m: int, v2: int, m2: int)
    requires InRange(v) && InRange(m) && InRange(v2) && InRange(m2)
    requires v <= v2 && m <= m2
    ensures 0.0 <= EffectiveVolume(v, m) <= EffectiveVolume(v2, m2) <= 1.0
    ensures EffectiveVolume(v, 0) == 0.0 && EffectiveVolume(0, m) == 0.0 && EffectiveVolume(100, 100) == 1.0
  {
    ProductBounds(v as real / 100.0, m as real / 100.0, v2 as real / 100.0, m2 as real / 100.0);
  }

  /** Products of fractions in [0, 1] stay in [0, 1] and grow with either factor. */
  lemma ProductBounds(x: real, y: real, x2: real, y2: real)
    requires 0.0 <= x <= x2 <= 1.0 && 0.0 <= y <= y2 <= 1.0
    ensures 0.0 <= x * y <= x2 * y2 <= 1.0
  {
    assert 0.0 <= x * y;
    assert x * y <= x2 * y;
    assert x2 * y <= x2 * y2;
    assert x2 * y2 <= y2;
  }

  /**
   * The fallback's ramp target for `volume * (masterVolume / 100)` is its base
   * volume scaled by the effective volume a media element would get.
   */
  lemma FallbackComposes(h: Fallback.Handle, v: int, m: int)
    ensures Fallback.SetVolume(h, FallbackLevel(v, m)).target == h.baseVolume * EffectiveVolume(v, m)
  {
    assert FallbackLevel(v, m) / 100.0 == EffectiveVolume(v, m);
  }

  // ---------------------------------------------------------------- per-sound effects

  /** `audioRefs.current[id]` exists: the mount effect made one element per sound. */
  predicate HasElement(id: string) {
    id in SoundIds
  }

  /** `useFallback[id] && fallbackRefs.current[id]`. */
  predicate OnFallback(s: State, id: string) {
    IsOn(s.useFallback, id) && id in s.fallbacks
  }

  function Volume(s: State, id: string): int
    requires id in s.volumes.values
  {
    s.volumes.values[id]
  }

  /** Pausing one sound: its fallback when it uses one, otherwise its element. */
  function PauseOne(s: State, id: string): seq<Effect> {
    if OnFallback(s, id) then
      var h := s.fallbacks[id];
      [Schedule(id, h.context, Fallback.Pause(h))]
    else if HasElement(id) then [ElementPause(id)]
    else []
  }

  /** `setVolume(level)` then `play()` on the kept fallback, if there is one. */
  function StartFallback(s: State, id: string, level: real): (fx: seq<Effect>)
    ensures forall e :: e in fx ==> e.id == id && !IsPause(e)
  {
    if id in s.fallbacks then
      var h := s.fallbacks[id];
      [Schedule(id, h.context, Fallback.SetVolume(h, level)), Schedule(id, h.context, Fallback.Play(h))]
    else []
  }

  /** `audio.volume = effective` then `audio.play()`, if the element exists. */
  function StartElement(id: string, effective: real): (fx: seq<Effect>)
    ensures forall e :: e in fx ==> e.id == id && !IsPause(e)
  {
    if HasElement(id) then [ElementVolume(id, effective), ElementPlay(id)] else []
  }

  /** A pause effect: an element pause, or a fallback ramp to silence over 0.5 s. */
  predicate IsPause(e: Effect) {
    e.ElementPause? || (e.Schedule? && e.ramp == Fallback.Ramp(0.0, 0.5))
  }

  /**
   * `fx` starts sound `id` at volume `v` under master volume `m` through one
   * backend: the element set to the effective volume and played, or the
   * fallback `h` given `v * (m / 100)` and played.
   */
  predicate Starts(fallbacks: map<string, Fallback.Handle>, fx: seq<Effect>, id: string, v: int, m: int) {
    || fx == [ElementVolume(id, EffectiveVolume(v, m)), ElementPlay(id)]
    || (id in fallbacks &&
        var h := fallbacks[id];
        fx == [Schedule(id, h.context, Fallback.SetVolume(h, FallbackLevel(v, m))),
               Schedule(id, h.context, Fallback.Play(h))])
  }

  /**
   * What a start issues on each backend: the element is set to the effective
   * volume and played; the fallback is ramped to its base volume scaled by the
   * effective volume over 0.1 s and then, by `play`, to its full base volume
   * over 0.8 s.
   */
  lemma StartsMeans(fallbacks: map<string, Fallback.Handle>, fx: seq<Effect>, id: string, v: int, m: int)
    requires Starts(fallbacks, fx, id, v, m)
    ensures |fx| == 2 && fx[0].id == id && fx[1].id == id
    ensures fx[0].ElementVolume? ==> fx[0].volume == EffectiveVolume(v, m) && fx[1] == ElementPlay(id)
    ensures fx[0].Schedule? ==>
      && id in fallbacks
      && fx[0].ramp == Fallback.Ramp(fallbacks[id].baseVolume * EffectiveVolume(v, m), 0.1)
      && fx[1].ramp == Fallback.Ramp(fallbacks[id].baseVolume, 0.8)
      && fx[0].context == fx[1].context == fallbacks[id].context
    ensures fx[0].ElementVolume? || fx[0].Schedule?
  {
    if fx[0].Schedule? {
      FallbackComposes(fallbacks[id], v, m);
    }
  }

  /**
   * The two ramps of a fallback start are scheduled together and `play`'s ends
   * last, so the fallback settles at its full base volume whatever the sliders
   * say; the element settles at the effective volume. The fallback's settled
   * level matches the slider-scaled one only when the base volume is 0 or the
   * effective volume is 1.
   */
  lemma FallbackStartSettlesAtBase(fallbacks: map<string, Fallback.Handle>, fx: seq<Effect>, id: string, v: int, m: int)
    requires Starts(fallbacks, fx, id, v, m) && fx[0].Schedule?
    ensures id in fallbacks && fx[1].Schedule?
    ensures fx[0].ramp.seconds < fx[1].ramp.seconds
    ensures fx[1].ramp.target == fallbacks[id].baseVolume
    ensures fx[1].ramp.target == fallbacks[id].baseVolume * EffectiveVolume(v, m)
      <==> fallbacks[id].baseVolume == 0.0 || EffectiveVolume(v, m) == 1.0
  {
    StartsMeans(fallbacks, fx, id, v, m);
    var b, e := fallbacks[id].baseVolume, EffectiveVolume(v, m);
    assert b * e - b == b * (e - 1.0);
  }

  /** Sound `id` is paused through one backend. */
  predicate Stops(fallbacks: map<string, Fallback.Handle>, fx: seq<Effect>, id: string) {
    || fx == [ElementPause(id)]
    || (id in fallbacks && fx == [Schedule(id, fallbacks[id].context, Fallback.Pause(fallbacks[id]))])
  }

  lemma PauseOneStops(s: State, id: string)
    ensures HasElement(id) ==> Stops(s.fallbacks, PauseOne(s, id), id)
    ensures HasElement(id) ==> |PauseOne(s, id)| == 1 && (PauseOne(s, id)[0].Schedule? <==> OnFallback(s, id))
    ensures forall e :: e in PauseOne(s, id) ==> IsPause(e) && e.id == id
  {
  }

  /**
   * `fallbackRefs.current[id] = createFallbackSound(id)` on the kept handles
   * and the registry: a sound gets a new instance, replacing any kept one; a
   * `null` result (an id without a recipe) keeps nothing under `id`.
   */
  function CreateInto(fallbacks: map<string, Fallback.Handle>, reg: Fallback.Registry, id: string)
    : (r: (map<string, Fallback.Handle>, Fallback.Registry))
    requires FallbacksOk(fallbacks, reg)
    ensures FallbacksOk(r.0, r.1)
    ensures forall k :: k in r.0 <==> (k in fallbacks && k != id) || (k == id && id in SoundIds)
    ensures forall k :: k in fallbacks && k != id ==> r.0[k] == fallbacks[k]
    ensures id in SoundIds ==> r.0[id].context == reg.nextContext
  {
    Recipes.RecipesCoverSounds();
    var (h, reg') := Fallback.CreateFallbackSound(reg, id);
    if h.None? then (fallbacks - {id}, reg)
    else
      KeepInstalled(fallbacks, reg, id, Recipes.RecipeFor(id).value);
      (fallbacks[id := h.value], reg')
  }

  /** `fallbackRefs.current[id] ||= createFallbackSound(id)`: creates only when nothing is kept. */
  function KeepFallback(fallbacks: map<string, Fallback.Handle>, reg: Fallback.Registry, id: string)
    : (r: (map<string, Fallback.Handle>, Fallback.Registry))
    requires FallbacksOk(fallbacks, reg)
    ensures FallbacksOk(r.0, r.1)
    ensures forall k :: k in r.0 <==> k in fallbacks || (k == id && id in SoundIds)
    ensures forall k :: k in fallbacks ==> r.0[k] == fallbacks[k]
  {
    if id in fallbacks then (fallbacks, reg) else CreateInto(fallbacks, reg, id)
  }

  /** `KeepFallback` on a state: nothing but the kept handles and the registry changes. */
  function EnsureFallback(s: State, id: string): (r: State)
    requires Inv(s)
    ensures Inv(r)
    ensures forall k :: k in r.fallbacks <==> k in s.fallbacks || (k == id && id in SoundIds)
    ensures forall k :: k in s.fallbacks ==> r.fallbacks[k] == s.fallbacks[k]
    ensures r == s.(fallbacks := r.fallbacks, registry := r.registry)
  {
    var (fallbacks, reg) := KeepFallback(s.fallbacks, s.registry, id);
    var r := s.(fallbacks := fallbacks, registry := reg);
    assert RecordsOk(r);
    r
  }

  // ---------------------------------------------------------------- toggleSound

  /** Marks sound `id` as playing or not; nothing else changes. */
  function MarkPlaying(s: State, id: string, on: bool): (r: State)
    requires Inv(s)
    ensures Inv(r)
    ensures Get(r.playing, id) == Some(on)
    ensures forall k :: k != id ==> Get(r.playing, k) == Get(s.playing, k)
    ensures r == s.(playing := r.playing)
  {
    s.(playing := Put(s.playing, id, on))
  }

  /**
   * Starts sound `id` at volume `v` under master volume `m`: through its
   * fallback (created first if none is kept) or through its element.
   */
  function StartSound(s: State, id: string, viaFallback: bool, v: int, m: int): (r: Step)
    requires Inv(s)
    ensures Inv(r.state)
    ensures r.state == s.(fallbacks := r.state.fallbacks, registry := r.state.registry)
    ensures forall k :: k in s.fallbacks ==> k in r.state.fallbacks && r.state.fallbacks[k] == s.fallbacks[k]
    ensures HasElement(id) ==> Starts(r.state.fallbacks, r.effects, id, v, m)
    ensures !HasElement(id) ==> r.effects == []
    ensures forall e :: e in r.effects ==> e.id == id && !IsPause(e)
    ensures HasElement(id) ==> |r.effects| == 2 && (r.effects[0].Schedule? <==> viaFallback)
  {
    if viaFallback then
      var s1 := EnsureFallback(s, id);
      Step(s1, StartFallback(s1, id, FallbackLevel(v, m)))
    else Step(s, StartElement(id, EffectiveVolume(v, m)))
  }

  /**
   * `toggleSound(id)`: a playing sound is paused and marked not playing; any
   * other is started (creating its fallback first when it is flagged for
   * one) and marked playing, and the global pause is lifted.
   */
  function ToggleSound(s: State, id: string): (r: Step)
    requires Inv(s)
    ensures Inv(r.state)
    ensures IsOn(r.state.playing, id) <==> !IsOn(s.playing, id)
    ensures forall k :: k != id ==> Get(r.state.playing, k) == Get(s.playing, k)
    ensures r.state.isPaused == (s.isPaused && IsOn(s.playing, id))
    ensures r.state.volumes == s.volumes && r.state.masterVolume == s.masterVolume
    ensures r.state.useFallback == s.useFallback && r.state.audioError == s.audioError
    ensures HasElement(id) && IsOn(s.playing, id) ==> Stops(s.fallbacks, r.effects, id)
    ensures IsOn(s.playing, id) ==> forall e :: e in r.effects ==> IsPause(e)
    ensures HasElement(id) && !IsOn(s.playing, id) ==>
      Starts(r.state.fallbacks, r.effects, id, Volume(s, id), s.masterVolume)
    ensures !HasElement(id) ==> r.effects == []
    ensures HasElement(id) && IsOn(s.playing, id) ==>
      |r.effects| == 1 && (r.effects[0].Schedule? <==> OnFallback(s, id))
    ensures HasElement(id) && !IsOn(s.playing, id) ==>
      |r.effects| == 2 && (r.effects[0].Schedule? <==> IsOn(s.useFallback, id))
  {
    if IsOn(s.playing, id) then
      PauseOneStops(s, id);
      Step(MarkPlaying(s, id, false), PauseOne(s, id))
    else
      var st := StartSound(s, id, IsOn(s.useFallback, id), Get(s.volumes, id).GetOr(0), s.masterVolume);
      Step(MarkPlaying(st.state, id, true).(isPaused := false), st.effects)
  }

  /** Toggling a sound twice restores its `playing` entry's truthiness and every other entry. */
  lemma ToggleTwice(s: State, id: string)
    requires Inv(s)
    ensures var s2 := ToggleSound(ToggleSound(s, id).state, id).state;
      && (IsOn(s2.playing, id) <==> IsOn(s.playing, id))
      && (forall k :: k != id ==> Get(s2.playing, k) == Get(s.playing, k))
  {
  }

  // ---------------------------------------------------------------- setVolume / setMasterVolume

  /** `setVolume(id, volume)`: only `volumes[id]` changes. */
  function SetVolume(s: State, id: string, volume: int): (r: State)
    requires Inv(s)
    ensures Inv(r)
    ensures Get(r.volumes, id) == Some(volume)
    ensures forall k :: k != id ==> Get(r.volumes, k) == Get(s.volumes, k)
    ensures r == s.(volumes := r.volumes)
  {
    s.(volumes := Put(s.volumes, id, volume))
  }

  /** `setMasterVolume(m)`. */
  function SetMasterVolume(s: State, m: int): (r: State)
    requires Inv(s)
    ensures Inv(r) && r.masterVolume == m
    ensures r == s.(masterVolume := m)
  {
    s.(masterVolume := m)
  }

  // ---------------------------------------------------------------- pauseAll

  /** Resuming one sound: its kept fallback when it uses one, otherwise its element. */
  function ResumeOne(s: State, id: string): seq<Effect>
    requires Inv(s) && HasElement(id)
  {
    if OnFallback(s, id) then StartFallback(s, id, FallbackLevel(Volume(s, id), s.masterVolume))
    else StartElement(id, EffectiveVolume(Volume(s, id), s.masterVolume))
  }

  /** The ids effects in `fx` are about. */
  function Ids(fx: seq<Effect>): set<string> {
    set e | e in fx :: e.id
  }

  /**
   * What `pauseAll` does to one sound: nothing unless it is playing; then a
   * pause, or when paused a resume at its current volume.
   */
  function PauseAllOne(s: State, id: string): (fx: seq<Effect>)
    requires Inv(s) && HasElement(id)
    ensures forall e :: e in fx ==> e.id == id
    ensures fx != [] <==> IsOn(s.playing, id)
    ensures IsOn(s.playing, id) && !s.isPaused ==> Stops(s.fallbacks, fx, id)
    ensures IsOn(s.playing, id) && s.isPaused ==> Starts(s.fallbacks, fx, id, Volume(s, id), s.masterVolume)
    ensures !s.isPaused ==> forall e :: e in fx ==> IsPause(e)
    ensures s.isPaused ==> forall e :: e in fx ==> !IsPause(e)
    ensures IsOn(s.playing, id) ==> |fx| > 0 && (fx[0].Schedule? <==> OnFallback(s, id))
  {
    PauseOneStops(s, id);
    if !IsOn(s.playing, id) then []
    else if s.isPaused then ResumeOne(s, id)
    else PauseOne(s, id)
  }

  /** The effects `pauseAll` issues for the element ids `ids`, in order. */
  function PauseAllEffects(s: State, ids: seq<string>): (fx: seq<Effect>)
    requires Inv(s)
    requires forall k :: k in ids ==> HasElement(k)
    ensures forall e :: e in fx ==> e.id in ids && IsOn(s.playing, e.id)
    ensures forall k :: k in ids && IsOn(s.playing, k) ==> k in Ids(fx)
    ensures !s.isPaused ==> forall e :: e in fx ==> IsPause(e)
    ensures s.isPaused ==> forall e :: e in fx ==> !IsPause(e)
    decreases |ids|
  {
    if |ids| == 0 then []
    else
      var here := PauseAllOne(s, ids[0]);
      var rest := PauseAllEffects(s, ids[1..]);
      assert forall k :: k in ids ==> k == ids[0] || k in ids[1..];
      assert here != [] ==> here[0] in here;
      here + rest
  }

  /**
   * `pauseAll`: flips `isPaused`, keeps `playing`, and pauses (or resumes)
   * exactly the sounds that are playing.
   */
  function PauseAll(s: State): (r: Step)
    requires Inv(s)
    ensures Inv(r.state)
    ensures r.state == s.(isPaused := !s.isPaused)
    ensures forall e :: e in r.effects ==> HasElement(e.id) && IsOn(s.playing, e.id)
    ensures forall k :: HasElement(k) && IsOn(s.playing, k) ==> k in Ids(r.effects)
    ensures !s.isPaused ==> forall e :: e in r.effects ==> IsPause(e)
    ensures s.isPaused ==> forall e :: e in r.effects ==> !IsPause(e)
  {
    Step(s.(isPaused := !s.isPaused), PauseAllEffects(s, SoundIds))
  }

  /** Pausing all twice restores the state. */
  lemma PauseAllTwice(s: State)
    requires Inv(s)
    ensures PauseAll(PauseAll(s).state).state == s
  {
  }

  // ---------------------------------------------------------------- stopAll

  /** A pause for every id of `ids`, in order. */
  function StopEffects(s: State, ids: seq<string>): (fx: seq<Effect>)
    requires forall k :: k in ids ==> HasElement(k)
    ensures forall e :: e in fx ==> e.id in ids && IsPause(e)
    ensures forall k :: k in ids ==> k in Ids(fx)
    decreases |ids|
  {
    if |ids| == 0 then []
    else
      var rest := StopEffects(s, ids[1..]);
      PauseOneStops(s, ids[0]);
      assert forall k :: k in ids ==> k == ids[0] || k in ids[1..];
      PauseOne(s, ids[0]) + rest
  }

  /** `stopAll`: every sound is paused, `playing` is emptied and the pause is lifted. */
  function StopAll(s: State): (r: Step)
    requires Inv(s)
    ensures Inv(r.state)
    ensures forall k :: Get(r.state.playing, k) == None
    ensures !r.state.isPaused
    ensures r.state == s.(playing := r.state.playing, isPaused := false)
    ensures forall e :: e in r.effects ==> HasElement(e.id) && IsPause(e)
    ensures forall k :: HasElement(k) ==> k in Ids(r.effects)
  {
    Step(s.(playing := Empty(), isPaused := false), StopEffects(s, SoundIds))
  }

  /** Stopping all a second time leaves the state as the first stop left it. */
  lemma StopAllIdempotent(s: State)
    requires Inv(s)
    ensures StopAll(StopAll(s).state).state == StopAll(s).state
  {
  }

  // ---------------------------------------------------------------- applyPreset

  /**
   * What the deferred half of `applyPreset` sees: the preset, and the
   * `masterVolume` and `useFallback` its callback closed over when it was
   * scheduled (`fallbackRefs` is a ref and is read live).
   */
  datatype Pending = Pending(preset: Preset, master: int, useFallback: Record<bool>)

  /** The immediate half of `applyPreset`: stop everything and schedule the rest. */
  function ApplyPreset(s: State, p: Preset): (r: (Step, Pending))
    requires Inv(s)
    ensures r.0 == StopAll(s)
    ensures r.1 == Pending(p, s.masterVolume, s.useFallback)
  {
    (Step(s.(playing := Empty(), isPaused := false), StopEffects(s, SoundIds)),
     Pending(p, s.masterVolume, s.useFallback))
  }

  /**
   * One entry of the deferred half of `applyPreset`: set the volume, start
   * the sound through the backend the snapshot names (creating a fallback if
   * none is kept), mark it playing.
   */
  function ApplyEntry(s: State, pend: Pending, id: string): (r: Step)
    requires Inv(s) && id in pend.preset.sounds.values
    ensures Inv(r.state)
    ensures Get(r.state.volumes, id) == Some(pend.preset.sounds.values[id])
    ensures forall k :: k != id ==> Get(r.state.volumes, k) == Get(s.volumes, k)
    ensures IsOn(r.state.playing, id)
    ensures forall k :: k != id ==> Get(r.state.playing, k) == Get(s.playing, k)
    ensures r.state == s.(volumes := r.state.volumes, playing := r.state.playing,
                          fallbacks := r.state.fallbacks, registry := r.state.registry)
    ensures forall e :: e in r.effects ==> e.id == id && !IsPause(e)
    ensures HasElement(id) ==> Starts(r.state.fallbacks, r.effects, id, pend.preset.sounds.values[id], pend.master)
    ensures HasElement(id) ==> |r.effects| == 2 && (r.effects[0].Schedule? <==> IsOn(pend.useFallback, id))
  {
    var v := pend.preset.sounds.values[id];
    var st := StartSound(SetVolume(s, id, v), id, IsOn(pend.useFallback, id), v, pend.master);
    Step(MarkPlaying(st.state, id, true), st.effects)
  }

  /** The deferred half of `applyPreset` for the preset entries `ks`, in order. */
  function ApplyEntries(s: State, pend: Pending, ks: seq<string>): (r: Step)
    requires Inv(s)
    requires forall k :: k in ks ==> k in pend.preset.sounds.values
    ensures Inv(r.state)
    ensures forall k :: Get(r.state.volumes, k) == (if k in ks then Some(pend.preset.sounds.values[k]) else Get(s.volumes, k))
    ensures forall k :: IsOn(r.state.playing, k) <==> k in ks || IsOn(s.playing, k)
    ensures forall k :: k !in ks ==> Get(r.state.playing, k) == Get(s.playing, k)
    ensures r.state.isPaused == s.isPaused && r.state.masterVolume == s.masterVolume
    ensures r.state.useFallback == s.useFallback && r.state.audioError == s.audioError
    ensures forall e :: e in r.effects ==> e.id in ks && !IsPause(e)
    decreases |ks|
  {
    if |ks| == 0 then Step(s, [])
    else
      var first := ApplyEntry(s, pend, ks[0]);
      var rest := ApplyEntries(first.state, pend, ks[1..]);
      assert forall k :: k in ks <==> k == ks[0] || k in ks[1..];
      StartEffectsJoin(first.effects, rest.effects, ks);
      Step(rest.state, first.effects + rest.effects)
  }

  /** Start effects for the first key followed by start effects for the others are start effects for all keys. */
  lemma StartEffectsJoin(a: seq<Effect>, b: seq<Effect>, ks: seq<string>)
    requires |ks| > 0
    requires forall e :: e in a ==> e.id == ks[0] && !IsPause(e)
    requires forall e :: e in b ==> e.id in ks[1..] && !IsPause(e)
    ensures forall e :: e in a + b ==> e.id in ks && !IsPause(e)
  {
    forall e | e in a + b ensures e.id in ks && !IsPause(e) {
      if e in a {
        assert e.id == ks[0];
      } else {
        var i :| 0 <= i < |ks[1..]| && ks[1..][i] == e.id;
        assert ks[i + 1] == e.id;
      }
    }
  }

  /** The deferred half of `applyPreset`: the 100 ms timer fires. */
  function PresetTimerFired(s: State, pend: Pending): (r: Step)
    requires Inv(s) && Valid(pend.preset.sounds)
    ensures Inv(r.state)
    ensures forall k :: Get(r.state.volumes, k) == (if k in pend.preset.sounds.values then Some(pend.preset.sounds.values[k]) else Get(s.volumes, k))
    ensures forall k :: IsOn(r.state.playing, k) <==> k in pend.preset.sounds.values || IsOn(s.playing, k)
    ensures r.state.isPaused == s.isPaused && r.state.masterVolume == s.masterVolume
    ensures r.state.useFallback == s.useFallback && r.state.audioError == s.audioError
    ensures forall e :: e in r.effects ==> e.id in pend.preset.sounds.values
  {
    ApplyEntries(s, pend, pend.preset.sounds.keys)
  }

  /**
   * Applying a preset and letting its timer fire plays exactly the preset's
   * sounds at the preset's volumes, unpaused; every other volume is kept.
   */
  lemma ApplyPresetPlaysExactly(s: State, p: Preset)
    requires Inv(s) && Valid(p.sounds)
    ensures var (now, pend) := ApplyPreset(s, p);
      var later := PresetTimerFired(now.state, pend).state;
      && (forall k :: IsOn(later.playing, k) <==> k in p.sounds.values)
      && (forall k :: k in p.sounds.values ==> Get(later.volumes, k) == Some(p.sounds.values[k]))
      && (forall k :: k !in p.sounds.values ==> Get(later.volumes, k) == Get(s.volumes, k))
      && !later.isPaused && later.masterVolume == s.masterVolume
  {
  }

  // ---------------------------------------------------------------- element events

  /** `canplaythrough` on sound `id`'s element: its media file is used. */
  function ElementLoaded(s: State, id: string): (r: State)
    requires Inv(s) && HasElement(id)
    ensures Inv(r)
    ensures Get(r.useFallback, id) == Some(false)
    ensures forall k :: k != id ==> Get(r.useFallback, k) == Get(s.useFallback, k)
    ensures r == s.(useFallback := r.useFallback)
  {
    s.(useFallback := Put(s.useFallback, id, false))
  }

  /**
   * `error` on sound `id`'s element: the error and the fallback flag are set
   * and a new fallback instance replaces any kept one.
   */
  function ElementFailed(s: State, id: string): (r: State)
    requires Inv(s) && HasElement(id)
    ensures Inv(r)
    ensures IsOn(r.audioError, id) && IsOn(r.useFallback, id) && OnFallback(r, id)
    ensures r.fallbacks[id].context == s.registry.nextContext
    ensures forall k :: k != id ==> Get(r.useFallback, k) == Get(s.useFallback, k) && Get(r.audioError, k) == Get(s.audioError, k)
    ensures r.playing == s.playing && r.volumes == s.volumes && r.isPaused == s.isPaused
    ensures r.masterVolume == s.masterVolume
    ensures forall k :: k != id && k in s.fallbacks ==> k in r.fallbacks && r.fallbacks[k] == s.fallbacks[k]
    ensures forall k :: k != id ==> (k in r.fallbacks <==> k in s.fallbacks)
    ensures r == s.(audioError := r.audioError, useFallback := r.useFallback, fallbacks := r.fallbacks, registry := r.registry)
  {
    var (fallbacks, reg) := CreateInto(s.fallbacks, s.registry, id);
    var r := State(s.playing, s.volumes, s.masterVolume, s.isPaused,
                   Put(s.audioError, id, true), Put(s.useFallback, id, true), fallbacks, reg);
    assert RecordsOk(r);
    r
  }

  /** Which call made the `play()` whose promise was rejected. */
  datatype Starter =
    | FromToggle   // `toggleSound`: its `.catch` switches to the fallback
    | FromPreset   // the preset timer: its `.catch` switches to the fallback
    | FromResume   // `pauseAll`'s resume: `.catch(console.error)` only logs

  /**
   * A rejected `play()` promise on sound `id`'s element. After a start from
   * `toggleSound` or the preset timer the sound switches to its fallback
   * (created if none is kept), which is set to `level` (the volume captured
   * when `play()` was called) and played; after a resume nothing changes.
   */
  function PlayRejected(s: State, id: string, level: real, starter: Starter): (r: Step)
    requires Inv(s) && HasElement(id)
    ensures Inv(r.state)
    ensures starter == FromResume ==> r == Step(s, [])
    ensures starter != FromResume ==>
      && IsOn(r.state.useFallback, id) && OnFallback(r.state, id)
      && (forall k :: k != id ==> Get(r.state.useFallback, k) == Get(s.useFallback, k))
      && (id in s.fallbacks ==> r.state.fallbacks == s.fallbacks)
      && (forall k :: k in s.fallbacks ==> k in r.state.fallbacks && r.state.fallbacks[k] == s.fallbacks[k])
      && (forall k :: k != id ==> (k in r.state.fallbacks <==> k in s.fallbacks))
      && r.state == s.(useFallback := r.state.useFallback, fallbacks := r.state.fallbacks, registry := r.state.registry)
      && var h := r.state.fallbacks[id];
         r.effects == [Schedule(id, h.context, Fallback.SetVolume(h, level)), Schedule(id, h.context, Fallback.Play(h))]
  {
    if starter == FromResume then Step(s, [])
    else
      Recipes.RecipesCoverSounds();
      var s1 := EnsureFallback(s.(useFallback := Put(s.useFallback, id, true)), id);
      Step(s1, StartFallback(s1, id, level))
  }

  // ---------------------------------------------------------------- volume effect and selectors

  /**
   * `e` pushes volume `v` under master volume `m` to sound `e.id` through the
   * backend it uses: its element gets the effective volume, its fallback
   * `setVolume(v * (m / 100))`.
   */
  predicate Applies(s: State, e: Effect, v: int, m: int) {
    || (e.ElementVolume? && !OnFallback(s, e.id) && e.volume == EffectiveVolume(v, m))
    || (e.Schedule? && OnFallback(s, e.id) && e.context == s.fallbacks[e.id].context
        && e.ramp == Fallback.SetVolume(s.fallbacks[e.id], FallbackLevel(v, m)))
  }

  /** Both backends end up at the same level: the effective volume, scaled by the fallback's base volume. */
  lemma AppliesMeans(s: State, e: Effect, v: int, m: int)
    requires Applies(s, e, v, m)
    ensures e.ElementVolume? ==> e.volume == EffectiveVolume(v, m)
    ensures e.Schedule? ==> e.ramp == Fallback.Ramp(s.fallbacks[e.id].baseVolume * EffectiveVolume(v, m), 0.1)
  {
    if e.Schedule? {
      FallbackComposes(s.fallbacks[e.id], v, m);
    }
  }

  /** The volume-update effect's push for sound `id`: only when it plays and nothing is paused. */
  function SyncOne(s: State, id: string): (fx: seq<Effect>)
    requires Inv(s) && id in s.volumes.values
    ensures fx != [] <==> IsOn(s.playing, id) && !s.isPaused && HasElement(id)
    ensures fx != [] ==> |fx| == 1 && fx[0].id == id && Applies(s, fx[0], Volume(s, id), s.masterVolume)
  {
    var v := Volume(s, id);
    if !IsOn(s.playing, id) || s.isPaused then []
    else if OnFallback(s, id) then
      var h := s.fallbacks[id];
      [Schedule(id, h.context, Fallback.SetVolume(h, FallbackLevel(v, s.masterVolume)))]
    else if HasElement(id) then [ElementVolume(id, EffectiveVolume(v, s.masterVolume))]
    else []
  }

  /** The volume-update effect's pushes for the volume keys `ks`, in order. */
  function SyncEffects(s: State, ks: seq<string>): (fx: seq<Effect>)
    requires Inv(s)
    requires forall k :: k in ks ==> k in s.volumes.values
    ensures s.isPaused ==> fx == []
    ensures forall e :: e in fx ==>
      && e.id in ks && HasElement(e.id) && IsOn(s.playing, e.id)
      && Applies(s, e, Volume(s, e.id), s.masterVolume)
    ensures !s.isPaused ==> forall k :: k in ks && HasElement(k) && IsOn(s.playing, k) ==> k in Ids(fx)
    decreases |ks|
  {
    if |ks| == 0 then []
    else
      var here := SyncOne(s, ks[0]);
      var rest := SyncEffects(s, ks[1..]);
      assert forall k :: k in ks ==> k == ks[0] || k in ks[1..];
      assert forall e :: e in here ==> e == here[0];
      assert here != [] ==> ks[0] in Ids(here);
      here + rest
  }

  /**
   * The effect that runs whenever volumes, the master volume, `playing`,
   * `isPaused` or `useFallback` change: every playing sound, unless paused,
   * gets its current effective volume through its backend, and no other
   * sound is touched.
   */
  function SyncVolumes(s: State): (fx: seq<Effect>)
    requires Inv(s)
    ensures s.isPaused ==> fx == []
    ensures forall e :: e in fx ==>
      && HasElement(e.id) && IsOn(s.playing, e.id)
      && Applies(s, e, Volume(s, e.id), s.masterVolume)
    ensures !s.isPaused ==> forall k :: HasElement(k) && IsOn(s.playing, k) ==> k in Ids(fx)
  {
    SyncEffects(s, s.volumes.keys)
  }

  /** `Object.values(playing).some(Boolean)` over the keys `ks`. */
  function AnyOn(r: Record<bool>, ks: seq<string>): (b: bool)
    requires forall k :: k in ks ==> k in r.values
    ensures b <==> exists k :: k in ks && IsOn(r, k)
    decreases |ks|
  {
    if |ks| == 0 then false
    else
      assert forall k :: k in ks ==> k == ks[0] || k in ks[1..];
      assert IsOn(r, ks[0]) ==> exists k :: k in ks && IsOn(r, k);
      r.values[ks[0]] || AnyOn(r, ks[1..])
  }

  /** `hasActiveSounds`: some sound is marked playing. */
  function HasActiveSounds(s: State): (b: bool)
    requires Inv(s)
    ensures b <==> exists k :: IsOn(s.playing, k)
    ensures b <==> |OnKeys(s.playing)| > 0
  {
    var b := AnyOn(s.playing, s.playing.keys);
    assert b <==> |OnKeys(s.playing)| > 0 by {
      if b {
        var k :| k in s.playing.keys && IsOn(s.playing, k);
        assert k in OnKeys(s.playing);
      }
      if |OnKeys(s.playing)| > 0 {
        assert IsOn(s.playing, OnKeys(s.playing)[0]);
      }
    }
    b
  }
}
