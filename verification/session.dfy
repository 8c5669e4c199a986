/**
 * The wiring in src/App.jsx: the views are drawn from the audio manager's
 * state, and the pause-all button calls `pauseAll`. The lemmas here follow a
 * user action through the manager into what the views show.
 */
module Session {
  import opened Wrappers
  import opened Records
  import opened Catalog
  import Manager
  import Scene
  import PresetMatch
  import Controls

  /** What the page shows for a manager state. */
  datatype View = View(
    background: string,
    activePreset: Option<string>,
    volumeIcon: Controls.VolumeIcon,
    pauseButton: Controls.PauseButton)

  function ViewOf(s: Manager.State): View
    requires Manager.Inv(s)
  {
    View(
      Scene.Background(s.playing, s.volumes),
      PresetMatch.ActivePreset(s.playing),
      Controls.IconFor(s.masterVolume),
      Controls.PauseButtonFor(s.isPaused, Manager.HasActiveSounds(s)))
  }

  /**
   * A click on the pause-all button: a disabled button does nothing;
   * otherwise `pauseAll` runs.
   */
  function PressPauseAll(s: Manager.State): (r: Manager.Step)
    requires Manager.Inv(s)
    ensures Manager.Inv(r.state)
    ensures Manager.HasActiveSounds(r.state) == Manager.HasActiveSounds(s)
    ensures Manager.HasActiveSounds(s) ==> r.state.isPaused == !s.isPaused
    ensures !Manager.HasActiveSounds(s) ==> r.state == s && r.effects == []
  {
    if Controls.PauseButtonFor(s.isPaused, Manager.HasActiveSounds(s)).disabled then Manager.Step(s, [])
    else Manager.PauseAll(s)
  }

  /** Two clicks on the pause-all button leave the state as it was. */
  lemma PressPauseAllTwice(s: Manager.State)
    requires Manager.Inv(s)
    ensures PressPauseAll(PressPauseAll(s).state).state == s
  {
    if Manager.HasActiveSounds(s) {
      Manager.PauseAllTwice(s);
    }
  }

  /** A state playing exactly a preset's sounds at the preset's volumes, seen by the views. */
  lemma PlayingPreset(later: Manager.State, p: Preset)
    requires Valid(later.playing)
    requires forall k :: IsOn(later.playing, k) <==> k in p.sounds.values
    requires forall k :: k in p.sounds.values ==> Get(later.volumes, k) == Some(p.sounds.values[k])
    ensures PresetMatch.OnSet(later.playing) == p.sounds.values.Keys
    ensures forall k :: k in p.sounds.values ==> Scene.Weight(later.volumes, k) == Scene.Weight(p.sounds, k)
  {
    assert forall k :: k in PresetMatch.OnSet(later.playing) <==> IsOn(later.playing, k);
  }

  /** After a preset is applied and its timer has fired, exactly its sounds are playing. */
  lemma AppliedPresetPlays(s: Manager.State, p: Preset)
    requires Manager.Inv(s) && Valid(p.sounds)
    ensures var (now, pend) := Manager.ApplyPreset(s, p);
      var later := Manager.PresetTimerFired(now.state, pend).state;
      && Valid(later.playing)
      && PresetMatch.OnSet(later.playing) == p.sounds.values.Keys
      && forall k :: k in p.sounds.values ==> Scene.Weight(later.volumes, k) == Scene.Weight(p.sounds, k)
  {
    Manager.ApplyPresetPlaysExactly(s, p);
    var (now, pend) := Manager.ApplyPreset(s, p);
    PlayingPreset(Manager.PresetTimerFired(now.state, pend).state, p);
  }

  /** After one of the catalogue's presets is applied and its timer has fired, that preset's button is the active one. */
  lemma AppliedPresetIsActive(s: Manager.State, p: Preset)
    requires Manager.Inv(s) && Valid(p.sounds) && p in Presets
    ensures var (now, pend) := Manager.ApplyPreset(s, p);
      var later := Manager.PresetTimerFired(now.state, pend).state;
      PresetMatch.ActivePreset(later.playing) == Some(p.id)
  {
    AppliedPresetPlays(s, p);
    var (now, pend) := Manager.ApplyPreset(s, p);
    var later := Manager.PresetTimerFired(now.state, pend).state;
    var i :| 0 <= i < |Presets| && Presets[i] == p;
    PresetMatch.ActiveIsThatPreset(later.playing, i);
  }

  /**
   * After a preset with at least one sound is applied and its timer has
   * fired, the scene shows one of the preset's sounds, and none of the
   * preset's sounds outweighs it.
   */
  lemma AppliedPresetLeadsScene(s: Manager.State, p: Preset)
    requires Manager.Inv(s) && Valid(p.sounds) && |p.sounds.keys| > 0
    ensures var (now, pend) := Manager.ApplyPreset(s, p);
      var later := Manager.PresetTimerFired(now.state, pend).state;
      var d := Scene.DominantScene(later.playing, later.volumes);
      && d.Some?
      && d.value in p.sounds.values
      && forall k :: k in p.sounds.values ==> Scene.Weight(p.sounds, k) <= Scene.Weight(p.sounds, d.value)
  {
    AppliedPresetPlays(s, p);
    var (now, pend) := Manager.ApplyPreset(s, p);
    var later := Manager.PresetTimerFired(now.state, pend).state;
    var k0 := p.sounds.keys[0];
    assert k0 in PresetMatch.OnSet(later.playing);
    var d := Scene.DominantScene(later.playing, later.volumes);
    assert d.value in PresetMatch.OnSet(later.playing);
  }

  /**
   * After `stopAll` the page is at rest: neutral scene, no active preset, a
   * disabled button offering to pause. The hook exposes `stopAll` but no
   * control of the page calls it; `applyPreset` runs the same stop first.
   */
  lemma StoppedViewIsAtRest(s: Manager.State)
    requires Manager.Inv(s)
    ensures var v := ViewOf(Manager.StopAll(s).state);
      && v.background == Scene.NeutralGradient
      && v.activePreset == None
      && v.pauseButton.disabled
      && v.pauseButton.caption == "Pause"
  {
    var r := Manager.StopAll(s).state;
    assert forall k :: !IsOn(r.playing, k);
    PresetMatch.NothingPlayingNoPreset(r.playing);
  }
}
