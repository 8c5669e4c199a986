/**
 * The eight synthesis recipes of src/hooks/useWebAudioFallback.js and the
 * `soundCreators` table that maps a sound id to its recipe. Each recipe is the
 * graph the source wires up, listed sink-first (master gain, then each layer
 * from its gain back to its source, then the modulators), together with the
 * recipe's `baseVolume`.
 */
module Recipes {
  import opened Wrappers
  import opened Noise
  import opened Graphs
  import Catalog

  datatype Recipe = Recipe(graph: Graph, baseVolume: real)

  /** The keys of `soundCreators`, in declaration order. */
  const RecipeIds: seq<string> := ["rain", "thunder", "fire", "forest", "waves", "cafe", "wind", "night"]

  /** `soundCreators[id]`: the recipe for one of the eight ids, nothing for any other id. */
  function RecipeFor(id: string): (r: Option<Recipe>)
    ensures r.Some? <==> id in RecipeIds
    ensures r.Some? ==> 0.0 < r.value.baseVolume <= 1.0
  {
    if id == "rain" then Some(Recipe(Rain(), 0.5))
    else if id == "thunder" then Some(Recipe(Thunder(), 0.45))
    else if id == "fire" then Some(Recipe(Fire(), 0.5))
    else if id == "forest" then Some(Recipe(Forest(), 0.4))
    else if id == "waves" then Some(Recipe(Waves(), 0.5))
    else if id == "cafe" then Some(Recipe(Cafe(), 0.4))
    else if id == "wind" then Some(Recipe(Wind(), 0.45))
    else if id == "night" then Some(Recipe(Night(), 0.35))
    else None
  }

  /** Every recipe's graph satisfies the graph invariant, and its master gain starts silent. */
  lemma RecipeGraphs(id: string)
    requires id in RecipeIds
    ensures Ok(RecipeFor(id).value.graph)
    ensures RecipeFor(id).value.graph.units[0].unit == GainStage(0.0)
  {
  }

  /**
   * The recipe ids are the application's sound ids, in the same order, so a
   * fallback can be built for every listed sound.
   */
  lemma RecipesCoverSounds()
    ensures RecipeIds == Catalog.SoundIds
  {
  }

  /** Brown noise, low-passed at 1000 Hz (gain 0.4), plus white noise band-limited to 4-8 kHz (gain 0.15) whose gain an LFO sways. */
  function Rain(): (g: Graph)
    ensures Ok(g)
  {
    var g := Start();
    var baseGain := |g.units|;        var g := Add(g, GainStage(0.4), Into(0));
    var baseLowpass := |g.units|;     var g := Add(g, Biquad(Lowpass, 1000.0, 0.5), Into(baseGain));
    var g := Add(g, NoiseSource(Brown), Into(baseLowpass));
    var dropletGain := |g.units|;     var g := Add(g, GainStage(0.15), Into(0));
    var dropletLowpass := |g.units|;  var g := Add(g, Biquad(Lowpass, 8000.0, DefaultQ), Into(dropletGain));
    var dropletHighpass := |g.units|; var g := Add(g, Biquad(Highpass, 4000.0, DefaultQ), Into(dropletLowpass));
    var g := Add(g, NoiseSource(White), Into(dropletHighpass));
    var dropletLfoGain := |g.units|;  var g := Add(g, GainStage(0.05), Modulates(dropletGain, GainParam));
    Add(g, Oscillator(Sine, 0.3), Into(dropletLfoGain))
  }

  /** Brown noise low-passed at 150 Hz (gain 0.6) whose gain two slow sine LFOs roll. */
  function Thunder(): (g: Graph)
    ensures Ok(g)
  {
    var g := Start();
    var rumbleGain := |g.units|;      var g := Add(g, GainStage(0.6), Into(0));
    var rumbleLowpass := |g.units|;   var g := Add(g, Biquad(Lowpass, 150.0, 1.0), Into(rumbleGain));
    var g := Add(g, NoiseSource(Brown), Into(rumbleLowpass));
    var lfoGain := |g.units|;         var g := Add(g, GainStage(0.3), Modulates(rumbleGain, GainParam));
    var g := Add(g, Oscillator(Sine, 0.08), Into(lfoGain));
    var lfo2Gain := |g.units|;        var g := Add(g, GainStage(0.2), Modulates(rumbleGain, GainParam));
    Add(g, Oscillator(Sine, 0.03), Into(lfo2Gain))
  }

  /** White noise band-passed at 2000 Hz (gain 0.2) popped by sawtooth and square LFOs, plus a 300 Hz brown body (gain 0.25). */
  function Fire(): (g: Graph)
    ensures Ok(g)
  {
    var g := Start();
    var crackleGain := |g.units|;     var g := Add(g, GainStage(0.2), Into(0));
    var bandpass := |g.units|;        var g := Add(g, Biquad(Bandpass, 2000.0, 0.8), Into(crackleGain));
    var g := Add(g, NoiseSource(White), Into(bandpass));
    var rumbleGain := |g.units|;      var g := Add(g, GainStage(0.25), Into(0));
    var rumbleLowpass := |g.units|;   var g := Add(g, Biquad(Lowpass, 300.0, DefaultQ), Into(rumbleGain));
    var g := Add(g, NoiseSource(Brown), Into(rumbleLowpass));
    var mod1Gain := |g.units|;        var g := Add(g, GainStage(0.15), Modulates(crackleGain, GainParam));
    var g := Add(g, Oscillator(Sawtooth, 3.0), Into(mod1Gain));
    var mod2Gain := |g.units|;        var g := Add(g, GainStage(0.08), Modulates(crackleGain, GainParam));
    Add(g, Oscillator(Square, 7.0), Into(mod2Gain))
  }

  /**
   * Pink noise band-passed at 3000 Hz (gain 0.15) swayed by a slow LFO, plus two
   * sine "birds" (2800 and 3200 Hz) into one gain (0.03), their frequencies
   * wobbled by a 5 Hz LFO and their gain gated by a 0.5 Hz square LFO.
   */
  function Forest(): (g: Graph)
    ensures Ok(g)
  {
    var g := Start();
    var rustleGain := |g.units|;      var g := Add(g, GainStage(0.15), Into(0));
    var rustleFilter := |g.units|;    var g := Add(g, Biquad(Bandpass, 3000.0, 0.3), Into(rustleGain));
    var g := Add(g, NoiseSource(Pink), Into(rustleFilter));
    var windLfoGain := |g.units|;     var g := Add(g, GainStage(0.08), Modulates(rustleGain, GainParam));
    var g := Add(g, Oscillator(Sine, 0.15), Into(windLfoGain));
    var birdGain := |g.units|;        var g := Add(g, GainStage(0.03), Into(0));
    var birdOsc1 := |g.units|;        var g := Add(g, Oscillator(Sine, 2800.0), Into(birdGain));
    var birdOsc2 := |g.units|;        var g := Add(g, Oscillator(Sine, 3200.0), Into(birdGain));
    var birdModGain := |g.units|;     var g := Add(g, GainStage(200.0), Modulates(birdOsc1, FrequencyParam));
    var g := Also(g, birdModGain, Modulates(birdOsc2, FrequencyParam));
    var g := Add(g, Oscillator(Sine, 5.0), Into(birdModGain));
    var chirpModGain := |g.units|;    var g := Add(g, GainStage(0.03), Modulates(birdGain, GainParam));
    Add(g, Oscillator(Square, 0.5), Into(chirpModGain))
  }

  /**
   * Pink noise low-passed at 600 Hz (gain 0.3) swelled by 0.08 Hz and 0.15 Hz
   * sine LFOs, plus white foam high-passed at 3000 Hz (gain 0.05) whose gain
   * follows the same 0.08 Hz swell LFO.
   */
  function Waves(): (g: Graph)
    ensures Ok(g)
  {
    var g := Start();
    var waveGain := |g.units|;        var g := Add(g, GainStage(0.3), Into(0));
    var waveLowpass := |g.units|;     var g := Add(g, Biquad(Lowpass, 600.0, 0.7), Into(waveGain));
    var g := Add(g, NoiseSource(Pink), Into(waveLowpass));
    var foamGain := |g.units|;        var g := Add(g, GainStage(0.05), Into(0));
    var foamHighpass := |g.units|;    var g := Add(g, Biquad(Highpass, 3000.0, DefaultQ), Into(foamGain));
    var g := Add(g, NoiseSource(White), Into(foamHighpass));
    var swellGain := |g.units|;       var g := Add(g, GainStage(0.25), Modulates(waveGain, GainParam));
    var foamMod := |g.units|;         var g := Add(g, GainStage(0.05), Modulates(foamGain, GainParam));
    var swellLfo := |g.units|;        var g := Add(g, Oscillator(Sine, 0.08), Into(swellGain));
    var g := Also(g, swellLfo, Into(foamMod));
    var rhythmGain := |g.units|;      var g := Add(g, GainStage(0.1), Modulates(waveGain, GainParam));
    Add(g, Oscillator(Sine, 0.15), Into(rhythmGain))
  }

  /**
   * One pink voice source through three formant band-passes (500/1500/2500 Hz,
   * gains 0.15/0.1/0.05, the first at a 3 Hz speech rate), a second pink voice
   * through 800 Hz (gain 0.1, 2.3 Hz rate), and a 400 Hz brown room tone (0.08).
   */
  function Cafe(): (g: Graph)
    ensures Ok(g)
  {
    var g := Start();
    var voice1Gain := |g.units|;      var g := Add(g, GainStage(0.15), Into(0));
    var voice2Gain := |g.units|;      var g := Add(g, GainStage(0.1), Into(0));
    var voice3Gain := |g.units|;      var g := Add(g, GainStage(0.05), Into(0));
    var formant1 := |g.units|;        var g := Add(g, Biquad(Bandpass, 500.0, 2.0), Into(voice1Gain));
    var formant2 := |g.units|;        var g := Add(g, Biquad(Bandpass, 1500.0, 2.0), Into(voice2Gain));
    var formant3 := |g.units|;        var g := Add(g, Biquad(Bandpass, 2500.0, 2.0), Into(voice3Gain));
    var voiceNoise := |g.units|;      var g := Add(g, NoiseSource(Pink), Into(formant1));
    var g := Also(g, voiceNoise, Into(formant2));
    var g := Also(g, voiceNoise, Into(formant3));
    var speechModGain := |g.units|;   var g := Add(g, GainStage(0.08), Modulates(voice1Gain, GainParam));
    var g := Add(g, Oscillator(Sine, 3.0), Into(speechModGain));
    var voice4Gain := |g.units|;      var g := Add(g, GainStage(0.1), Into(0));
    var formant4 := |g.units|;        var g := Add(g, Biquad(Bandpass, 800.0, 1.5), Into(voice4Gain));
    var g := Add(g, NoiseSource(Pink), Into(formant4));
    var speechMod2Gain := |g.units|;  var g := Add(g, GainStage(0.06), Modulates(voice4Gain, GainParam));
    var g := Add(g, Oscillator(Sine, 2.3), Into(speechMod2Gain));
    var roomGain := |g.units|;        var g := Add(g, GainStage(0.08), Into(0));
    var roomFilter := |g.units|;      var g := Add(g, Biquad(Lowpass, 400.0, DefaultQ), Into(roomGain));
    Add(g, NoiseSource(Brown), Into(roomFilter))
  }

  /**
   * Pink noise band-passed at 400 Hz (gain 0.35) with a howling gain LFO and a
   * filter-frequency LFO, plus a white whistle band-passed at 2000 Hz, Q 3
   * (gain 0.04), whose frequency its own LFO sweeps.
   */
  function Wind(): (g: Graph)
    ensures Ok(g)
  {
    var g := Start();
    var windGain := |g.units|;        var g := Add(g, GainStage(0.35), Into(0));
    var windFilter := |g.units|;      var g := Add(g, Biquad(Bandpass, 400.0, 0.5), Into(windGain));
    var g := Add(g, NoiseSource(Pink), Into(windFilter));
    var howlGain := |g.units|;        var g := Add(g, GainStage(0.2), Modulates(windGain, GainParam));
    var g := Add(g, Oscillator(Sine, 0.05), Into(howlGain));
    var filterLfoGain := |g.units|;   var g := Add(g, GainStage(200.0), Modulates(windFilter, FrequencyParam));
    var g := Add(g, Oscillator(Sine, 0.07), Into(filterLfoGain));
    var whistleGain := |g.units|;     var g := Add(g, GainStage(0.04), Into(0));
    var whistleFilter := |g.units|;   var g := Add(g, Biquad(Bandpass, 2000.0, 3.0), Into(whistleGain));
    var g := Add(g, NoiseSource(White), Into(whistleFilter));
    var whistleLfoGain := |g.units|;  var g := Add(g, GainStage(500.0), Modulates(whistleFilter, FrequencyParam));
    Add(g, Oscillator(Sine, 0.1), Into(whistleLfoGain))
  }

  /** `createCricket(freq, rate)`: a sine at `freq` into a silent gain that a square LFO at `rate` opens (depth 0.02). */
  function Cricket(g: Graph, freq: real, rate: real): (r: Graph)
    requires Ok(g)
    ensures Ok(r)
    ensures |r.units| == |g.units| + 4 && r.units[..|g.units|] == g.units
  {
    var gain := |g.units|;            var g1 := Add(g, GainStage(0.0), Into(0));
    var g2 := Add(g1, Oscillator(Sine, freq), Into(gain));
    var chirpGain := |g2.units|;      var g3 := Add(g2, GainStage(0.02), Modulates(gain, GainParam));
    Add(g3, Oscillator(Square, rate), Into(chirpGain))
  }

  /** Three crickets (4200/12, 4800/10, 3800/14) and brown night air low-passed at 200 Hz (gain 0.1) under a 0.03 Hz LFO. */
  function Night(): (g: Graph)
    ensures Ok(g)
  {
    var g := Start();
    var g := Cricket(g, 4200.0, 12.0);
    var g := Cricket(g, 4800.0, 10.0);
    var g := Cricket(g, 3800.0, 14.0);
    var ambientGain := |g.units|;     var g := Add(g, GainStage(0.1), Into(0));
    var ambientFilter := |g.units|;   var g := Add(g, Biquad(Lowpass, 200.0, DefaultQ), Into(ambientGain));
    var g := Add(g, NoiseSource(Brown), Into(ambientFilter));
    var ambientLfoGain := |g.units|;  var g := Add(g, GainStage(0.05), Modulates(ambientGain, GainParam));
    Add(g, Oscillator(Sine, 0.03), Into(ambientLfoGain))
  }
}
