/**
 * Scene selection in src/components/VisualScene.jsx: which playing sound
 * dominates the backdrop, and the backdrop gradient for it.
 */
module Scene {
  import opened Wrappers
  import opened Records
  import opened Catalog

  /** `volumes[id] || 50`: a missing volume and a volume of 0 both weigh 50. */
  function Weight(volumes: Record<int>, id: string): (w: int)
    ensures Get(volumes, id) == None ==> w == 50
    ensures Get(volumes, id) == Some(0) ==> w == 50
    ensures Get(volumes, id).Some? && Get(volumes, id).value != 0 ==> w == Get(volumes, id).value
  {
    match Get(volumes, id)
    case Some(v) => if v == 0 then 50 else v
    case None => 50
  }

  /**
   * After the scan has seen `ks[..i]`, `ks[b]` is the playing key that the
   * reduction keeps: a heaviest one, and the first of the heaviest.
   */
  ghost predicate Leads(playing: Record<bool>, volumes: Record<int>, ks: seq<string>, b: nat, i: nat) {
    && b < i <= |ks|
    && IsOn(playing, ks[b])
    && (forall j :: 0 <= j < i && IsOn(playing, ks[j]) ==> Weight(volumes, ks[j]) <= Weight(volumes, ks[b]))
    && (forall j :: 0 <= j < b && IsOn(playing, ks[j]) ==> Weight(volumes, ks[j]) < Weight(volumes, ks[b]))
  }

  /**
   * `activeScenes.reduce((max, current) => current.volume > max.volume ? current : max)`
   * over the playing keys of `ks`, from position `i` on, carrying the index
   * of the current maximum (none before the first playing key).
   */
  function Scan(playing: Record<bool>, volumes: Record<int>, ks: seq<string>, best: Option<nat>, i: nat): (r: Option<nat>)
    requires i <= |ks|
    requires best.None? ==> forall j :: 0 <= j < i ==> !IsOn(playing, ks[j])
    requires best.Some? ==> Leads(playing, volumes, ks, best.value, i)
    ensures r.None? <==> forall j :: 0 <= j < |ks| ==> !IsOn(playing, ks[j])
    ensures r.Some? ==> Leads(playing, volumes, ks, r.value, |ks|)
    decreases |ks| - i
  {
    if i == |ks| then best
    else if !IsOn(playing, ks[i]) then Scan(playing, volumes, ks, best, i + 1)
    else match best
      case None => Scan(playing, volumes, ks, Some(i), i + 1)
      case Some(b) =>
        Scan(playing, volumes, ks, if Weight(volumes, ks[i]) > Weight(volumes, ks[b]) then Some(i) else best, i + 1)
  }

  /**
   * `getDominantScene`: nothing when no sound plays; otherwise a playing
   * sound of greatest weight, and among those the first in key order.
   */
  function DominantScene(playing: Record<bool>, volumes: Record<int>): (r: Option<string>)
    requires Valid(playing)
    ensures r.None? <==> forall k :: !IsOn(playing, k)
    ensures r.Some? ==> IsOn(playing, r.value)
    ensures r.Some? ==> forall k :: IsOn(playing, k) ==> Weight(volumes, k) <= Weight(volumes, r.value)
    ensures r.Some? ==> forall i, j :: 0 <= j < i < |playing.keys| && playing.keys[i] == r.value && IsOn(playing, playing.keys[j]) ==>
      Weight(volumes, playing.keys[j]) < Weight(volumes, r.value)
  {
    var ks := playing.keys;
    match Scan(playing, volumes, ks, None, 0)
    case None =>
      assert forall k :: IsOn(playing, k) ==> k in ks;
      None
    case Some(b) =>
      assert forall k :: IsOn(playing, k) ==> exists j :: 0 <= j < |ks| && ks[j] == k;
      Some(ks[b])
  }

  /**
   * The dominant scene is the only playing key that is heaviest and has no
   * equally heavy playing key before it.
   */
  lemma DominantIsFirstHeaviest(playing: Record<bool>, volumes: Record<int>, i: nat)
    requires Valid(playing) && i < |playing.keys|
    requires IsOn(playing, playing.keys[i])
    requires forall k :: IsOn(playing, k) ==> Weight(volumes, k) <= Weight(volumes, playing.keys[i])
    requires forall j :: 0 <= j < i && IsOn(playing, playing.keys[j]) ==> Weight(volumes, playing.keys[j]) < Weight(volumes, playing.keys[i])
    ensures DominantScene(playing, volumes) == Some(playing.keys[i])
  {
    var ks := playing.keys;
    var r := DominantScene(playing, volumes);
    assert r.Some?;
    var d :| 0 <= d < |ks| && ks[d] == r.value;
    var wd, wi := Weight(volumes, ks[d]), Weight(volumes, ks[i]);
    assert d < i ==> wd < wi;
    assert i < d ==> wi < wd;
  }

  /** The backdrop when no scene dominates, or when the dominant id has no entry. */
  const NeutralGradient := "linear-gradient(135deg, #0f0f0f 0%, #1a1a1a 100%)"

  /** `getBaseGradient`'s table. */
  const Gradients: map<string, string> := map[
    "rain" := "linear-gradient(135deg, #0f1520 0%, #1a2535 50%, #0f1520 100%)",
    "thunder" := "linear-gradient(135deg, #15121f 0%, #1f1a2f 50%, #15121f 100%)",
    "fire" := "linear-gradient(135deg, #1a1510 0%, #251a10 50%, #1a1510 100%)",
    "forest" := "linear-gradient(135deg, #101a15 0%, #152515 50%, #101a15 100%)",
    "waves" := "linear-gradient(135deg, #101520 0%, #152530 50%, #101520 100%)",
    "cafe" := "linear-gradient(135deg, #1a1512 0%, #251a12 50%, #1a1512 100%)",
    "wind" := "linear-gradient(135deg, #121518 0%, #1a1f25 50%, #121518 100%)",
    "night" := "linear-gradient(135deg, #0f0f1a 0%, #15152a 50%, #0f0f1a 100%)"
  ]

  /** `getBaseGradient(id)`: the table entry, or the neutral gradient. */
  function BaseGradient(id: string): string {
    if id in Gradients then Gradients[id] else NeutralGradient
  }

  /** Every sound has a gradient, none of them neutral; any other id gets the neutral one. */
  lemma GradientTable()
    ensures Gradients.Keys == set k | k in SoundIds
    ensures forall id :: BaseGradient(id) == NeutralGradient <==> id !in SoundIds
  {
    var ids := set k | k in SoundIds;
    assert Gradients.Keys == ids by {
      assert forall k :: k in SoundIds <==> k in Gradients;
    }
  }

  /** No two sounds share a gradient. */
  lemma GradientsDistinct()
    ensures forall a, b :: a in SoundIds && b in SoundIds && a != b ==> BaseGradient(a) != BaseGradient(b)
  {
  }

  /** The backdrop of the scene: the dominant sound's gradient, or the neutral one. */
  function Background(playing: Record<bool>, volumes: Record<int>): (g: string)
    requires Valid(playing)
  {
    match DominantScene(playing, volumes)
    case None => NeutralGradient
    case Some(id) => BaseGradient(id)
  }

  /** The backdrop is neutral exactly when nothing plays or the dominant id is not a sound. */
  lemma BackgroundNeutral(playing: Record<bool>, volumes: Record<int>)
    requires Valid(playing)
    ensures Background(playing, volumes) == NeutralGradient <==>
      (forall k :: !IsOn(playing, k)) || DominantScene(playing, volumes).value !in SoundIds
    ensures (forall k :: IsOn(playing, k) ==> k in SoundIds) ==>
      (Background(playing, volumes) == NeutralGradient <==> forall k :: !IsOn(playing, k))
  {
    GradientTable();
  }
}
