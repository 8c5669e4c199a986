/**
 * The application's constant tables: the eight sounds, their default volumes
 * (src/data/sounds.js) and the five presets (src/data/presets.js), with the
 * cross-table facts the selectors and the controller rely on.
 */
module Catalog {
  import opened Records

  datatype Category = Weather | Cosy | Nature | Water | Social

  datatype Sound = Sound(id: string, name: string, icon: string, color: string, category: Category)

  const Sounds: seq<Sound> := [
    Sound("rain", "Rain", "\U{1F327}\U{FE0F}", "#7ec8e8", Weather),
    Sound("thunder", "Thunder", "\U{26C8}\U{FE0F}", "#a78bfa", Weather),
    Sound("fire", "Fire", "\U{1F525}", "#e8a87c", Cosy),
    Sound("forest", "Forest", "\U{1F332}", "#85c88a", Nature),
    Sound("waves", "Waves", "\U{1F30A}", "#67d4e8", Water),
    Sound("cafe", "Cafe", "\U{2615}", "#d4a574", Social),
    Sound("wind", "Wind", "\U{1F4A8}", "#94a3b8", Weather),
    Sound("night", "Night", "\U{1F319}", "#a78bfa", Nature)
  ]

  /** `sounds.map(s => s.id)`, in list order. */
  const SoundIds: seq<string> := ["rain", "thunder", "fire", "forest", "waves", "cafe", "wind", "night"]

  const DefaultVolumes: Record<int> := Record(
    SoundIds,
    map["rain" := 70, "thunder" := 50, "fire" := 70, "forest" := 60,
        "waves" := 70, "cafe" := 50, "wind" := 50, "night" := 60])

  datatype Preset = Preset(id: string, name: string, sounds: Record<int>)

  const Presets: seq<Preset> := [
    Preset("rainyCafe", "Rainy Cafe",
      Record(["rain", "cafe", "thunder"], map["rain" := 70, "cafe" := 50, "thunder" := 25])),
    Preset("cosyCabin", "Cosy Cabin",
      Record(["fire", "rain", "wind"], map["fire" := 80, "rain" := 60, "wind" := 30])),
    Preset("beachDay", "Beach Day",
      Record(["waves", "wind", "forest"], map["waves" := 80, "wind" := 40, "forest" := 20])),
    Preset("deepFocus", "Deep Focus",
      Record(["rain", "cafe"], map["rain" := 70, "cafe" := 40])),
    Preset("sleep", "Sleep",
      Record(["rain", "night", "waves"], map["rain" := 50, "night" := 60, "waves" := 30]))
  ]

  /** A volume a slider can show. */
  predicate InRange(v: int) {
    0 <= v <= 100
  }

  ghost predicate Distinct(ks: seq<string>) {
    forall i, j :: 0 <= i < j < |ks| ==> ks[i] != ks[j]
  }

  /** A preset whose sounds are a well-formed, non-empty record of known sounds at slider volumes. */
  ghost predicate GoodPreset(p: Preset) {
    && Valid(p.sounds)
    && |p.sounds.keys| > 0
    && (forall k :: k in p.sounds.values ==> k in SoundIds && InRange(p.sounds.values[k]))
  }

  /** There are eight sounds, `SoundIds` lists their ids in list order, and those ids are distinct. */
  lemma SoundTable()
    ensures |Sounds| == 8 && |SoundIds| == |Sounds|
    ensures forall i :: 0 <= i < |Sounds| ==> Sounds[i].id == SoundIds[i]
    ensures Distinct(SoundIds)
  {
  }

  /** `defaultVolumes` has exactly the sound ids as keys, in list order, each at a slider volume. */
  lemma DefaultVolumesTable()
    ensures Valid(DefaultVolumes)
    ensures DefaultVolumes.keys == SoundIds
    ensures forall k :: k in DefaultVolumes.values <==> k in SoundIds
    ensures forall k :: k in DefaultVolumes.values ==> InRange(DefaultVolumes.values[k])
  {
    SoundTable();
    assert forall k :: k in DefaultVolumes.values <==> k in SoundIds;
  }

  /** Preset `i` is a non-empty record of known sounds at slider volumes. */
  lemma PresetGood(i: nat)
    requires i < |Presets|
    ensures GoodPreset(Presets[i])
  {
    if i == 0 { PresetGood0(); }
    else if i == 1 { PresetGood1(); }
    else if i == 2 { PresetGood2(); }
    else if i == 3 { PresetGood3(); }
    else { PresetGood4(); }
  }

  lemma PresetGood0()
    ensures GoodPreset(Presets[0])
  {
    assert Presets[0].sounds.keys == ["rain", "cafe", "thunder"];
  }

  lemma PresetGood1()
    ensures GoodPreset(Presets[1])
  {
    assert Presets[1].sounds.keys == ["fire", "rain", "wind"];
  }

  lemma PresetGood2()
    ensures GoodPreset(Presets[2])
  {
    assert Presets[2].sounds.keys == ["waves", "wind", "forest"];
  }

  lemma PresetGood3()
    ensures GoodPreset(Presets[3])
  {
    assert Presets[3].sounds.keys == ["rain", "cafe"];
  }

  lemma PresetGood4()
    ensures GoodPreset(Presets[4])
  {
    assert Presets[4].sounds.keys == ["rain", "night", "waves"];
  }

  /** Five presets with distinct ids, each a non-empty record of known sounds at slider volumes. */
  lemma PresetTable()
    ensures |Presets| == 5
    ensures forall i, j :: 0 <= i < j < |Presets| ==> Presets[i].id != Presets[j].id
    ensures forall i :: 0 <= i < |Presets| ==> GoodPreset(Presets[i])
  {
    forall i | 0 <= i < |Presets| ensures GoodPreset(Presets[i]) {
      PresetGood(i);
    }
  }

  /**
   * No two presets name the same set of sounds: every preset but "deepFocus"
   * owns a sound no other preset uses, and "deepFocus" is told apart by those.
   */
  lemma PresetSoundSetsDistinct()
    ensures forall i, j :: 0 <= i < j < |Presets| ==> Presets[i].sounds.values.Keys != Presets[j].sounds.values.Keys
  {
    var owned := ["thunder", "fire", "forest", "", "night"];
    forall i, j | 0 <= i < j < |Presets|
      ensures Presets[i].sounds.values.Keys != Presets[j].sounds.values.Keys
    {
      if i != 3 {
        assert owned[i] in Presets[i].sounds.values && owned[i] !in Presets[j].sounds.values;
      } else {
        assert owned[j] in Presets[j].sounds.values && owned[j] !in Presets[i].sounds.values;
      }
    }
  }
}
