/**
 * `getActivePreset` in src/components/Presets.jsx: the preset whose button
 * shows as active for the current `playing` record.
 */
module PresetMatch {
  import opened Wrappers
  import opened Records
  import opened Catalog

  /** The ids switched on in a record of booleans. */
  ghost function OnSet(playing: Record<bool>): set<string> {
    set k | k in playing.values && playing.values[k]
  }

  /**
   * One iteration of `getActivePreset`'s loop: the preset has as many sounds
   * as are playing, and every one of them is playing.
   */
  predicate Matches(p: Preset, playing: Record<bool>)
    requires Valid(playing)
  {
    && |p.sounds.keys| == |OnKeys(playing)|
    && forall i :: 0 <= i < |p.sounds.keys| ==> IsOn(playing, p.sounds.keys[i])
  }

  /** A sequence without repeats has as many elements as its set. */
  lemma {:induction false} DistinctCard(ks: seq<string>)
    requires Distinct(ks)
    ensures |set k | k in ks| == |ks|
    decreases |ks|
  {
    if |ks| > 0 {
      var rest := ks[1..];
      assert Distinct(rest) by {
        forall i, j | 0 <= i < j < |rest| ensures rest[i] != rest[j] {
          assert rest[i] == ks[i + 1] && rest[j] == ks[j + 1];
        }
      }
      DistinctCard(rest);
      assert ks[0] !in rest by {
        forall i | 0 <= i < |rest| ensures rest[i] != ks[0] {
          assert rest[i] == ks[i + 1];
        }
      }
      assert (set k | k in ks) == (set k | k in rest) + {ks[0]} by {
        assert ks == [ks[0]] + rest;
      }
    }
  }

  /** A subset as large as its superset is the whole superset. */
  lemma SubsetSameSize(a: set<string>, b: set<string>)
    requires a <= b && |a| == |b|
    ensures a == b
  {
    assert b == a + (b - a);
    assert |b - a| == 0;
  }

  /** The sounds of a preset, and the playing sounds, as sets of the sequences that list them. */
  lemma KeySets(p: Preset, playing: Record<bool>)
    requires Valid(playing) && Valid(p.sounds)
    ensures (set k | k in p.sounds.keys) == p.sounds.values.Keys
    ensures (set k | k in OnKeys(playing)) == OnSet(playing)
    ensures |p.sounds.values.Keys| == |p.sounds.keys|
    ensures |OnSet(playing)| == |OnKeys(playing)|
  {
    var a, b := set k | k in p.sounds.keys, set k | k in OnKeys(playing);
    assert a == p.sounds.values.Keys by {
      assert forall k :: k in a <==> k in p.sounds.values;
    }
    assert b == OnSet(playing) by {
      assert forall k :: k in b <==> IsOn(playing, k);
    }
    DistinctCard(p.sounds.keys);
    DistinctCard(OnKeys(playing));
  }

  /** A preset that passes the loop's test has exactly the playing sounds. */
  lemma MatchedSetsAgree(p: Preset, playing: Record<bool>)
    requires Valid(playing) && Valid(p.sounds)
    requires Matches(p, playing)
    ensures p.sounds.values.Keys == OnSet(playing)
  {
    var ks := p.sounds.keys;
    var a, b := p.sounds.values.Keys, OnSet(playing);
    KeySets(p, playing);
    assert a <= b by {
      forall k | k in a ensures k in b {
        var i :| 0 <= i < |ks| && ks[i] == k;
        assert IsOn(playing, ks[i]);
      }
    }
    SubsetSameSize(a, b);
  }

  /** The loop's test holds exactly when the preset's sounds are the playing sounds. */
  lemma MatchesMeans(p: Preset, playing: Record<bool>)
    requires Valid(playing) && Valid(p.sounds)
    ensures Matches(p, playing) <==> p.sounds.values.Keys == OnSet(playing)
  {
    var ks := p.sounds.keys;
    KeySets(p, playing);
    if Matches(p, playing) {
      MatchedSetsAgree(p, playing);
    } else {
      assert forall i :: 0 <= i < |ks| ==> ks[i] in p.sounds.values.Keys;
    }
  }

  /**
   * The loop from the `i`-th preset on: the index of the first matching
   * preset, or none.
   */
  function FirstMatch(ps: seq<Preset>, playing: Record<bool>, i: nat): (r: Option<nat>)
    requires Valid(playing) && i <= |ps|
    ensures r.Some? ==> i <= r.value < |ps| && Matches(ps[r.value], playing)
    ensures r.Some? ==> forall j :: i <= j < r.value ==> !Matches(ps[j], playing)
    ensures r.None? ==> forall j :: i <= j < |ps| ==> !Matches(ps[j], playing)
    decreases |ps| - i
  {
    if i == |ps| then None
    else if Matches(ps[i], playing) then Some(i)
    else FirstMatch(ps, playing, i + 1)
  }

  /**
   * `getActivePreset`: the id of a preset whose sounds are exactly the
   * playing sounds, or none when no preset's are. Volumes play no part.
   */
  function ActivePreset(playing: Record<bool>): (r: Option<string>)
    requires Valid(playing)
    ensures r.Some? ==> exists i :: 0 <= i < |Presets| && Presets[i].id == r.value && Presets[i].sounds.values.Keys == OnSet(playing)
    ensures r.None? <==> forall i :: 0 <= i < |Presets| ==> Presets[i].sounds.values.Keys != OnSet(playing)
  {
    PresetTable();
    assert forall i :: 0 <= i < |Presets| ==> (Matches(Presets[i], playing) <==> Presets[i].sounds.values.Keys == OnSet(playing)) by {
      forall i | 0 <= i < |Presets| ensures Matches(Presets[i], playing) <==> Presets[i].sounds.values.Keys == OnSet(playing) {
        MatchesMeans(Presets[i], playing);
      }
    }
    match FirstMatch(Presets, playing, 0)
    case None => None
    case Some(i) => Some(Presets[i].id)
  }

  /** When the playing sounds are exactly a preset's, that preset is the active one. */
  lemma ActiveIsThatPreset(playing: Record<bool>, i: nat)
    requires Valid(playing) && i < |Presets|
    requires Presets[i].sounds.values.Keys == OnSet(playing)
    ensures ActivePreset(playing) == Some(Presets[i].id)
  {
    PresetTable();
    PresetSoundSetsDistinct();
    var r := ActivePreset(playing);
    var j :| 0 <= j < |Presets| && Presets[j].id == r.value && Presets[j].sounds.values.Keys == OnSet(playing);
    var si, sj := Presets[i].sounds.values.Keys, Presets[j].sounds.values.Keys;
    assert i < j ==> si != sj;
    assert j < i ==> sj != si;
  }

  /** With nothing playing no preset is active: every preset has a sound. */
  lemma NothingPlayingNoPreset(playing: Record<bool>)
    requires Valid(playing)
    requires forall k :: !IsOn(playing, k)
    ensures ActivePreset(playing) == None
  {
    PresetTable();
    forall i | 0 <= i < |Presets| ensures Presets[i].sounds.values.Keys != OnSet(playing) {
      PresetGood(i);
      var k := Presets[i].sounds.keys[0];
      assert !IsOn(playing, k);
      assert k in Presets[i].sounds.values.Keys && k !in OnSet(playing);
    }
  }
}
