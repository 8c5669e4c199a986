/**
 * String-keyed records with insertion order: the model of the plain JavaScript
 * objects the application keeps its state in (`playing`, `volumes`,
 * `useFallback`, a preset's `sounds`). Key order matters to the application:
 * for keys that do not look like array indices, which covers every key the
 * application writes, `Object.keys` / `Object.entries` enumerate in insertion
 * order, and a spread update `{ ...prev, [id]: v }` keeps an existing key
 * where it was and appends a new one at the end. JavaScript lists
 * index-like keys ("0", "42") first, in ascending order; a record here
 * always keeps insertion order.
 */
module Records {
  import opened Wrappers

  datatype Record<V> = Record(keys: seq<string>, values: map<string, V>)

  /** The keys are distinct and are exactly the keys of the value map. */
  ghost predicate Valid<V>(r: Record<V>) {
    && (forall i, j :: 0 <= i < j < |r.keys| ==> r.keys[i] != r.keys[j])
    && (forall k :: k in r.values <==> k in r.keys)
  }

  function Empty<V>(): (r: Record<V>)
    ensures Valid(r)
    ensures |r.keys| == 0 && forall k :: Get(r, k) == None
  {
    Record([], map[])
  }

  /** `r[k]`, with `None` for an absent key. */
  function Get<V>(r: Record<V>, k: string): Option<V> {
    if k in r.values then Some(r.values[k]) else None
  }

  /** JavaScript truthiness of `r[k]` for a record of booleans. */
  predicate IsOn(r: Record<bool>, k: string) {
    k in r.values && r.values[k]
  }

  /**
   * `{ ...r, [k]: v }`: `k` now maps to `v`, every other key keeps its value,
   * the old keys keep their positions and a new key goes to the end.
   */
  function Put<V>(r: Record<V>, k: string, v: V): (s: Record<V>)
    requires Valid(r)
    ensures Valid(s)
    ensures Get(s, k) == Some(v)
    ensures forall j :: j != k ==> Get(s, j) == Get(r, j)
    ensures forall j :: j in s.values <==> j in r.values || j == k
    ensures |r.keys| <= |s.keys| && s.keys[..|r.keys|] == r.keys
    ensures k in r.keys ==> s.keys == r.keys
    ensures k !in r.keys ==> s.keys == r.keys + [k]
  {
    if k in r.values then Record(r.keys, r.values[k := v])
    else Record(r.keys + [k], r.values[k := v])
  }

  /**
   * Puts the pairs `(ks[i], vs[ks[i]])` into `r` one after the other, in the
   * order of `ks`: the model of `{ ...r, ...other }` and of a `forEach` over
   * `Object.entries(other)` that updates `r` key by key.
   */
  function PutAll<V>(r: Record<V>, ks: seq<string>, vs: map<string, V>): (s: Record<V>)
    requires Valid(r)
    requires forall i :: 0 <= i < |ks| ==> ks[i] in vs
    ensures Valid(s)
    ensures forall k :: Get(s, k) == (if k in ks then Some(vs[k]) else Get(r, k))
    ensures |r.keys| <= |s.keys| && s.keys[..|r.keys|] == r.keys
    decreases |ks|
  {
    if |ks| == 0 then r
    else
      var s := PutAll(Put(r, ks[0], vs[ks[0]]), ks[1..], vs);
      assert forall k :: k in ks <==> k == ks[0] || k in ks[1..];
      s
  }

  /** `{ ...a, ...b }`. */
  function Spread<V>(a: Record<V>, b: Record<V>): (s: Record<V>)
    requires Valid(a) && Valid(b)
    ensures Valid(s)
    ensures forall k :: k in b.values ==> Get(s, k) == Get(b, k)
    ensures forall k :: k !in b.values ==> Get(s, k) == Get(a, k)
    ensures |a.keys| <= |s.keys| && s.keys[..|a.keys|] == a.keys
  {
    PutAll(a, b.keys, b.values)
  }

  /** The keys whose value is `true`, in key order: `Object.keys(r).filter(k => r[k])`. */
  function OnKeys(r: Record<bool>): (ks: seq<string>)
    requires Valid(r)
    ensures forall k :: k in ks <==> IsOn(r, k)
    ensures forall i, j :: 0 <= i < j < |ks| ==> ks[i] != ks[j]
  {
    OnKeysOf(r, r.keys)
  }

  /** `OnKeys` restricted to the key sequence `ks`, a part of `r.keys`. */
  function OnKeysOf(r: Record<bool>, ks: seq<string>): (out: seq<string>)
    requires forall i, j :: 0 <= i < j < |ks| ==> ks[i] != ks[j]
    requires forall i :: 0 <= i < |ks| ==> ks[i] in r.values
    ensures forall k :: k in out <==> k in ks && IsOn(r, k)
    ensures forall i, j :: 0 <= i < j < |out| ==> out[i] != out[j]
  {
    if |ks| == 0 then []
    else
      var rest := OnKeysOf(r, ks[1..]);
      assert ks[0] !in ks[1..];
      if r.values[ks[0]] then [ks[0]] + rest else rest
  }
}
