/**
 * Signal graphs of the fallback synthesiser, as abstract units and links.
 *
 * A graph is a sequence of placed units. Unit 0 is the recipe's master gain,
 * whose only link goes to the audio destination. Every other unit links to
 * units with a lower index, either into their audio input or onto one of their
 * parameters (a modulation route). Graphs are built sink-first through `Add`
 * and `Also`, which keep the invariant `Ok`, so every recipe built that way is
 * acyclic and routes everything to the master gain by construction.
 */
module Graphs {
  import opened Noise

  datatype Wave = Sine | Square | Sawtooth
  datatype FilterType = Lowpass | Highpass | Bandpass

  /** Web Audio's value for a biquad's `Q` when the recipe does not set it. */
  const DefaultQ: real := 1.0

  datatype Unit =
    | NoiseSource(kind: NoiseKind)                          // looped buffer source
    | Oscillator(wave: Wave, frequency: real)
    | Biquad(filter: FilterType, frequency: real, q: real)
    | GainStage(level: real)                                // `gain.value` at creation

  datatype Param = GainParam | FrequencyParam

  datatype Link =
    | ToDestination                                         // `connect(audioContext.destination)`
    | Into(dst: nat)                                        // `connect(node)`: audio input
    | Modulates(dst: nat, param: Param)                     // `connect(node.gain)` / `connect(node.frequency)`

  datatype Placed = Placed(unit: Unit, outs: seq<Link>)

  datatype Graph = Graph(units: seq<Placed>)

  /** The master gain: silent, connected to the destination and nothing else. */
  const MasterUnit := Placed(GainStage(0.0), [ToDestination])

  /** What a unit can receive: filters and gains take audio; gains expose `gain`, oscillators and filters `frequency`. */
  predicate Accepts(u: Unit, l: Link) {
    match l
    case ToDestination => false
    case Into(_) => u.Biquad? || u.GainStage?
    case Modulates(_, p) =>
      (p == GainParam && u.GainStage?) || (p == FrequencyParam && (u.Oscillator? || u.Biquad?))
  }

  /** A link out of unit `n > 0`: to a lower unit that accepts it; only gains drive parameters. */
  predicate LinkOk(g: Graph, n: nat, l: Link)
    requires 0 < n < |g.units|
  {
    && !l.ToDestination?
    && l.dst < n
    && Accepts(g.units[l.dst].unit, l)
    && (l.Modulates? ==> g.units[n].unit.GainStage?)
  }

  /** Unit `n`'s first link is an audio link, and so on down to the master gain. */
  ghost predicate Audible(g: Graph, n: nat)
    requires n < |g.units|
    decreases n
  {
    n == 0 ||
    (|g.units[n].outs| > 0 && g.units[n].outs[0].Into? && g.units[n].outs[0].dst < n
     && Audible(g, g.units[n].outs[0].dst))
  }

  /**
   * The graph invariant: a silent master gain at 0 is the only unit feeding
   * the destination; every other unit has at least one link and every link is
   * well formed; noise sources and filters sit on audio chains.
   */
  ghost predicate Ok(g: Graph) {
    && |g.units| >= 1
    && g.units[0] == MasterUnit
    && (forall n :: 0 < n < |g.units| ==> |g.units[n].outs| >= 1)
    && (forall n, l :: 0 < n < |g.units| && l in g.units[n].outs ==> LinkOk(g, n, l))
    && (forall n :: 0 < n < |g.units| && (g.units[n].unit.NoiseSource? || g.units[n].unit.Biquad?) ==> Audible(g, n))
  }

  /** `Audible` depends only on units' first links, so it survives changes that keep them. */
  lemma {:induction false} AudibleFrame(g: Graph, r: Graph, m: nat, n: nat)
    requires m <= |g.units| && m <= |r.units|
    requires forall i :: 0 <= i < m ==> (g.units[i].outs == [] <==> r.units[i].outs == [])
    requires forall i :: 0 <= i < m && g.units[i].outs != [] ==> r.units[i].outs[0] == g.units[i].outs[0]
    requires n < m
    ensures Audible(g, n) <==> Audible(r, n)
    decreases n
  {
    if n > 0 && g.units[n].outs != [] && g.units[n].outs[0].Into? && g.units[n].outs[0].dst < n {
      AudibleFrame(g, r, m, g.units[n].outs[0].dst);
    }
  }

  /** A graph holding only the master gain. */
  function Start(): (g: Graph)
    ensures Ok(g) && |g.units| == 1
  {
    Graph([MasterUnit])
  }

  /** Creates unit `u` and connects it once, to a unit that already exists. */
  function Add(g: Graph, u: Unit, l: Link): (r: Graph)
    requires Ok(g)
    requires !l.ToDestination? && l.dst < |g.units| && Accepts(g.units[l.dst].unit, l)
    requires l.Modulates? ==> u.GainStage?
    requires (u.NoiseSource? || u.Biquad?) ==> l.Into? && Audible(g, l.dst)
    ensures Ok(r)
    ensures r.units == g.units + [Placed(u, [l])]
  {
    var r := Graph(g.units + [Placed(u, [l])]);
    forall n | 0 <= n < |g.units| ensures Audible(g, n) <==> Audible(r, n) {
      AudibleFrame(g, r, |g.units|, n);
    }
    r
  }

  /** Connects the existing unit `n` once more (fan-out), to a unit below it. */
  function Also(g: Graph, n: nat, l: Link): (r: Graph)
    requires Ok(g)
    requires 0 < n < |g.units|
    requires !l.ToDestination? && l.dst < n && Accepts(g.units[l.dst].unit, l)
    requires l.Modulates? ==> g.units[n].unit.GainStage?
    ensures Ok(r)
    ensures |r.units| == |g.units|
    ensures forall m :: 0 <= m < |g.units| ==> r.units[m].unit == g.units[m].unit
    ensures forall m :: 0 <= m < |g.units| ==> (l in r.units[m].outs <==> l in g.units[m].outs || m == n)
    ensures forall m :: 0 <= m < |g.units| && m != n ==> r.units[m] == g.units[m]
    ensures r.units[n].outs == g.units[n].outs + [l]
  {
    var p := g.units[n];
    var r := Graph(g.units[n := Placed(p.unit, p.outs + [l])]);
    forall m | 0 <= m < |g.units| ensures Audible(g, m) <==> Audible(r, m) {
      AudibleFrame(g, r, |g.units|, m);
    }
    r
  }

  /** Unit `a` has a link into unit `b` (its audio input or a parameter). */
  ghost predicate Feeds(g: Graph, a: nat, b: nat) {
    a < |g.units| && exists l :: l in g.units[a].outs && !l.ToDestination? && l.dst == b
  }

  /** `p` is a walk along links. */
  ghost predicate IsPath(g: Graph, p: seq<nat>) {
    && |p| >= 1
    && (forall i :: 0 <= i < |p| ==> p[i] < |g.units|)
    && (forall i :: 0 <= i < |p| - 1 ==> Feeds(g, p[i], p[i + 1]))
  }

  /**
   * The route from unit `n` to the master gain along first links. It exists
   * for every unit; for an audible unit (every noise source and filter) it
   * uses audio links only.
   */
  function RouteToMaster(g: Graph, n: nat): (p: seq<nat>)
    requires Ok(g) && n < |g.units|
    ensures IsPath(g, p)
    ensures p[0] == n && p[|p| - 1] == 0
    ensures Audible(g, n) ==> forall i :: 0 <= i < |p| - 1 ==> g.units[p[i]].outs[0] == Into(p[i + 1])
    decreases n
  {
    if n == 0 then [0]
    else
      var l := g.units[n].outs[0];
      assert LinkOk(g, n, l);
      var rest := RouteToMaster(g, l.dst);
      assert Feeds(g, n, l.dst);
      [n] + rest
  }

  /** Every walk of two or more units ends strictly below where it starts, so no unit lies on a cycle. */
  lemma {:induction false} PathsDescend(g: Graph, p: seq<nat>)
    requires Ok(g) && IsPath(g, p) && |p| >= 2
    ensures p[|p| - 1] < p[0]
    decreases |p|
  {
    assert Feeds(g, p[0], p[1]);
    var l :| l in g.units[p[0]].outs && !l.ToDestination? && l.dst == p[1];
    if p[0] == 0 {
      assert false;
    } else {
      assert LinkOk(g, p[0], l);
      if |p| > 2 {
        PathsDescend(g, p[1..]);
      }
    }
  }

  /** Only the master gain connects to the destination, and the master gain connects nowhere else. */
  lemma OnlyMasterFeedsDestination(g: Graph)
    requires Ok(g)
    ensures forall n, l :: 0 <= n < |g.units| && l in g.units[n].outs ==> (l == ToDestination <==> n == 0)
    ensures g.units[0].outs == [ToDestination]
  {
    forall n, l | 0 <= n < |g.units| && l in g.units[n].outs
      ensures l == ToDestination <==> n == 0
    {
      if n > 0 {
        assert LinkOk(g, n, l);
      }
    }
  }
}
