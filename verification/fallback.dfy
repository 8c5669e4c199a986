/**
 * The fallback synthesiser's instance registry and control handles
 * (`createFallbackSound`, the handle's `play` / `pause` / `setVolume` / `stop`,
 * and `cleanupAllFallbackSounds` in src/hooks/useWebAudioFallback.js).
 *
 * Each `createFallbackSound` call opens a new audio context; contexts are
 * numbered in creation order. A control operation does not render audio: it
 * schedules a linear ramp of the instance's master gain, recorded here as the
 * ramp's target value and its length in seconds.
 */
module Fallback {
  import opened Wrappers
  import opened Recipes
  import Graphs

  /** A registered instance: its context, its graph and its recipe's base volume. */
  datatype Instance = Instance(context: nat, graph: Graphs.Graph, baseVolume: real)

  /** `soundInstances`, plus which contexts have been opened and closed so far. */
  datatype Registry = Registry(instances: map<string, Instance>, closed: set<nat>, nextContext: nat)

  /** The object `createFallbackSound` returns: its closures capture these three values. */
  datatype Handle = Handle(id: string, context: nat, baseVolume: real)

  /** `masterGain.gain.linearRampToValueAtTime(target, currentTime + seconds)`. */
  datatype Ramp = Ramp(target: real, seconds: real)

  const EmptyRegistry := Registry(map[], {}, 0)

  /** Every context the registry mentions has been opened. */
  ghost predicate RegistryOk(reg: Registry) {
    && (forall id :: id in reg.instances ==> reg.instances[id].context < reg.nextContext)
    && (forall c :: c in reg.closed ==> c < reg.nextContext)
  }

  /** Contexts opened and not yet closed. */
  ghost function Live(reg: Registry): set<nat> {
    set c | 0 <= c < reg.nextContext && c !in reg.closed
  }

  /** Every live context belongs to a registered instance: nothing has leaked. */
  ghost predicate Tracked(reg: Registry) {
    forall c :: c in Live(reg) ==> exists id :: id in reg.instances && reg.instances[id].context == c
  }

  /**
   * Registers `recipe` under `id` in a newly opened context, replacing any
   * entry `id` already had; the handle captures the new context.
   */
  function Install(reg: Registry, id: string, recipe: Recipe): (res: (Handle, Registry))
    ensures res.0 == Handle(id, reg.nextContext, recipe.baseVolume)
    ensures res.1.nextContext == reg.nextContext + 1 && res.1.closed == reg.closed
    ensures res.1.instances.Keys == reg.instances.Keys + {id}
    ensures res.1.instances[id] == Instance(reg.nextContext, recipe.graph, recipe.baseVolume)
    ensures forall other :: other in reg.instances && other != id ==> res.1.instances[other] == reg.instances[other]
    ensures RegistryOk(reg) ==> RegistryOk(res.1) && res.0.context !in reg.closed
  {
    var h := Handle(id, reg.nextContext, recipe.baseVolume);
    (h, Registry(reg.instances[id := Instance(h.context, recipe.graph, h.baseVolume)], reg.closed, reg.nextContext + 1))
  }

  /**
   * `createFallbackSound(id)`: `null` and no change for an id without a recipe;
   * otherwise the recipe's graph, whose master gain starts silent, installed
   * under `id` in a fresh context.
   */
  function CreateFallbackSound(reg: Registry, id: string): (res: (Option<Handle>, Registry))
    ensures res.0.None? <==> id !in RecipeIds
    ensures res.0.None? ==> res.1 == reg
    ensures res.0.Some? ==>
      && (res.0.value, res.1) == Install(reg, id, RecipeFor(id).value)
      && 0.0 < res.0.value.baseVolume <= 1.0
  {
    var found := RecipeFor(id);
    if found.None? then (None, reg)
    else
      var (h, reg') := Install(reg, id, found.value);
      (Some(h), reg')
  }

  /** A created instance's graph is its recipe's: well formed, with a silent master gain. */
  lemma CreatedGraphOk(reg: Registry, id: string)
    requires CreateFallbackSound(reg, id).0.Some?
    ensures var reg' := CreateFallbackSound(reg, id).1;
      && id in reg'.instances
      && Graphs.Ok(reg'.instances[id].graph)
      && reg'.instances[id].graph.units[0].unit == Graphs.GainStage(0.0)
  {
    RecipeGraphs(id);
  }

  /** `play`: ramp the master gain up to the recipe's base volume over 0.8 s. */
  function Play(h: Handle): Ramp {
    Ramp(h.baseVolume, 0.8)
  }

  /** `pause`: ramp the master gain down to silence over 0.5 s. */
  function Pause(h: Handle): Ramp {
    Ramp(0.0, 0.5)
  }

  /** `setVolume(volume)`: ramp to `baseVolume * (volume / 100)` over 0.1 s. */
  function SetVolume(h: Handle, volume: real): Ramp {
    Ramp(h.baseVolume * (volume / 100.0), 0.1)
  }

  /**
   * The three ramps agree with one another: a volume in [0, 100] targets a
   * level between silence (the pause target) and the base volume (the play
   * target), reaching them at 0 and 100, and louder volumes target louder levels.
   */
  lemma RampTargets(h: Handle, v: real, w: real)
    requires 0.0 <= h.baseVolume
    requires 0.0 <= v <= w <= 100.0
    ensures Pause(h).target <= SetVolume(h, v).target <= SetVolume(h, w).target <= Play(h).target
    ensures SetVolume(h, 0.0).target == Pause(h).target
    ensures SetVolume(h, 100.0).target == Play(h).target
    ensures Play(h).seconds == 0.8 && Pause(h).seconds == 0.5 && SetVolume(h, v).seconds == 0.1
  {
    assert h.baseVolume * (v / 100.0) <= h.baseVolume * (w / 100.0);
  }

  /** `stop`: close the handle's context and delete the registry entry under its id. */
  function Stop(reg: Registry, h: Handle): (reg': Registry)
    ensures h.id !in reg'.instances
    ensures forall other :: other != h.id ==> (other in reg'.instances <==> other in reg.instances)
    ensures forall other :: other != h.id && other in reg.instances ==> reg'.instances[other] == reg.instances[other]
    ensures reg'.closed == reg.closed + {h.context} && reg'.nextContext == reg.nextContext
  {
    Registry(reg.instances - {h.id}, reg.closed + {h.context}, reg.nextContext)
  }

  /** Stopping twice changes nothing the second time. */
  lemma StopIdempotent(reg: Registry, h: Handle)
    ensures Stop(Stop(reg, h), h) == Stop(reg, h)
  {
  }

  /** The contexts of all registered instances. */
  function RegisteredContexts(reg: Registry): set<nat> {
    set id | id in reg.instances :: reg.instances[id].context
  }

  /**
   * `cleanupAllFallbackSounds`: close the context of every registered instance;
   * the entries themselves stay in the registry.
   */
  function CleanupAll(reg: Registry): (reg': Registry)
    ensures reg'.instances == reg.instances && reg'.nextContext == reg.nextContext
    ensures forall id :: id in reg.instances ==> reg.instances[id].context in reg'.closed
    ensures reg.closed <= reg'.closed
    ensures forall c :: c in reg'.closed && c !in reg.closed ==>
      exists id :: id in reg.instances && reg.instances[id].context == c
  {
    Registry(reg.instances, reg.closed + RegisteredContexts(reg), reg.nextContext)
  }

  /** When nothing has leaked, cleanup leaves no context open. */
  lemma CleanupClosesEverything(reg: Registry)
    requires Tracked(reg)
    ensures Live(CleanupAll(reg)) == {}
  {
    forall c | c in Live(reg) ensures c in RegisteredContexts(reg) {
      var id :| id in reg.instances && reg.instances[id].context == c;
    }
  }

  /** Installing an instance for an id with no live entry keeps everything tracked. */
  lemma InstallKeepsTracked(reg: Registry, id: string, recipe: Recipe)
    requires RegistryOk(reg) && Tracked(reg)
    requires id in reg.instances ==> reg.instances[id].context in reg.closed
    ensures Tracked(Install(reg, id, recipe).1)
  {
    var reg' := Install(reg, id, recipe).1;
    forall c | c in Live(reg')
      ensures exists k :: k in reg'.instances && reg'.instances[k].context == c
    {
      if c == reg.nextContext {
        assert reg'.instances[id].context == c;
      } else {
        assert c in Live(reg);
        var k :| k in reg.instances && reg.instances[k].context == c;
        assert k != id;
        assert reg'.instances[k].context == c;
      }
    }
  }

  /**
   * Installing a second instance for an id whose first instance is still open
   * overwrites the entry without closing the first context: it stays live and
   * no entry refers to it any more, so cleanup will not close it either.
   */
  lemma OverwriteLeaks(reg: Registry, id: string, recipe: Recipe)
    requires RegistryOk(reg)
    requires id in reg.instances && reg.instances[id].context !in reg.closed
    requires forall other :: other in reg.instances && other != id ==> reg.instances[other].context != reg.instances[id].context
    ensures var reg' := Install(reg, id, recipe).1;
      && reg.instances[id].context in Live(reg')
      && !Tracked(reg')
      && reg.instances[id].context in Live(CleanupAll(reg'))
  {
    var c := reg.instances[id].context;
    var reg' := Install(reg, id, recipe).1;
    assert c in Live(reg');
    forall k | k in reg'.instances ensures reg'.instances[k].context != c {
      if k != id {
        assert reg'.instances[k] == reg.instances[k];
      }
    }
    assert c !in RegisteredContexts(reg');
    assert c in Live(CleanupAll(reg'));
  }

  /** Stopping the registered handle of an id keeps everything tracked. */
  lemma StopKeepsTracked(reg: Registry, h: Handle)
    requires Tracked(reg)
    requires h.id in reg.instances && reg.instances[h.id].context == h.context
    ensures Tracked(Stop(reg, h))
  {
    var reg' := Stop(reg, h);
    forall c | c in Live(reg')
      ensures exists k :: k in reg'.instances && reg'.instances[k].context == c
    {
      assert c in Live(reg);
      var k :| k in reg.instances && reg.instances[k].context == c;
      assert k != h.id;
      assert reg'.instances[k].context == c;
    }
  }

  /**
   * `stop` deletes the entry under its id whichever instance that entry holds:
   * stopping a stale handle, after a newer instance replaced its entry, drops
   * the newer instance's entry without closing its context, which stays live
   * and out of cleanup's reach.
   */
  lemma StaleStopLeaks(reg: Registry, h: Handle)
    requires RegistryOk(reg)
    requires h.id in reg.instances && reg.instances[h.id].context != h.context
    requires reg.instances[h.id].context !in reg.closed
    requires forall other :: other in reg.instances && other != h.id ==> reg.instances[other].context != reg.instances[h.id].context
    ensures var reg' := Stop(reg, h);
      && reg.instances[h.id].context in Live(reg')
      && !Tracked(reg')
      && reg.instances[h.id].context in Live(CleanupAll(reg'))
  {
    var c := reg.instances[h.id].context;
    var reg' := Stop(reg, h);
    assert c in Live(reg');
    forall k | k in reg'.instances ensures reg'.instances[k].context != c {
      assert reg'.instances[k] == reg.instances[k];
    }
    assert c !in RegisteredContexts(reg');
    assert c in Live(CleanupAll(reg'));
  }
}
